/** The configuration check both services run on their connection settings at import. */
module ServiceConfig {
  import opened PyDict

  const PostgresFields: seq<string> := ["user", "password", "host", "port"]
  const ElasticsearchFields: seq<string> := ["hosts"]

  /** Every listed field is a key of the config. */
  predicate HasFields<V>(config: Entries<V>, fields: seq<string>)
  {
    forall i :: 0 <= i < |fields| ==> HasKey(config, fields[i])
  }

  /** `check_config`: scans the fields in order and answers false at the first one
      that is not a key. */
  method CheckConfig<V>(config: Entries<V>, fields: seq<string>) returns (ok: bool)
    ensures ok <==> HasFields(config, fields)
  {
    for i := 0 to |fields|
      invariant forall j :: 0 <= j < i ==> HasKey(config, fields[j])
    {
      if !HasKey(config, fields[i]) {
        return false;
      }
    }
    return true;
  }

  /** The PostgreSQL check, spelled out key by key. */
  lemma PostgresFieldsPresent<V>(config: Entries<V>)
    ensures HasFields(config, PostgresFields) <==>
      HasKey(config, "user") && HasKey(config, "password") && HasKey(config, "host") && HasKey(config, "port")
  {
    assert PostgresFields[0] == "user" && PostgresFields[1] == "password";
    assert PostgresFields[2] == "host" && PostgresFields[3] == "port";
  }
}
