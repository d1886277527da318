/** The import-time settings of the analyze service: the same assertions as the predict
    service, and a PostgreSQL URL formatted from the four connection keys alone. */
module AnalyzeSettings {
  import opened PyBase
  import opened PyStr
  import opened PyDict
  import opened ServiceConfig
  import opened PredictSettings

  /** `"postgres://{user}:{password}@{host}:{port}".format(**config)`: the first
      placeholder without a key raises KeyError; other keys are not used. */
  function AnalyzeUrl(config: Entries<string>): (r: Result<string, Exception>)
    ensures r.Ok? <==> HasKey(config, "user") && HasKey(config, "password")
                       && HasKey(config, "host") && HasKey(config, "port")
    ensures r.Err? ==> r.error.KeyError? && r.error.key in PostgresFields && !HasKey(config, r.error.key)
    ensures r.Err? ==> forall i, j :: 0 <= j < i < |PostgresFields| && PostgresFields[i] == r.error.key
                                      ==> HasKey(config, PostgresFields[j])
    ensures r.Ok? ==> r.value == BaseUrl(Lookup(config, "user").value, Lookup(config, "password").value,
                                         Lookup(config, "host").value, Lookup(config, "port").value)
  {
    match Lookup(config, "user")
    case None => Err(KeyError("user"))
    case Some(user) =>
      match Lookup(config, "password")
      case None => Err(KeyError("password"))
      case Some(password) =>
        match Lookup(config, "host")
        case None => Err(KeyError("host"))
        case Some(host) =>
          match Lookup(config, "port")
          case None => Err(KeyError("port"))
          case Some(port) => Ok(BaseUrl(user, password, host, port))
  }

  /** services/analyze/utils.py lines 24-29 run at import: the three assertions, then the
      URL; the config is left as it was. */
  function Configure(esIndex: Option<string>, esConfig: Entries<Json>, pgConfig: Entries<string>)
    : (r: Result<string, Exception>)
    ensures r.Ok? <==> && esIndex.Some? && esIndex.value != ""
                       && HasFields(esConfig, ElasticsearchFields) && HasFields(pgConfig, PostgresFields)
    ensures r.Ok? ==> AnalyzeUrl(pgConfig).Ok? && r.value == AnalyzeUrl(pgConfig).value
    ensures r.Err? ==> r.error == AssertionError
  {
    if esIndex.None? || esIndex.value == "" then Err(AssertionError)
    else if !HasFields(esConfig, ElasticsearchFields) then Err(AssertionError)
    else if !HasFields(pgConfig, PostgresFields) then Err(AssertionError)
    else PostgresFieldsPresent(pgConfig); AnalyzeUrl(pgConfig)
  }

  /** Two configs that agree on the four connection keys give the same URL, whatever
      else they hold. */
  lemma AnalyzeUrlIgnoresExtras(a: Entries<string>, b: Entries<string>)
    requires forall i :: 0 <= i < |PostgresFields| ==> Lookup(a, PostgresFields[i]) == Lookup(b, PostgresFields[i])
    ensures AnalyzeUrl(a) == AnalyzeUrl(b)
  {
    assert PostgresFields[0] == "user" && PostgresFields[1] == "password";
    assert PostgresFields[2] == "host" && PostgresFields[3] == "port";
  }

  /** The two services agree on the URL exactly when the config holds nothing beyond the
      four keys; otherwise the predict URL extends the analyze one. */
  lemma SameBase(config: Entries<string>)
    requires HasFields(config, PostgresFields)
    ensures AnalyzeUrl(config).Ok?
    ensures var url := AnalyzeUrl(config).value;
      && |url| <= |PredictUrl(config)| && PredictUrl(config)[..|url|] == url
      && (RemoveAll(config, PostgresFields) == [] ==> PredictUrl(config) == url)
  {
    PostgresFieldsPresent(config);
  }
}
