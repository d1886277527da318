/** Python's insertion-ordered `dict` with string keys, as a sequence of entries. */
module PyDict {
  import opened PyBase

  type Entries<V> = seq<(string, V)>

  /** A JSON document as `json.load` returns it. */
  datatype Json =
    | Null
    | Bool(b: bool)
    | Int(i: int)
    | Num(r: real)
    | Str(s: string)
    | Arr(items: seq<Json>)
    | Obj(fields: Entries<Json>)

  /** The keys in insertion order (`list(d)`). */
  function KeysOf<V>(e: Entries<V>): (ks: seq<string>)
    ensures |ks| == |e|
  {
    seq(|e|, i requires 0 <= i < |e| => e[i].0)
  }

  /** What distinguishes a dict from a list of pairs: every key occurs once. */
  predicate DistinctKeys<V>(e: Entries<V>)
  {
    forall i, j :: 0 <= i < j < |e| ==> e[i].0 != e[j].0
  }

  /** `d.get(k)`. */
  function Lookup<V>(e: Entries<V>, k: string): Option<V>
  {
    if |e| == 0 then None else if e[0].0 == k then Some(e[0].1) else Lookup(e[1..], k)
  }

  predicate HasKey<V>(e: Entries<V>, k: string)
  {
    Lookup(e, k).Some?
  }

  /** `d[k] = v`: an existing key keeps its position, a new key goes last. */
  function Assign<V>(e: Entries<V>, k: string, v: V): Entries<V>
  {
    if |e| == 0 then [(k, v)]
    else if e[0].0 == k then [(k, v)] + e[1..]
    else [e[0]] + Assign(e[1..], k, v)
  }

  /** `del d[k]` where present; the other entries keep their order. */
  function Remove<V>(e: Entries<V>, k: string): Entries<V>
  {
    if |e| == 0 then []
    else if e[0].0 == k then Remove(e[1..], k)
    else [e[0]] + Remove(e[1..], k)
  }

  function RemoveAll<V>(e: Entries<V>, ks: seq<string>): Entries<V>
    decreases |ks|
  {
    if |ks| == 0 then e else RemoveAll(Remove(e, ks[0]), ks[1..])
  }

  lemma {:induction false} HasKeyIn<V>(e: Entries<V>, k: string)
    ensures HasKey(e, k) <==> k in KeysOf(e)
    ensures HasKey(e, k) ==> exists i :: 0 <= i < |e| && e[i] == (k, Lookup(e, k).value)
  {
    if |e| > 0 {
      HasKeyIn(e[1..], k);
      assert KeysOf(e) == [e[0].0] + KeysOf(e[1..]);
      if e[0].0 != k && HasKey(e, k) {
        var i :| 0 <= i < |e[1..]| && e[1..][i] == (k, Lookup(e[1..], k).value);
        assert e[i + 1] == (k, Lookup(e, k).value);
      }
    }
  }

  lemma {:induction false} LookupAt<V>(e: Entries<V>, i: nat)
    requires DistinctKeys(e) && i < |e|
    ensures Lookup(e, e[i].0) == Some(e[i].1)
  {
    if i > 0 {
      LookupAt(e[1..], i - 1);
    }
  }

  lemma {:induction false} LookupAssign<V>(e: Entries<V>, k: string, v: V, k': string)
    ensures Lookup(Assign(e, k, v), k') == if k' == k then Some(v) else Lookup(e, k')
  {
    if |e| > 0 && e[0].0 != k {
      LookupAssign(e[1..], k, v, k');
      assert Assign(e, k, v)[1..] == Assign(e[1..], k, v);
    }
  }

  lemma KeysCons<V>(x: (string, V), rest: Entries<V>)
    ensures KeysOf([x] + rest) == [x.0] + KeysOf(rest)
  {
  }

  lemma {:induction false} KeysAssign<V>(e: Entries<V>, k: string, v: V)
    ensures KeysOf(Assign(e, k, v)) == if HasKey(e, k) then KeysOf(e) else KeysOf(e) + [k]
  {
    if |e| > 0 {
      var t := e[1..];
      assert e == [e[0]] + t;
      KeysCons(e[0], t);
      if e[0].0 != k {
        KeysAssign(t, k, v);
        KeysCons(e[0], Assign(t, k, v));
      } else {
        KeysCons((k, v), t);
      }
    }
  }

  lemma {:induction false} AssignFresh<V>(e: Entries<V>, k: string, v: V)
    requires k !in KeysOf(e)
    ensures Assign(e, k, v) == e + [(k, v)]
  {
    if |e| > 0 {
      assert KeysOf(e) == [e[0].0] + KeysOf(e[1..]);
      AssignFresh(e[1..], k, v);
      assert e == [e[0]] + e[1..];
    }
  }

  /** The key of every entry is present. */
  lemma {:induction false} KeyAtHasKey<V>(e: Entries<V>, i: nat)
    requires i < |e|
    ensures HasKey(e, e[i].0)
  {
    if i > 0 && e[0].0 != e[i].0 {
      KeyAtHasKey(e[1..], i - 1);
    }
  }

  lemma {:induction false} DistinctAssign<V>(e: Entries<V>, k: string, v: V)
    requires DistinctKeys(e)
    ensures DistinctKeys(Assign(e, k, v))
  {
    if |e| > 0 && e[0].0 != k {
      var t := e[1..];
      var rest := Assign(t, k, v);
      DistinctAssign(t, k, v);
      HasKeyIn(t, e[0].0);
      LookupAssign(t, k, v, e[0].0);
      forall j | 0 <= j < |rest| ensures rest[j].0 != e[0].0 {
        KeyAtHasKey(rest, j);
      }
      assert Assign(e, k, v) == [e[0]] + rest;
    }
  }

  lemma {:induction false} LookupRemove<V>(e: Entries<V>, k: string, k': string)
    ensures Lookup(Remove(e, k), k') == if k' == k then None else Lookup(e, k')
  {
    if |e| > 0 {
      LookupRemove(e[1..], k, k');
    }
  }

  /** Removing a key drops exactly the entries under it. */
  lemma {:induction false} InRemove<V>(e: Entries<V>, k: string, x: (string, V))
    ensures x in Remove(e, k) <==> x in e && x.0 != k
  {
    if |e| > 0 {
      InRemove(e[1..], k, x);
      assert x in e <==> x == e[0] || x in e[1..];
    }
  }

  /** The entries left by a removal, all at once. */
  lemma RemoveEntries<V>(e: Entries<V>, k: string)
    ensures forall x :: x in Remove(e, k) <==> x in e && x.0 != k
  {
    forall x ensures x in Remove(e, k) <==> x in e && x.0 != k {
      InRemove(e, k, x);
    }
  }

  lemma {:induction false} RemoveAbsent<V>(e: Entries<V>, k: string)
    requires !HasKey(e, k)
    ensures Remove(e, k) == e
  {
    if |e| > 0 {
      RemoveAbsent(e[1..], k);
    }
  }

  lemma {:induction false} DistinctRemove<V>(e: Entries<V>, k: string)
    requires DistinctKeys(e)
    ensures DistinctKeys(Remove(e, k)) && multiset(Remove(e, k)) <= multiset(e)
  {
    if |e| > 0 {
      DistinctRemove(e[1..], k);
      assert e == [e[0]] + e[1..];
      if e[0].0 != k {
        var r := Remove(e, k);
        forall j | 1 <= j < |r| ensures r[0].0 != r[j].0 {
          assert r[j] in multiset(e[1..]);
          var m :| 0 <= m < |e[1..]| && e[1..][m] == r[j];
          assert e[m + 1] == r[j];
        }
      }
    }
  }

  lemma {:induction false} LookupRemoveAll<V>(e: Entries<V>, ks: seq<string>, k: string)
    ensures Lookup(RemoveAll(e, ks), k) == if k in ks then None else Lookup(e, k)
    decreases |ks|
  {
    if |ks| > 0 {
      LookupRemoveAll(Remove(e, ks[0]), ks[1..], k);
      LookupRemove(e, ks[0], k);
      assert k in ks <==> k == ks[0] || k in ks[1..];
    }
  }

  lemma {:induction false} DistinctRemoveAll<V>(e: Entries<V>, ks: seq<string>)
    requires DistinctKeys(e)
    ensures DistinctKeys(RemoveAll(e, ks))
    decreases |ks|
  {
    if |ks| > 0 {
      DistinctRemove(e, ks[0]);
      DistinctRemoveAll(Remove(e, ks[0]), ks[1..]);
    }
  }

  /** A dict object whose methods change it in place, as `pop` and item assignment do;
      every name bound to it sees the change. */
  class Dict<V> {
    var entries: Entries<V>

    ghost predicate Valid()
      reads this
    {
      DistinctKeys(entries)
    }

    constructor (init: Entries<V>)
      requires DistinctKeys(init)
      ensures Valid() && entries == init
    {
      entries := init;
    }

    function Get(k: string): Option<V>
      reads this
    {
      Lookup(entries, k)
    }

    /** `d.pop(k)`: the value, removed from the dict, or KeyError leaving it as it was. */
    method Pop(k: string) returns (r: Result<V, Exception>)
      requires Valid()
      modifies this
      ensures Valid()
      ensures r == (match Lookup(old(entries), k)
                    case Some(v) => Ok(v)
                    case None => Err(KeyError(k)))
      ensures entries == Remove(old(entries), k)
      ensures r.Err? ==> entries == old(entries)
    {
      var found := Lookup(entries, k);
      DistinctRemove(entries, k);
      match found {
        case Some(v) =>
          entries := Remove(entries, k);
          r := Ok(v);
        case None =>
          RemoveAbsent(entries, k);
          r := Err(KeyError(k));
      }
    }

    /** `d.pop(k, default)`: never raises. */
    method PopOr(k: string, default: V) returns (v: V)
      requires Valid()
      modifies this
      ensures Valid()
      ensures v == (match Lookup(old(entries), k) case Some(x) => x case None => default)
      ensures entries == Remove(old(entries), k)
    {
      var r := Pop(k);
      v := if r.Ok? then r.value else default;
    }
  }
}
