/** The Python `str` methods the scripts use: `split`, `join` and `strip`. */
module PyStr {
  import opened PyBase

  /** `sep` occurs in `s` starting at position `i`. */
  predicate OccursAt(s: string, sep: string, i: nat)
  {
    i + |sep| <= |s| && s[i..i + |sep|] == sep
  }

  /** Python's `sep in s`. */
  predicate Contains(s: string, sep: string)
  {
    exists i: nat | i <= |s| :: OccursAt(s, sep, i)
  }

  /** The first occurrence of `sep` in `s` at or after position `from` (`str.find`). */
  function FindFrom(s: string, sep: string, from: nat): (r: Option<nat>)
    requires |sep| > 0
    ensures r.Some? ==> from <= r.value && OccursAt(s, sep, r.value)
    ensures r.Some? ==> forall j: nat :: from <= j < r.value ==> !OccursAt(s, sep, j)
    ensures r.None? ==> forall j: nat :: from <= j ==> !OccursAt(s, sep, j)
    decreases |s| - from
  {
    if from + |sep| > |s| then None
    else if s[from..from + |sep|] == sep then Some(from)
    else FindFrom(s, sep, from + 1)
  }

  function Find(s: string, sep: string): (r: Option<nat>)
    requires |sep| > 0
    ensures r.None? <==> !Contains(s, sep)
    ensures r.Some? ==> OccursAt(s, sep, r.value) && forall j: nat :: j < r.value ==> !OccursAt(s, sep, j)
  {
    FindFrom(s, sep, 0)
  }

  /** Python's `s.split(sep)` for a non-empty separator: the pieces between the
      occurrences of `sep`, scanning left to right. */
  function Split(s: string, sep: string): (parts: seq<string>)
    requires |sep| > 0
    ensures |parts| >= 1
    decreases |s|
  {
    match Find(s, sep)
    case None => [s]
    case Some(i) => [s[..i]] + Split(s[i + |sep|..], sep)
  }

  /** Python's `sep.join(parts)`. */
  function Join(sep: string, parts: seq<string>): string
  {
    if |parts| == 0 then ""
    else if |parts| == 1 then parts[0]
    else parts[0] + sep + Join(sep, parts[1..])
  }

  /** Python's `"".join(parts)`. */
  function Concat(parts: seq<string>): string
  {
    if |parts| == 0 then "" else parts[0] + Concat(parts[1..])
  }

  /** Joining the pieces of a split restores the string. */
  lemma {:induction false} JoinSplit(s: string, sep: string)
    requires |sep| > 0
    ensures Join(sep, Split(s, sep)) == s
    decreases |s|
  {
    match Find(s, sep)
    case None =>
    case Some(i) =>
      var rest := s[i + |sep|..];
      var tail := Split(rest, sep);
      JoinSplit(rest, sep);
      var parts := [s[..i]] + tail;
      assert Split(s, sep) == parts;
      assert parts[0] == s[..i] && parts[1..] == tail;
      assert Join(sep, parts) == s[..i] + sep + Join(sep, tail);
      assert s[i..i + |sep|] == sep;
      assert s == s[..i] + s[i..i + |sep|] + rest;
  }

  /** No occurrence of `sep` begins inside `p` when `sep` follows `p`: after `p + sep`
      the first occurrence is the appended one. */
  predicate EndsBeforeSep(p: string, sep: string)
  {
    forall j: nat :: j < |p| ==> !OccursAt(p + sep, sep, j)
  }

  lemma FindAfter(p: string, sep: string, rest: string)
    requires |sep| > 0 && EndsBeforeSep(p, sep)
    ensures Find(p + sep + rest, sep) == Some(|p|)
  {
    var s := p + sep + rest;
    assert s[|p|..|p| + |sep|] == sep;
    assert OccursAt(s, sep, |p|);
    forall j: nat | j < |p| ensures !OccursAt(s, sep, j) {
      if OccursAt(s, sep, j) {
        assert s[j..j + |sep|] == (p + sep)[j..j + |sep|];
        assert OccursAt(p + sep, sep, j);
      }
    }
  }

  /** Splitting a join restores the parts, when no part hides the separator. */
  lemma {:induction false} SplitJoin(sep: string, parts: seq<string>)
    requires |sep| > 0 && |parts| >= 1
    requires forall i :: 0 <= i < |parts| - 1 ==> EndsBeforeSep(parts[i], sep)
    requires !Contains(parts[|parts| - 1], sep)
    ensures Split(Join(sep, parts), sep) == parts
    decreases |parts|
  {
    if |parts| > 1 {
      var rest := Join(sep, parts[1..]);
      var s := Join(sep, parts);
      assert s == parts[0] + sep + rest;
      FindAfter(parts[0], sep, rest);
      assert Find(s, sep) == Some(|parts[0]|);
      assert s[..|parts[0]|] == parts[0];
      assert s[|parts[0]| + |sep|..] == rest;
      assert Split(s, sep) == [parts[0]] + Split(rest, sep);
      SplitJoin(sep, parts[1..]);
      assert parts == [parts[0]] + parts[1..];
    } else {
      assert Join(sep, parts) == parts[0];
      assert Find(parts[0], sep).None?;
    }
  }

  /** Two separators, neither beginning inside the piece before it, split a string into
      at least three pieces. */
  lemma SplitTwoSeparators(a: string, b: string, c: string, sep: string)
    requires |sep| > 0 && EndsBeforeSep(a, sep) && EndsBeforeSep(b, sep)
    ensures |Split(a + sep + b + sep + c, sep)| >= 3
  {
    var rest := b + sep + c;
    var s := a + sep + rest;
    assert a + sep + b + sep + c == s;
    FindAfter(a, sep, rest);
    assert s[|a| + |sep|..] == rest;
    assert Split(s, sep) == [s[..|a|]] + Split(rest, sep);
    FindAfter(b, sep, c);
    assert rest[|b| + |sep|..] == c;
    assert Split(rest, sep) == [rest[..|b|]] + Split(c, sep);
  }

  /** A character absent from a string, for a one-character separator. */
  predicate Lacks(s: string, c: char)
  {
    forall i :: 0 <= i < |s| ==> s[i] != c
  }

  /** A string without the first character of `sep` neither contains `sep` nor lets an
      occurrence of it begin inside itself when `sep` follows. */
  lemma LacksFirst(p: string, sep: string)
    requires |sep| > 0 && Lacks(p, sep[0])
    ensures EndsBeforeSep(p, sep) && !Contains(p, sep)
  {
    forall j: nat | j < |p| ensures !OccursAt(p + sep, sep, j) {
      if j + |sep| <= |p + sep| {
        assert (p + sep)[j..j + |sep|][0] == p[j];
      }
    }
    forall j: nat | j <= |p| ensures !OccursAt(p, sep, j) {
      if j + |sep| <= |p| {
        assert p[j..j + |sep|][0] == p[j];
      }
    }
  }

  /** The separator `": "` can only begin where its two characters stand: a string
      without it cannot produce one by being followed by it. */
  lemma ColonSpaceBoundary(p: string)
    requires !Contains(p, ": ")
    ensures EndsBeforeSep(p, ": ")
  {
    forall j: nat | j < |p| ensures !OccursAt(p + ": ", ": ", j) {
      if j + 2 <= |p| {
        assert (p + ": ")[j..j + 2] == p[j..j + 2];
        assert !OccursAt(p, ": ", j);
      } else {
        assert (p + ": ")[j..j + 2] == [p[j], ':'];
      }
    }
  }

  /** Python's `s.lstrip(c)` for one character. */
  function StripStart(s: string, c: char): (r: string)
    ensures |r| <= |s| && r == s[|s| - |r|..]
    ensures forall i :: 0 <= i < |s| - |r| ==> s[i] == c
    ensures |r| > 0 ==> r[0] != c
  {
    if |s| > 0 && s[0] == c then StripStart(s[1..], c) else s
  }

  /** Python's `s.rstrip(c)` for one character. */
  function StripEnd(s: string, c: char): (r: string)
    ensures |r| <= |s| && r == s[..|r|]
    ensures forall i :: |r| <= i < |s| ==> s[i] == c
    ensures |r| > 0 ==> r[|r| - 1] != c
  {
    if |s| > 0 && s[|s| - 1] == c then StripEnd(s[..|s| - 1], c) else s
  }

  /** Python's `s.strip(c)` for one character. */
  function Strip(s: string, c: char): (r: string)
    ensures |r| <= |s|
    ensures |r| > 0 ==> r[0] != c && r[|r| - 1] != c
    ensures Lacks(s, c) ==> r == s
  {
    StripEnd(StripStart(s, c), c)
  }

  /** Stripping a string that ends in one `c`, and neither starts nor otherwise ends
      with `c`, removes exactly that `c`. */
  lemma StripOne(core: string, c: char)
    requires |core| > 0 && core[0] != c && core[|core| - 1] != c
    ensures Strip(core + [c], c) == core
  {
    var s := core + [c];
    assert StripStart(s, c) == s;
    assert s[..|s| - 1] == core;
    assert StripEnd(s, c) == StripEnd(core, c) == core;
  }
}
