/** The keystore-command generator: the last `key: value` lines of Kibana's
    encryption-key output are parsed into a dict, and the shell commands that add each
    key to the Kibana keystore are assembled around it. */
module Keystore {
  import opened PyBase
  import opened PyStr
  import opened PyDict

  const DockerCmd: string := "docker compose -f kibana.docker-compose.yml"
  const TargetBin: string := "bin/kibana-keystore"

  /** Ends in a newline. */
  predicate IsLine(s: string)
  {
    |s| > 0 && s[|s| - 1] == '\n'
  }

  /** `cmd_(*args)`: the arguments joined by single spaces, then one newline. */
  function Cmd(args: seq<string>): (c: string)
    ensures IsLine(c)
  {
    Join(" ", args) + "\n"
  }

  /** A command line ends in its one newline, and for arguments without spaces the text
      before it splits back into the arguments. */
  lemma CmdShape(args: seq<string>)
    requires |args| >= 1 && forall i :: 0 <= i < |args| ==> Lacks(args[i], ' ')
    ensures var c := Cmd(args);
      && |c| >= 1 && c[|c| - 1] == '\n'
      && Split(c[..|c| - 1], " ") == args
  {
    var c := Cmd(args);
    assert c[..|c| - 1] == Join(" ", args);
    forall i | 0 <= i < |args| ensures EndsBeforeSep(args[i], " ") && !Contains(args[i], " ") {
      LacksFirst(args[i], " ");
    }
    SplitJoin(" ", args);
  }

  /** One line of `json_proc`: newlines stripped from both ends, then split on `": "`;
      anything but exactly two pieces fails to unpack (ValueError). */
  function ParseLine(text: string): (r: Result<(string, string), Exception>)
    ensures r.Err? ==> r.error == ValueError
  {
    var parts := Split(Strip(text, '\n'), ": ");
    if |parts| != 2 then Err(ValueError) else Ok((parts[0], parts[1]))
  }

  /** A line `key: value` with its newline parses back to the key and the value, provided
      neither holds `": "`, the key does not start and the value does not end with a
      newline. */
  lemma ParseRendered(key: string, val: string)
    requires !Contains(key, ": ") && !Contains(val, ": ")
    requires |key| > 0 ==> key[0] != '\n'
    requires |val| > 0 ==> val[|val| - 1] != '\n'
    ensures ParseLine(key + ": " + val + "\n") == Ok((key, val))
  {
    var core := key + ": " + val;
    assert key + ": " + val + "\n" == core + ['\n'];
    assert core[0] == if |key| > 0 then key[0] else ':';
    assert core[|core| - 1] == if |val| > 0 then val[|val| - 1] else ' ';
    StripOne(core, '\n');
    ColonSpaceBoundary(key);
    assert Join(": ", [key, val]) == core;
    SplitJoin(": ", [key, val]);
  }

  /** A line without `": "` is a ValueError. */
  lemma NoSeparator(text: string)
    requires !Contains(Strip(text, '\n'), ": ")
    ensures ParseLine(text) == Err(ValueError)
  {
  }

  /** A line with two `": "` separators has too many pieces to unpack: ValueError. */
  lemma TwoSeparators(a: string, b: string, c: string)
    requires !Contains(a, ": ") && !Contains(b, ": ")
    requires |a| > 0 ==> a[0] != '\n'
    requires |c| > 0 ==> c[|c| - 1] != '\n'
    ensures ParseLine(a + ": " + b + ": " + c + "\n") == Err(ValueError)
  {
    var core := a + ": " + b + ": " + c;
    assert a + ": " + b + ": " + c + "\n" == core + ['\n'];
    assert core[0] == if |a| > 0 then a[0] else ':';
    assert core[|core| - 1] == if |c| > 0 then c[|c| - 1] else ' ';
    StripOne(core, '\n');
    ColonSpaceBoundary(a);
    ColonSpaceBoundary(b);
    SplitTwoSeparators(a, b, c, ": ");
  }

  /** The values of a list of results in order, or the first error among them. */
  function Collect(rs: seq<Result<(string, string), Exception>>): (r: Result<seq<(string, string)>, Exception>)
    ensures r.Ok? <==> forall i :: 0 <= i < |rs| ==> rs[i].Ok?
    ensures r.Ok? ==> |r.value| == |rs| && forall i :: 0 <= i < |rs| ==> rs[i] == Ok(r.value[i])
    ensures r.Err? ==> exists i :: 0 <= i < |rs| && rs[i] == Err(r.error) && forall j :: 0 <= j < i ==> rs[j].Ok?
  {
    if |rs| == 0 then Ok([])
    else
      var init := rs[..|rs| - 1];
      assert forall i :: 0 <= i < |rs| - 1 ==> init[i] == rs[i];
      match Collect(init)
      case Err(e) => Err(e)
      case Ok(vs) =>
        match rs[|rs| - 1]
        case Err(e) => Err(e)
        case Ok(p) => Ok(vs + [p])
  }

  /** Each line parsed on its own. */
  function Lines(strs: seq<string>): (rs: seq<Result<(string, string), Exception>>)
    ensures |rs| == |strs| && forall i :: 0 <= i < |strs| ==> rs[i] == ParseLine(strs[i])
  {
    seq(|strs|, i requires 0 <= i < |strs| => ParseLine(strs[i]))
  }

  /** The parsed lines in order, or the first failing line's ValueError. */
  function Pairs(strs: seq<string>): (r: Result<seq<(string, string)>, Exception>)
    ensures r.Ok? <==> forall i :: 0 <= i < |strs| ==> ParseLine(strs[i]).Ok?
    ensures r.Ok? ==> |r.value| == |strs| && forall i :: 0 <= i < |strs| ==> ParseLine(strs[i]) == Ok(r.value[i])
    ensures r.Err? ==> r.error == ValueError
  {
    Collect(Lines(strs))
  }

  /** `output[key] = val` for each parsed pair in turn; the dict holds each key once. */
  function Fill(pairs: seq<(string, string)>): (r: Entries<string>)
    ensures DistinctKeys(r)
  {
    if |pairs| == 0 then []
    else
      var init := Fill(pairs[..|pairs| - 1]);
      DistinctAssign(init, pairs[|pairs| - 1].0, pairs[|pairs| - 1].1);
      Assign(init, pairs[|pairs| - 1].0, pairs[|pairs| - 1].1)
  }

  /** The later of two lines with the same key wins; a key no line has is absent. */
  lemma {:induction false} FillLookup(pairs: seq<(string, string)>, k: string)
    ensures (forall i :: 0 <= i < |pairs| ==> pairs[i].0 != k) ==> Lookup(Fill(pairs), k).None?
    ensures forall i :: 0 <= i < |pairs| && pairs[i].0 == k && (forall j :: i < j < |pairs| ==> pairs[j].0 != k)
                        ==> Lookup(Fill(pairs), k) == Some(pairs[i].1)
  {
    if |pairs| > 0 {
      var n := |pairs| - 1;
      var init := pairs[..n];
      FillLookup(init, k);
      LookupAssign(Fill(init), pairs[n].0, pairs[n].1, k);
      forall i | 0 <= i < n && init[i].0 == k && (forall j :: i < j < |pairs| ==> pairs[j].0 != k)
        ensures forall j :: i < j < n ==> init[j].0 != k
      {
      }
    }
  }

  /** What `json_proc(strs)` returns or raises: a dict of distinct keys when every line
      unpacks, and otherwise the ValueError of the first line that does not. */
  function Parsed(strs: seq<string>): (r: Result<Entries<string>, Exception>)
    ensures r.Ok? <==> forall i :: 0 <= i < |strs| ==> ParseLine(strs[i]).Ok?
    ensures r.Err? ==> r.error == ValueError
    ensures r.Ok? ==> DistinctKeys(r.value)
  {
    match Pairs(strs)
    case Err(e) => Err(e)
    case Ok(p) => Ok(Fill(p))
  }

  /** One more line: the parse of the longer prefix extends the shorter one's, or fails
      with that line's error; a failure anywhere fails the whole. */
  lemma PairsStep(strs: seq<string>, i: nat, pairs: seq<(string, string)>)
    requires i < |strs| && Pairs(strs[..i]) == Ok(pairs)
    ensures ParseLine(strs[i]).Ok? ==> Pairs(strs[..i + 1]) == Ok(pairs + [ParseLine(strs[i]).value])
    ensures ParseLine(strs[i]).Err? ==> Pairs(strs) == Err(ValueError)
  {
    var rs := Lines(strs[..i + 1]);
    assert rs[..i] == Lines(strs[..i]);
  }

  /** `json_proc`: an empty dict filled line by line. */
  method JsonProc(strs: seq<string>) returns (r: Result<Entries<string>, Exception>)
    ensures r == Parsed(strs)
  {
    var output: Entries<string> := [];
    ghost var pairs: seq<(string, string)> := [];
    for i := 0 to |strs|
      invariant Pairs(strs[..i]) == Ok(pairs) && output == Fill(pairs)
    {
      PairsStep(strs, i, pairs);
      var line := ParseLine(strs[i]);
      if line.Err? {
        return Err(ValueError);
      }
      var (key, val) := line.value;
      output := Assign(output, key, val);
      pairs := pairs + [(key, val)];
      assert pairs[..|pairs| - 1] == pairs[..i];
    }
    assert strs[..|strs|] == strs;
    return Ok(output);
  }

  /** `lines[-4:-1]`: the (at most) three lines just before the last one. */
  lemma LineWindow(lines: seq<string>)
    ensures var w := Slice(lines, -4, -1);
      && |w| == (if |lines| >= 4 then 3 else if |lines| >= 1 then |lines| - 1 else 0)
      && forall i :: 0 <= i < |w| ==> w[i] == lines[|lines| - 1 - |w| + i]
  {
  }

  /** The add command of one key. */
  function AddLine(key: string, val: string): string
  {
    Cmd(["echo", "\"" + val + "\"", "|", TargetBin, "add", "-f", key])
  }

  /** `container_commands`: create the keystore, add each key in insertion order, copy
      it out. */
  function ContainerCommands(json: Entries<string>): (cs: seq<string>)
    ensures |cs| == |json| + 2
    ensures cs[0] == Cmd([TargetBin, "create"]) && cs[|cs| - 1] == Cmd(["cp config/kibana.keystore temp"])
    ensures forall i :: 0 <= i < |json| ==> cs[i + 1] == AddLine(json[i].0, json[i].1)
  {
    [Cmd([TargetBin, "create"])]
    + seq(|json|, i requires 0 <= i < |json| => AddLine(json[i].0, json[i].1))
    + [Cmd(["cp config/kibana.keystore temp"])]
  }

  /** The add line of entry `i` carries the value the dict holds for its key, as
      `json_output[key]` reads it. */
  lemma AddLineValue(json: Entries<string>, i: nat)
    requires DistinctKeys(json) && i < |json|
    ensures Lookup(json, json[i].0) == Some(json[i].1)
    ensures ContainerCommands(json)[i + 1] == AddLine(json[i].0, Lookup(json, json[i].0).value)
  {
    LookupAt(json, i);
  }

  /** The add line spelled out: `echo "<val>" | bin/kibana-keystore add -f <key>` and a
      newline. */
  lemma AddLineText(key: string, val: string)
    ensures AddLine(key, val) == "echo \"" + val + "\" | " + TargetBin + " add -f " + key + "\n"
  {
    var args := ["echo", "\"" + val + "\"", "|", TargetBin, "add", "-f", key];
    assert Join(" ", args[6..]) == key;
    assert Join(" ", args[5..]) == "-f " + key;
    assert Join(" ", args[4..]) == "add -f " + key;
    assert Join(" ", args[3..]) == TargetBin + " add -f " + key;
    assert Join(" ", args[2..]) == "| " + TargetBin + " add -f " + key;
    assert Join(" ", args[1..]) == "\"" + val + "\" | " + TargetBin + " add -f " + key;
  }

  /** The opening lines of `command_text` (parse.py lines 26-35): eight whole lines. */
  function Header(): (h: seq<string>)
    ensures |h| == 8 && forall i :: 0 <= i < |h| ==> IsLine(h[i])
  {
    [Cmd(["Run Kibana container first"]), Cmd([DockerCmd, "up -d"]), "\n",
     Cmd(["Open Kibana terminal"]), Cmd(["docker exec -it kibanana sh"]), "\n",
     Cmd(["Pass these into kibana terminal one by one"]), "\n"]
  }

  /** The closing lines appended to `command_text` (parse.py lines 51-60): ten whole
      lines. */
  function Footer(): (f: seq<string>)
    ensures |f| == 10 && forall i :: 0 <= i < |f| ==> IsLine(f[i])
  {
    [Cmd(["exit"]), "\n", Cmd(["Stop Kibana container"]), Cmd([DockerCmd, "down"]), "\n",
     Cmd(["Remove encrypt.json and encrypt.txt"]), Cmd(["rm config/kibana/encrypt.* -f"]), "\n",
     Cmd(["Remove this file"]), Cmd(["rm keystore-command.txt -f"])]
  }

  /** A concatenation whose last piece ends in a newline ends in one. */
  lemma {:induction false} ConcatEndsInNewline(parts: seq<string>)
    requires |parts| > 0 && |parts[|parts| - 1]| > 0 && parts[|parts| - 1][|parts[|parts| - 1]| - 1] == '\n'
    ensures |Concat(parts)| > 0 && Concat(parts)[|Concat(parts)| - 1] == '\n'
    decreases |parts|
  {
    if |parts| > 1 {
      ConcatEndsInNewline(parts[1..]);
    }
  }

  /** `command_text` as built by successive appends: the header, the container text, then
      exit and the stop and clean-up lines; every entry is one or more whole lines. */
  method CommandText(json: Entries<string>) returns (text: seq<string>)
    ensures |text| == 19
    ensures text[..8] == Header() && text[8] == Concat(ContainerCommands(json)) && text[9..] == Footer()
    ensures forall i :: 0 <= i < |text| ==> IsLine(text[i])
  {
    text := [Cmd(["Run Kibana container first"]), Cmd([DockerCmd, "up -d"]), "\n",
             Cmd(["Open Kibana terminal"]), Cmd(["docker exec -it kibanana sh"]), "\n",
             Cmd(["Pass these into kibana terminal one by one"]), "\n"];
    var containerText := Concat(ContainerCommands(json));
    text := text + [containerText];
    text := text + [Cmd(["exit"])];
    text := text + ["\n"];
    text := text + [Cmd(["Stop Kibana container"])];
    text := text + [Cmd([DockerCmd, "down"])];
    text := text + ["\n"];
    text := text + [Cmd(["Remove encrypt.json and encrypt.txt"])];
    text := text + [Cmd(["rm config/kibana/encrypt.* -f"])];
    text := text + ["\n"];
    text := text + [Cmd(["Remove this file"])];
    text := text + [Cmd(["rm keystore-command.txt -f"])];
    ConcatEndsInNewline(ContainerCommands(json));
  }

  /** The script: the window of the file's lines parsed into the dict, then the
      container text written to `encrypt.sh` and the command list. */
  method KeystoreScript(fileLines: seq<string>)
    returns (r: Result<(Entries<string>, string, seq<string>), Exception>)
    ensures Parsed(Slice(fileLines, -4, -1)).Err? ==> r == Err(ValueError)
    ensures Parsed(Slice(fileLines, -4, -1)).Ok? ==>
      var json := Parsed(Slice(fileLines, -4, -1)).value;
      && r.Ok? && r.value.0 == json && DistinctKeys(json)
      && r.value.1 == Concat(ContainerCommands(json))
      && |r.value.2| == 19 && r.value.2[8] == r.value.1
  {
    var output := Slice(fileLines, -4, -1);
    var jsonOutput := JsonProc(output);
    if jsonOutput.Err? {
      return Err(jsonOutput.error);
    }
    var containerText := Concat(ContainerCommands(jsonOutput.value));
    var commandText := CommandText(jsonOutput.value);
    return Ok((jsonOutput.value, containerText, commandText));
  }
}
