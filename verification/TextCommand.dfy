/**
 The text form of commands: `parseCommand`, which reads a line, and `buildCommand`,
 which the CLI uses to print its arguments as such a line.

 `upper` and `lower` stand for JavaScript's toUpperCase and toLowerCase. All that is
 used of them is that `upper` leaves words of capital letters A-Z alone.
 */
module TextCommand {
  import opened Bytes

  type Case = string -> string

  datatype Text =
    | Get(key: string)
    | Del(key: string)
    | Sub(channel: string, filter: Option<string>)
    | Unsub(channel: string)
    | Status
    | ClusterStatus
    | ClusterPeers
    | Set(key: string, value: string, worm: bool)
    | Pub(channel: string, message: string)
    | Exec(procedure: string, args: seq<string>)

  datatype Parsed = Ok(command: Text) | MissingCommand | Invalid(verb: string) | Unsupported(verb: string)

  /** What \s matches and trim() removes. */
  predicate Space(c: char)
  {
    || '\t' <= c <= '\r' || c == ' ' || c == '\U{00A0}' || c == '\U{1680}' || '\U{2000}' <= c <= '\U{200A}'
    || c == '\U{2028}' || c == '\U{2029}' || c == '\U{202F}' || c == '\U{205F}' || c == '\U{3000}' || c == '\U{FEFF}'
  }

  /** What `.` does not match. */
  predicate LineEnd(c: char) { c == '\n' || c == '\r' || c == '\U{2028}' || c == '\U{2029}' }

  /** Length of the leading run of non-space characters. */
  function WordLen(s: string): (n: nat)
    ensures n <= |s|
    ensures forall i :: 0 <= i < n ==> !Space(s[i])
    ensures n < |s| ==> Space(s[n])
  {
    if s == "" || Space(s[0]) then 0 else 1 + WordLen(s[1..])
  }

  /** Length of the leading run of spaces. */
  function SpaceLen(s: string): (n: nat)
    ensures n <= |s|
    ensures forall i :: 0 <= i < n ==> Space(s[i])
    ensures n < |s| ==> !Space(s[n])
  {
    if s == "" || !Space(s[0]) then 0 else 1 + SpaceLen(s[1..])
  }

  function TrimEnd(s: string): string
  {
    if s == "" || !Space(s[|s| - 1]) then s else TrimEnd(s[..|s| - 1])
  }

  function Trim(s: string): string
  {
    TrimEnd(s[SpaceLen(s)..])
  }

  /** split(/\s+/) */
  function Split(s: string): (r: seq<string>)
    ensures r != []
    decreases |s|
  {
    var n := WordLen(s);
    if n == |s| then [s] else [s[..n]] + Split(s[n + SpaceLen(s[n..])..])
  }

  /** parts.join(" ") */
  function Join(parts: seq<string>): string
  {
    if parts == [] then "" else if |parts| == 1 then parts[0] else parts[0] + (" " + Join(parts[1..]))
  }

  // ---------------------------------------------------------------------------
  // parseCommand
  // ---------------------------------------------------------------------------

  /** A match of /SUB/i. */
  predicate SubWord(w: string)
  {
    |w| == 3 && w[0] in "sS" && w[1] in "uU" && w[2] in "bB"
  }

  /** The match of /^SUB\s+(\S+)(?:\s+(.+))?$/i against a trimmed line. */
  function ParseSub(line: string): Parsed
  {
    if |line| < 3 || !SubWord(line[..3]) then Invalid("SUB")
    else
      var gap := SpaceLen(line[3..]);
      var rest := line[3 + gap..];
      var n := WordLen(rest);
      if gap == 0 || n == 0 then Invalid("SUB")
      else if n == |rest| then Ok(Sub(rest, None))
      else
        var filter := rest[n + SpaceLen(rest[n..])..];
        if filter == "" || exists c | c in filter :: LineEnd(c) then Invalid("SUB")
        else Ok(Sub(rest[..n], Some(filter)))
  }

  /** Every branch that looks only at the words of the line. */
  function FromWords(upper: Case, parts: seq<string>): Parsed
    requires parts != []
  {
    var verb := upper(parts[0]);
    if verb == "GET" then if |parts| < 2 then Invalid(verb) else Ok(Get(parts[1]))
    else if verb == "DEL" then if |parts| < 2 then Invalid(verb) else Ok(Del(parts[1]))
    else if verb == "UNSUB" then if |parts| < 2 then Invalid(verb) else Ok(Unsub(parts[1]))
    else if verb == "STATUS" then Ok(Status)
    else if verb == "CLUSTER" && |parts| >= 2 && upper(parts[1]) == "STATUS" then Ok(ClusterStatus)
    else if verb == "CLUSTER" && |parts| >= 2 && upper(parts[1]) == "PEERS" then Ok(ClusterPeers)
    else if verb == "SET" then
      if |parts| < 3 then Invalid(verb)
      else Ok(Set(parts[1], parts[2], exists p | p in parts :: upper(p) == "WORM"))
    else if verb == "PUB" then if |parts| < 3 then Invalid(verb) else Ok(Pub(parts[1], Join(parts[2..])))
    else if verb == "EXEC" then if |parts| < 2 then Invalid(verb) else Ok(Exec(parts[1], parts[2..]))
    else Unsupported(verb)
  }

  function ParseCommand(upper: Case, command: string): Parsed
  {
    var line := Trim(command);
    var parts := Split(line);
    if parts[0] == "" then MissingCommand
    else if upper(parts[0]) == "SUB" then ParseSub(line)
    else FromWords(upper, parts)
  }

  // ---------------------------------------------------------------------------
  // buildCommand
  // ---------------------------------------------------------------------------

  /** parts[i] is there and not empty. */
  predicate Given(parts: seq<string>, i: nat) { i < |parts| && parts[i] != "" }

  function BuildCommand(lower: Case, parts: seq<string>): Option<string>
  {
    if parts == [] then None
    else
      var verb := lower(parts[0]);
      if verb == "status" then Some("STATUS")
      else if verb == "cluster-status" then Some("CLUSTER STATUS")
      else if verb == "get" && Given(parts, 1) then Some("GET " + parts[1])
      else if verb == "set" && Given(parts, 1) && Given(parts, 2) then
        Some("SET " + parts[1] + " " + parts[2] + (if "--worm" in parts then " WORM" else ""))
      else if verb == "del" && Given(parts, 1) then Some("DEL " + parts[1])
      else if verb == "pub" && Given(parts, 1) && |parts| >= 3 then
        Some("PUB " + parts[1] + " " + Join(parts[2..]))
      else Some(Join(parts))
  }

  // ---------------------------------------------------------------------------
  // Splitting undoes joining
  // ---------------------------------------------------------------------------

  predicate Solid(w: string) { forall i :: 0 <= i < |w| ==> !Space(w[i]) }

  predicate AllSolid(ws: seq<string>) { forall i :: 0 <= i < |ws| ==> Solid(ws[i]) }

  /** A field as the CLI means it: non-empty and free of spaces. */
  predicate AllWords(ws: seq<string>) { forall i :: 0 <= i < |ws| ==> Solid(ws[i]) && ws[i] != "" }

  lemma WordCons(w: string, ws: seq<string>)
    requires Solid(w) && w != "" && AllWords(ws)
    ensures AllWords([w] + ws)
  {
    hide Solid;
  }

  /** The maximal runs of non-space characters. */
  function Words(s: string): (r: seq<string>)
    ensures AllWords(r)
    decreases |s|
  {
    var t := s[SpaceLen(s)..];
    if t == "" then []
    else
      var w := t[..WordLen(t)];
      var rest := Words(t[WordLen(t)..]);
      WordCons(w, rest);
      [w] + rest
  }

  function NonEmpty(ws: seq<string>): seq<string>
  {
    if ws == [] then [] else (if ws[0] == "" then [] else [ws[0]]) + NonEmpty(ws[1..])
  }

  lemma {:induction false} WordLenOf(w: string, rest: string)
    requires Solid(w) && (rest == "" || Space(rest[0]))
    ensures WordLen(w + rest) == |w|
  {
    var n := WordLen(w + rest);
    assert forall i :: 0 <= i < |w| ==> (w + rest)[i] == w[i];
    if rest != "" { assert (w + rest)[|w|] == rest[0]; }
  }

  lemma {:induction false} WordsOfWord(w: string, rest: string)
    requires Solid(w) && w != "" && (rest == "" || Space(rest[0]))
    ensures Words(w + rest) == [w] + Words(rest)
  {
    var s := w + rest;
    assert s[0] == w[0];
    assert SpaceLen(s) == 0;
    assert s[0..] == s;
    WordLenOf(w, rest);
    assert s[..|w|] == w && s[|w|..] == rest;
  }

  lemma {:induction false} WordsSkip(c: char, s: string)
    requires Space(c)
    ensures Words([c] + s) == Words(s)
  {
    var t := [c] + s;
    assert t[1..] == s;
    assert SpaceLen(t) == 1 + SpaceLen(s);
    assert t[SpaceLen(t)..] == s[SpaceLen(s)..];
  }

  lemma {:induction false} WordsDropLast(s: string)
    requires s != "" && Space(s[|s| - 1])
    ensures Words(s) == Words(s[..|s| - 1])
    decreases |s|
  {
    hide Words, Space, SpaceLen;
    var u := s[..|s| - 1];
    if Space(s[0]) {
      assert s == [s[0]] + s[1..];
      WordsSkip(s[0], s[1..]);
      if u == "" {
        assert s[1..] == u;
      } else {
        WordsDropLast(s[1..]);
        WordsSkip(u[0], u[1..]);
        assert u == [u[0]] + u[1..];
        assert s[1..][..|s| - 2] == u[1..];
      }
    } else {
      var n := WordLen(s);
      var w, rest := s[..n], s[n..];
      assert s == w + rest;
      hide WordLen;
      DropLastOf(w, rest);
      WordsOfWord(w, rest);
      WordsOfWord(w, rest[..|rest| - 1]);
      WordsDropLast(rest);
    }
  }

  lemma DropLastOf(w: string, rest: string)
    requires Solid(w) && w + rest != "" && Space((w + rest)[|w + rest| - 1])
    ensures rest != "" && Space(rest[|rest| - 1])
    ensures (w + rest)[..|w + rest| - 1] == w + rest[..|rest| - 1]
  {}

  lemma {:induction false} WordsOfTrimEnd(s: string)
    ensures Words(TrimEnd(s)) == Words(s)
    ensures TrimEnd(s) != "" ==> !Space(TrimEnd(s)[|TrimEnd(s)| - 1]) && s != "" && TrimEnd(s)[0] == s[0]
  {
    if s != "" && Space(s[|s| - 1]) {
      WordsDropLast(s);
      WordsOfTrimEnd(s[..|s| - 1]);
    }
  }

  lemma {:induction false} SplitIsWords(s: string)
    requires s != "" && !Space(s[0]) && !Space(s[|s| - 1])
    ensures Split(s) == Words(s)
    decreases |s|
  {
    hide *;
    FirstWord(s);
    var n := WordLen(s);
    if n < |s| {
      var rest := s[n..];
      LastWordLeft(s, n);
      SplitIsWords(rest[SpaceLen(rest)..]);
      WordsAfterSpaces(rest);
    }
  }

  /** Both take the first word; after it Split drops the spaces at once. */
  lemma {:induction false} FirstWord(s: string)
    requires s != "" && !Space(s[0])
    ensures var n := WordLen(s);
            var rest := s[n..];
            && Words(s) == [s[..n]] + (if rest == "" then [] else Words(rest))
            && Split(s) == [s[..n]] + (if rest == "" then [] else Split(rest[SpaceLen(rest)..]))
  {
    hide Space, Words, SpaceLen, WordLen, Split;
    var n := WordLen(s);
    assert s == s[..n] + s[n..];
    WordsOfWord(s[..n], s[n..]);
    NoWords();
    SplitStep(s);
  }

  lemma {:induction false} SplitStep(s: string)
    ensures var n := WordLen(s);
            var rest := s[n..];
            Split(s) == [s[..n]] + (if rest == "" then [] else Split(rest[SpaceLen(rest)..]))
  {
    hide *;
    SplitUnfolds(s);
    var n := WordLen(s);
    if n < |s| {
      assert s[n..][SpaceLen(s[n..])..] == s[n + SpaceLen(s[n..])..];
    } else {
      assert s[..n] == s && [s] + [] == [s];
    }
  }

  lemma {:induction false} SplitUnfolds(s: string)
    ensures var n := WordLen(s);
            Split(s) == if n == |s| then [s] else [s[..n]] + Split(s[n + SpaceLen(s[n..])..])
  {
    hide Space, SpaceLen, WordLen;
  }

  lemma LastWordLeft(s: string, n: nat)
    requires n < |s| && Space(s[n]) && !Space(s[|s| - 1])
    ensures var next := s[n..][SpaceLen(s[n..])..];
            next != "" && |next| < |s| && !Space(next[0]) && !Space(next[|next| - 1])
  {
    hide Space;
    assert s[n..][|s| - n - 1] == s[|s| - 1];
  }

  lemma NoWords()
    ensures Words("") == []
  {}

  lemma {:induction false} WordsAfterSpaces(s: string)
    ensures Words(s[SpaceLen(s)..]) == Words(s)
  {
    var t := s[SpaceLen(s)..];
    assert SpaceLen(t) == 0;
    assert t[0..] == t;
  }

  /** trim().split(/\s+/) gives the words of any line, or one empty string when there are none. */
  lemma {:induction false} SplitOfTrim(s: string)
    ensures Split(Trim(s)) == if Words(s) == [] then [""] else Words(s)
  {
    var t := s[SpaceLen(s)..];
    assert SpaceLen(t) == 0;
    assert t[0..] == t;
    assert Words(t) == Words(s);
    WordsOfTrimEnd(t);
    if Trim(s) != "" { SplitIsWords(Trim(s)); }
  }

  lemma {:induction false} WordsOfJoin(ws: seq<string>)
    requires AllSolid(ws)
    ensures Words(Join(ws)) == NonEmpty(ws)
  {
    if |ws| == 1 {
      assert ws[1..] == [];
      if ws[0] != "" {
        WordsOfWord(ws[0], "");
        assert ws[0] + "" == ws[0];
        assert Words("") == [];
      }
    } else if |ws| > 1 {
      var tail := Join(ws[1..]);
      WordsOfJoin(ws[1..]);
      WordsSkip(' ', tail);
      assert (" " + tail)[0] == ' ';
      if ws[0] == "" {
        assert ws[0] + (" " + tail) == " " + tail;
      } else {
        WordsOfWord(ws[0], " " + tail);
      }
    }
  }

  lemma {:induction false} NonEmptyOfWords(ws: seq<string>)
    requires AllWords(ws)
    ensures NonEmpty(ws) == ws
  {
    if ws != [] { NonEmptyOfWords(ws[1..]); }
  }

  /** The words of a joined line come back, whatever they are; empty ones vanish. */
  lemma {:induction false} SplitOfJoin(ws: seq<string>)
    requires AllSolid(ws)
    ensures Split(Trim(Join(ws))) == if NonEmpty(ws) == [] then [""] else NonEmpty(ws)
    ensures AllWords(ws) && ws != [] ==> Split(Trim(Join(ws))) == ws
  {
    hide Split, Trim, Words, Join, NonEmpty;
    SplitOfTrim(Join(ws));
    WordsOfJoin(ws);
    if AllWords(ws) { NonEmptyOfWords(ws); }
  }

  lemma {:induction false} JoinShape(ws: seq<string>)
    requires AllWords(ws) && ws != []
    ensures var s := Join(ws);
            s != "" && !Space(s[0]) && !Space(s[|s| - 1]) && SpaceLen(s) == 0 && Trim(s) == s
  {
    if |ws| > 1 {
      JoinShape(ws[1..]);
    }
    assert Join(ws)[0..] == Join(ws);
  }

  // ---------------------------------------------------------------------------
  // parseCommand(buildCommand(parts))
  // ---------------------------------------------------------------------------

  predicate Capitals(w: string) { forall i :: 0 <= i < |w| ==> 'A' <= w[i] <= 'Z' }

  ghost predicate KeepsCapitals(upper: Case) { forall w | Capitals(w) :: upper(w) == w }

  /** The verbs buildCommand knows, with enough arguments. */
  predicate BuiltIn(lower: Case, parts: seq<string>)
  {
    && parts != []
    && var verb := lower(parts[0]);
       || verb in {"status", "cluster-status"}
       || (verb in {"get", "del"} && |parts| >= 2)
       || (verb in {"set", "pub"} && |parts| >= 3)
  }

  /** What the CLI user means by a built-in form. */
  function Meant(lower: Case, parts: seq<string>): Text
    requires BuiltIn(lower, parts)
  {
    match lower(parts[0])
    case "status" => Status
    case "cluster-status" => ClusterStatus
    case "get" => Get(parts[1])
    case "del" => Del(parts[1])
    case "set" => Set(parts[1], parts[2], "--worm" in parts)
    case _ => Pub(parts[1], Join(parts[2..]))
  }

  /** The arguments that survive: no empty field, and no SET field that reads as WORM unless --worm is given. */
  predicate Recoverable(upper: Case, lower: Case, parts: seq<string>)
    requires BuiltIn(lower, parts)
  {
    match lower(parts[0])
    case "status" => true
    case "cluster-status" => true
    case "get" => parts[1] != ""
    case "del" => parts[1] != ""
    case "set" =>
      && parts[1] != "" && parts[2] != ""
      && ("--worm" in parts || (upper(parts[1]) != "WORM" && upper(parts[2]) != "WORM"))
    case _ => forall i :: 1 <= i < |parts| ==> parts[i] != ""
  }

  lemma CapitalVerbs(upper: Case)
    requires KeepsCapitals(upper)
    ensures forall w | w in {"GET", "DEL", "SET", "PUB", "STATUS", "CLUSTER", "WORM"} :: upper(w) == w
  {
    forall w | w in {"GET", "DEL", "SET", "PUB", "STATUS", "CLUSTER", "WORM"} ensures upper(w) == w {
      assert Capitals(w);
    }
  }

  /** A line built from words parses as those words, unless it is a SUB. */
  lemma {:induction false} ParseOfWords(upper: Case, ws: seq<string>)
    requires AllWords(ws) && ws != [] && upper(ws[0]) != "SUB"
    ensures ParseCommand(upper, Join(ws)) == FromWords(upper, ws)
  {
    hide FromWords, Split, Trim, Join;
    SplitOfJoin(ws);
  }

  /** Outside SUB a line means what its words mean, however they are spaced. */
  lemma {:induction false} SpacingDoesNotMatter(upper: Case, a: string, b: string)
    requires Words(a) == Words(b)
    requires Words(a) != [] ==> upper(Words(a)[0]) != "SUB"
    ensures ParseCommand(upper, a) == ParseCommand(upper, b)
  {
    hide FromWords, Split, Trim;
    SplitOfTrim(a);
    SplitOfTrim(b);
  }

  /** No command that is parsed has an empty key, value or channel. */
  lemma NoEmptyFields(upper: Case, command: string)
    ensures match ParseCommand(upper, command)
            case Ok(Get(key)) => key != ""
            case Ok(Del(key)) => key != ""
            case Ok(Set(key, value, _)) => key != "" && value != ""
            case Ok(Pub(channel, _)) => channel != ""
            case _ => true
  {
    hide Words, Split, Trim, Join, Space;
    SplitOfTrim(command);
  }

  lemma {:induction false} JoinTwo(a: string, ws: seq<string>)
    requires ws != []
    ensures Join([a] + ws) == a + (" " + Join(ws))
  {
    assert ([a] + ws)[1..] == ws;
  }

  lemma OneField(upper: Case, verb: string, field: string)
    requires upper("GET") == "GET" && upper("DEL") == "DEL"
    requires verb == "GET" || verb == "DEL"
    requires Solid(field) && field != ""
    ensures ParseCommand(upper, verb + " " + field) == Ok(if verb == "GET" then Get(field) else Del(field))
  {
    var ws := [verb, field];
    JoinTwo(verb, [field]);
    assert [verb] + [field] == ws;
    assert Solid("GET") && Solid("DEL");
    assert verb + (" " + field) == verb + " " + field;
    assert ws[0] == verb && ws[1] == field;
    ParseOfWords(upper, ws);
  }

  /** SET comes back with its flag, raised also by a field that reads as WORM. */
  lemma SetLine(upper: Case, key: string, value: string, worm: bool)
    requires upper("SET") == "SET" && upper("WORM") == "WORM"
    requires Solid(key) && key != "" && Solid(value) && value != ""
    ensures ParseCommand(upper, "SET " + key + " " + value + (if worm then " WORM" else "")) ==
            Ok(Set(key, value, worm || upper(key) == "WORM" || upper(value) == "WORM"))
  {
    hide ParseCommand;
    var end := if worm then ["WORM"] else [];
    var ws := ["SET", key, value] + end;
    SetLineText(key, value, worm);
    assert Solid("SET") && Solid("WORM");
    assert AllWords(ws);
    ParseOfWords(upper, ws);
    assert ws[0] == "SET" && ws[1] == key && ws[2] == value;
    if worm { assert ws[3] == "WORM"; }
    assert forall p :: p in ws <==> p == "SET" || p == key || p == value || (worm && p == "WORM");
  }

  lemma SetLineText(key: string, value: string, worm: bool)
    ensures Join(["SET", key, value] + if worm then ["WORM"] else []) ==
            "SET " + key + " " + value + if worm then " WORM" else ""
  {
    var end := if worm then ["WORM"] else [];
    var tail := if worm then " WORM" else "";
    assert Join([value] + end) == value + tail by {
      if worm { JoinTwo(value, end); } else { assert [value] + end == [value]; }
    }
    JoinTwo(key, [value] + end);
    JoinTwo("SET", [key] + ([value] + end));
    assert ["SET", key, value] + end == ["SET"] + ([key] + ([value] + end));
    assert "SET" + (" " + (key + (" " + (value + tail)))) == "SET " + key + " " + value + tail;
  }

  lemma {:induction false} NonEmptyIff(ws: seq<string>)
    ensures NonEmpty(ws) == ws <==> forall i :: 0 <= i < |ws| ==> ws[i] != ""
    ensures |NonEmpty(ws)| <= |ws|
  {
    if ws != [] {
      NonEmptyIff(ws[1..]);
      assert ws == [ws[0]] + ws[1..];
      assert forall i :: 0 <= i < |ws| - 1 ==> ws[1..][i] == ws[i + 1];
      if forall i :: 0 <= i < |ws[1..]| ==> ws[1..][i] != "" {
        assert forall i :: 1 <= i < |ws| ==> ws[i] == ws[1..][i - 1];
      }
    }
  }

  /** Dropping empty words shortens the joined text. */
  lemma {:induction false} JoinShrinks(ws: seq<string>)
    requires NonEmpty(ws) != []
    ensures NonEmpty(ws) == ws || |Join(NonEmpty(ws))| < |Join(ws)|
  {
    var t := ws[1..];
    assert ws == [ws[0]] + t;
    if NonEmpty(t) != [] {
      JoinShrinks(t);
      JoinTwo(ws[0], t);
      JoinTwo(ws[0], NonEmpty(t));
      if ws[0] == "" { assert NonEmpty(ws) == NonEmpty(t); }
    } else if t != [] {
      JoinTwo(ws[0], t);
    }
  }

  /** PUB comes back exactly when no word of the message is empty. */
  lemma {:induction false} PubLine(upper: Case, channel: string, ws: seq<string>)
    requires upper("PUB") == "PUB"
    requires Solid(channel) && channel != "" && AllSolid(ws) && ws != []
    ensures ParseCommand(upper, "PUB " + channel + " " + Join(ws)) == Ok(Pub(channel, Join(ws))) <==>
            forall i :: 0 <= i < |ws| ==> ws[i] != ""
  {
    hide *;
    PubWords(upper, channel, ws);
    NonEmptyIff(ws);
    if NonEmpty(ws) != [] { JoinShrinks(ws); }
  }

  lemma {:induction false} PubWords(upper: Case, channel: string, ws: seq<string>)
    requires upper("PUB") == "PUB"
    requires Solid(channel) && channel != "" && AllSolid(ws) && ws != []
    ensures ParseCommand(upper, "PUB " + channel + " " + Join(ws)) ==
            if NonEmpty(ws) == [] then Invalid("PUB") else Ok(Pub(channel, Join(NonEmpty(ws))))
  {
    hide Split, Trim, Join, NonEmpty, Space;
    PubLineText(channel, ws);
    var all := ["PUB"] + ([channel] + ws);
    assert Solid("PUB") by { SolidVerbs(); }
    assert AllSolid(all);
    SplitOfJoin(all);
    NonEmptyCons("PUB", [channel] + ws);
    NonEmptyCons(channel, ws);
    var kept := NonEmpty(ws);
    var parts := ["PUB"] + ([channel] + kept);
    assert parts[0] == "PUB" && parts[1] == channel && parts[2..] == kept;
  }

  lemma SolidVerbs()
    ensures Solid("PUB") && Solid("SUB")
  {}

  lemma {:induction false} NonEmptyCons(w: string, ws: seq<string>)
    requires w != ""
    ensures NonEmpty([w] + ws) == [w] + NonEmpty(ws)
  {
    assert ([w] + ws)[1..] == ws;
  }

  lemma {:induction false} PubLineText(channel: string, ws: seq<string>)
    requires ws != []
    ensures Join(["PUB"] + ([channel] + ws)) == "PUB " + channel + " " + Join(ws)
  {
    hide Join;
    JoinTwo(channel, ws);
    JoinTwo("PUB", [channel] + ws);
    assert "PUB" + (" " + (channel + (" " + Join(ws)))) == "PUB " + channel + " " + Join(ws);
  }

  /** The CLI's own forms parse back to what was meant exactly when the arguments are recoverable. */
  lemma BuiltInRecovered(upper: Case, lower: Case, parts: seq<string>)
    requires KeepsCapitals(upper) && AllSolid(parts) && BuiltIn(lower, parts)
    ensures var line := BuildCommand(lower, parts).value;
            ParseCommand(upper, line) == Ok(Meant(lower, parts)) <==> Recoverable(upper, lower, parts)
  {
    hide ParseCommand, Join, Solid, KeepsCapitals;
    CapitalVerbs(upper);
    var line := BuildCommand(lower, parts).value;
    NoEmptyFields(upper, line);
    match lower(parts[0])
    case "status" => StatusLines(upper);
    case "cluster-status" => StatusLines(upper);
    case "get" =>
      assert "GET" + " " == "GET ";
      if parts[1] != "" { OneField(upper, "GET", parts[1]); }
    case "del" =>
      assert "DEL" + " " == "DEL ";
      if parts[1] != "" { OneField(upper, "DEL", parts[1]); }
    case "set" =>
      if parts[1] != "" && parts[2] != "" { SetLine(upper, parts[1], parts[2], "--worm" in parts); }
    case _ =>
      if parts[1] != "" {
        PubLine(upper, parts[1], parts[2..]);
        assert (forall i :: 0 <= i < |parts[2..]| ==> parts[2..][i] != "") <==>
               (forall i :: 2 <= i < |parts| ==> parts[i] != "") by {
          assert forall i :: 2 <= i < |parts| ==> parts[i] == parts[2..][i - 2];
        }
      }
  }

  lemma StatusLines(upper: Case)
    requires upper("STATUS") == "STATUS" && upper("CLUSTER") == "CLUSTER"
    ensures ParseCommand(upper, "STATUS") == Ok(Status)
    ensures ParseCommand(upper, "CLUSTER STATUS") == Ok(ClusterStatus)
  {
    hide ParseCommand;
    assert Solid("STATUS") && Solid("CLUSTER");
    assert Join(["STATUS"]) == "STATUS";
    ParseOfWords(upper, ["STATUS"]);
    JoinTwo("CLUSTER", ["STATUS"]);
    assert ["CLUSTER"] + ["STATUS"] == ["CLUSTER", "STATUS"];
    assert "CLUSTER" + (" " + "STATUS") == "CLUSTER STATUS";
    ParseOfWords(upper, ["CLUSTER", "STATUS"]);
  }

  // ---------------------------------------------------------------------------
  // Everything else is passed through
  // ---------------------------------------------------------------------------

  /** What the words of a SUB line mean: the filter is the rest of the line. */
  function SubOf(parts: seq<string>): Parsed
  {
    if |parts| < 2 || !SubWord(parts[0]) then Invalid("SUB")
    else Ok(Sub(parts[1], if |parts| == 2 then None else Some(Join(parts[2..]))))
  }

  lemma {:induction false} JoinHasNoLineEnd(ws: seq<string>)
    requires AllWords(ws)
    ensures forall c | c in Join(ws) :: !LineEnd(c)
  {
    if |ws| == 1 {
      assert forall i :: 0 <= i < |ws[0]| ==> !LineEnd(ws[0][i]);
    } else if |ws| > 1 {
      JoinHasNoLineEnd(ws[1..]);
      assert forall i :: 0 <= i < |ws[0]| ==> !LineEnd(ws[0][i]);
    }
  }

  lemma {:induction false} GapOne(tail: string)
    requires tail != "" && !Space(tail[0])
    ensures SpaceLen(" " + tail) == 1
    ensures (" " + tail)[1..] == tail
  {
    assert (" " + tail)[1..] == tail;
    assert SpaceLen(tail) == 0;
  }

  /** A line that does not start with the word SUB does not match. */
  lemma NotSub(w: string, rest: string)
    requires Solid(w) && w != "" && !SubWord(w) && (rest == "" || rest[0] == ' ')
    ensures ParseSub(w + rest) == Invalid("SUB")
  {
    var line := w + rest;
    if |w| < 3 {
      assert |line| >= 3 ==> line[|w|] == ' ';
    } else if |w| == 3 {
      assert line[..3] == w;
    } else {
      assert line[3..][0] == w[3];
    }
  }

  /** The part after the word SUB. */
  lemma {:induction false} SubBody(w: string, channel: string, rest: seq<string>)
    requires SubWord(w) && AllWords([channel] + rest)
    ensures ParseSub(w + (" " + Join([channel] + rest))) ==
            Ok(Sub(channel, if rest == [] then None else Some(Join(rest))))
  {
    hide Space, LineEnd, SpaceLen, WordLen, Join, SubWord, Solid, ParseSub;
    var ws := [channel] + rest;
    var tail := Join(ws);
    assert ws[0] == channel;
    JoinShape(ws);
    AfterSub(w, tail);
    if rest == [] {
      assert ws == [channel];
      JoinOne(channel);
      WordLenOf(channel, "");
      assert channel + "" == channel;
    } else {
      assert AllWords(rest) by { assert forall i :: 0 <= i < |rest| ==> rest[i] == ws[i + 1]; }
      JoinTwo(channel, rest);
      FilterText(channel, rest);
    }
    SubUnfolds(w + (" " + tail));
  }

  lemma AfterSub(w: string, tail: string)
    requires SubWord(w) && tail != "" && !Space(tail[0])
    ensures var line := w + (" " + tail);
            |line| >= 4 && line[..3] == w && SpaceLen(line[3..]) == 1 && line[4..] == tail
  {
    hide Space, SpaceLen;
    GapOne(tail);
    assert (w + (" " + tail))[3..] == " " + tail;
  }

  lemma {:induction false} FilterText(channel: string, rest: seq<string>)
    requires Solid(channel) && channel != "" && AllWords(rest) && rest != []
    ensures var filter := Join(rest);
            var tail := channel + (" " + filter);
            var n := WordLen(tail);
            && n == |channel| && n + 1 < |tail| && SpaceLen(tail[n..]) == 1
            && tail[..n] == channel && tail[n + 1..] == filter
            && forall c | c in filter :: !LineEnd(c)
  {
    hide Space, LineEnd, SpaceLen, WordLen, Join, Solid;
    SpaceIsSpace();
    var filter := Join(rest);
    JoinShape(rest);
    JoinHasNoLineEnd(rest);
    WordLenOf(channel, " " + filter);
    GapOne(filter);
    var tail := channel + (" " + filter);
    assert tail[|channel|..] == " " + filter;
  }

  /** A line SUB, one space, and the rest: what the groups capture. */
  lemma SubUnfolds(line: string)
    requires |line| >= 4 && SubWord(line[..3]) && SpaceLen(line[3..]) == 1
    ensures var rest := line[4..];
            var n := WordLen(rest);
            && (0 < n == |rest| ==> ParseSub(line) == Ok(Sub(rest, None)))
            && (0 < n && n + 1 < |rest| && SpaceLen(rest[n..]) == 1 &&
                (forall c | c in rest[n + 1..] :: !LineEnd(c)) ==>
                  ParseSub(line) == Ok(Sub(rest[..n], Some(rest[n + 1..]))))
  {
    hide SpaceLen, WordLen, SubWord, LineEnd, Space;
  }

  lemma SpaceIsSpace()
    ensures Space(' ')
  {}

  lemma JoinOne(w: string)
    ensures Join([w]) == w
  {}

  lemma {:induction false} SubLine(parts: seq<string>)
    requires AllWords(parts) && parts != []
    ensures ParseSub(Join(parts)) == SubOf(parts)
  {
    hide Space, Join, SpaceLen, WordLen, ParseSub;
    var w := parts[0];
    if |parts| == 1 {
      JoinOne(w);
      assert parts == [w];
      LoneWord(w);
    } else {
      var tail := Join(parts[1..]);
      assert parts == [w] + parts[1..] && parts[1..] == [parts[1]] + parts[2..];
      JoinTwo(w, parts[1..]);
      if SubWord(w) {
        SubBody(w, parts[1], parts[2..]);
      } else {
        NotSub(w, " " + tail);
      }
    }
  }

  lemma LoneWord(w: string)
    requires Solid(w)
    ensures ParseSub(w) == Invalid("SUB")
  {
    if |w| > 3 { assert w[3..][0] == w[3]; }
  }

  /** Any other arguments reach the parser word for word. */
  lemma PassedThrough(upper: Case, lower: Case, parts: seq<string>)
    requires AllWords(parts) && parts != [] && !BuiltIn(lower, parts)
    ensures var line := BuildCommand(lower, parts).value;
            ParseCommand(upper, line) == if upper(parts[0]) == "SUB" then SubOf(parts) else FromWords(upper, parts)
  {
    hide FromWords, Split, SubOf, ParseSub, Join, Trim;
    assert BuildCommand(lower, parts) == Some(Join(parts));
    SplitOfJoin(parts);
    JoinShape(parts);
    SubLine(parts);
  }

  // ---------------------------------------------------------------------------
  // Every command has a text that parses to it
  // ---------------------------------------------------------------------------

  function Verb(t: Text): string
  {
    match t
    case Get(_) => "GET"
    case Del(_) => "DEL"
    case Sub(_, _) => "SUB"
    case Unsub(_) => "UNSUB"
    case Status => "STATUS"
    case ClusterStatus => "CLUSTER"
    case ClusterPeers => "CLUSTER"
    case Set(_, _, _) => "SET"
    case Pub(_, _) => "PUB"
    case Exec(_, _) => "EXEC"
  }

  /** The words after the verb. */
  function Tail(t: Text): seq<string>
  {
    match t
    case Get(key) => [key]
    case Del(key) => [key]
    case Sub(channel, filter) => [channel] + (if filter.Some? then Words(filter.value) else [])
    case Unsub(channel) => [channel]
    case Status => []
    case ClusterStatus => ["STATUS"]
    case ClusterPeers => ["PEERS"]
    case Set(key, value, worm) => [key, value] + (if worm then ["WORM"] else [])
    case Pub(channel, message) => [channel] + Words(message)
    case Exec(procedure, args) => [procedure] + args
  }

  predicate Field(w: string) { w != "" && Solid(w) }

  /** Words with one space between them. */
  predicate Phrase(s: string) { s != "" && Join(Words(s)) == s }

  /** The fields are words, free texts are phrases, and no SET field reads as WORM unless the flag is set. */
  predicate Printable(upper: Case, t: Text)
  {
    match t
    case Get(key) => Field(key)
    case Del(key) => Field(key)
    case Sub(channel, filter) => Field(channel) && (filter.Some? ==> Phrase(filter.value))
    case Unsub(channel) => Field(channel)
    case Status => true
    case ClusterStatus => true
    case ClusterPeers => true
    case Set(key, value, worm) =>
      Field(key) && Field(value) && (worm || (upper(key) != "WORM" && upper(value) != "WORM"))
    case Pub(channel, message) => Field(channel) && Phrase(message)
    case Exec(procedure, args) => Field(procedure) && AllWords(args)
  }

  lemma MoreCapitals(upper: Case)
    requires KeepsCapitals(upper)
    ensures forall w | w in {"UNSUB", "EXEC", "SUB", "PEERS"} :: upper(w) == w
  {
    forall w | w in {"UNSUB", "EXEC", "SUB", "PEERS"} ensures upper(w) == w {
      assert Capitals(w);
    }
  }

  lemma TailIsWords(upper: Case, t: Text)
    requires Printable(upper, t)
    ensures AllWords(Tail(t))
  {
    hide Words, Join;
    if t.ClusterStatus? { assert Solid("STATUS"); }
    if t.ClusterPeers? { assert Solid("PEERS"); }
    if t.Set? { assert Solid("WORM"); }
  }

  lemma PhraseHasWords(s: string)
    requires Phrase(s)
    ensures Words(s) != []
  {
    hide Words;
    assert Join([]) == "";
  }

  /**
   Round trip: the verb in any spelling that reads as it, then the fields, parses to the command.
   SUB is the one verb whose spelling the regular expression checks on its own.
   */
  lemma ParsesPrinted(upper: Case, t: Text, verb: string)
    requires KeepsCapitals(upper) && Printable(upper, t)
    requires Field(verb) && upper(verb) == Verb(t) && (t.Sub? ==> SubWord(verb))
    ensures ParseCommand(upper, Join([verb] + Tail(t))) == Ok(t)
  {
    hide ParseCommand, Join, Solid, KeepsCapitals, Words, SubWord;
    CapitalVerbs(upper);
    MoreCapitals(upper);
    TailIsWords(upper, t);
    var ws := [verb] + Tail(t);
    assert ws[0] == verb && ws[1..] == Tail(t);
    if t.Sub? {
      assert verb != "" && AllWords(ws);
      SubLineParses(upper, ws);
      SubOfTail(t, verb);
    } else {
      ParseOfWords(upper, ws);
      FromPrinted(upper, t, ws);
    }
  }

  /** A SUB line goes through the regular expression. */
  lemma SubLineParses(upper: Case, ws: seq<string>)
    requires AllWords(ws) && ws != [] && upper(ws[0]) == "SUB"
    ensures ParseCommand(upper, Join(ws)) == SubOf(ws)
  {
    hide FromWords, Split, SubOf, ParseSub, Join, Trim;
    SplitOfJoin(ws);
    JoinShape(ws);
    SubLine(ws);
  }

  lemma SubOfTail(t: Text, verb: string)
    requires t.Sub? && SubWord(verb) && (t.filter.Some? ==> Phrase(t.filter.value))
    ensures SubOf([verb] + Tail(t)) == Ok(t)
  {
    hide Words, Join, SubWord;
    var ws := [verb] + Tail(t);
    assert ws[0] == verb && ws[1] == t.channel;
    if t.filter.Some? {
      PhraseHasWords(t.filter.value);
      assert ws[2..] == Words(t.filter.value);
    }
  }

  lemma FromPrinted(upper: Case, t: Text, ws: seq<string>)
    requires ws != [] && ws[1..] == Tail(t) && upper(ws[0]) == Verb(t) && !t.Sub?
    requires upper("STATUS") == "STATUS" && upper("PEERS") == "PEERS" && upper("WORM") == "WORM"
    requires Printable(upper, t)
    ensures FromWords(upper, ws) == Ok(t)
  {
    hide Join, Solid, Words;
    var tail := Tail(t);
    assert forall i :: 0 <= i < |tail| ==> ws[i + 1] == tail[i];
    match t {
      case Pub(channel, message) =>
        PhraseHasWords(message);
        assert ws[2..] == tail[1..] == Words(message);
      case Exec(procedure, args) =>
        assert ws[2..] == tail[1..] == args;
      case Set(key, value, worm) => WormFlag(upper, ws, key, value, worm);
      case _ =>
    }
  }

  /** The flag is raised by the word WORM and, as the fields are not spelled so, by nothing else. */
  lemma WormFlag(upper: Case, ws: seq<string>, key: string, value: string, worm: bool)
    requires |ws| >= 3 && ws[1] == key && ws[2] == value && upper(ws[0]) == "SET" && upper("WORM") == "WORM"
    requires if worm then |ws| == 4 && ws[3] == "WORM" else |ws| == 3
    requires worm || (upper(key) != "WORM" && upper(value) != "WORM")
    ensures (exists p | p in ws :: upper(p) == "WORM") <==> worm
  {
    if worm {
      assert ws[3] in ws;
    } else {
      assert forall p | p in ws :: p == ws[0] || p == ws[1] || p == ws[2];
    }
  }

  /** How many words a verb needs at least, itself included. */
  function Needs(verb: string): nat
  {
    if verb in {"GET", "DEL", "UNSUB", "EXEC"} then 2 else 3
  }

  /** Too few words are reported with the verb. */
  lemma TooFewWords(upper: Case, ws: seq<string>)
    requires AllWords(ws) && ws != []
    ensures upper(ws[0]) in {"GET", "DEL", "UNSUB", "EXEC", "SET", "PUB"} && |ws| < Needs(upper(ws[0])) ==>
              ParseCommand(upper, Join(ws)) == Invalid(upper(ws[0]))
    ensures upper(ws[0]) == "SUB" && (|ws| < 2 || !SubWord(ws[0])) ==> ParseCommand(upper, Join(ws)) == Invalid("SUB")
  {
    hide ParseCommand, Join, Solid, SubWord, Needs, FromWords;
    if upper(ws[0]) == "SUB" {
      SubLineParses(upper, ws);
    } else if upper(ws[0]) in {"GET", "DEL", "UNSUB", "EXEC", "SET", "PUB"} && |ws| < Needs(upper(ws[0])) {
      ParseOfWords(upper, ws);
      FewInWords(upper, ws);
    }
  }

  lemma FewInWords(upper: Case, ws: seq<string>)
    requires ws != [] && upper(ws[0]) in {"GET", "DEL", "UNSUB", "EXEC", "SET", "PUB"}
    requires |ws| < Needs(upper(ws[0]))
    ensures FromWords(upper, ws) == Invalid(upper(ws[0]))
  {
    hide Join;
  }

  /** An unknown verb is reported, and so is CLUSTER without STATUS or PEERS. */
  lemma UnknownVerb(upper: Case, ws: seq<string>)
    requires AllWords(ws) && ws != []
    ensures upper(ws[0]) == "CLUSTER" && (|ws| < 2 || upper(ws[1]) !in {"STATUS", "PEERS"}) ==>
              ParseCommand(upper, Join(ws)) == Unsupported("CLUSTER")
    ensures upper(ws[0]) !in {"GET", "DEL", "SUB", "UNSUB", "STATUS", "CLUSTER", "SET", "PUB", "EXEC"} ==>
              ParseCommand(upper, Join(ws)) == Unsupported(upper(ws[0]))
  {
    hide ParseCommand, Join, Solid, SubWord, FromWords;
    if upper(ws[0]) != "SUB" {
      ParseOfWords(upper, ws);
      UnknownInWords(upper, ws);
    }
  }

  lemma UnknownInWords(upper: Case, ws: seq<string>)
    requires ws != []
    ensures upper(ws[0]) == "CLUSTER" && (|ws| < 2 || upper(ws[1]) !in {"STATUS", "PEERS"}) ==>
              FromWords(upper, ws) == Unsupported("CLUSTER")
    ensures upper(ws[0]) !in {"GET", "DEL", "SUB", "UNSUB", "STATUS", "CLUSTER", "SET", "PUB", "EXEC"} ==>
              FromWords(upper, ws) == Unsupported(upper(ws[0]))
  {
    hide Join;
  }

  /** A line without words is no command. */
  lemma BlankLine(upper: Case, line: string)
    requires Words(line) == []
    ensures ParseCommand(upper, line) == MissingCommand
  {
    hide Words, Split, Trim, FromWords, ParseSub;
    SplitOfTrim(line);
  }

  /** The spaces, one by one. */
  lemma SpacesAre(c: char)
    ensures Space(c) <==>
            c in {'\t', '\n', '\U{000B}', '\U{000C}', '\r', ' ', '\U{00A0}', '\U{1680}',
                  '\U{2000}', '\U{2001}', '\U{2002}', '\U{2003}', '\U{2004}', '\U{2005}',
                  '\U{2006}', '\U{2007}', '\U{2008}', '\U{2009}', '\U{200A}',
                  '\U{2028}', '\U{2029}', '\U{202F}', '\U{205F}', '\U{3000}', '\U{FEFF}'}
  {}
}
