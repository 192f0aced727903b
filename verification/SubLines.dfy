/**
 SUB lines as they are typed, with any spacing: what the pattern of `parseCommand` captures.
 */
module SubLines {
  import opened Bytes
  import opened TextCommand

  predicate Spaces(s: string) { s != "" && forall i :: 0 <= i < |s| ==> Space(s[i]) }

  /** Text without spaces at its ends. */
  predicate Trimmed(s: string) { s != "" && !Space(s[0]) && !Space(s[|s| - 1]) }

  lemma {:induction false} SpaceLenOf(gap: string, rest: string)
    requires Spaces(gap) && Trimmed(rest)
    ensures SpaceLen(gap + rest) == |gap|
  {
    hide Space;
    var n := SpaceLen(gap + rest);
    assert forall i :: 0 <= i < |gap| ==> (gap + rest)[i] == gap[i];
    assert (gap + rest)[|gap|] == rest[0];
  }

  lemma {:induction false} TrimmedStays(s: string)
    requires Trimmed(s)
    ensures Trim(s) == s
  {
    assert SpaceLen(s) == 0 && s[0..] == s;
  }

  lemma TrimmedAround(a: string, b: string, c: string)
    requires TextCommand.Field(a) && Trimmed(c)
    ensures Trimmed(a + b + c)
  {
    hide Space;
    assert (a + b + c)[0] == a[0] && (a + b + c)[|a + b + c| - 1] == c[|c| - 1];
  }

  /** The three letters of a SUB in any spelling. */
  lemma SubWordIs(w: string)
    ensures SubWord(w) <==> w in {"SUB", "SUb", "SuB", "Sub", "sUB", "sUb", "suB", "sub"}
  {
    if SubWord(w) { assert w == [w[0], w[1], w[2]]; }
  }

  /** The filter of a SUB line is the rest of the line as it stands, inner spacing kept; it must not span lines. */
  lemma {:induction false} FilterVerbatim(upper: Case, verb: string, gap: string, channel: string, next: string,
                                          filter: string)
    requires upper(verb) == "SUB" && SubWord(verb) && TextCommand.Field(channel)
    requires Spaces(gap) && Spaces(next) && Trimmed(filter)
    ensures ParseCommand(upper, verb + gap + (channel + next + filter)) ==
            if exists c | c in filter :: c in {'\n', '\r', '\U{2028}', '\U{2029}'} then Invalid("SUB")
            else Ok(Sub(channel, Some(filter)))
  {
    hide Space, SpaceLen, WordLen, ParseSub, ParseCommand, LineEnd, SubWord, Spaces, Trimmed, Solid;
    VerbIsField(verb);
    TrimmedAround(channel, next, filter);
    SubLineTrimmed(upper, verb, gap, channel + next + filter);
    SpaceLenOf(gap, channel + next + filter);
    SpaceThenWord(channel, next, filter);
    SubGroups(verb, gap, channel, next, filter);
    LineEndsAre(filter);
  }

  lemma LineEndsAre(s: string)
    ensures (exists c | c in s :: LineEnd(c)) <==>
            exists c | c in s :: c in {'\n', '\r', '\U{2028}', '\U{2029}'}
  {}

  lemma SpaceThenWord(channel: string, next: string, filter: string)
    requires TextCommand.Field(channel) && Spaces(next) && Trimmed(filter)
    ensures WordLen(channel + next + filter) == |channel| && SpaceLen(next + filter) == |next|
  {
    hide Space, SpaceLen, WordLen;
    assert channel + next + filter == channel + (next + filter);
    WordLenOf(channel, next + filter);
    SpaceLenOf(next, filter);
  }

  /** A trimmed line whose first word is SUB goes to the pattern. */
  lemma SubLineTrimmed(upper: Case, verb: string, gap: string, tail: string)
    requires TextCommand.Field(verb) && upper(verb) == "SUB" && Spaces(gap) && Trimmed(tail)
    ensures ParseCommand(upper, verb + gap + tail) == ParseSub(verb + gap + tail)
  {
    hide Space, SpaceLen, WordLen, ParseSub, Split, Trim, SubWord;
    var line := verb + gap + tail;
    TrimmedAround(verb, gap, tail);
    TrimmedStays(line);
    assert line == verb + (gap + tail);
    WordLenOf(verb, gap + tail);
    SplitUnfolds(line);
    assert line[..|verb|] == verb;
  }

  lemma VerbIsField(verb: string)
    requires SubWord(verb)
    ensures TextCommand.Field(verb) && |verb| == 3
  {}

  /** What the groups capture, by position. */
  lemma SubPositions(line: string, g: nat, n: nat, m: nat)
    requires |line| >= 3 && SubWord(line[..3]) && SpaceLen(line[3..]) == g && 0 < g
    requires 0 < n == WordLen(line[3 + g..]) && 3 + g + n + m < |line|
    requires SpaceLen(line[3 + g..][n..]) == m
    ensures var filter := line[3 + g..][n + m..];
            ParseSub(line) == if exists c | c in filter :: LineEnd(c) then Invalid("SUB")
                              else Ok(Sub(line[3 + g..][..n], Some(filter)))
  {
    hide SpaceLen, WordLen, LineEnd, SubWord;
  }

  lemma Pieces(verb: string, gap: string, channel: string, next: string, filter: string)
    requires |verb| == 3
    ensures var line := verb + gap + (channel + next + filter);
            && line[..3] == verb && line[3..] == gap + (channel + next + filter)
            && line[3 + |gap|..] == channel + next + filter
            && line[3 + |gap|..][..|channel|] == channel
            && line[3 + |gap|..][|channel|..] == next + filter
            && line[3 + |gap|..][|channel| + |next|..] == filter
  {
    var tail := channel + next + filter;
    assert verb + gap + tail == verb + (gap + tail);
    assert tail == channel + (next + filter);
  }

  lemma SubGroups(verb: string, gap: string, channel: string, next: string, filter: string)
    requires SubWord(verb) && |verb| == 3
    requires TextCommand.Field(channel) && Spaces(gap) && Spaces(next) && Trimmed(filter)
    requires SpaceLen(gap + (channel + next + filter)) == |gap|
    requires WordLen(channel + next + filter) == |channel| && SpaceLen(next + filter) == |next|
    ensures ParseSub(verb + gap + (channel + next + filter)) ==
            if exists c | c in filter :: LineEnd(c) then Invalid("SUB") else Ok(Sub(channel, Some(filter)))
  {
    hide Space, SpaceLen, WordLen, LineEnd, SubWord, ParseSub, Solid;
    Pieces(verb, gap, channel, next, filter);
    SubPositions(verb + gap + (channel + next + filter), |gap|, |channel|, |next|);
  }
}
