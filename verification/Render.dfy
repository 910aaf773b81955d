/** Speaker turns of a transcript, rendered as lines of text. */
module Render {
  import opened Strings
  import opened Wrappers

  datatype Speaker = Number(value: int) | Name(text: string)

  datatype Token = Token(text: string, speaker: Option<Speaker>)

  function Display(speaker: Speaker): string {
    match speaker
    case Number(n) => if n < 0 then "-" + Decimal(-n) else Decimal(n)
    case Name(text) => text
  }

  /** Labels are compared as they are displayed. */
  function Label(token: Token): Option<string> {
    match token.speaker
    case Some(speaker) => Some(Display(speaker))
    case None => None
  }

  function Text(tokens: seq<Token>): string {
    if tokens == [] then "" else tokens[0].text + Text(tokens[1..])
  }

  lemma {:induction false} TextOfBoth(a: seq<Token>, b: seq<Token>)
    ensures Text(a + b) == Text(a) + Text(b)
    decreases |a|
  {
    if a == [] {
      assert a + b == b;
    } else {
      assert (a + b)[1..] == a[1..] + b;
      TextOfBoth(a[1..], b);
    }
  }

  // -- Turns ------------------------------------------------------------------------------

  predicate SameLabel(tokens: seq<Token>) {
    forall i | 0 <= i < |tokens| :: Label(tokens[i]) == Label(tokens[0])
  }

  function Flatten(groups: seq<seq<Token>>): seq<Token> {
    if groups == [] then [] else groups[0] + Flatten(groups[1..])
  }

  /** The tokens cut into runs of one label that cannot be extended. */
  ghost predicate IsGrouping(tokens: seq<Token>, groups: seq<seq<Token>>) {
    && Flatten(groups) == tokens
    && (forall i | 0 <= i < |groups| :: groups[i] != [] && SameLabel(groups[i]))
    && (forall i | 0 < i < |groups| :: Label(groups[i - 1][0]) != Label(groups[i][0]))
  }

  /** How many leading tokens have the first token's label. */
  function RunLength(tokens: seq<Token>): (n: nat)
    requires tokens != []
    ensures 1 <= n <= |tokens|
  {
    if |tokens| > 1 && Label(tokens[1]) == Label(tokens[0]) then 1 + RunLength(tokens[1..]) else 1
  }

  lemma {:induction false} RunLengthIs(tokens: seq<Token>)
    requires tokens != []
    ensures forall i | 0 <= i < RunLength(tokens) :: Label(tokens[i]) == Label(tokens[0])
    ensures RunLength(tokens) < |tokens| ==> Label(tokens[RunLength(tokens)]) != Label(tokens[0])
  {
    if |tokens| > 1 && Label(tokens[1]) == Label(tokens[0]) {
      var rest := tokens[1..];
      RunLengthIs(rest);
      forall i | 0 <= i < RunLength(tokens) ensures Label(tokens[i]) == Label(tokens[0]) {
        assert i > 0 ==> rest[i - 1] == tokens[i];
      }
    }
  }

  function Groups(tokens: seq<Token>): seq<seq<Token>> {
    if tokens == [] then []
    else
      var n := RunLength(tokens);
      [tokens[..n]] + Groups(tokens[n..])
  }

  /** There is exactly one such grouping. */
  lemma {:induction false} OnlyGrouping(tokens: seq<Token>, groups: seq<seq<Token>>)
    ensures IsGrouping(tokens, groups) <==> groups == Groups(tokens)
    decreases |tokens|
  {
    GroupsAreAGrouping(tokens);
    if IsGrouping(tokens, groups) {
      GroupingIsUnique(tokens, groups);
    }
  }

  lemma {:induction false} GroupsAreAGrouping(tokens: seq<Token>)
    ensures IsGrouping(tokens, Groups(tokens))
    decreases |tokens|
  {
    if tokens != [] {
      var n := RunLength(tokens);
      var rest := Groups(tokens[n..]);
      RunLengthIs(tokens);
      GroupsAreAGrouping(tokens[n..]);
      var groups := Groups(tokens);
      assert groups[1..] == rest && tokens[..n] + tokens[n..] == tokens;
      forall i | 0 < i < |groups| ensures Label(groups[i - 1][0]) != Label(groups[i][0]) {
        if i == 1 {
          assert rest[0] == tokens[n..][..RunLength(tokens[n..])];
        } else {
          assert groups[i - 1] == rest[i - 2] && groups[i] == rest[i - 1];
        }
      }
    }
  }

  lemma {:induction false} GroupingIsUnique(tokens: seq<Token>, groups: seq<seq<Token>>)
    requires IsGrouping(tokens, groups)
    ensures groups == Groups(tokens)
    decreases |groups|
  {
    if groups == [] {
    } else {
      var first, rest := groups[0], groups[1..];
      var after := Flatten(rest);
      assert tokens == first + after && tokens[|first|..] == after && tokens[..|first|] == first;
      if after != [] {
        assert rest != [] && rest[0] != [] && after[0] == rest[0][0];
        assert Label(groups[0][0]) != Label(groups[1][0]);
      }
      forall i | 0 <= i < |first| ensures Label(tokens[i]) == Label(tokens[0]) {
        assert tokens[i] == first[i];
      }
      FirstRun(tokens, |first|);
      forall i | 0 < i < |rest| ensures Label(rest[i - 1][0]) != Label(rest[i][0]) {
        assert Label(groups[i][0]) != Label(groups[i + 1][0]);
      }
      GroupingIsUnique(after, rest);
    }
  }

  lemma FirstRun(tokens: seq<Token>, n: nat)
    requires 1 <= n <= |tokens| && forall i | 0 <= i < n :: Label(tokens[i]) == Label(tokens[0])
    requires n < |tokens| ==> Label(tokens[n]) != Label(tokens[0])
    ensures RunLength(tokens) == n
  {
    RunLengthIs(tokens);
  }

  predicate Apart(a: seq<Token>, b: seq<Token>) {
    a != [] && b != [] ==> Label(a[|a| - 1]) != Label(b[0])
  }

  /** The first group of two stretches that do not join up is the first group of the first. */
  lemma FrontOfBoth(a: seq<Token>, b: seq<Token>, n: nat)
    requires a != [] && Apart(a, b) && n == RunLength(a)
    ensures Apart(a[n..], b)
    ensures Groups(a + b) == [a[..n]] + Groups(a[n..] + b)
  {
    var c := a + b;
    RunLengthIs(a);
    forall i | 0 <= i < n ensures Label(c[i]) == Label(c[0]) {
      assert c[i] == a[i];
    }
    FirstRun(c, n);
    assert c[..n] == a[..n];
    assert c[n..] == a[n..] + b;
  }

  /** Two stretches with different labels where they meet are grouped apart. */
  lemma {:induction false} GroupsOfBoth(a: seq<Token>, b: seq<Token>)
    requires Apart(a, b)
    ensures Groups(a + b) == Groups(a) + Groups(b)
    decreases |a|
  {
    if a == [] {
      assert a + b == b;
    } else {
      var n := RunLength(a);
      FrontOfBoth(a, b, n);
      GroupsOfBoth(a[n..], b);
      Regroup([a[..n]], Groups(a[n..]), Groups(b));
    }
  }

  lemma Regroup<T>(x: seq<T>, y: seq<T>, z: seq<T>)
    ensures x + (y + z) == (x + y) + z
  {
  }

  // -- Lines -------------------------------------------------------------------------------

  function Show(who: Option<string>, words: string): string {
    match who
    case Some(id) => "Speaker " + id + ": " + words
    case None => words
  }

  predicate AllTurns(groups: seq<seq<Token>>) {
    forall i | 0 <= i < |groups| :: groups[i] != []
  }

  /** The trimmed words of every group that is not blank. */
  function Words(groups: seq<seq<Token>>): seq<string> {
    if groups == [] then []
    else
      var words := Trim(Text(groups[0]));
      (if words == "" then [] else [words]) + Words(groups[1..])
  }

  /** The same, each behind its label. */
  function Lines(groups: seq<seq<Token>>): (ls: seq<string>)
    requires AllTurns(groups)
  {
    if groups == [] then []
    else
      var words := Trim(Text(groups[0]));
      (if words == "" then [] else [Show(Label(groups[0][0]), words)]) + Lines(groups[1..])
  }

  function Joined(ls: seq<string>): string {
    if ls == [] then ""
    else if |ls| == 1 then ls[0]
    else Joined(ls[..|ls| - 1]) + "\n" + ls[|ls| - 1]
  }

  predicate NoBlanks(ls: seq<string>) {
    forall i | 0 <= i < |ls| :: ls[i] != ""
  }

  lemma {:induction false} LinesOfBoth(a: seq<seq<Token>>, b: seq<seq<Token>>)
    requires AllTurns(a) && AllTurns(b)
    ensures Lines(a + b) == Lines(a) + Lines(b)
    decreases |a|
  {
    if a == [] {
      assert a + b == b;
    } else {
      assert (a + b)[1..] == a[1..] + b;
      LinesOfBoth(a[1..], b);
    }
  }

  lemma {:induction false} LinesAreNotBlank(groups: seq<seq<Token>>)
    requires AllTurns(groups)
    ensures NoBlanks(Lines(groups))
  {
    if groups != [] {
      LinesAreNotBlank(groups[1..]);
    }
  }

  function LinesOf(tokens: seq<Token>): seq<string> {
    GroupsAreAGrouping(tokens);
    Lines(Groups(tokens))
  }

  predicate HasSpeakers(tokens: seq<Token>) {
    exists i | 0 <= i < |tokens| :: tokens[i].speaker.Some?
  }

  /** What rendering means. */
  function Rendered(text: string, tokens: seq<Token>): string {
    if HasSpeakers(tokens) then Joined(LinesOf(tokens)) else Trim(text)
  }

  /** `out` with another line. */
  function Append(out: string, line: string): string {
    if out == "" then line else out + "\n" + line
  }

  lemma OneMoreLine(ls: seq<string>, line: string)
    requires NoBlanks(ls)
    ensures Joined(ls + [line]) == Append(Joined(ls), line)
  {
    assert (ls + [line])[..|ls|] == ls;
    if |ls| > 0 {
      assert ls[|ls| - 1] != "";
    }
  }

  /** What a line comes after: nothing, or the lines so far and a line break. */
  function Started(out: string): string {
    if out == "" then "" else out + "\n"
  }

  /** What the words of a line come after. */
  function Named(speaker: Option<string>): string {
    match speaker
    case Some(name) => "Speaker " + name + ": "
    case None => ""
  }

  lemma AppendIs(out: string, speaker: Option<string>, words: string)
    ensures Append(out, Show(speaker, words)) == Started(out) + Named(speaker) + words
  {
  }

  // -- The loop -------------------------------------------------------------------------------

  method PushSegment(out: string, speaker: Option<string>, segment: string) returns (next: string)
    ensures Trim(segment) == "" ==> next == out
    ensures Trim(segment) != "" ==> next == Started(out) + Named(speaker) + Trim(segment)
  {
    var trimmed := Trim(segment);
    if trimmed == "" {
      return out;
    }
    next := out;
    if next != "" {
      next := next + "\n";
    }
    match speaker {
      case Some(id) => next := next + ("Speaker " + id + ": " + trimmed);
      case None => next := next + trimmed;
    }
  }

  /** One group of tokens, all of one label. */
  lemma OneGroup(run: seq<Token>, who: Option<string>)
    requires run != [] && forall j | 0 <= j < |run| :: Label(run[j]) == who
    ensures Groups(run) == [run]
    ensures Lines([run]) == if Trim(Text(run)) == "" then [] else [Show(who, Trim(Text(run)))]
  {
    assert run[..|run|] == run && run[|run|..] == [];
    FirstRun(run, |run|);
    var words := Trim(Text(run));
    assert [run][1..] == [] && Lines([run][1..]) == [];
  }

  /** The tokens from `k` on form one group, and end the stretch `tokens[..i]`. */
  lemma LastGroup(tokens: seq<Token>, k: nat, i: nat, who: Option<string>)
    requires k < i <= |tokens| && forall j | k <= j < i :: Label(tokens[j]) == who
    requires k > 0 ==> Label(tokens[k - 1]) != who
    ensures var words := Trim(Text(tokens[k..i]));
            LinesOf(tokens[..i]) == LinesOf(tokens[..k]) + (if words == "" then [] else [Show(who, words)])
  {
    var run := tokens[k..i];
    assert tokens[..i] == tokens[..k] + run;
    OneGroup(run, who);
    GroupsOfBoth(tokens[..k], run);
    GroupsAreAGrouping(tokens[..k]);
    LinesOfBoth(Groups(tokens[..k]), [run]);
  }

  /** The loop after `i` tokens: the group open since `k` is in `segment`, the ones before it are in `out`. */
  ghost predicate Open(tokens: seq<Token>, k: nat, i: nat, who: Option<string>, segment: string, out: string) {
    && k <= i <= |tokens| && (k == i ==> k == 0 && who == None)
    && (forall j | k <= j < i :: Label(tokens[j]) == who)
    && (k > 0 ==> Label(tokens[k - 1]) != who)
    && segment == Text(tokens[k..i])
    && out == Joined(LinesOf(tokens[..k]))
  }

  /** Closing the open segment adds the line of its group. */
  lemma SegmentPushed(tokens: seq<Token>, k: nat, i: nat, who: Option<string>, segment: string, out: string)
    requires Open(tokens, k, i, who, segment, out)
    ensures Joined(LinesOf(tokens[..i]))
            == if Trim(segment) == "" then out else Append(out, Show(who, Trim(segment)))
  {
    if k < i {
      LastGroup(tokens, k, i, who);
      GroupsAreAGrouping(tokens[..k]);
      LinesAreNotBlank(Groups(tokens[..k]));
      OneMoreLine(LinesOf(tokens[..k]), Show(who, Trim(segment)));
      assert LinesOf(tokens[..k]) + [] == LinesOf(tokens[..k]);
    } else {
      assert tokens[k..i] == [] && Text([]) == "" && TrimStart("") == "" && TrimEnd("") == "";
    }
  }

  /** A token of the open group. */
  lemma SameGroup(tokens: seq<Token>, k: nat, i: nat, who: Option<string>, segment: string, out: string)
    requires Open(tokens, k, i, who, segment, out) && i < |tokens| && Label(tokens[i]) == who
    ensures Open(tokens, k, i + 1, who, segment + tokens[i].text, out)
  {
    var one := [tokens[i]];
    TextOfBoth(tokens[k..i], one);
    assert tokens[k..i + 1] == tokens[k..i] + one;
    assert one[1..] == [] && Text(one) == tokens[i].text + Text(one[1..]);
  }

  /** A token that starts another group. */
  lemma NextGroup(tokens: seq<Token>, k: nat, i: nat, who: Option<string>, segment: string, out: string, next: string)
    requires Open(tokens, k, i, who, segment, out) && i < |tokens| && Label(tokens[i]) != who
    requires next == if Trim(segment) == "" then out else Append(out, Show(who, Trim(segment)))
    ensures Open(tokens, i, i + 1, Label(tokens[i]), "" + tokens[i].text, next)
  {
    SegmentPushed(tokens, k, i, who, segment, out);
    TextOfOne(tokens[i]);
    assert tokens[i..i + 1] == [tokens[i]];
  }

  lemma TextOfOne(token: Token)
    ensures Text([token]) == "" + token.text
  {
    assert [token][1..] == [];
  }

  method RenderTokens(text: string, tokens: seq<Token>) returns (out: string)
    ensures out == Rendered(text, tokens)
  {
    if !HasSpeakers(tokens) {
      return Trim(text);
    }
    out := "";
    var current: Option<string> := None;
    var segment := "";
    ghost var k := 0;
    assert tokens[..0] == [] && tokens[0..0] == [];
    for i := 0 to |tokens|
      invariant Open(tokens, k, i, current, segment, out)
    {
      var speaker := Label(tokens[i]);
      if speaker != current {
        var next := PushSegment(out, current, segment);
        AppendIs(out, current, Trim(segment));
        NextGroup(tokens, k, i, current, segment, out, next);
        out, segment, current := next, "", speaker;
        k := i;
      } else {
        SameGroup(tokens, k, i, current, segment, out);
      }
      segment := segment + tokens[i].text;
    }
    SegmentPushed(tokens, k, |tokens|, current, segment, out);
    AppendIs(out, current, Trim(segment));
    out := PushSegment(out, current, segment);
    assert tokens[..|tokens|] == tokens;
  }

  // -- Nothing is lost ------------------------------------------------------------------------

  /** The characters that are not white space, in order. */
  function Solid(s: string): string {
    if s == "" then "" else (if IsSpace(s[0]) then "" else [s[0]]) + Solid(s[1..])
  }

  lemma {:induction false} SolidOfBoth(a: string, b: string)
    ensures Solid(a + b) == Solid(a) + Solid(b)
    decreases |a|
  {
    if a == "" {
      assert a + b == b;
    } else {
      assert (a + b)[1..] == a[1..] + b;
      SolidOfBoth(a[1..], b);
    }
  }

  lemma {:induction false} TrimStartIsSolid(s: string)
    ensures Solid(TrimStart(s)) == Solid(s)
  {
    if s != "" && IsSpace(s[0]) {
      TrimStartIsSolid(s[1..]);
    }
  }

  lemma {:induction false} TrimEndIsSolid(s: string)
    ensures Solid(TrimEnd(s)) == Solid(s)
    decreases |s|
  {
    if s != "" && IsSpace(s[|s| - 1]) {
      var body := s[..|s| - 1];
      TrimEndIsSolid(body);
      SolidOfBoth(body, [s[|s| - 1]]);
      assert s == body + [s[|s| - 1]];
      assert Solid([s[|s| - 1]]) == "";
    }
  }

  lemma TrimIsSolid(s: string)
    ensures Solid(Trim(s)) == Solid(s)
  {
    TrimStartIsSolid(s);
    TrimEndIsSolid(TrimStart(s));
  }

  function SolidAll(ls: seq<string>): string {
    if ls == [] then "" else Solid(ls[0]) + SolidAll(ls[1..])
  }

  lemma {:induction false} SolidWords(groups: seq<seq<Token>>)
    ensures SolidAll(Words(groups)) == Solid(Text(Flatten(groups)))
    decreases |groups|
  {
    if groups != [] {
      var words, rest := Trim(Text(groups[0])), Words(groups[1..]);
      SolidWords(groups[1..]);
      TrimIsSolid(Text(groups[0]));
      TextOfBoth(groups[0], Flatten(groups[1..]));
      SolidOfBoth(Text(groups[0]), Text(Flatten(groups[1..])));
      if words == "" {
        assert Words(groups) == rest;
      } else {
        assert Words(groups)[1..] == rest;
      }
    }
  }

  lemma {:induction false} SolidAllOfLast(ls: seq<string>, l: string)
    ensures SolidAll(ls + [l]) == SolidAll(ls) + Solid(l)
  {
    if ls == [] {
      assert (ls + [l])[1..] == [];
    } else {
      assert (ls + [l])[1..] == ls[1..] + [l];
      SolidAllOfLast(ls[1..], l);
    }
  }

  lemma {:induction false} SolidJoined(ls: seq<string>)
    ensures Solid(Joined(ls)) == SolidAll(ls)
    decreases |ls|
  {
    if |ls| == 1 {
      assert ls[1..] == [];
    } else if ls != [] {
      var init, last := ls[..|ls| - 1], ls[|ls| - 1];
      assert ls == init + [last];
      SolidJoined(init);
      SolidAllOfLast(init, last);
      SolidOfBoth(Joined(init) + "\n", last);
      SolidOfBoth(Joined(init), "\n");
      assert Solid("\n") == "";
    }
  }

  // -- What a reader sees ------------------------------------------------------------------------

  /** The groups that are not blank, in order. */
  function Spoken(groups: seq<seq<Token>>): seq<seq<Token>> {
    if groups == [] then []
    else (if Trim(Text(groups[0])) == "" then [] else [groups[0]]) + Spoken(groups[1..])
  }

  /** How a speaker is called: a name as it is, a number in decimal. */
  predicate Calls(speaker: Speaker, name: string) {
    match speaker
    case Name(text) => name == text
    case Number(n) =>
      if n >= 0 then IsNumeral(name, n) else name != "" && name[0] == '-' && IsNumeral(name[1..], -n)
  }

  /** `line` is `words`, behind what the speaker of `token` is called if it has one. */
  ghost predicate Says(line: string, token: Token, words: string) {
    match token.speaker
    case None => line == words
    case Some(speaker) => exists name :: Calls(speaker, name) && line == "Speaker " + name + ": " + words
  }

  /** `out` is the lines, with a line break between one and the next. */
  predicate Reads(out: string, lines: seq<string>)
    decreases |lines|
  {
    if lines == [] then out == ""
    else if |lines| == 1 then out == lines[0]
    else
      && |lines[0]| < |out| && out[..|lines[0]|] == lines[0] && out[|lines[0]|] == '\n'
      && Reads(out[|lines[0]| + 1..], lines[1..])
  }

  lemma DisplayCalls(speaker: Speaker)
    ensures Calls(speaker, Display(speaker))
  {
    if speaker.Number? {
      var n := speaker.value;
      DecimalIsNumeral(if n < 0 then -n else n);
      assert n < 0 ==> Display(speaker)[1..] == Decimal(-n);
    }
  }

  lemma ShownIsSaid(token: Token, words: string)
    ensures Says(Show(Label(token), words), token, words)
  {
    if token.speaker.Some? {
      DisplayCalls(token.speaker.value);
    }
  }

  lemma {:induction false} LinesAreSaid(groups: seq<seq<Token>>)
    requires AllTurns(groups)
    ensures |Lines(groups)| == |Words(groups)| == |Spoken(groups)|
    ensures forall i | 0 <= i < |Lines(groups)| ::
              && Words(groups)[i] == Trim(Text(Spoken(groups)[i])) != ""
              && Spoken(groups)[i] != [] && Says(Lines(groups)[i], Spoken(groups)[i][0], Words(groups)[i])
  {
    if groups != [] {
      LinesAreSaid(groups[1..]);
      ShownIsSaid(groups[0][0], Trim(Text(groups[0])));
    }
  }

  lemma {:induction false} OneMoreRead(out: string, lines: seq<string>, line: string)
    requires lines != [] && Reads(out, lines)
    ensures Reads(out + "\n" + line, lines + [line])
    decreases |lines|
  {
    var more, all := out + "\n" + line, lines + [line];
    if |lines| > 1 {
      var n := |lines[0]|;
      OneMoreRead(out[n + 1..], lines[1..], line);
      assert all[1..] == lines[1..] + [line];
      assert more[n + 1..] == out[n + 1..] + "\n" + line && more[..n] == out[..n];
    } else {
      assert all[1..] == [line] && more[..|out|] == out && more[|out| + 1..] == line;
    }
  }

  lemma {:induction false} JoinedReads(lines: seq<string>)
    ensures Reads(Joined(lines), lines)
  {
    if |lines| > 1 {
      var init := lines[..|lines| - 1];
      JoinedReads(init);
      OneMoreRead(Joined(init), init, lines[|lines| - 1]);
      assert init + [lines[|lines| - 1]] == lines;
    }
  }

  /**
   Without speakers the text is trimmed. With speakers it reads as one line for each turn that is not blank, in
   order: the turn's trimmed words behind what its speaker is called. Apart from the
   labels the lines have every character of the tokens that is not white space, once
   and in order.
   */
  lemma NothingIsLost(text: string, tokens: seq<Token>)
    ensures !HasSpeakers(tokens) ==> Rendered(text, tokens) == Trim(text)
    ensures AllTurns(Groups(tokens))
    ensures HasSpeakers(tokens) ==>
            var (lines, turns, words) := (LinesOf(tokens), Spoken(Groups(tokens)), Words(Groups(tokens)));
            && Reads(Rendered(text, tokens), lines)
            && |lines| == |turns| == |words|
            && (forall i | 0 <= i < |lines| ::
                  turns[i] != [] && words[i] == Trim(Text(turns[i])) && Says(lines[i], turns[i][0], words[i]))
            && Solid(Joined(words)) == Solid(Text(tokens))
  {
    var groups := Groups(tokens);
    GroupsAreAGrouping(tokens);
    SolidWords(groups);
    SolidJoined(Words(groups));
    LinesAreSaid(groups);
    JoinedReads(LinesOf(tokens));
  }
}
