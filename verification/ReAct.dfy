/** Printing and parsing of reasoning steps in patterns/react.go. */
module ReAct {
  import opened Common

  datatype Step = Step(thought: string, action: string, actionInput: string, observation: string, isFinal: bool)

  const THOUGHT := "Thought:"
  const ACTION := "Action:"
  const ACTION_INPUT := "Action Input:"
  const FINAL_ANSWER := "Final Answer:"
  const OBSERVATION := "Observation:"

  const EMPTY_STEP := Step("", "", "", "", false)

  // ---- Strings ----

  /** The characters with the Unicode property White_Space, which strings.TrimSpace removes. */
  predicate IsSpace(c: char) {
    var n := c as int;
    || 0x09 <= n <= 0x0D || n == 0x20 || n == 0x85 || n == 0xA0 || n == 0x1680 || 0x2000 <= n <= 0x200A
    || n == 0x2028 || n == 0x2029 || n == 0x202F || n == 0x205F || n == 0x3000
  }

  function TrimLeft(s: string): string {
    if s != "" && IsSpace(s[0]) then TrimLeft(s[1..]) else s
  }

  function TrimRight(s: string): string {
    if s != "" && IsSpace(s[|s| - 1]) then TrimRight(s[..|s| - 1]) else s
  }

  function Trim(s: string): string {
    TrimRight(TrimLeft(s))
  }

  function Split(s: string): (lines: seq<string>)
    ensures |lines| >= 1
  {
    if s == "" then [""]
    else Attach(s[0], Split(s[1..]))
  }

  /** A character in front of some lines: a newline starts a line of its own. */
  function Attach(c: char, rest: seq<string>): (lines: seq<string>)
    requires |rest| >= 1
    ensures |lines| >= 1
  {
    if c == '\n' then [""] + rest else [[c] + rest[0]] + rest[1..]
  }

  predicate HasPrefix(s: string, p: string) {
    p <= s
  }

  predicate OneLine(s: string) {
    '\n' !in s
  }

  // ---- The parser and the printer ----

  /** The text of a line after its keyword. */
  function After(line: string, keyword: string): string
    requires HasPrefix(line, keyword)
  {
    Trim(line[|keyword|..])
  }

  /** Reads lines from the top into `step` and stops at the first final answer. */
  function ParseLines(lines: seq<string>, step: Step): Step {
    if lines == [] then step
    else
      var line := Trim(lines[0]);
      if HasPrefix(line, THOUGHT) then ParseLines(lines[1..], step.(thought := After(line, THOUGHT)))
      else if HasPrefix(line, ACTION) then ParseLines(lines[1..], step.(action := After(line, ACTION)))
      else if HasPrefix(line, ACTION_INPUT) then ParseLines(lines[1..], step.(actionInput := After(line, ACTION_INPUT)))
      else if HasPrefix(line, FINAL_ANSWER) then
        step.(
          thought := if step.thought == "" then "Reached final answer" else step.thought,
          observation := After(line, FINAL_ANSWER),
          isFinal := true)
      else ParseLines(lines[1..], step)
  }

  function Parse(response: string): Step {
    ParseLines(Split(response), EMPTY_STEP)
  }

  method ParseResponse(response: string) returns (step: Step)
    ensures step == Parse(response)
  {
    var lines := Split(response);
    step := EMPTY_STEP;
    var i := 0;
    while i < |lines|
      invariant 0 <= i <= |lines|
      invariant ParseLines(lines, EMPTY_STEP) == ParseLines(lines[i..], step)
    {
      var line := Trim(lines[i]);
      if HasPrefix(line, THOUGHT) {
        step := step.(thought := After(line, THOUGHT));
      } else if HasPrefix(line, ACTION) {
        step := step.(action := After(line, ACTION));
      } else if HasPrefix(line, ACTION_INPUT) {
        step := step.(actionInput := After(line, ACTION_INPUT));
      } else if HasPrefix(line, FINAL_ANSWER) {
        if step.thought == "" {
          step := step.(thought := "Reached final answer");
        }
        step := step.(observation := After(line, FINAL_ANSWER), isFinal := true);
        return;
      }
      i := i + 1;
    }
  }

  function Line(keyword: string, text: string): string {
    keyword + " " + text
  }

  function Format(step: Step): string {
    Line(THOUGHT, step.thought)
    + (if step.action != "" then "\n" + Line(ACTION, step.action) + "\n" + Line(ACTION_INPUT, step.actionInput) else "")
    + (if step.observation != "" then "\n" + Line(OBSERVATION, step.observation) else "")
  }

  method FormatStep(step: Step) returns (formatted: string)
    ensures formatted == Format(step)
  {
    formatted := Line(THOUGHT, step.thought);
    if step.action != "" {
      formatted := formatted + ("\n" + Line(ACTION, step.action));
      formatted := formatted + ("\n" + Line(ACTION_INPUT, step.actionInput));
    }
    if step.observation != "" {
      formatted := formatted + ("\n" + Line(OBSERVATION, step.observation));
    }
  }

  // ---- Trimming ----

  ghost predicate Blank(s: string) {
    forall i :: 0 <= i < |s| ==> IsSpace(s[i])
  }

  lemma {:induction false} TrimRightAppend(a: string, b: string)
    ensures TrimRight(a + b) == if Blank(b) then TrimRight(a) else a + TrimRight(b)
  {
    if b == "" {
      assert a + b == a;
    } else if IsSpace(b[|b| - 1]) {
      assert (a + b)[..|a + b| - 1] == a + b[..|b| - 1];
      TrimRightAppend(a, b[..|b| - 1]);
      assert b == b[..|b| - 1] + [b[|b| - 1]];
      assert Blank(b) <==> Blank(b[..|b| - 1]);
    }
  }

  lemma {:induction false} TrimRightBlankIff(s: string)
    ensures TrimRight(s) == "" <==> Blank(s)
  {
    if s != "" && IsSpace(s[|s| - 1]) {
      TrimRightBlankIff(s[..|s| - 1]);
      assert s == s[..|s| - 1] + [s[|s| - 1]];
    }
  }

  lemma {:induction false} TrimLeftBlank(s: string)
    requires Blank(s)
    ensures TrimLeft(s) == ""
  {
    if s != "" {
      TrimLeftBlank(s[1..]);
    }
  }

  lemma {:induction false} TrimRightTwice(s: string)
    ensures TrimRight(TrimRight(s)) == TrimRight(s)
  {
    if s != "" && IsSpace(s[|s| - 1]) {
      TrimRightTwice(s[..|s| - 1]);
    }
  }

  /** Trimming the right end first changes nothing. */
  lemma {:induction false} TrimAfterRight(s: string)
    ensures Trim(TrimRight(s)) == Trim(s)
  {
    if s == "" {
    } else if Blank(s) {
      TrimLeftBlank(s);
      TrimRightBlankIff(s);
    } else {
      var t := s[1..];
      assert s == [s[0]] + t;
      TrimRightAppend([s[0]], t);
      if IsSpace(s[0]) {
        TrimAfterRight(t);
        assert !Blank(t);
        assert ([s[0]] + TrimRight(t))[1..] == TrimRight(t);
      } else {
        TrimRightTwice(s);
        assert TrimRight(s) != "" && TrimRight(s)[0] == s[0];
      }
    }
  }

  predicate Keyword(k: string) {
    k != "" && !IsSpace(k[0]) && !IsSpace(k[|k| - 1])
  }

  lemma BlankGap(text: string)
    ensures Blank(" " + text) <==> Blank(text)
  {
    var gap := " " + text;
    assert forall i :: 0 <= i < |text| ==> gap[i + 1] == text[i];
    if Blank(gap) {
      forall i | 0 <= i < |text| ensures IsSpace(text[i]) {
        assert IsSpace(gap[i + 1]);
      }
    }
  }

  lemma {:induction false} TrimRightGap(keyword: string, text: string)
    ensures TrimRight(keyword + (" " + text)) == if Blank(text) then TrimRight(keyword) else keyword + (" " + TrimRight(text))
  {
    BlankGap(text);
    TrimRightAppend(keyword, " " + text);
    TrimRightAppend(" ", text);
  }

  lemma {:induction false} AlreadyTrimmed(s: string)
    requires s != ""
    ensures !IsSpace(s[0]) ==> TrimLeft(s) == s
    ensures !IsSpace(s[|s| - 1]) ==> TrimRight(s) == s
  {
  }

  /** What is left of a printed field without surrounding space. */
  lemma {:induction false} FieldTrimmed(keyword: string, text: string)
    requires Keyword(keyword)
    ensures Trim(Line(keyword, text)) == if Blank(text) then keyword else keyword + (" " + TrimRight(text))
  {
    var line := keyword + (" " + text);
    assert Line(keyword, text) == line && line[0] == keyword[0];
    AlreadyTrimmed(line);
    AlreadyTrimmed(keyword);
    TrimRightGap(keyword, text);
  }

  /** A printed field is recognised by its keyword and read back without surrounding space. */
  lemma {:induction false} FieldReadBack(keyword: string, text: string)
    requires Keyword(keyword)
    ensures
      var line := Trim(Line(keyword, text));
      HasPrefix(line, keyword) && After(line, keyword) == Trim(text)
  {
    var line := Trim(Line(keyword, text));
    FieldTrimmed(keyword, text);
    if Blank(text) {
      assert line[|keyword|..] == "";
      TrimLeftBlank(text);
    } else {
      assert line[|keyword|..] == " " + TrimRight(text);
      GapTrimmed(TrimRight(text));
      TrimAfterRight(text);
    }
  }

  lemma {:induction false} GapTrimmed(text: string)
    ensures Trim(" " + text) == Trim(text)
  {
    assert (" " + text)[1..] == text;
  }

  /** Trimming removes blank ends and nothing else. */
  lemma TrimIs(s: string) returns (i: nat, j: nat)
    ensures i <= j <= |s| && Trim(s) == s[i..j] && Blank(s[..i]) && Blank(s[j..])
    ensures Trim(s) != "" ==> !IsSpace(Trim(s)[0]) && !IsSpace(Trim(s)[|Trim(s)| - 1])
  {
    i := TrimLeftIs(s);
    var t := TrimLeft(s);
    var k := TrimRightIs(t);
    j := i + k;
    assert t == s[i..] && t[k..] == s[j..] && t[..k] == s[i..j];
  }

  lemma {:induction false} TrimLeftIs(s: string) returns (i: nat)
    ensures i <= |s| && TrimLeft(s) == s[i..] && Blank(s[..i]) && (i < |s| ==> !IsSpace(s[i]))
  {
    if s != "" && IsSpace(s[0]) {
      i := TrimLeftIs(s[1..]);
      assert s[1..][i..] == s[i + 1..];
      assert s[..i + 1] == [s[0]] + s[1..][..i];
      i := i + 1;
    } else {
      i := 0;
    }
  }

  lemma {:induction false} TrimRightIs(s: string) returns (j: nat)
    ensures j <= |s| && TrimRight(s) == s[..j] && Blank(s[j..]) && (0 < j ==> !IsSpace(s[j - 1]))
  {
    if s != "" && IsSpace(s[|s| - 1]) {
      j := TrimRightIs(s[..|s| - 1]);
      assert s[..|s| - 1][..j] == s[..j];
      assert s[j..] == s[..|s| - 1][j..] + [s[|s| - 1]];
    } else {
      j := |s|;
      assert s[..|s|] == s;
    }
  }

  // ---- Splitting ----

  lemma {:induction false} SplitAppend(a: string, b: string)
    requires OneLine(a)
    ensures Split(a + b) == [a + Split(b)[0]] + Split(b)[1..]
  {
    if a == "" {
      assert a + b == b && a + Split(b)[0] == Split(b)[0];
    } else {
      assert (a + b)[1..] == a[1..] + b;
      SplitAppend(a[1..], b);
      assert [a[0]] + (a[1..] + Split(b)[0]) == a + Split(b)[0];
    }
  }

  /** The lines of two texts on top of each other are those of the first and those of the second. */
  lemma {:induction false} SplitBoth(a: string, b: string)
    ensures Split(a + ("\n" + b)) == Split(a) + Split(b)
  {
    if a == "" {
      assert a + ("\n" + b) == "\n" + b;
      SplitNewline(b);
    } else {
      SplitBoth(a[1..], b);
      AttachAppend(a[0], Split(a[1..]), Split(b));
      SplitStep(a[0], a[1..]);
      SplitStep(a[0], a[1..] + ("\n" + b));
      assert a == [a[0]] + a[1..];
      assert a + ("\n" + b) == [a[0]] + (a[1..] + ("\n" + b));
    }
  }

  lemma AttachAppend(c: char, rest: seq<string>, more: seq<string>)
    requires |rest| >= 1
    ensures Attach(c, rest + more) == Attach(c, rest) + more
  {
    assert (rest + more)[1..] == rest[1..] + more;
  }

  lemma SplitStep(c: char, t: string)
    ensures Split([c] + t) == Attach(c, Split(t))
  {
    assert ([c] + t)[1..] == t;
  }

  function Join(lines: seq<string>): string {
    if lines == [] then "" else if |lines| == 1 then lines[0] else lines[0] + "\n" + Join(lines[1..])
  }

  /** Splitting cuts at every newline and loses nothing. */
  lemma {:induction false} SplitIs(s: string)
    ensures Join(Split(s)) == s
    ensures forall i :: 0 <= i < |Split(s)| ==> OneLine(Split(s)[i])
  {
    if s != "" {
      SplitIs(s[1..]);
      var rest := Split(s[1..]);
      assert s == [s[0]] + s[1..];
      if s[0] == '\n' {
        assert ([""] + rest)[1..] == rest;
      } else {
        assert ([[s[0]] + rest[0]] + rest[1..])[1..] == rest[1..];
      }
    }
  }

  lemma SplitNewline(b: string)
    ensures Split("\n" + b) == [""] + Split(b)
  {
  }

  lemma SplitIsOneLine(s: string)
    requires OneLine(s)
    ensures Split(s) == [s]
  {
    SplitAppend(s, "");
    assert s + "" == s;
  }

  // ---- One printed line ----

  lemma ThoughtLine(text: string, rest: seq<string>, step: Step)
    ensures ParseLines([Line(THOUGHT, text)] + rest, step) == ParseLines(rest, step.(thought := Trim(text)))
  {
    FieldReadBack(THOUGHT, text);
    assert ([Line(THOUGHT, text)] + rest)[1..] == rest;
  }

  lemma ActionLine(text: string, rest: seq<string>, step: Step)
    ensures ParseLines([Line(ACTION, text)] + rest, step) == ParseLines(rest, step.(action := Trim(text)))
  {
    FieldReadBack(ACTION, text);
    assert Trim(Line(ACTION, text))[0] == 'A';
    assert ([Line(ACTION, text)] + rest)[1..] == rest;
  }

  lemma ActionInputLine(text: string, rest: seq<string>, step: Step)
    ensures ParseLines([Line(ACTION_INPUT, text)] + rest, step) == ParseLines(rest, step.(actionInput := Trim(text)))
  {
    FieldReadBack(ACTION_INPUT, text);
    var line := Trim(Line(ACTION_INPUT, text));
    assert line[0] == 'A' && line[6] == ' ';
    assert ACTION[6] == ':';
    assert ([Line(ACTION_INPUT, text)] + rest)[1..] == rest;
  }

  lemma ObservationLine(text: string, rest: seq<string>, step: Step)
    ensures ParseLines([Line(OBSERVATION, text)] + rest, step) == ParseLines(rest, step)
  {
    FieldReadBack(OBSERVATION, text);
    assert Trim(Line(OBSERVATION, text))[0] == 'O';
    assert ([Line(OBSERVATION, text)] + rest)[1..] == rest;
  }

  // ---- The lines of a printed step ----

  /** The lines of a printed field: the keyword stands in front of the first. */
  function FieldLines(keyword: string, text: string): seq<string> {
    [Line(keyword, Split(text)[0])] + Split(text)[1..]
  }

  lemma SplitField(keyword: string, text: string)
    requires OneLine(keyword)
    ensures Split(Line(keyword, text)) == FieldLines(keyword, text)
  {
    var mark := keyword + " ";
    assert Line(keyword, text) == mark + text;
    SplitAppend(mark, text);
    assert mark + Split(text)[0] == Line(keyword, Split(text)[0]);
  }

  function ActionLines(step: Step): seq<string> {
    if step.action != "" then FieldLines(ACTION, step.action) + FieldLines(ACTION_INPUT, step.actionInput) else []
  }

  function ObservationLines(step: Step): seq<string> {
    if step.observation != "" then FieldLines(OBSERVATION, step.observation) else []
  }

  function PrintedLines(step: Step): seq<string> {
    FieldLines(THOUGHT, step.thought) + (ActionLines(step) + ObservationLines(step))
  }

  /** A text followed by an optional further part on lines of its own. */
  lemma SplitOptional(a: string, present: bool, b: string)
    ensures Split(a + (if present then "\n" + b else "")) == Split(a) + (if present then Split(b) else [])
  {
    if present {
      SplitBoth(a, b);
    } else {
      assert a + "" == a;
    }
  }

  lemma SplitActions(step: Step)
    ensures Split(Line(ACTION, step.action) + ("\n" + Line(ACTION_INPUT, step.actionInput)))
      == FieldLines(ACTION, step.action) + FieldLines(ACTION_INPUT, step.actionInput)
  {
    SplitBoth(Line(ACTION, step.action), Line(ACTION_INPUT, step.actionInput));
    SplitField(ACTION, step.action);
    SplitField(ACTION_INPUT, step.actionInput);
  }

  lemma Regroup(t: string, a: string, i: string)
    ensures t + ("\n" + a + "\n" + i) == t + ("\n" + (a + ("\n" + i)))
  {
  }

  /** Thought and action as they are printed, and their lines. */
  lemma {:induction false} FrontLines(step: Step) returns (front: string)
    ensures Split(front) == FieldLines(THOUGHT, step.thought) + ActionLines(step)
    ensures Format(step) == front + (if step.observation != "" then "\n" + Line(OBSERVATION, step.observation) else "")
  {
    var t, a, i := Line(THOUGHT, step.thought), Line(ACTION, step.action), Line(ACTION_INPUT, step.actionInput);
    front := t + (if step.action != "" then "\n" + (a + ("\n" + i)) else "");
    Regroup(t, a, i);
    SplitOptional(t, step.action != "", a + ("\n" + i));
    SplitField(THOUGHT, step.thought);
    SplitActions(step);
  }

  lemma Associate(a: seq<string>, b: seq<string>, c: seq<string>)
    ensures (a + b) + c == a + (b + c)
  {
  }

  lemma {:induction false} FormatLines(step: Step)
    ensures Split(Format(step)) == PrintedLines(step)
  {
    var front := FrontLines(step);
    SplitOptional(front, step.observation != "", Line(OBSERVATION, step.observation));
    SplitField(OBSERVATION, step.observation);
    Associate(FieldLines(THOUGHT, step.thought), ActionLines(step), ObservationLines(step));
  }

  /** The parser sees the printed fields line by line, whatever the step contains. */
  lemma {:induction false} ReadsBack(step: Step)
    ensures Parse(Format(step)) == ParseLines(PrintedLines(step), EMPTY_STEP)
  {
    FormatLines(step);
  }

  // ---- Final answers ----

  predicate FinalLine(line: string) {
    HasPrefix(Trim(line), FINAL_ANSWER)
  }

  ghost predicate SomeFinal(lines: seq<string>) {
    exists j :: 0 <= j < |lines| && FinalLine(lines[j])
  }

  lemma SomeFinalAppend(a: seq<string>, b: seq<string>)
    ensures SomeFinal(a + b) <==> SomeFinal(a) || SomeFinal(b)
  {
    if j :| 0 <= j < |a| && FinalLine(a[j]) {
      assert FinalLine((a + b)[j]);
    }
    if j :| 0 <= j < |b| && FinalLine(b[j]) {
      assert FinalLine((a + b)[|a| + j]);
    }
  }

  /** A line belongs to one keyword at most. */
  lemma KeywordsExclude(line: string)
    ensures HasPrefix(line, THOUGHT) ==> !HasPrefix(line, ACTION) && !HasPrefix(line, ACTION_INPUT) && !HasPrefix(line, FINAL_ANSWER)
    ensures HasPrefix(line, ACTION) ==> !HasPrefix(line, ACTION_INPUT) && !HasPrefix(line, FINAL_ANSWER)
    ensures HasPrefix(line, ACTION_INPUT) ==> !HasPrefix(line, FINAL_ANSWER)
  {
    assert HasPrefix(line, THOUGHT) ==> line[0] == 'T';
    assert HasPrefix(line, ACTION) ==> line[0] == 'A' && line[6] == ':';
    assert HasPrefix(line, ACTION_INPUT) ==> line[0] == 'A' && line[6] == ' ';
    assert HasPrefix(line, FINAL_ANSWER) ==> line[0] == 'F';
  }

  lemma {:induction false} FinalIff(lines: seq<string>, step: Step)
    ensures ParseLines(lines, step).isFinal <==> step.isFinal || SomeFinal(lines)
  {
    if lines != [] {
      var line := Trim(lines[0]);
      KeywordsExclude(line);
      assert lines == [lines[0]] + lines[1..];
      SomeFinalAppend([lines[0]], lines[1..]);
      assert SomeFinal([lines[0]]) <==> FinalLine([lines[0]][0]);
      if HasPrefix(line, THOUGHT) {
        FinalIff(lines[1..], step.(thought := After(line, THOUGHT)));
      } else if HasPrefix(line, ACTION) {
        FinalIff(lines[1..], step.(action := After(line, ACTION)));
      } else if HasPrefix(line, ACTION_INPUT) {
        FinalIff(lines[1..], step.(actionInput := After(line, ACTION_INPUT)));
      } else if !HasPrefix(line, FINAL_ANSWER) {
        FinalIff(lines[1..], step);
      }
    }
  }

  /** The lines of a field after its first. */
  function Later(text: string): seq<string> {
    Split(text)[1..]
  }

  lemma FieldFinal(keyword: string, text: string)
    requires keyword in {THOUGHT, ACTION, ACTION_INPUT, OBSERVATION}
    ensures SomeFinal(FieldLines(keyword, text)) <==> SomeFinal(Later(text))
  {
    var head := Line(keyword, Split(text)[0]);
    FieldReadBack(keyword, Split(text)[0]);
    KeywordsExclude(Trim(head));
    assert keyword == OBSERVATION ==> Trim(head)[0] == 'O';
    SomeFinalAppend([head], Later(text));
    assert SomeFinal([head]) <==> FinalLine([head][0]);
  }

  /** A printed step is read as final exactly when a later line of a field it prints claims a final answer. */
  lemma ReadAsFinalIff(step: Step)
    ensures Parse(Format(step)).isFinal <==>
      || SomeFinal(Later(step.thought))
      || (step.action != "" && (SomeFinal(Later(step.action)) || SomeFinal(Later(step.actionInput))))
      || SomeFinal(Later(step.observation))
  {
    ReadsBack(step);
    FinalIff(PrintedLines(step), EMPTY_STEP);
    SomeFinalAppend(FieldLines(THOUGHT, step.thought), ActionLines(step) + ObservationLines(step));
    SomeFinalAppend(ActionLines(step), ObservationLines(step));
    SomeFinalAppend(FieldLines(ACTION, step.action), FieldLines(ACTION_INPUT, step.actionInput));
    FieldFinal(THOUGHT, step.thought);
    FieldFinal(ACTION, step.action);
    FieldFinal(ACTION_INPUT, step.actionInput);
    FieldFinal(OBSERVATION, step.observation);
  }

  // ---- Reading the fields back ----

  predicate KeywordLine(line: string) {
    var l := Trim(line);
    HasPrefix(l, THOUGHT) || HasPrefix(l, ACTION) || HasPrefix(l, ACTION_INPUT) || HasPrefix(l, FINAL_ANSWER)
  }

  ghost predicate Plain(lines: seq<string>) {
    forall j :: 0 <= j < |lines| ==> !KeywordLine(lines[j])
  }

  lemma {:induction false} PlainLinesIgnored(lines: seq<string>, rest: seq<string>, step: Step)
    requires Plain(lines)
    ensures ParseLines(lines + rest, step) == ParseLines(rest, step)
  {
    if lines == [] {
      assert lines + rest == rest;
    } else {
      assert !KeywordLine(lines[0]);
      assert (lines + rest)[1..] == lines[1..] + rest;
      PlainLinesIgnored(lines[1..], rest, step);
    }
  }

  ghost predicate OneLineFields(step: Step) {
    OneLine(step.thought) && OneLine(step.action) && OneLine(step.actionInput)
  }

  /** What the fields of a printed step say when read back: the first line of each, without surrounding space. */
  function Reread(step: Step): Step {
    if step.action != ""
    then Step(Trim(Split(step.thought)[0]), Trim(Split(step.action)[0]), Trim(Split(step.actionInput)[0]), "", false)
    else Step(Trim(Split(step.thought)[0]), "", "", "", false)
  }

  /** The later lines of the fields a step prints, its observation aside, start with no keyword. */
  ghost predicate PlainFields(step: Step) {
    Plain(Later(step.thought)) && (step.action != "" ==> Plain(Later(step.action)) && Plain(Later(step.actionInput)))
  }

  lemma ThoughtField(step: Step, rest: seq<string>)
    requires Plain(Later(step.thought))
    ensures ParseLines(FieldLines(THOUGHT, step.thought) + rest, EMPTY_STEP)
      == ParseLines(rest, EMPTY_STEP.(thought := Trim(Split(step.thought)[0])))
  {
    var head, s1 := Line(THOUGHT, Split(step.thought)[0]), EMPTY_STEP.(thought := Trim(Split(step.thought)[0]));
    assert FieldLines(THOUGHT, step.thought) + rest == [head] + (Later(step.thought) + rest);
    ThoughtLine(Split(step.thought)[0], Later(step.thought) + rest, EMPTY_STEP);
    PlainLinesIgnored(Later(step.thought), rest, s1);
  }

  lemma ActionField(text: string, rest: seq<string>, s: Step)
    requires Plain(Later(text))
    ensures ParseLines(FieldLines(ACTION, text) + rest, s) == ParseLines(rest, s.(action := Trim(Split(text)[0])))
  {
    assert FieldLines(ACTION, text) + rest == [Line(ACTION, Split(text)[0])] + (Later(text) + rest);
    ActionLine(Split(text)[0], Later(text) + rest, s);
    PlainLinesIgnored(Later(text), rest, s.(action := Trim(Split(text)[0])));
  }

  lemma ActionInputField(text: string, rest: seq<string>, s: Step)
    requires Plain(Later(text))
    ensures ParseLines(FieldLines(ACTION_INPUT, text) + rest, s) == ParseLines(rest, s.(actionInput := Trim(Split(text)[0])))
  {
    assert FieldLines(ACTION_INPUT, text) + rest == [Line(ACTION_INPUT, Split(text)[0])] + (Later(text) + rest);
    ActionInputLine(Split(text)[0], Later(text) + rest, s);
    PlainLinesIgnored(Later(text), rest, s.(actionInput := Trim(Split(text)[0])));
  }

  lemma ActionFields(step: Step, rest: seq<string>, s: Step)
    requires step.action != "" && Plain(Later(step.action)) && Plain(Later(step.actionInput))
    ensures ParseLines(ActionLines(step) + rest, s)
      == ParseLines(rest, s.(action := Trim(Split(step.action)[0]), actionInput := Trim(Split(step.actionInput)[0])))
  {
    var input := FieldLines(ACTION_INPUT, step.actionInput);
    assert ActionLines(step) + rest == FieldLines(ACTION, step.action) + (input + rest);
    ActionField(step.action, input + rest, s);
    ActionInputField(step.actionInput, rest, s.(action := Trim(Split(step.action)[0])));
  }

  lemma ObservationField(step: Step, s: Step)
    ensures ParseLines(ObservationLines(step), s) == ParseLines(Later(step.observation), s)
  {
    ObservationLine(Split(step.observation)[0], Later(step.observation), s);
  }

  lemma {:induction false} PrintedFieldsRead(step: Step, o: seq<string>)
    requires PlainFields(step)
    ensures ParseLines(FieldLines(THOUGHT, step.thought) + (ActionLines(step) + o), EMPTY_STEP) == ParseLines(o, Reread(step))
  {
    ThoughtField(step, ActionLines(step) + o);
    OptionalActions(step, o);
  }

  /** When the fields' later lines are plain, only the later lines of the observation can still change the reading. */
  lemma {:induction false} FieldsReadBack(step: Step)
    requires PlainFields(step)
    ensures Parse(Format(step)) == ParseLines(Later(step.observation), Reread(step))
  {
    ReadsBack(step);
    PrintedFieldsRead(step, ObservationLines(step));
    ObservationField(step, Reread(step));
  }

  lemma OptionalActions(step: Step, rest: seq<string>)
    requires step.action != "" ==> Plain(Later(step.action)) && Plain(Later(step.actionInput))
    ensures ParseLines(ActionLines(step) + rest, EMPTY_STEP.(thought := Trim(Split(step.thought)[0])))
      == ParseLines(rest, Reread(step))
  {
    if step.action != "" {
      ActionFields(step, rest, EMPTY_STEP.(thought := Trim(Split(step.thought)[0])));
    } else {
      assert ActionLines(step) + rest == rest;
    }
  }

  /** Steps without keywords on later lines read back as the first lines of their fields, and never as final. */
  lemma RoundTrip(step: Step)
    requires PlainFields(step) && Plain(Later(step.observation))
    ensures Parse(Format(step)) == Reread(step)
  {
    FieldsReadBack(step);
    PlainLinesIgnored(Later(step.observation), [], Reread(step));
    assert Later(step.observation) + [] == Later(step.observation);
  }

  lemma OneLineIsPlain(text: string)
    requires OneLine(text)
    ensures Split(text)[0] == text && Later(text) == []
  {
    SplitIsOneLine(text);
  }

  // ---- Exactly when a step is recovered ----

  /** What a keyword says at the end: its last line decides, or else what was there before. */
  function LastText(lines: seq<string>, keyword: string, before: string): string {
    if lines == [] then before
    else
      var line := Trim(lines[0]);
      LastText(lines[1..], keyword, if HasPrefix(line, keyword) then After(line, keyword) else before)
  }

  /** The j-th line is the last one of the keyword. */
  ghost predicate LastAt(lines: seq<string>, keyword: string, j: nat) {
    && j < |lines| && HasPrefix(Trim(lines[j]), keyword)
    && forall m :: j < m < |lines| ==> !HasPrefix(Trim(lines[m]), keyword)
  }

  lemma {:induction false} LastTextAbsent(lines: seq<string>, keyword: string, before: string)
    requires forall j :: 0 <= j < |lines| ==> !HasPrefix(Trim(lines[j]), keyword)
    ensures LastText(lines, keyword, before) == before
  {
    if lines != [] {
      assert forall j :: 0 <= j < |lines[1..]| ==> lines[1..][j] == lines[j + 1];
      LastTextAbsent(lines[1..], keyword, before);
    }
  }

  lemma {:induction false} LastTextIs(lines: seq<string>, keyword: string, before: string, j: nat)
    requires LastAt(lines, keyword, j)
    ensures LastText(lines, keyword, before) == After(Trim(lines[j]), keyword)
  {
    var line := Trim(lines[0]);
    var next := if HasPrefix(line, keyword) then After(line, keyword) else before;
    if j > 0 {
      assert LastAt(lines[1..], keyword, j - 1);
      LastTextIs(lines[1..], keyword, next, j - 1);
    } else {
      assert forall m :: 0 <= m < |lines[1..]| ==> lines[1..][m] == lines[m + 1];
      LastTextAbsent(lines[1..], keyword, next);
    }
  }

  /** Without a final answer the last line of each keyword decides its field. */
  lemma {:induction false} LastLinesDecide(lines: seq<string>, s: Step)
    requires !SomeFinal(lines)
    ensures ParseLines(lines, s) == s.(
      thought := LastText(lines, THOUGHT, s.thought),
      action := LastText(lines, ACTION, s.action),
      actionInput := LastText(lines, ACTION_INPUT, s.actionInput))
  {
    if lines != [] {
      var line := Trim(lines[0]);
      KeywordsExclude(line);
      assert lines == [lines[0]] + lines[1..];
      SomeFinalAppend([lines[0]], lines[1..]);
      assert !FinalLine([lines[0]][0]);
      LastLinesDecide(lines[1..],
        if HasPrefix(line, THOUGHT) then s.(thought := After(line, THOUGHT))
        else if HasPrefix(line, ACTION) then s.(action := After(line, ACTION))
        else if HasPrefix(line, ACTION_INPUT) then s.(actionInput := After(line, ACTION_INPUT))
        else s);
    }
  }

  /** Lines without a final answer are read before the lines that follow them. */
  lemma {:induction false} ParseAppend(a: seq<string>, b: seq<string>, s: Step)
    requires !SomeFinal(a)
    ensures ParseLines(a + b, s) == ParseLines(b, ParseLines(a, s))
  {
    if a == [] {
      assert a + b == b;
    } else {
      var line := Trim(a[0]);
      assert !FinalLine(a[0]);
      assert forall j :: 0 <= j < |a[1..]| ==> a[1..][j] == a[j + 1];
      assert (a + b)[0] == a[0] && (a + b)[1..] == a[1..] + b;
      ParseAppend(a[1..], b,
        if HasPrefix(line, THOUGHT) then s.(thought := After(line, THOUGHT))
        else if HasPrefix(line, ACTION) then s.(action := After(line, ACTION))
        else if HasPrefix(line, ACTION_INPUT) then s.(actionInput := After(line, ACTION_INPUT))
        else s);
    }
  }

  /** The first final answer is in the j-th line. */
  ghost predicate FirstFinalAt(lines: seq<string>, j: nat) {
    j < |lines| && FinalLine(lines[j]) && !SomeFinal(lines[..j])
  }

  const REACHED := "Reached final answer"

  /**
   The first final answer ends the reading: its text becomes the observation, the lines above it decide the other
   fields, the thought has a default, and nothing below it matters.
   */
  lemma FinalAnswerDecides(lines: seq<string>, s: Step, j: nat)
    requires FirstFinalAt(lines, j)
    ensures
      var above := lines[..j];
      var thought := LastText(above, THOUGHT, s.thought);
      ParseLines(lines, s) == Step(
        if thought == "" then REACHED else thought,
        LastText(above, ACTION, s.action),
        LastText(above, ACTION_INPUT, s.actionInput),
        After(Trim(lines[j]), FINAL_ANSWER),
        true)
    ensures ParseLines(lines, s) == ParseLines(lines[..j + 1], s)
  {
    var above, line := lines[..j], Trim(lines[j]);
    assert lines == above + lines[j..] && lines[..j + 1] == above + [lines[j]];
    ParseAppend(above, lines[j..], s);
    ParseAppend(above, [lines[j]], s);
    LastLinesDecide(above, s);
    KeywordsExclude(line);
  }

  /** What any response is read as. */
  lemma ParseMeans(response: string)
    ensures var lines, r := Split(response), Parse(response);
      if SomeFinal(lines) then exists j :: FirstFinalAt(lines, j) && ReadUntil(lines, j, r)
      else r == Step(LastText(lines, THOUGHT, ""), LastText(lines, ACTION, ""), LastText(lines, ACTION_INPUT, ""), "", false)
  {
    var lines := Split(response);
    if SomeFinal(lines) {
      var j := FirstFinal(lines);
      FinalAnswerDecides(lines, EMPTY_STEP, j);
      assert ReadUntil(lines, j, Parse(response));
    } else {
      LastLinesDecide(lines, EMPTY_STEP);
    }
  }

  /** The step `r` ends with the final answer in the j-th line; its other fields are what the lines above say last. */
  ghost predicate ReadUntil(lines: seq<string>, j: nat, r: Step)
    requires j < |lines| && FinalLine(lines[j])
  {
    && r.isFinal && r.observation == After(Trim(lines[j]), FINAL_ANSWER)
    && r.action == LastText(lines[..j], ACTION, "") && r.actionInput == LastText(lines[..j], ACTION_INPUT, "")
    && r.thought == if LastText(lines[..j], THOUGHT, "") == "" then REACHED else LastText(lines[..j], THOUGHT, "")
  }

  lemma {:induction false} FirstFinal(lines: seq<string>) returns (j: nat)
    requires SomeFinal(lines)
    ensures FirstFinalAt(lines, j)
  {
    var front, last := lines[..|lines| - 1], [lines[|lines| - 1]];
    assert lines == front + last;
    SomeFinalAppend(front, last);
    if SomeFinal(front) {
      j := FirstFinal(front);
      assert front[..j] == lines[..j];
    } else {
      j := |lines| - 1;
      assert FinalLine(last[0]);
    }
  }

  lemma TrimOneLine(s: string)
    requires OneLine(s)
    ensures OneLine(Trim(s))
  {
    var i, j := TrimIs(s);
  }

  lemma AfterOneLine(line: string, keyword: string)
    requires OneLine(line) && HasPrefix(Trim(line), keyword)
    ensures OneLine(After(Trim(line), keyword))
  {
    TrimOneLine(line);
    TrimOneLine(Trim(line)[|keyword|..]);
  }

  /** The parser never puts a newline into a field. */
  lemma {:induction false} ParsedIsOneLine(lines: seq<string>, s: Step)
    requires (forall i :: 0 <= i < |lines| ==> OneLine(lines[i])) && OneLineFields(s)
    ensures OneLineFields(ParseLines(lines, s))
  {
    if lines != [] {
      var line := Trim(lines[0]);
      if HasPrefix(line, THOUGHT) {
        AfterOneLine(lines[0], THOUGHT);
        ParsedIsOneLine(lines[1..], s.(thought := After(line, THOUGHT)));
      } else if HasPrefix(line, ACTION) {
        AfterOneLine(lines[0], ACTION);
        ParsedIsOneLine(lines[1..], s.(action := After(line, ACTION)));
      } else if HasPrefix(line, ACTION_INPUT) {
        AfterOneLine(lines[0], ACTION_INPUT);
        ParsedIsOneLine(lines[1..], s.(actionInput := After(line, ACTION_INPUT)));
      } else if !HasPrefix(line, FINAL_ANSWER) {
        ParsedIsOneLine(lines[1..], s);
      }
    }
  }

  ghost predicate Recovered(step: Step) {
    var p := Parse(Format(step));
    p.thought == step.thought && p.action == step.action && p.actionInput == step.actionInput && !p.isFinal
  }

  /**
   The fields have one line each; no later line of the observation claims a final answer; and what is said last about
   each field, on a later line of the observation or else where it is printed, is the field itself.
   */
  ghost predicate Faithful(step: Step) {
    var later, r := Later(step.observation), Reread(step);
    && OneLineFields(step)
    && !SomeFinal(later)
    && LastText(later, THOUGHT, r.thought) == step.thought
    && LastText(later, ACTION, r.action) == step.action
    && LastText(later, ACTION_INPUT, r.actionInput) == step.actionInput
  }

  lemma OneLineFieldsAreRead(step: Step)
    requires OneLineFields(step)
    ensures Parse(Format(step)) == ParseLines(Later(step.observation), Reread(step))
  {
    OneLineIsPlain(step.thought);
    OneLineIsPlain(step.action);
    OneLineIsPlain(step.actionInput);
    FieldsReadBack(step);
  }

  /** Exactly which steps come back from print and parse unchanged, for every step there is. */
  lemma RecoveredIff(step: Step)
    ensures Recovered(step) <==> Faithful(step)
  {
    SplitIs(Format(step));
    ParsedIsOneLine(Split(Format(step)), EMPTY_STEP);
    if OneLineFields(step) {
      var later := Later(step.observation);
      OneLineFieldsAreRead(step);
      FinalIff(later, Reread(step));
      if !SomeFinal(later) {
        LastLinesDecide(later, Reread(step));
      }
    }
  }

  ghost predicate Printable(step: Step) {
    && OneLineFields(step)
    && Trim(step.thought) == step.thought && Trim(step.action) == step.action && Trim(step.actionInput) == step.actionInput
    && (step.action == "" ==> step.actionInput == "")
  }

  /** With an observation of one line, or none: the fields are trimmed, of one line, and no input hides behind an empty action. */
  lemma RecoveredOneLineIff(step: Step)
    requires OneLine(step.observation)
    ensures Recovered(step) <==> Printable(step)
  {
    RecoveredIff(step);
    OneLineIsPlain(step.observation);
    if OneLineFields(step) {
      OneLineIsPlain(step.thought);
      OneLineIsPlain(step.action);
      OneLineIsPlain(step.actionInput);
    }
  }
}
