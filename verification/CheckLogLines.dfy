/**
 * Which text each line of a log shows, exactly: the last draw that carriage returns leave,
 * without its timestamp, its invisible characters and the blanks at its end, in the words of
 * its workflow command; and so what a plain log shows, whichever line ends it has.
 */
module CheckLogLines {
  import opened CheckLog
  import opened CheckLogTail

  // ----- The last draw -----

  /** The text ends where a carriage return would start another draw, or is empty. */
  predicate DrawEnds(before: string) {
    before == "" || before[|before| - 1] == '\r'
  }

  /** A slice that ends with the line, or before the carriage return it ends with, and starts right after another. */
  predicate DrawSlice(line: string, from: nat, to: nat) {
    && from <= to <= |line| && Lacks(line[from..to], '\r') && (from == 0 || line[from - 1] == '\r')
    && (if to == |line| then from < to || from == 0 else to == |line| - 1 && line[to] == '\r')
  }

  /** A line has one such slice. */
  lemma OnlySlice(line: string, from: nat, to: nat, first: nat, last: nat)
    requires DrawSlice(line, from, to) && DrawSlice(line, first, last)
    ensures from == first && to == last
  {
    assert forall i :: from <= i < to ==> line[i] == line[from..to][i - from];
    assert forall i :: first <= i < last ==> line[i] == line[first..last][i - first];
  }

  lemma ReturnedSlice(before: string, shown: string)
    requires DrawEnds(before) && Lacks(shown, '\r')
    ensures var line := before + shown + "\r";
            DrawSlice(line, |before|, |before| + |shown|) && line[|before|..|before| + |shown|] == shown
  {
    var line := before + shown + "\r";
    assert line[|before|..|before| + |shown|] == shown;
    assert before != "" ==> line[|before| - 1] == before[|before| - 1];
  }

  lemma OpenSlice(before: string, shown: string)
    requires DrawEnds(before) && Lacks(shown, '\r') && (shown != "" || before == "")
    ensures DrawSlice(before + shown, |before|, |before + shown|) && (before + shown)[|before|..] == shown
  {
    var line := before + shown;
    assert line[|before|..|line|] == shown;
    assert before != "" ==> line[|before| - 1] == before[|before| - 1];
  }

  lemma DrawIsSlice(line: string, from: nat, to: nat)
    requires DrawSlice(line, from, to)
    ensures LastDraw(line) == line[from..to]
  {
    var first, last := LastDrawShown(line);
    OnlySlice(line, from, to, first, last);
  }

  /** What is shown of a line is its last draw, with or without a carriage return after it. */
  lemma LastDrawIs(before: string, shown: string)
    requires DrawEnds(before) && Lacks(shown, '\r')
    ensures LastDraw(before + shown + "\r") == shown
    ensures shown != "" || before == "" ==> LastDraw(before + shown) == shown
  {
    ReturnedSlice(before, shown);
    DrawIsSlice(before + shown + "\r", |before|, |before| + |shown|);
    if shown != "" || before == "" {
      OpenSlice(before, shown);
      DrawIsSlice(before + shown, |before|, |before + shown|);
    }
  }

  // ----- The timestamp -----

  predicate IsDate(s: string) {
    && |s| == 19 && DigitsAt(s, 0, 4) && s[4] == '-' && DigitsAt(s, 5, 2) && s[7] == '-' && DigitsAt(s, 8, 2)
    && s[10] == 'T' && DigitsAt(s, 11, 2) && s[13] == ':' && DigitsAt(s, 14, 2) && s[16] == ':' && DigitsAt(s, 17, 2)
  }

  /** Nothing, or a point and digits. */
  predicate IsFraction(s: string) {
    s == "" || (2 <= |s| && s[0] == '.' && DigitsAt(s, 1, |s| - 1))
  }

  predicate IsStamp(s: string) {
    20 <= |s| && IsDate(s[..19]) && IsFraction(s[19..|s| - 1]) && s[|s| - 1] == 'Z'
  }

  lemma {:induction false} DigitRunIs(line: string, from: nat, end: nat)
    requires from <= end <= |line| && DigitsAt(line, from, end - from) && (end == |line| || !IsDigit(line[end]))
    ensures DigitRun(line, from) == end
    decreases end - from
  {
    if from < end { DigitRunIs(line, from + 1, end); }
  }

  lemma {:induction false} DigitRunDigits(line: string, from: nat)
    requires from <= |line|
    ensures DigitsAt(line, from, DigitRun(line, from) - from)
    decreases |line| - from
  {
    if from < |line| && IsDigit(line[from]) {
      DigitRunDigits(line, from + 1);
      assert forall i :: from + 1 <= i < DigitRun(line, from) ==> IsDigit(line[i]);
    }
  }

  lemma DateOf(line: string)
    requires 20 <= |line|
    ensures IsDate(line[..19]) <==>
              && DigitsAt(line, 0, 4) && line[4] == '-' && DigitsAt(line, 5, 2) && line[7] == '-'
              && DigitsAt(line, 8, 2) && line[10] == 'T' && DigitsAt(line, 11, 2) && line[13] == ':'
              && DigitsAt(line, 14, 2) && line[16] == ':' && DigitsAt(line, 17, 2)
  {
    var date := line[..19];
    assert forall i :: 0 <= i < 19 ==> date[i] == line[i];
  }

  /** The timestamp a line begins with is taken off it, with one space after it. */
  lemma StampTaken(stamp: string, rest: string)
    requires IsStamp(stamp)
    ensures StampLength(stamp + rest) == if rest != "" && rest[0] == ' ' then |stamp| + 1 else |stamp|
  {
    var line, end := stamp + rest, |stamp| - 1;
    assert line[..19] == stamp[..19];
    DateOf(line);
    assert line[end] == 'Z' && !IsDigit(line[end]);
    if end > 19 {
      var fraction := stamp[19..end];
      assert forall i :: 0 <= i < |fraction| ==> line[19 + i] == fraction[i];
      DigitRunIs(line, 20, end);
    } else {
      assert line[19] == 'Z';
    }
  }

  /** A line that begins with no timestamp stays whole. */
  lemma NoStamp(line: string)
    requires forall n :: 0 <= n <= |line| ==> !IsStamp(line[..n])
    ensures StampLength(line) == 0
  {
    if StampLength(line) > 0 {
      DateOf(line);
      var end := if line[19] == '.' && DigitRun(line, 20) > 20 then DigitRun(line, 20) else 19;
      var stamp := line[..end + 1];
      assert stamp[..19] == line[..19];
      if end > 19 {
        DigitRunDigits(line, 20);
        assert forall i :: 0 <= i < end - 19 ==> stamp[19..end][i] == line[19 + i];
      }
      assert IsStamp(stamp);
    }
  }

  // ----- Invisible characters and blanks -----

  predicate Hidden(c: char, invisible: set<char>) {
    IsControl(c) || c in invisible
  }

  /** Of the control characters only the tab and the line ends are shown. */
  lemma ControlsHidden(c: char)
    ensures IsControl(c) <==> (c < ' ' && c != '\t' && c != '\n' && c != '\r') || c as int == 0x7F
  {
  }

  /** Blank characters are those ECMAScript calls white space or line ends. */
  lemma BlanksAre(c: char)
    ensures IsBlank(c) <==>
              || c in " \t\n\r" || c as int in {0x0B, 0x0C, 0xA0, 0xFEFF, 0x1680, 0x202F, 0x205F, 0x3000}
              || (0x2000 <= c as int <= 0x200A) || c as int in {0x2028, 0x2029}
  {
    assert '\t' as int == 9 && '\n' as int == 10 && '\r' as int == 13 && ' ' as int == 32;
  }

  lemma {:induction false} VisibleConcat(a: string, b: string, invisible: set<char>)
    ensures Visible(a + b, invisible) == Visible(a, invisible) + Visible(b, invisible)
    decreases |a|
  {
    if a == "" {
      assert a + b == b;
    } else {
      assert (a + b)[1..] == a[1..] + b;
      VisibleConcat(a[1..], b, invisible);
    }
  }

  /** A text of visible characters stays, and each hidden character in it goes. */
  lemma {:induction false} VisibleStays(text: string, invisible: set<char>)
    requires forall i :: 0 <= i < |text| ==> !Hidden(text[i], invisible)
    ensures Visible(text, invisible) == text
    decreases |text|
  {
    if text != "" { VisibleStays(text[1..], invisible); }
  }

  lemma {:induction false} HiddenGoes(a: string, c: char, b: string, invisible: set<char>)
    requires Hidden(c, invisible)
    ensures Visible(a + [c] + b, invisible) == Visible(a, invisible) + Visible(b, invisible)
  {
    VisibleConcat(a + [c], b, invisible);
    VisibleConcat(a, [c], invisible);
    HiddenAlone(c, invisible);
    assert Visible(a, invisible) + "" == Visible(a, invisible);
  }

  lemma {:induction false} HiddenAlone(c: char, invisible: set<char>)
    requires Hidden(c, invisible)
    ensures Visible([c], invisible) == ""
  {
    assert [c][1..] == "";
  }

  /** Exactly the blanks at the end are trimmed. */
  lemma {:induction false} Trimmed(text: string, blanks: string)
    requires text == "" || !IsBlank(text[|text| - 1])
    requires forall i :: 0 <= i < |blanks| ==> IsBlank(blanks[i])
    ensures TrimEnd(text + blanks) == text
    decreases |blanks|
  {
    if blanks == "" {
      assert text + blanks == text;
    } else {
      var n := |blanks| - 1;
      assert (text + blanks)[..|text + blanks| - 1] == text + blanks[..n];
      Trimmed(text, blanks[..n]);
    }
  }

  // ----- One plain line -----

  /** Visible text on one line with no timestamp before it and no blank at its end. */
  ghost predicate PlainText(text: string, invisible: set<char>) {
    && Lacks(text, '\n') && Lacks(text, '\r') && (forall i :: 0 <= i < |text| ==> !Hidden(text[i], invisible))
    && (text == "" || !IsBlank(text[|text| - 1])) && forall n :: 0 <= n <= |text| ==> !IsStamp(text[..n])
  }

  lemma CleanText(text: string, invisible: set<char>)
    requires PlainText(text, invisible)
    ensures StampLength(text) == 0 && TrimEnd(Visible(text, invisible)) == text
  {
    NoStamp(text);
    VisibleStays(text, invisible);
    Trimmed(text, "");
    assert text + "" == text;
  }

  /** Plain text stays as it is, whatever was drawn before it, with a carriage return after it or not. */
  lemma CleanDrawn(before: string, text: string, invisible: set<char>)
    requires PlainText(text, invisible) && DrawEnds(before)
    ensures CleanLine(before + text + "\r", invisible) == text
    ensures text != "" || before == "" ==> CleanLine(before + text, invisible) == text
  {
    LastDrawIs(before, text);
    CleanText(text, invisible);
    assert text[0..] == text;
  }

  lemma StampedDraw(stamp: string, text: string)
    requires Lacks(stamp, '\r') && Lacks(text, '\r')
    ensures LastDraw(stamp + " " + text) == stamp + " " + text
  {
    var line := stamp + " " + text;
    assert "" + line == line;
    LastDrawIs("", line);
  }

  lemma StampedRest(stamp: string, text: string)
    requires IsStamp(stamp)
    ensures var line := stamp + " " + text; StampLength(line) == |stamp| + 1 && line[|stamp| + 1..] == text
  {
    assert stamp + " " + text == stamp + (" " + text);
    StampTaken(stamp, " " + text);
  }

  /** The timestamp before plain text goes. */
  lemma CleanStamped(stamp: string, text: string, invisible: set<char>)
    requires PlainText(text, invisible) && IsStamp(stamp) && Lacks(stamp, '\r')
    ensures CleanLine(stamp + " " + text, invisible) == text
  {
    StampedDraw(stamp, text);
    StampedRest(stamp, text);
    CleanText(text, invisible);
  }

  // ----- Workflow commands -----

  /** No line terminator stands in the text. */
  predicate OnOneLine(text: string) {
    forall i :: 0 <= i < |text| ==>
      text[i] != '\n' && text[i] != '\r' && text[i] as int != 0x2028 && text[i] as int != 0x2029
  }

  datatype Command = Shown(name: string, words: string, error: bool) | Silent(name: string)

  const ERROR := Shown("##[error]", "Error: ", true)
  const WARNING := Shown("##[warning]", "Warning: ", false)
  const NOTICE := Shown("##[notice]", "Notice: ", false)
  const GROUP := Shown("##[group]", "", false)
  const COMMAND := Shown("##[command]", "", false)
  const ENDGROUP := Silent("##[endgroup]")
  const DEBUG := Silent("##[debug]")

  predicate IsKnown(command: Command) {
    command in {ERROR, WARNING, NOTICE, GROUP, COMMAND, ENDGROUP, DEBUG}
  }

  lemma CommandStarts(name: string, text: string)
    requires OnOneLine(text)
    ensures HasPrefix(name + text, name) && IsCommand(name + text, name) && (name + text)[|name|..] == text
  {
  }

  lemma PrefixChar(line: string, name: string, i: nat)
    requires i < |name|
    ensures HasPrefix(line, name) ==> i < |line| && line[i] == name[i]
  {
    if HasPrefix(line, name) { assert line[i] == line[..|name|][i]; }
  }

  /** Two names that differ at a place begin no line together. */
  lemma OtherName(line: string, name: string, other: string, i: nat)
    requires HasPrefix(line, name) && i < |name| && i < |other| && name[i] != other[i]
    ensures !IsCommand(line, other)
  {
    PrefixChar(line, name, i);
    PrefixChar(line, other, i);
  }

  /** The silent commands are tried first, then the others in this order; each name differs from all tried before. */
  lemma CommandShown(command: Command, text: string)
    requires IsKnown(command) && OnOneLine(text)
    ensures ActionsLine(command.name + text) ==
            if command.Silent? then [] else [MarkedLine(command.words + text, command.error)]
  {
    var line := command.name + text;
    CommandStarts(command.name, text);
    if command.Shown? {
      OtherName(line, command.name, "##[endgroup]", if command == ERROR then 4 else 3);
      OtherName(line, command.name, "##[debug]", 3);
      if command != ERROR { OtherName(line, command.name, "##[error]", 3); }
      if command != ERROR && command != WARNING { OtherName(line, command.name, "##[warning]", 3); }
      if command == GROUP || command == COMMAND { OtherName(line, command.name, "##[notice]", 3); }
      if command == COMMAND { OtherName(line, command.name, "##[group]", 3); }
    }
  }

  /** Any other line is shown as it is. */
  lemma OtherShown(line: string)
    requires !OnOneLine(line) || forall command :: IsKnown(command) ==> !HasPrefix(line, command.name)
    ensures ActionsLine(line) == [MarkedLine(line, false)]
  {
    forall command | IsKnown(command) ensures !IsCommand(line, command.name) {
      if IsCommand(line, command.name) { CommandNameOnOneLine(command); PrefixOnOneLine(line, command.name); }
    }
    assert IsKnown(ERROR) && IsKnown(WARNING) && IsKnown(NOTICE) && IsKnown(GROUP) && IsKnown(COMMAND) &&
           IsKnown(ENDGROUP) && IsKnown(DEBUG);
  }

  lemma CommandNameOnOneLine(command: Command)
    requires IsKnown(command)
    ensures OnOneLine(command.name)
  {
    MarkNames();
    GroupNames();
    SilentNames();
  }

  lemma MarkNames()
    ensures OnOneLine("##[error]") && OnOneLine("##[warning]") && OnOneLine("##[notice]")
  {
  }

  lemma GroupNames()
    ensures OnOneLine("##[group]") && OnOneLine("##[command]")
  {
  }

  lemma SilentNames()
    ensures OnOneLine("##[endgroup]") && OnOneLine("##[debug]")
  {
  }

  lemma PrefixOnOneLine(line: string, name: string)
    requires IsCommand(line, name) && OnOneLine(name)
    ensures OnOneLine(line)
  {
    assert forall i :: 0 <= i < |name| ==> line[i] == line[..|name|][i];
  }

  // ----- A plain log -----

  ghost predicate PlainLines(lines: seq<string>, invisible: set<char>) {
    forall i :: 0 <= i < |lines| ==> PlainText(lines[i], invisible)
  }

  /** The lines with a carriage return at the end of those marked. */
  function WithReturns(lines: seq<string>, returned: seq<bool>): seq<string>
    requires |lines| == |returned|
  {
    if lines == [] then [] else [Returned(lines[0], returned[0])] + WithReturns(lines[1..], returned[1..])
  }

  function Returned(line: string, returned: bool): string {
    if returned then line + "\r" else line
  }

  lemma {:induction false} ReturnsLack(lines: seq<string>, returned: seq<bool>)
    requires |lines| == |returned| && EachLacks(lines, '\n')
    ensures |WithReturns(lines, returned)| == |lines| && EachLacks(WithReturns(lines, returned), '\n')
    decreases |lines|
  {
    if lines != [] { ReturnsLack(lines[1..], returned[1..]); }
  }

  lemma {:induction false} SplitJoin(lines: seq<string>)
    requires lines != [] && EachLacks(lines, '\n')
    ensures Split(Join(lines)) == lines
    decreases |lines|
  {
    OneLine(lines[0]);
    if |lines| > 1 {
      SplitConcat(lines[0], Join(lines[1..]));
      SplitJoin(lines[1..]);
      assert lines == [lines[0]] + lines[1..];
    }
  }

  lemma CleanReturned(text: string, returned: bool, invisible: set<char>)
    requires PlainText(text, invisible)
    ensures CleanLine(Returned(text, returned), invisible) == text
  {
    CleanDrawn("", text, invisible);
    assert "" + text == text && "" + text + "\r" == text + "\r";
  }

  lemma {:induction false} OneMoreMarked(line: string, rest: seq<string>, invisible: set<char>)
    ensures MarkedLines([line] + rest, invisible) ==
            ActionsLine(CleanLine(line, invisible)) + MarkedLines(rest, invisible)
  {
    assert ([line] + rest)[1..] == rest;
  }

  lemma {:induction false} PlainMarked(lines: seq<string>, returned: seq<bool>, invisible: set<char>)
    requires PlainLines(lines, invisible) && |lines| == |returned|
    ensures MarkedLines(WithReturns(lines, returned), invisible) == FlatMap(lines, ActionsLine)
    decreases |lines|
  {
    if lines != [] {
      CleanReturned(lines[0], returned[0], invisible);
      PlainMarked(lines[1..], returned[1..], invisible);
      OneMoreMarked(Returned(lines[0], returned[0]), WithReturns(lines[1..], returned[1..]), invisible);
    }
  }

  /** Lines of plain text, whichever of the two line ends each has, are marked as the lines they are. */
  lemma PlainLog(lines: seq<string>, returned: seq<bool>, strip: string -> string, invisible: set<char>)
    requires lines != [] && PlainLines(lines, invisible) && |lines| == |returned|
    requires var raw := Join(WithReturns(lines, returned)); |raw| <= RAW_TAIL_CHARS && strip(raw) == raw
    ensures Marked(Join(WithReturns(lines, returned)), strip, invisible) == FlatMap(lines, ActionsLine)
  {
    ReturnsLack(lines, returned);
    SplitJoin(WithReturns(lines, returned));
    PlainMarked(lines, returned, invisible);
  }

  ghost predicate BeginsNoCommand(line: string) {
    forall command :: IsKnown(command) ==> !HasPrefix(line, command.name)
  }

  function Unmarked(lines: seq<string>): seq<MarkedLine> {
    seq(|lines|, i requires 0 <= i < |lines| => MarkedLine(lines[i], false))
  }

  lemma {:induction false} OthersUnmarked(lines: seq<string>)
    requires forall i :: 0 <= i < |lines| ==> BeginsNoCommand(lines[i])
    ensures FlatMap(lines, ActionsLine) == Unmarked(lines)
    decreases |lines|
  {
    if lines != [] {
      OtherShown(lines[0]);
      OthersUnmarked(lines[1..]);
      assert Unmarked(lines) == [MarkedLine(lines[0], false)] + Unmarked(lines[1..]);
    }
  }

  /** Without workflow commands, exactly the lines are kept, and all are shown where they are not too many. */
  lemma PlainKept(lines: seq<string>)
    requires lines != [] && lines[|lines| - 1] != ""
    requires forall i :: 0 <= i < |lines| ==> BeginsNoCommand(lines[i])
    ensures KeptLines(FlatMap(lines, ActionsLine)) == lines
    ensures |lines| <= MAX_LINES && |Join(lines)| <= MAX_CHARS ==> BoundedText(lines) == Join(lines)
  {
    OthersUnmarked(lines);
    assert Texts(Unmarked(lines)) == lines;
  }

  lemma {:induction false} NoErrors(lines: seq<string>)
    requires forall i :: 0 <= i < |lines| ==> !HasPrefix(lines[i], ERROR.name)
    ensures LastError(FlatMap(lines, ActionsLine)) < 0
    decreases |lines|
  {
    if lines != [] {
      NoErrors(lines[1..]);
      NoErrorMark(lines[0]);
      LastErrorConcat(ActionsLine(lines[0]), FlatMap(lines[1..], ActionsLine));
    }
  }

  lemma NoErrorMark(line: string)
    requires !HasPrefix(line, ERROR.name)
    ensures LastError(ActionsLine(line)) < 0
  {
  }

  lemma {:induction false} EndsWithError(before: seq<string>, text: string)
    requires (forall i :: 0 <= i < |before| ==> BeginsNoCommand(before[i])) && OnOneLine(text)
    ensures var marked := FlatMap(before + [ERROR.name + text], ActionsLine);
            && marked == Unmarked(before) + [MarkedLine(ERROR.words + text, true)]
            && LastError(marked) == |before| && KeptLines(marked) == before + [ERROR.words + text]
  {
    var line := ERROR.name + text;
    CommandShown(ERROR, text);
    OthersUnmarked(before);
    FlatMapConcat(before, [line], ActionsLine);
    assert [line][1..] == [];
    var marked := Unmarked(before) + [MarkedLine(ERROR.words + text, true)];
    assert FlatMap([line], ActionsLine) == [MarkedLine(ERROR.words + text, true)];
    assert Texts(marked)[..|before| + 1] == before + [ERROR.words + text];
  }

  /** With errors, exactly the lines up to the last one are kept, that one in the viewer's words. */
  lemma ErrorKept(before: seq<string>, text: string, after: seq<string>)
    requires (forall i :: 0 <= i < |before| ==> BeginsNoCommand(before[i])) && OnOneLine(text)
    requires forall i :: 0 <= i < |after| ==> !HasPrefix(after[i], ERROR.name)
    ensures KeptLines(FlatMap(before + [ERROR.name + text] + after, ActionsLine)) == before + [ERROR.words + text]
  {
    EndsWithError(before, text);
    NoErrors(after);
    FlatMapConcat(before + [ERROR.name + text], after, ActionsLine);
    KeptWithEarlierError(FlatMap(before + [ERROR.name + text], ActionsLine), FlatMap(after, ActionsLine));
  }

  /**
   * So a log of plain lines, with line feeds or carriage returns and line feeds, is shown as exactly
   * those lines.
   */
  lemma PlainShown(lines: seq<string>, returned: seq<bool>, strip: string -> string, invisible: set<char>)
    requires lines != [] && PlainLines(lines, invisible) && |lines| == |returned| && lines[|lines| - 1] != ""
    requires forall i :: 0 <= i < |lines| ==> BeginsNoCommand(lines[i])
    requires |lines| <= MAX_LINES && |Join(lines)| <= MAX_CHARS
    requires var raw := Join(WithReturns(lines, returned)); |raw| <= RAW_TAIL_CHARS && strip(raw) == raw
    ensures BoundedText(KeptLines(Marked(Join(WithReturns(lines, returned)), strip, invisible))) == Join(lines)
  {
    PlainLog(lines, returned, strip, invisible);
    PlainKept(lines);
  }

  /**
   * Of a long log the end that is read starts after the first line feed of its last characters, or is
   * all of them where they hold none.
   */
  lemma RawTailIs(raw: string) returns (from: nat)
    ensures from <= |raw| && RawTail(raw) == raw[from..]
    ensures |raw| <= RAW_TAIL_CHARS ==> from == 0
    ensures |raw| > RAW_TAIL_CHARS ==>
              var start := |raw| - RAW_TAIL_CHARS;
              || (start < from && raw[from - 1] == '\n' && forall i :: start <= i < from - 1 ==> raw[i] != '\n')
              || (from == start && Lacks(RawTail(raw), '\n'))
  {
    if |raw| <= RAW_TAIL_CHARS {
      from := 0;
      assert raw[0..] == raw;
    } else {
      from := TailFrom(raw);
    }
  }

  lemma TailFrom(raw: string) returns (from: nat)
    requires |raw| > RAW_TAIL_CHARS
    ensures from <= |raw| && RawTail(raw) == raw[from..]
    ensures var start := |raw| - RAW_TAIL_CHARS;
            || (start < from && raw[from - 1] == '\n' && forall i :: start <= i < from - 1 ==> raw[i] != '\n')
            || (from == start && Lacks(raw[from..], '\n'))
  {
    var start := |raw| - RAW_TAIL_CHARS;
    from := FeedFrom(raw, start);
  }

  lemma FeedFrom(text: string, start: nat) returns (from: nat)
    requires start <= |text|
    ensures var newline := IndexOf(text, '\n', start); from == if newline >= 0 then newline + 1 else start
    ensures from <= |text|
    ensures || (start < from && text[from - 1] == '\n' && forall i :: start <= i < from - 1 ==> text[i] != '\n')
            || (from == start && Lacks(text[from..], '\n'))
  {
    var newline := IndexOf(text, '\n', start);
    from := if newline >= 0 then newline + 1 else start;
  }

  /** The lines shown are the last ones, as many as the bound lets in. */
  lemma LastLinesAre(lines: seq<string>)
    ensures var last := LastLines(lines);
            |last| == (if |lines| < MAX_LINES then |lines| else MAX_LINES) && last == lines[|lines| - |last|..]
  {
  }
}
