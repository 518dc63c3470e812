/**
 * A failing check's log, bounded to its end as the text a terminal would show.
 *
 * A character stands for one code unit of the log. Terminal sequences and section marks
 * are removed by a function the caller supplies, and the invisible characters are a set
 * the caller supplies.
 */
module CheckLog {
  /** Characters of the raw log that are read, from its end. */
  const RAW_TAIL_CHARS := 1_000_000
  const MAX_LINES := 150
  const MAX_CHARS := 10_000

  datatype Bounded = Bounded(text: string, truncated: bool)
  datatype MarkedLine = MarkedLine(text: string, error: bool)

  // ----- Lines -----

  /** Where `c` first stands from `from` on, or -1. */
  function IndexOf(s: string, c: char, from: nat): (i: int)
    ensures i == -1 || from <= i < |s|
    ensures i != -1 ==> s[i] == c && forall j :: from <= j < i ==> s[j] != c
    ensures i == -1 ==> forall j :: from <= j < |s| ==> s[j] != c
    decreases |s| - from
  {
    if |s| <= from then -1 else if s[from] == c then from else IndexOf(s, c, from + 1)
  }

  /** Where `c` last stands up to `from`, or -1; a negative `from` counts as 0. */
  function LastIndexOf(s: string, c: char, from: int): (i: int)
    ensures -1 <= i < |s|
    ensures i != -1 ==> s[i] == c && (i <= from || i == 0)
    ensures forall j :: i < j <= from && j < |s| ==> s[j] != c
    decreases from
  {
    if s == [] then -1
    else if from <= 0 then (if s[0] == c then 0 else -1)
    else if from < |s| && s[from] == c then from
    else LastIndexOf(s, c, from - 1)
  }

  function Split(s: string): (lines: seq<string>)
    ensures lines != []
  {
    if s == "" then [""]
    else
      var rest := Split(s[1..]);
      if s[0] == '\n' then [""] + rest else [[s[0]] + rest[0]] + rest[1..]
  }

  function Join(lines: seq<string>): string {
    if lines == [] then "" else if |lines| == 1 then lines[0] else lines[0] + "\n" + Join(lines[1..])
  }

  // ----- Cleaning one line -----

  /** The last draw of a line that carriage returns redraw. */
  function LastDraw(line: string): string {
    var shown := line[LastIndexOf(line, '\r', |line| - 2) + 1..];
    if shown != "" && shown[|shown| - 1] == '\r' then shown[..|shown| - 1] else shown
  }

  predicate IsDigit(c: char) { '0' <= c <= '9' }

  predicate DigitsAt(line: string, from: nat, count: nat) {
    from + count <= |line| && forall i :: from <= i < from + count ==> IsDigit(line[i])
  }

  function DigitRun(line: string, from: nat): (end: nat)
    ensures from <= |line| ==> from <= end <= |line|
    decreases |line| - from
  {
    if from < |line| && IsDigit(line[from]) then DigitRun(line, from + 1) else from
  }

  /** The length of the timestamp GitHub Actions puts before a line, with the space after it; 0 without one. */
  function StampLength(line: string): (n: nat)
    ensures n <= |line|
  {
    if |line| < 20 then 0
    else if !(DigitsAt(line, 0, 4) && line[4] == '-' && DigitsAt(line, 5, 2) && line[7] == '-' &&
              DigitsAt(line, 8, 2) &&
              line[10] == 'T' && DigitsAt(line, 11, 2) && line[13] == ':' && DigitsAt(line, 14, 2) && line[16] == ':' &&
              DigitsAt(line, 17, 2)) then 0
    else
      var end := if line[19] == '.' && DigitRun(line, 20) > 20 then DigitRun(line, 20) else 19;
      if end < |line| && line[end] == 'Z' then
        if end + 1 < |line| && line[end + 1] == ' ' then end + 2 else end + 1
      else 0
  }

  /** Control characters other than tab, line feed and carriage return. */
  predicate IsControl(c: char) {
    var code := c as int;
    code <= 8 || code == 11 || code == 12 || 14 <= code <= 31 || code == 127
  }

  predicate IsBlank(c: char) {
    var code := c as int;
    9 <= code <= 13 || code == 32 || code == 0xA0 || code == 0x1680 || 0x2000 <= code <= 0x200A ||
    code == 0x2028 || code == 0x2029 || code == 0x202F || code == 0x205F || code == 0x3000 || code == 0xFEFF
  }

  function Visible(line: string, invisible: set<char>): string {
    if line == "" then ""
    else (if IsControl(line[0]) || line[0] in invisible then "" else [line[0]]) + Visible(line[1..], invisible)
  }

  function TrimEnd(line: string): string {
    if line != "" && IsBlank(line[|line| - 1]) then TrimEnd(line[..|line| - 1]) else line
  }

  function CleanLine(line: string, invisible: set<char>): string {
    var drawn := LastDraw(line);
    TrimEnd(Visible(drawn[StampLength(drawn)..], invisible))
  }

  predicate HasPrefix(line: string, prefix: string) {
    |prefix| <= |line| && line[..|prefix|] == prefix
  }

  /** The rest of a workflow command's line; a line terminator in it makes the line no command. */
  predicate IsCommand(line: string, command: string) {
    HasPrefix(line, command) &&
    forall i :: |command| <= i < |line| ==>
      line[i] != '\n' && line[i] != '\r' && line[i] as int != 0x2028 && line[i] as int != 0x2029
  }

  function Relabeled(line: string, command: string, shown: string): string
    requires HasPrefix(line, command)
  {
    shown + line[|command|..]
  }

  /** GitHub Actions' workflow commands in the words its log viewer shows; only its error marks are errors. */
  function ActionsLine(line: string): (marked: seq<MarkedLine>)
    ensures |marked| <= 1
  {
    if IsCommand(line, "##[endgroup]") || IsCommand(line, "##[debug]") then []
    else if IsCommand(line, "##[error]") then [MarkedLine(Relabeled(line, "##[error]", "Error: "), true)]
    else if IsCommand(line, "##[warning]") then [MarkedLine(Relabeled(line, "##[warning]", "Warning: "), false)]
    else if IsCommand(line, "##[notice]") then [MarkedLine(Relabeled(line, "##[notice]", "Notice: "), false)]
    else if IsCommand(line, "##[group]") then [MarkedLine(Relabeled(line, "##[group]", ""), false)]
    else if IsCommand(line, "##[command]") then [MarkedLine(Relabeled(line, "##[command]", ""), false)]
    else [MarkedLine(line, false)]
  }

  function MarkedLines(lines: seq<string>, invisible: set<char>): seq<MarkedLine> {
    if lines == [] then [] else ActionsLine(CleanLine(lines[0], invisible)) + MarkedLines(lines[1..], invisible)
  }

  // ----- Bounding -----

  /** The end of the raw log that is read, from a line's start if one starts in it. */
  function RawTail(raw: string): string {
    if |raw| <= RAW_TAIL_CHARS then raw
    else
      var start := |raw| - RAW_TAIL_CHARS;
      var newline := IndexOf(raw, '\n', start);
      if newline >= 0 then raw[newline + 1..] else raw[start..]
  }

  function Marked(raw: string, strip: string -> string, invisible: set<char>): seq<MarkedLine> {
    MarkedLines(Split(strip(RawTail(raw))), invisible)
  }

  function Texts(marked: seq<MarkedLine>): (texts: seq<string>)
    ensures |texts| == |marked|
  {
    seq(|marked|, i requires 0 <= i < |marked| => marked[i].text)
  }

  function LastError(marked: seq<MarkedLine>): (i: int)
    ensures -1 <= i < |marked|
    ensures i >= 0 ==> marked[i].error
    ensures forall j :: i < j < |marked| ==> !marked[j].error
  {
    if marked == [] then -1
    else if marked[|marked| - 1].error then |marked| - 1
    else LastError(marked[..|marked| - 1])
  }

  function WithoutBlankEnd(lines: seq<string>): (kept: seq<string>)
    ensures |kept| <= |lines| && kept == lines[..|kept|]
    ensures kept == [] || kept[|kept| - 1] != ""
    ensures forall i :: |kept| <= i < |lines| ==> lines[i] == ""
  {
    if lines != [] && lines[|lines| - 1] == "" then WithoutBlankEnd(lines[..|lines| - 1]) else lines
  }

  /** The lines the bound is taken from: up to the last error mark, without blank lines at the end. */
  function KeptLines(marked: seq<MarkedLine>): seq<string> {
    var lastError := LastError(marked);
    WithoutBlankEnd(if lastError >= 0 then Texts(marked)[..lastError + 1] else Texts(marked))
  }

  function LastLines(lines: seq<string>): seq<string> {
    if |lines| <= MAX_LINES then lines else lines[|lines| - MAX_LINES..]
  }

  /** The last characters, from a line's start if one starts in them. */
  function LastChars(text: string): (end: string)
    ensures |end| <= MAX_CHARS
  {
    if |text| <= MAX_CHARS then text
    else
      var cut := text[|text| - MAX_CHARS..];
      cut[IndexOf(cut, '\n', 0) + 1..]
  }

  method EndOfLog(marked: seq<MarkedLine>) returns (lines: seq<string>)
    ensures lines == KeptLines(marked)
  {
    lines := Texts(marked);
    var lastError := -1;
    for index := 0 to |marked|
      invariant lastError == LastError(marked[..index])
    {
      assert marked[..index + 1][..index] == marked[..index];
      if marked[index].error { lastError := index; }
    }
    assert marked[..|marked|] == marked;
    if lastError >= 0 { lines := lines[..lastError + 1]; }
    ghost var cut := lines;
    while |lines| > 0 && lines[|lines| - 1] == ""
      invariant WithoutBlankEnd(cut) == WithoutBlankEnd(lines)
    {
      lines := lines[..|lines| - 1];
    }
  }

  method BoundCheckLog(raw: string, strip: string -> string, invisible: set<char>, redact: string -> string)
    returns (bounded: Bounded)
    ensures var kept := KeptLines(Marked(raw, strip, invisible));
            var text := redact(Join(LastLines(kept)));
            bounded == Bounded(LastChars(text), |raw| > RAW_TAIL_CHARS || |kept| > MAX_LINES || |text| > MAX_CHARS)
  {
    var truncated := |raw| > RAW_TAIL_CHARS;
    var lines := EndOfLog(Marked(raw, strip, invisible));
    truncated := truncated || |lines| > MAX_LINES;
    var text := redact(Join(LastLines(lines)));
    if |text| > MAX_CHARS {
      text := CutToChars(text);
      truncated := true;
    }
    return Bounded(text, truncated);
  }

  /**
   * The end that a too long text is cut to starts after the first line feed of its last characters,
   * or is all of them.
   */
  method CutToChars(text: string) returns (end: string)
    requires |text| > MAX_CHARS
    ensures end == LastChars(text)
    ensures |end| <= MAX_CHARS && IsSuffix(end, text)
    ensures var from := |text| - |end|;
            && (text[from - 1] == '\n' || (|end| == MAX_CHARS && Lacks(end, '\n')))
            && forall i :: |text| - MAX_CHARS <= i < from - 1 ==> text[i] != '\n'
  {
    var cut := text[|text| - MAX_CHARS..];
    end := cut[IndexOf(cut, '\n', 0) + 1..];
    ghost var from := CutStart(text);
  }

  // ----- What a bounded log holds -----

  predicate Lacks(s: string, c: char) {
    forall i :: 0 <= i < |s| ==> s[i] != c
  }

  predicate EachLacks(lines: seq<string>, c: char) {
    forall i :: 0 <= i < |lines| ==> Lacks(lines[i], c)
  }

  predicate IsSuffix(s: string, whole: string) {
    |s| <= |whole| && s == whole[|whole| - |s|..]
  }

  /**
   * A line's last draw holds no carriage return and stands right after one or at the line's start. It
   * ends with the line, or before the carriage return that the line ends with, and in no other case is
   * empty but at the line's start.
   */
  lemma LastDrawShown(line: string) returns (from: nat, to: nat)
    ensures from <= to <= |line| && LastDraw(line) == line[from..to]
    ensures Lacks(LastDraw(line), '\r')
    ensures from == 0 || line[from - 1] == '\r'
    ensures if to == |line| then from < to || from == 0 else to == |line| - 1 && line[to] == '\r'
  {
    from := LastIndexOf(line, '\r', |line| - 2) + 1;
    to := from + |LastDraw(line)|;
    assert forall j :: from <= j < |line| - 1 ==> line[j] != '\r';
    if line == "\r" { from, to := 0, 0; }
  }

  lemma SliceLacks(s: string, from: nat, to: nat, c: char)
    requires Lacks(s, c) && from <= to <= |s|
    ensures Lacks(s[from..to], c) && Lacks(s[from..], c)
  {
  }

  lemma {:induction false} VisibleLacks(line: string, invisible: set<char>, c: char)
    requires Lacks(line, c)
    ensures Lacks(Visible(line, invisible), c)
    decreases |line|
  {
    if line != "" {
      assert Lacks(line[1..], c);
      VisibleLacks(line[1..], invisible, c);
    }
  }

  lemma {:induction false} TrimEndLacks(line: string, c: char)
    requires Lacks(line, c)
    ensures Lacks(TrimEnd(line), c)
    decreases |line|
  {
    if line != "" && IsBlank(line[|line| - 1]) {
      TrimEndLacks(line[..|line| - 1], c);
    }
  }

  lemma CleanLineLacks(line: string, invisible: set<char>, c: char)
    requires c == '\r' || (c == '\n' && Lacks(line, c))
    ensures Lacks(CleanLine(line, invisible), c)
  {
    var from, to := LastDrawShown(line);
    if c == '\n' { SliceLacks(line, from, to, c); }
    var drawn := LastDraw(line);
    var body := drawn[StampLength(drawn)..];
    SliceLacks(drawn, StampLength(drawn), |drawn|, c);
    VisibleLacks(body, invisible, c);
    TrimEndLacks(Visible(body, invisible), c);
  }

  predicate MarkedLack(marked: seq<MarkedLine>, c: char) {
    forall i :: 0 <= i < |marked| ==> Lacks(marked[i].text, c)
  }

  predicate ErrorsShow(marked: seq<MarkedLine>) {
    forall i :: 0 <= i < |marked| && marked[i].error ==> marked[i].text != ""
  }

  lemma RelabeledLacks(line: string, command: string, shown: string, c: char)
    requires HasPrefix(line, command) && Lacks(line, c) && Lacks(shown, c)
    ensures Lacks(Relabeled(line, command, shown), c)
  {
  }

  lemma ActionsLineLacks(line: string, c: char)
    requires (c == '\r' || c == '\n') && Lacks(line, c)
    ensures MarkedLack(ActionsLine(line), c)
    ensures ErrorsShow(ActionsLine(line))
  {
    var marked := ActionsLine(line);
    if IsCommand(line, "##[error]") { RelabeledLacks(line, "##[error]", "Error: ", c); }
    if IsCommand(line, "##[warning]") { RelabeledLacks(line, "##[warning]", "Warning: ", c); }
    if IsCommand(line, "##[notice]") { RelabeledLacks(line, "##[notice]", "Notice: ", c); }
    if IsCommand(line, "##[group]") { RelabeledLacks(line, "##[group]", "", c); }
    if IsCommand(line, "##[command]") { RelabeledLacks(line, "##[command]", "", c); }
  }

  /** Joining the lines of a text gives the text back. */
  lemma {:induction false} JoinSplit(s: string)
    ensures Join(Split(s)) == s
    decreases |s|
  {
    if s != "" {
      JoinSplit(s[1..]);
      var rest := Split(s[1..]);
      assert s == [s[0]] + s[1..];
      if s[0] == '\n' {
        assert ([""] + rest)[1..] == rest;
      } else {
        assert ([[s[0]] + rest[0]] + rest[1..])[1..] == rest[1..];
      }
    }
  }

  lemma {:induction false} SplitLacks(s: string)
    ensures EachLacks(Split(s), '\n')
    decreases |s|
  {
    if s != "" {
      SplitLacks(s[1..]);
    }
  }

  lemma {:induction false} MarkedLinesLack(lines: seq<string>, invisible: set<char>)
    requires EachLacks(lines, '\n')
    ensures MarkedLack(MarkedLines(lines, invisible), '\n') && MarkedLack(MarkedLines(lines, invisible), '\r')
    ensures ErrorsShow(MarkedLines(lines, invisible))
    decreases |lines|
  {
    if lines != [] {
      CleanLineLacks(lines[0], invisible, '\n');
      CleanLineLacks(lines[0], invisible, '\r');
      ActionsLineLacks(CleanLine(lines[0], invisible), '\n');
      ActionsLineLacks(CleanLine(lines[0], invisible), '\r');
      MarkedLinesLack(lines[1..], invisible);
    }
  }

  /** With an error mark, exactly the lines up to the last one are kept; without one, all but blank lines at the end. */
  lemma {:induction false} KeptFromMarked(marked: seq<MarkedLine>)
    ensures var kept := KeptLines(marked);
            && |kept| <= |marked| && (forall i :: 0 <= i < |kept| ==> kept[i] == marked[i].text)
            && (LastError(marked) >= 0 && ErrorsShow(marked) ==> |kept| == LastError(marked) + 1)
            && (LastError(marked) < 0 ==> forall i :: |kept| <= i < |marked| ==> marked[i].text == "")
  {
    var last := LastError(marked);
    var cut := if last >= 0 then Texts(marked)[..last + 1] else Texts(marked);
    assert forall i :: 0 <= i < |cut| ==> cut[i] == marked[i].text;
  }

  /** Kept lines hold no line feed or carriage return. */
  lemma KeptLinesLack(raw: string, strip: string -> string, invisible: set<char>)
    ensures EachLacks(KeptLines(Marked(raw, strip, invisible)), '\n')
    ensures EachLacks(KeptLines(Marked(raw, strip, invisible)), '\r')
  {
    SplitLacks(strip(RawTail(raw)));
    MarkedLinesLack(Split(strip(RawTail(raw))), invisible);
    KeptLack(Marked(raw, strip, invisible), '\n');
    KeptLack(Marked(raw, strip, invisible), '\r');
  }

  lemma KeptLack(marked: seq<MarkedLine>, c: char)
    requires MarkedLack(marked, c)
    ensures EachLacks(KeptLines(marked), c)
  {
    KeptFromMarked(marked);
  }

  /**
   * The kept lines are the first of the marked ones: with an error mark, exactly those up
   * to the last one; without one, all but blank lines at the end.
   */
  lemma KeptUpToError(raw: string, strip: string -> string, invisible: set<char>)
    ensures var marked := Marked(raw, strip, invisible);
            var kept := KeptLines(marked);
            && |kept| <= |marked| && (forall i :: 0 <= i < |kept| ==> kept[i] == marked[i].text)
            && (LastError(marked) >= 0 ==> |kept| == LastError(marked) + 1)
            && (LastError(marked) < 0 ==> forall i :: |kept| <= i < |marked| ==> marked[i].text == "")
  {
    SplitLacks(strip(RawTail(raw)));
    MarkedLinesLack(Split(strip(RawTail(raw))), invisible);
    KeptFromMarked(Marked(raw, strip, invisible));
  }

  lemma {:induction false} JoinLacks(lines: seq<string>, c: char)
    requires c != '\n' && EachLacks(lines, c)
    ensures Lacks(Join(lines), c)
    decreases |lines|
  {
    if |lines| > 1 {
      JoinLacks(lines[1..], c);
    }
  }

  function Newlines(s: string): nat {
    if s == "" then 0 else (if s[0] == '\n' then 1 else 0) + Newlines(s[1..])
  }

  lemma {:induction false} NewlinesAppend(s: string, t: string)
    ensures Newlines(s + t) == Newlines(s) + Newlines(t)
    decreases |s|
  {
    if s == "" {
      assert s + t == t;
    } else {
      assert (s + t)[1..] == s[1..] + t;
      NewlinesAppend(s[1..], t);
    }
  }

  lemma {:induction false} NoNewlines(s: string)
    requires Lacks(s, '\n')
    ensures Newlines(s) == 0
    decreases |s|
  {
    if s != "" { NoNewlines(s[1..]); }
  }

  /** Joined lines hold one line feed between each two. */
  lemma {:induction false} JoinNewlines(lines: seq<string>)
    requires EachLacks(lines, '\n') && lines != []
    ensures Newlines(Join(lines)) == |lines| - 1
    decreases |lines|
  {
    NoNewlines(lines[0]);
    if |lines| > 1 {
      JoinNewlines(lines[1..]);
      NewlinesAppend(lines[0] + "\n", Join(lines[1..]));
      NewlinesAppend(lines[0], "\n");
    }
  }

  /** What stands after a line feed, or at the start, is a run of whole lines. */
  lemma {:induction false} WholeLines(lines: seq<string>, i: nat) returns (k: nat)
    requires EachLacks(lines, '\n')
    requires i <= |Join(lines)| && (i == 0 || Join(lines)[i - 1] == '\n')
    ensures k <= |lines| && Join(lines)[i..] == Join(lines[k..])
    decreases |lines|
  {
    k := 0;
    if i > 0 {
      assert |lines| > 1;
      var head := lines[0] + "\n";
      assert i >= |head| by {
        assert forall j :: 0 <= j < |lines[0]| ==> Join(lines)[j] == lines[0][j];
      }
      assert Join(lines) == head + Join(lines[1..]);
      assert Join(lines)[i..] == Join(lines[1..])[i - |head|..];
      assert i > |head| ==> Join(lines[1..])[i - |head| - 1] == Join(lines)[i - 1];
      k := WholeLines(lines[1..], i - |head|);
      k := k + 1;
      assert lines[1..][k - 1..] == lines[k..];
    }
  }

  lemma EndsAfter(whole: string, end: string, i: nat, c: char)
    requires IsSuffix(end, whole) && Lacks(end, c) && i < |whole| && whole[i] == c
    ensures i < |whole| - |end|
  {
    assert forall j :: |whole| - |end| <= j < |whole| ==> whole[j] == end[j - (|whole| - |end|)];
  }

  lemma JoinCons(lines: seq<string>)
    requires |lines| > 1
    ensures Join(lines) == lines[0] + "\n" + Join(lines[1..])
    ensures Join(lines)[|lines[0]|] == '\n'
  {
  }

  lemma SuffixOfRest(end: string, head: string, rest: string)
    requires IsSuffix(end, head + rest) && |end| <= |rest|
    ensures IsSuffix(end, rest)
  {
  }

  /** An end that holds no line feed lies in the last line. */
  lemma {:induction false} EndOfLastLine(lines: seq<string>, end: string)
    requires lines != [] && IsSuffix(end, Join(lines)) && Lacks(end, '\n')
    ensures IsSuffix(end, lines[|lines| - 1])
    decreases |lines|
  {
    if |lines| > 1 {
      JoinCons(lines);
      EndsAfter(Join(lines), end, |lines[0]|, '\n');
      SuffixOfRest(end, lines[0] + "\n", Join(lines[1..]));
      EndOfLastLine(lines[1..], end);
    }
  }

  lemma {:induction false} LastLinesJoin(lines: seq<string>)
    ensures IsSuffix(Join(LastLines(lines)), Join(lines))
    ensures Join(LastLines(lines)) == Join(lines) <==> |lines| <= MAX_LINES
  {
    if |lines| > MAX_LINES {
      DropLines(lines, |lines| - MAX_LINES);
    }
  }

  lemma {:induction false} DropLines(lines: seq<string>, k: nat)
    requires k < |lines|
    ensures IsSuffix(Join(lines[k..]), Join(lines))
    ensures k > 0 ==> |Join(lines[k..])| < |Join(lines)|
    decreases |lines|
  {
    if k > 0 {
      DropLines(lines[1..], k - 1);
      assert lines[1..][k - 1..] == lines[k..];
      var head, rest, end := lines[0] + "\n", Join(lines[1..]), Join(lines[k..]);
      assert Join(lines) == head + rest;
      assert end == Join(lines)[|Join(lines)| - |end|..];
    }
  }

  /** With nothing redacted, the text a log is bounded to. */
  function BoundedText(kept: seq<string>): string {
    LastChars(Join(LastLines(kept)))
  }

  lemma LastLinesLack(lines: seq<string>, c: char)
    requires EachLacks(lines, c)
    ensures EachLacks(LastLines(lines), c)
  {
  }

  lemma SuffixOfSuffix(s: string, middle: string, whole: string)
    requires IsSuffix(s, middle) && IsSuffix(middle, whole)
    ensures IsSuffix(s, whole)
  {
    assert whole[|whole| - |middle|..][|middle| - |s|..] == whole[|whole| - |s|..];
  }

  lemma SuffixLacks(s: string, whole: string, c: char)
    requires IsSuffix(s, whole) && Lacks(whole, c)
    ensures Lacks(s, c)
  {
  }

  lemma SuffixNewlines(s: string, whole: string)
    requires IsSuffix(s, whole)
    ensures Newlines(s) <= Newlines(whole)
  {
    assert whole == whole[..|whole| - |s|] + s;
    NewlinesAppend(whole[..|whole| - |s|], s);
  }

  /** A bounded log keeps within both bounds, and is an end of the kept lines with no carriage return. */
  lemma WithinBounds(kept: seq<string>)
    requires EachLacks(kept, '\n') && EachLacks(kept, '\r')
    ensures var text := BoundedText(kept);
            |text| <= MAX_CHARS && Newlines(text) < MAX_LINES && Lacks(text, '\r') && IsSuffix(text, Join(kept))
  {
    var last := LastLines(kept);
    var whole := Join(last);
    var text := LastChars(whole);
    LastLinesLack(kept, '\n');
    LastLinesLack(kept, '\r');
    LastLinesJoin(kept);
    BoundsOfLines(last);
    SuffixOfSuffix(text, whole, Join(kept));
  }

  lemma BoundsOfLines(last: seq<string>)
    requires EachLacks(last, '\n') && EachLacks(last, '\r') && |last| <= MAX_LINES
    ensures var text := LastChars(Join(last));
            Newlines(text) < MAX_LINES && Lacks(text, '\r') && IsSuffix(text, Join(last))
  {
    var whole := Join(last);
    var text := LastChars(whole);
    if |whole| > MAX_CHARS {
      var from := CutStart(whole);
      assert IsSuffix(whole[from..], whole);
    }
    JoinLacks(last, '\r');
    SuffixLacks(text, whole, '\r');
    if last != [] { JoinNewlines(last); }
    SuffixNewlines(text, whole);
  }

  lemma DropTwice(s: string, k: nat, i: nat)
    requires k + i <= |s|
    ensures s[k..][i..] == s[k + i..]
  {
  }

  /** What follows the first line feed from `k` on, or all from `k` on without one. */
  lemma AfterFirstNewline(text: string, k: nat) returns (from: nat)
    requires k < |text|
    ensures k <= from <= |text| && text[k..][IndexOf(text[k..], '\n', 0) + 1..] == text[from..]
    ensures (0 < from && text[from - 1] == '\n') || (from == k && Lacks(text[from..], '\n'))
    ensures forall i :: k <= i < from - 1 ==> text[i] != '\n'
  {
    var cut := text[k..];
    var newline := IndexOf(cut, '\n', 0);
    from := k + newline + 1;
    DropTwice(text, k, newline + 1);
    assert forall i :: k <= i < |text| ==> text[i] == cut[i - k];
  }

  /** A cut text starts right after a line feed, or is one stretch of characters without one. */
  lemma CutStart(text: string) returns (from: nat)
    requires |text| > MAX_CHARS
    ensures 0 < from <= |text| && LastChars(text) == text[from..]
    ensures text[from - 1] == '\n' || (|text[from..]| == MAX_CHARS && Lacks(text[from..], '\n'))
    ensures forall i :: |text| - MAX_CHARS <= i < from - 1 ==> text[i] != '\n'
  {
    from := AfterFirstNewline(text, |text| - MAX_CHARS);
  }

  /** The text is the last of the lines, each whole. */
  ghost predicate EndsWithWhole(lines: seq<string>, text: string) {
    exists k :: 0 <= k <= |lines| && text == Join(lines[k..])
  }

  /** The text is the last characters, as many as are shown, of a last line that is longer. */
  predicate EndsInLastLine(lines: seq<string>, text: string) {
    lines != [] && |text| == MAX_CHARS && IsSuffix(text, lines[|lines| - 1]) && |lines[|lines| - 1]| > MAX_CHARS
  }

  /** The last characters of some lines are whole lines, or the end of one over-long line. */
  lemma LastCharsAtLine(lines: seq<string>) returns (k: nat)
    requires EachLacks(lines, '\n')
    ensures var text := LastChars(Join(lines));
            (k <= |lines| && text == Join(lines[k..])) || EndsInLastLine(lines, text)
  {
    var whole := Join(lines);
    if |whole| <= MAX_CHARS {
      k := 0;
      assert lines[0..] == lines;
    } else {
      var from := CutStart(whole);
      if whole[from - 1] == '\n' {
        k := WholeLines(lines, from);
      } else {
        k := OneLineCut(lines, whole[from..]);
      }
    }
  }

  lemma LastLineJoin(lines: seq<string>)
    requires lines != []
    ensures Join(lines[|lines| - 1..]) == lines[|lines| - 1]
  {
    assert lines[|lines| - 1..] == [lines[|lines| - 1]];
  }

  lemma OneLineCut(lines: seq<string>, cut: string) returns (k: nat)
    requires lines != [] && IsSuffix(cut, Join(lines)) && Lacks(cut, '\n')
    ensures IsSuffix(cut, lines[|lines| - 1])
    ensures |cut| == |lines[|lines| - 1]| ==> k <= |lines| && cut == Join(lines[k..])
  {
    EndOfLastLine(lines, cut);
    k := |lines| - 1;
    LastLineJoin(lines);
  }

  /** A bounded log starts at a line's start, or is the last characters of one over-long line. */
  lemma StartsAtLine(kept: seq<string>) returns (k: nat)
    requires EachLacks(kept, '\n')
    ensures var text := BoundedText(kept);
            (k <= |kept| && text == Join(kept[k..])) || EndsInLastLine(kept, text)
  {
    var last := LastLines(kept);
    LastLinesLack(kept, '\n');
    var more := LastCharsAtLine(last);
    k := |kept| - |last| + more;
    LastLinesFrom(kept, more);
  }

  lemma LastLinesFrom(kept: seq<string>, more: nat)
    ensures LastLines(kept) != [] ==> kept != [] && LastLines(kept)[|LastLines(kept)| - 1] == kept[|kept| - 1]
    ensures more <= |LastLines(kept)| ==> LastLines(kept)[more..] == kept[|kept| - |LastLines(kept)| + more..]
  {
  }

  /** A log is marked truncated exactly when its start was not read or some of the kept lines' text is left out. */
  lemma TruncatedWhenLeftOut(raw: string, kept: seq<string>)
    requires EachLacks(kept, '\n')
    ensures var text := Join(LastLines(kept));
            !(|raw| > RAW_TAIL_CHARS || |kept| > MAX_LINES || |text| > MAX_CHARS) <==>
            |raw| <= RAW_TAIL_CHARS && BoundedText(kept) == Join(kept)
  {
    LastLinesJoin(kept);
    if |kept| > MAX_LINES { DropLines(kept, |kept| - MAX_LINES); }
  }

  /** A whole log bounded with nothing redacted, from its raw text. */
  method BoundUnredacted(raw: string, strip: string -> string, invisible: set<char>) returns (bounded: Bounded)
    ensures var kept := KeptLines(Marked(raw, strip, invisible));
            && |bounded.text| <= MAX_CHARS && Newlines(bounded.text) < MAX_LINES
            && Lacks(bounded.text, '\r') && IsSuffix(bounded.text, Join(kept))
            && (!bounded.truncated <==> |raw| <= RAW_TAIL_CHARS && bounded.text == Join(kept))
            && (EndsWithWhole(kept, bounded.text) || EndsInLastLine(kept, bounded.text))
  {
    bounded := BoundCheckLog(raw, strip, invisible, text => text);
    ghost var kept := KeptLines(Marked(raw, strip, invisible));
    KeptLinesLack(raw, strip, invisible);
    WithinBounds(kept);
    TruncatedWhenLeftOut(raw, kept);
    ghost var k := StartsAtLine(kept);
  }
}
