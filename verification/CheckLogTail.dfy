/**
 * What reading only the end of a long log leaves of what the whole log would show: for a
 * log read from a line's start, exactly when both show the same lines, and a log whose
 * error is never read.
 */
module CheckLogTail {
  import opened CheckLog

  /** Cleaning that takes line after line for itself. */
  ghost predicate LineWise(strip: string -> string) {
    forall a, b :: strip(a + "\n" + b) == strip(a) + "\n" + strip(b)
  }

  // ----- Lines before and after a line feed -----

  lemma {:induction false} SplitConcat(a: string, b: string)
    ensures Split(a + "\n" + b) == Split(a) + Split(b)
    decreases |a|
  {
    if a == "" {
      assert (a + "\n" + b)[1..] == b;
    } else {
      assert (a + "\n" + b)[1..] == a[1..] + "\n" + b;
      SplitConcat(a[1..], b);
    }
  }

  function FlatMap(lines: seq<string>, f: string -> seq<MarkedLine>): seq<MarkedLine> {
    if lines == [] then [] else f(lines[0]) + FlatMap(lines[1..], f)
  }

  lemma {:induction false} FlatMapConcat(before: seq<string>, after: seq<string>, f: string -> seq<MarkedLine>)
    ensures FlatMap(before + after, f) == FlatMap(before, f) + FlatMap(after, f)
    decreases |before|
  {
    if before == [] {
      assert before + after == after;
    } else {
      assert (before + after)[1..] == before[1..] + after;
      FlatMapConcat(before[1..], after, f);
    }
  }

  ghost predicate Marks(f: string -> seq<MarkedLine>, invisible: set<char>) {
    forall line :: f(line) == ActionsLine(CleanLine(line, invisible))
  }

  lemma {:induction false} MarkedIsFlatMap(lines: seq<string>, invisible: set<char>, f: string -> seq<MarkedLine>)
    requires Marks(f, invisible)
    ensures MarkedLines(lines, invisible) == FlatMap(lines, f)
    decreases |lines|
  {
    if lines != [] { MarkedIsFlatMap(lines[1..], invisible, f); }
  }

  lemma MarkedConcat(before: seq<string>, after: seq<string>, invisible: set<char>, f: string -> seq<MarkedLine>)
    requires Marks(f, invisible)
    ensures MarkedLines(before + after, invisible) == MarkedLines(before, invisible) + MarkedLines(after, invisible)
  {
    MarkedIsFlatMap(before, invisible, f);
    MarkedIsFlatMap(after, invisible, f);
    MarkedIsFlatMap(before + after, invisible, f);
    FlatMapConcat(before, after, f);
  }

  lemma Marker(invisible: set<char>) returns (f: string -> seq<MarkedLine>)
    ensures Marks(f, invisible)
  {
    f := line => ActionsLine(CleanLine(line, invisible));
  }

  lemma {:induction false} LastErrorConcat(head: seq<MarkedLine>, tail: seq<MarkedLine>)
    ensures LastError(head + tail) == if LastError(tail) >= 0 then |head| + LastError(tail) else LastError(head)
    decreases |tail|
  {
    if tail == [] {
      assert head + tail == head;
    } else {
      assert (head + tail)[..|head + tail| - 1] == head + tail[..|tail| - 1];
      LastErrorConcat(head, tail[..|tail| - 1]);
    }
  }

  lemma {:induction false} BlankEndConcat(before: seq<string>, after: seq<string>)
    ensures var kept := WithoutBlankEnd(after);
            WithoutBlankEnd(before + after) == if kept == [] then WithoutBlankEnd(before) else before + kept
    decreases |after|
  {
    if after == [] {
      assert before + after == before;
    } else if after[|after| - 1] == "" {
      assert (before + after)[..|before + after| - 1] == before + after[..|after| - 1];
      BlankEndConcat(before, after[..|after| - 1]);
    }
  }

  lemma TextsConcat(head: seq<MarkedLine>, tail: seq<MarkedLine>)
    ensures Texts(head + tail) == Texts(head) + Texts(tail)
  {
  }

  lemma TakeConcat(before: seq<string>, after: seq<string>, n: nat)
    requires n <= |after|
    ensures (before + after)[..|before| + n] == before + after[..n]
  {
  }

  lemma TakeFirst(before: seq<string>, after: seq<string>, n: nat)
    requires n <= |before|
    ensures (before + after)[..n] == before[..n]
  {
  }

  lemma ErrorKept(marked: seq<MarkedLine>)
    requires ErrorsShow(marked) && LastError(marked) >= 0
    ensures WithoutBlankEnd(Texts(marked)[..LastError(marked) + 1]) != []
  {
    assert Texts(marked)[..LastError(marked) + 1][LastError(marked)] != "";
  }

  lemma KeptUpToConcat(before: seq<string>, after: seq<string>, n: nat)
    requires n <= |after| && WithoutBlankEnd(after[..n]) != []
    ensures WithoutBlankEnd((before + after)[..|before| + n]) == before + WithoutBlankEnd(after[..n])
  {
    TakeConcat(before, after, n);
    BlankEndConcat(before, after[..n]);
  }

  lemma {:induction false} KeptWithError(head: seq<MarkedLine>, tail: seq<MarkedLine>)
    requires ErrorsShow(tail) && LastError(tail) >= 0
    ensures KeptLines(tail) != [] && KeptLines(head + tail) == Texts(head) + KeptLines(tail)
  {
    LastErrorConcat(head, tail);
    TextsConcat(head, tail);
    ErrorKept(tail);
    KeptUpToConcat(Texts(head), Texts(tail), LastError(tail) + 1);
  }

  lemma {:induction false} KeptWithEarlierError(head: seq<MarkedLine>, tail: seq<MarkedLine>)
    requires LastError(tail) < 0 && LastError(head) >= 0
    ensures KeptLines(head + tail) == KeptLines(head)
  {
    LastErrorConcat(head, tail);
    TextsConcat(head, tail);
    TakeFirst(Texts(head), Texts(tail), LastError(head) + 1);
  }

  lemma KeptWithoutError(head: seq<MarkedLine>, tail: seq<MarkedLine>)
    requires LastError(tail) < 0 && LastError(head) < 0
    ensures KeptLines(head + tail) == if KeptLines(tail) == [] then KeptLines(head) else Texts(head) + KeptLines(tail)
  {
    LastErrorConcat(head, tail);
    TextsConcat(head, tail);
    BlankEndConcat(Texts(head), Texts(tail));
  }

  // ----- Where the later cuts fall -----

  lemma {:induction false} JoinConcat(before: seq<string>, after: seq<string>)
    requires before != [] && after != []
    ensures Join(before + after) == Join(before) + "\n" + Join(after)
    decreases |before|
  {
    if |before| == 1 {
      assert (before + after)[1..] == after;
    } else {
      assert (before + after)[1..] == before[1..] + after;
      JoinConcat(before[1..], after);
    }
  }

  /** The last characters of some text and a rest of it are those of the rest alone. */
  predicate FrontCutAway(front: string, rest: string) {
    || |rest| > MAX_CHARS
    || (|front| + 1 + |rest| > MAX_CHARS &&
        Lacks(if |rest| == MAX_CHARS then rest else front[|front| - (MAX_CHARS - 1 - |rest|)..], '\n'))
  }

  /** A cut before the last line feed, or at it, leaves the rest exactly where nothing between holds a line feed. */
  lemma CutBefore(front: string, rest: string)
    requires |rest| <= MAX_CHARS < |front| + 1 + |rest|
    ensures LastChars(front + "\n" + rest) == rest <==> FrontCutAway(front, rest)
  {
    var text := front + "\n" + rest;
    var cut := text[|text| - MAX_CHARS..];
    var newline := IndexOf(cut, '\n', 0);
    if |rest| == MAX_CHARS {
      assert cut == rest;
    } else {
      var between := front[|front| - (MAX_CHARS - 1 - |rest|)..];
      assert cut == between + "\n" + rest;
      assert cut[|between|] == '\n';
      if Lacks(between, '\n') {
        assert forall i :: 0 <= i < |between| ==> cut[i] == between[i];
        assert newline == |between|;
      } else {
        var i :| 0 <= i < |between| && between[i] == '\n';
        assert cut[i] == '\n';
        assert newline <= i;
      }
    }
  }

  lemma EndOfConcat(before: string, after: string, n: nat)
    requires n <= |after|
    ensures (before + after)[|before + after| - n..] == after[|after| - n..]
  {
  }

  /** The text after the first line feed. */
  function AfterFeed(text: string): string {
    text[IndexOf(text, '\n', 0) + 1..]
  }

  lemma LongEnd(text: string)
    requires |text| > MAX_CHARS
    ensures LastChars(text) == AfterFeed(text[|text| - MAX_CHARS..])
  {
  }

  lemma LongRest(before: string, rest: string)
    requires |rest| > MAX_CHARS
    ensures LastChars(before + rest) == LastChars(rest)
  {
    LongEnd(before + rest);
    LongEnd(rest);
    EndOfConcat(before, rest, MAX_CHARS);
  }

  lemma ShortText(before: string, rest: string)
    requires before != "" && |before + rest| <= MAX_CHARS
    ensures LastChars(before + rest) != LastChars(rest)
  {
  }

  lemma FrontCutAwayIff(front: string, rest: string)
    ensures LastChars(front + "\n" + rest) == LastChars(rest) <==> FrontCutAway(front, rest)
  {
    if |rest| > MAX_CHARS {
      LongRest(front + "\n", rest);
    } else if MAX_CHARS < |front| + 1 + |rest| {
      CutBefore(front, rest);
    } else {
      ShortText(front + "\n", rest);
    }
  }

  function LastOf(lines: seq<string>, n: nat): seq<string> {
    if |lines| <= n then lines else lines[|lines| - n..]
  }

  /**
   * With lines before the kept ones, the later cuts show of them all that they show of the kept
   * ones alone, and no more.
   */
  predicate CutInside(before: seq<string>, kept: seq<string>) {
    before == [] || MAX_LINES <= |kept| || FrontCutAway(Join(LastOf(before, MAX_LINES - |kept|)), Join(kept))
  }

  lemma LastLinesConcat(before: seq<string>, kept: seq<string>)
    ensures LastLines(before + kept) ==
            if MAX_LINES <= |kept| then LastLines(kept) else LastOf(before, MAX_LINES - |kept|) + kept
  {
  }

  lemma BoundedTextIff(before: seq<string>, kept: seq<string>)
    requires kept != []
    ensures BoundedText(before + kept) == BoundedText(kept) <==> CutInside(before, kept)
  {
    LastLinesConcat(before, kept);
    if before == [] {
      assert before + kept == kept;
    } else if |kept| < MAX_LINES {
      BoundedConcatIff(LastOf(before, MAX_LINES - |kept|), kept);
    }
  }

  lemma BoundedConcatIff(front: seq<string>, kept: seq<string>)
    requires front != [] && kept != []
    ensures LastChars(Join(front + kept)) == LastChars(Join(kept)) <==> FrontCutAway(Join(front), Join(kept))
  {
    JoinConcat(front, kept);
    FrontCutAwayIff(Join(front), Join(kept));
  }

  lemma {:induction false} JoinEnds(lines: seq<string>)
    requires lines != [] && lines[|lines| - 1] != ""
    ensures Join(lines) != "" && Join(lines)[|Join(lines)| - 1] == lines[|lines| - 1][|lines[|lines| - 1]| - 1]
    decreases |lines|
  {
    if |lines| > 1 { JoinEnds(lines[1..]); }
  }

  /** Some kept line always shows. */
  lemma KeptShows(marked: seq<MarkedLine>)
    requires MarkedLack(marked, '\n') && KeptLines(marked) != []
    ensures BoundedText(KeptLines(marked)) != ""
  {
    var kept := KeptLines(marked);
    var last := LastLines(kept);
    KeptLack(marked, '\n');
    assert last[|last| - 1] == kept[|kept| - 1];
    JoinEnds(last);
    if |Join(last)| > MAX_CHARS {
      var from := CutStart(Join(last));
    }
  }

  // ----- The end of a long log -----

  /** The marked lines left out after those that show. */
  function LeftOutAfter(marked: seq<MarkedLine>): nat {
    KeptFromMarked(marked);
    |marked| - |KeptLines(marked)|
  }

  /** The same lines show of both: the same text, which ends at the same line. */
  predicate ShowSame(whole: seq<MarkedLine>, end: seq<MarkedLine>) {
    BoundedText(KeptLines(whole)) == BoundedText(KeptLines(end))
    && (BoundedText(KeptLines(end)) == "" || LeftOutAfter(whole) == LeftOutAfter(end))
  }

  /**
   * The error that ends the log is in the end that is read, and the later cuts fall in it or the
   * head has nothing to show.
   */
  predicate EndSuffices(head: seq<MarkedLine>, end: seq<MarkedLine>) {
    && (LastError(end) >= 0 || LastError(head) < 0)
    && (if KeptLines(end) == [] then KeptLines(head) == [] else CutInside(Texts(head), KeptLines(end)))
  }

  lemma ShowSameWithError(head: seq<MarkedLine>, end: seq<MarkedLine>)
    requires ErrorsShow(end) && LastError(end) >= 0
    ensures ShowSame(head + end, end) <==> EndSuffices(head, end)
  {
    KeptWithError(head, end);
    BoundedTextIff(Texts(head), KeptLines(end));
  }

  lemma {:induction false} ShowSameWithEarlierError(head: seq<MarkedLine>, end: seq<MarkedLine>)
    requires MarkedLack(head, '\n') && MarkedLack(end, '\n') && ErrorsShow(head)
    requires LastError(end) < 0 && LastError(head) >= 0
    ensures !ShowSame(head + end, end)
  {
    KeptWithEarlierError(head, end);
    KeptFromMarked(head);
    KeptFromMarked(end);
    KeptShows(head);
    if KeptLines(end) != [] { KeptShows(end); }
  }

  lemma {:induction false} ShowSameWithoutError(head: seq<MarkedLine>, end: seq<MarkedLine>)
    requires LastError(end) < 0 && LastError(head) < 0 && KeptLines(end) != []
    ensures ShowSame(head + end, end) <==> EndSuffices(head, end)
  {
    KeptWithoutError(head, end);
    BoundedTextIff(Texts(head), KeptLines(end));
  }

  lemma ShowSameAsNothing(head: seq<MarkedLine>, end: seq<MarkedLine>)
    requires MarkedLack(head, '\n') && LastError(end) < 0 && LastError(head) < 0 && KeptLines(end) == []
    ensures ShowSame(head + end, end) <==> EndSuffices(head, end)
  {
    KeptWithoutError(head, end);
    if KeptLines(head) != [] { KeptShows(head); }
  }

  /** All of the log, marked line by line. */
  function WholeMarked(raw: string, strip: string -> string, invisible: set<char>): seq<MarkedLine> {
    MarkedLines(Split(strip(raw)), invisible)
  }

  lemma WholeLack(raw: string, strip: string -> string, invisible: set<char>)
    ensures MarkedLack(WholeMarked(raw, strip, invisible), '\n') && ErrorsShow(WholeMarked(raw, strip, invisible))
  {
    SplitLacks(strip(raw));
    MarkedLinesLack(Split(strip(raw)), invisible);
  }

  /**
   * A log whose end is read from a line's start, with nothing redacted and cleaned line by
   * line, shows the same lines as the whole log would if and only if no error before the end
   * is the last one, and the later cuts fall in the end or the head has nothing to show.
   */
  lemma EndShowsSameIff(raw: string, head: string, strip: string -> string, invisible: set<char>)
    requires raw == head + "\n" + RawTail(raw) && LineWise(strip)
    ensures var end := Marked(raw, strip, invisible);
            ShowSame(WholeMarked(raw, strip, invisible), end) <==> EndSuffices(WholeMarked(head, strip, invisible), end)
  {
    SplitConcat(strip(head), strip(RawTail(raw)));
    var marker := Marker(invisible);
    MarkedConcat(Split(strip(head)), Split(strip(RawTail(raw))), invisible, marker);
    WholeLack(head, strip, invisible);
    WholeLack(RawTail(raw), strip, invisible);
    var first, end := WholeMarked(head, strip, invisible), Marked(raw, strip, invisible);
    if LastError(end) >= 0 {
      ShowSameWithError(first, end);
    } else if LastError(first) >= 0 {
      ShowSameWithEarlierError(first, end);
    } else if KeptLines(end) == [] {
      ShowSameAsNothing(first, end);
    } else {
      ShowSameWithoutError(first, end);
    }
  }

  // ----- An error that is never read -----

  predicate OnlyFeeds(s: string) {
    forall i :: 0 <= i < |s| ==> s[i] == '\n'
  }

  predicate AllBlank(marked: seq<MarkedLine>) {
    forall i :: 0 <= i < |marked| ==> marked[i] == MarkedLine("", false)
  }

  lemma BlankLine(blank: string)
    requires |blank| == 0
    ensures CleanLine(blank, {}) == blank
  {
    var drawn := LastDraw(blank);
    assert |drawn| == 0;
    assert |Visible(drawn[StampLength(drawn)..], {})| == 0;
  }

  lemma BlankMarked(blank: string)
    requires |blank| == 0
    ensures ActionsLine(blank) == [MarkedLine(blank, false)]
  {
  }

  /** `blank` stands for the empty line. */
  predicate MarksBlank(f: string -> seq<MarkedLine>, blank: string) {
    |blank| == 0 && f(blank) == [MarkedLine(blank, false)]
  }

  lemma BlankMarks(f: string -> seq<MarkedLine>, blank: string)
    requires Marks(f, {}) && |blank| == 0
    ensures MarksBlank(f, blank)
  {
    BlankLine(blank);
    BlankMarked(blank);
  }

  lemma {:induction false} FeedsAreBlank(s: string, f: string -> seq<MarkedLine>, blank: string)
    requires OnlyFeeds(s) && MarksBlank(f, blank)
    ensures AllBlank(FlatMap(Split(s), f))
    decreases |s|
  {
    if s != "" {
      FeedsAreBlank(s[1..], f, blank);
      assert Split(s)[0] == blank;
      assert Split(s)[1..] == Split(s[1..]);
    }
  }

  lemma BlankKeepsNothing(marked: seq<MarkedLine>)
    requires AllBlank(marked)
    ensures KeptLines(marked) == [] && LastError(marked) == -1
  {
    KeptFromMarked(marked);
  }

  lemma {:induction false} OneLine(s: string)
    requires Lacks(s, '\n')
    ensures Split(s) == [s]
    decreases |s|
  {
    if s != "" {
      OneLine(s[1..]);
      assert [s[0]] + s[1..] == s;
    }
  }

  lemma ReadsFeeds(error: string, feeds: string)
    requires OnlyFeeds(feeds) && |feeds| == RAW_TAIL_CHARS
    ensures RawTail(error + "\n" + feeds) == feeds[1..]
  {
    var head := error + "\n";
    assert (head + feeds)[|head|] == '\n';
    assert (head + feeds)[|head| + 1..] == feeds[1..];
  }

  lemma {:induction false} WholeKeepsError(error: string, shown: MarkedLine, feeds: string,
                                           f: string -> seq<MarkedLine>, blank: string)
    requires Lacks(error, '\n') && f(error) == [shown] && shown.error && shown.text != ""
    requires OnlyFeeds(feeds) && MarksBlank(f, blank)
    ensures KeptLines(FlatMap(Split(error + "\n" + feeds), f)) == [shown.text]
  {
    var rest := FlatMap(Split(feeds), f);
    SplitConcat(error, feeds);
    OneLine(error);
    FlatMapConcat([error], Split(feeds), f);
    assert FlatMap([error], f) == [shown];
    FeedsAreBlank(feeds, f, blank);
    BlankKeepsNothing(rest);
    KeptWithEarlierError([shown], rest);
    KeptFromMarked([shown]);
  }

  lemma WholeShowsError(error: string, shown: MarkedLine, feeds: string, f: string -> seq<MarkedLine>, blank: string)
    requires Lacks(error, '\n') && f(error) == [shown] && shown.error && shown.text != ""
    requires OnlyFeeds(feeds) && MarksBlank(f, blank) && Marks(f, {})
    ensures KeptLines(MarkedLines(Split(error + "\n" + feeds), {})) == [shown.text]
  {
    WholeKeepsError(error, shown, feeds, f, blank);
    MarkedIsFlatMap(Split(error + "\n" + feeds), {}, f);
  }

  lemma FeedsShowNothing(feeds: string, f: string -> seq<MarkedLine>, blank: string)
    requires OnlyFeeds(feeds) && MarksBlank(f, blank) && Marks(f, {})
    ensures KeptLines(MarkedLines(Split(feeds), {})) == []
  {
    FeedsAreBlank(feeds, f, blank);
    BlankKeepsNothing(FlatMap(Split(feeds), f));
    MarkedIsFlatMap(Split(feeds), {}, f);
  }

  lemma ErrorMarker(error: string, shown: MarkedLine, blank: string) returns (f: string -> seq<MarkedLine>)
    requires ActionsLine(CleanLine(error, {})) == [shown] && |blank| == 0
    ensures Marks(f, {}) && MarksBlank(f, blank) && f(error) == [shown]
  {
    f := Marker({});
    BlankMarks(f, blank);
  }

  lemma ReadShowsNothing(raw: string, tail: string, strip: string -> string)
    requires RawTail(raw) == tail && strip(tail) == tail && KeptLines(MarkedLines(Split(tail), {})) == []
    ensures KeptLines(Marked(raw, strip, {})) == []
  {
  }

  predicate IsError(error: string, shown: MarkedLine) {
    Lacks(error, '\n') && ActionsLine(CleanLine(error, {})) == [shown] && shown.error && shown.text != ""
  }

  lemma WholeTextShows(raw: string, error: string, shown: MarkedLine, feeds: string)
    requires raw == error + "\n" + feeds && IsError(error, shown) && OnlyFeeds(feeds)
    ensures KeptLines(MarkedLines(Split(raw), {})) == [shown.text]
  {
    var blank := error[..0];
    var f := ErrorMarker(error, shown, blank);
    WholeShowsError(error, shown, feeds, f, blank);
  }

  lemma WholeShows(raw: string, strip: string -> string, texts: seq<string>)
    requires strip(raw) == raw && KeptLines(MarkedLines(Split(raw), {})) == texts
    ensures KeptLines(WholeMarked(raw, strip, {})) == texts
  {
  }

  lemma FeedsShow(feeds: string)
    requires OnlyFeeds(feeds)
    ensures KeptLines(MarkedLines(Split(feeds), {})) == []
  {
    var blank := feeds[..0];
    var f := Marker({});
    BlankMarks(f, blank);
    FeedsShowNothing(feeds, f, blank);
  }

  lemma ReadLogShows(raw: string, error: string, feeds: string, strip: string -> string)
    requires raw == error + "\n" + feeds && OnlyFeeds(feeds) && |feeds| == RAW_TAIL_CHARS &&
             strip(feeds[1..]) == feeds[1..]
    ensures KeptLines(Marked(raw, strip, {})) == []
  {
    FeedsShow(feeds[1..]);
    ReadsFeeds(error, feeds);
    ReadShowsNothing(raw, feeds[1..], strip);
  }

  /**
   * Any error before a million line feeds: the whole log would show it, and the end that is
   * read shows nothing.
   */
  lemma ErrorNeverRead(raw: string, error: string, shown: MarkedLine, feeds: string, strip: string -> string)
    requires raw == error + "\n" + feeds && IsError(error, shown) && OnlyFeeds(feeds) && |feeds| == RAW_TAIL_CHARS
    requires strip(raw) == raw && strip(feeds[1..]) == feeds[1..]
    ensures KeptLines(WholeMarked(raw, strip, {})) == [shown.text] && KeptLines(Marked(raw, strip, {})) == []
  {
    WholeTextShows(raw, error, shown, feeds);
    WholeShows(raw, strip, [shown.text]);
    ReadLogShows(raw, error, feeds, strip);
  }

  lemma {:induction false} VisibleKeeps(line: string)
    requires forall i :: 0 <= i < |line| ==> !IsControl(line[i])
    ensures Visible(line, {}) == line
    decreases |line|
  {
    if line != "" { VisibleKeeps(line[1..]); }
  }

  lemma DrawKeeps(line: string)
    requires Lacks(line, '\r')
    ensures LastDraw(line) == line
  {
  }

  /** A short line without control characters, line terminators and blanks at its end. */
  predicate Plain(line: string) {
    && 0 < |line| < 20 && !IsBlank(line[|line| - 1])
    && forall i :: 0 <= i < |line| ==> !IsControl(line[i]) && line[i] as int !in {10, 13, 0x2028, 0x2029}
  }

  lemma CleanKeeps(line: string)
    requires Plain(line)
    ensures CleanLine(line, {}) == line
  {
    DrawKeeps(line);
    assert line[0..] == line;
    VisibleKeeps(line);
  }

  lemma ErrorShown(line: string)
    requires Plain(line) && HasPrefix(line, "##[error]")
    ensures ActionsLine(line) == [MarkedLine(Relabeled(line, "##[error]", "Error: "), true)]
  {
    assert line[..9][4] == 'r' && line[..9][3] != "##[debug]"[3];
    assert |line| >= 12 ==> line[..12][4] != "##[endgroup]"[4];
  }

  /** There are such errors: any short plain line that begins with the error command. */
  lemma ErrorLine(line: string)
    requires Plain(line) && HasPrefix(line, "##[error]")
    ensures IsError(line, MarkedLine(Relabeled(line, "##[error]", "Error: "), true))
  {
    CleanKeeps(line);
    ErrorShown(line);
  }
}
