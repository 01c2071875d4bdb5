/** The index of a JCAMP-DX file: one span per ##TITLE ... ##END= entry, found in a single pass. */
module EntryIndex {
  import opened Outcomes
  import opened Lines

  /** (start, end, lineStart, lineEnd): the offsets and 0-based numbers of an entry's ##TITLE and ##END= lines. */
  datatype Span = Span(start: nat, end: nat, lineStart: nat, lineEnd: nat)

  const TitleMarker: string := "##TITLE"
  const EndMarker: string := "##END="

  predicate IsTitle(line: string) {
    StartsWith(line, TitleMarker)
  }

  predicate IsEnd(line: string) {
    StartsWith(line, EndMarker)
  }

  /**
   * The spans that the scan records from line k on; open holds the line number of the
   * ##TITLE line of the entry in progress, if any. With single the scan stops after the
   * first completed entry.
   */
  function IndexFrom(lines: seq<string>, single: bool, k: nat, open: Option<nat>): seq<Span>
    requires k <= |lines|
    requires open.Some? ==> open.value < k
    decreases |lines| - k
  {
    if k == |lines| then []
    else match open
      case Some(ls) =>
        if IsEnd(lines[k]) then
          var sp := Span(Offset(lines, ls), Offset(lines, k), ls, k);
          if single then [sp] else [sp] + IndexFrom(lines, single, k + 1, None)
        else IndexFrom(lines, single, k + 1, open)
      case None =>
        IndexFrom(lines, single, k + 1, if IsTitle(lines[k]) then Some(k) else None)
  }

  /** The index that the parser's constructor builds for a file. */
  function ScanLimits(text: string, single: bool): seq<Span> {
    IndexFrom(SplitLines(text), single, 0, None)
  }

  /** A span of a well-formed entry of lines: a ##TITLE line, then the first ##END= line after it. */
  ghost predicate SpanOf(lines: seq<string>, sp: Span) {
    sp.lineStart < sp.lineEnd < |lines|
    && sp.start == Offset(lines, sp.lineStart)
    && sp.end == Offset(lines, sp.lineEnd)
    && IsTitle(lines[sp.lineStart])
    && IsEnd(lines[sp.lineEnd])
    && forall j :: sp.lineStart < j < sp.lineEnd ==> !IsEnd(lines[j])
  }

  /** The first line where span i (or, for i == |spans|, a further span) may begin. */
  function Boundary(spans: seq<Span>, i: nat, k: nat): nat
    requires i <= |spans|
  {
    if i == 0 then k else spans[i - 1].lineEnd + 1
  }

  /** The spans follow each other without overlap, all from line `from` on, each ending at or after line k. */
  ghost predicate Ordered(from: nat, k: nat, r: seq<Span>) {
    (forall i :: 0 <= i < |r| ==> from <= r[i].lineStart && k <= r[i].lineEnd)
    && (forall i :: 0 < i < |r| ==> r[i - 1].lineEnd < r[i].lineStart)
  }

  /** No ##TITLE line is passed over: span i starts at the first ##TITLE line from Boundary(r, i, k) on. */
  ghost predicate NoSkippedTitle(lines: seq<string>, k: nat, r: seq<Span>) {
    forall i :: 0 <= i < |r| ==> NoTitleBetween(lines, Boundary(r, i, k), r[i].lineStart)
  }

  /** No line from a up to (not including) b starts with ##TITLE. */
  ghost predicate NoTitleBetween(lines: seq<string>, a: nat, b: nat) {
    forall j :: a <= j < b && j < |lines| ==> !IsTitle(lines[j])
  }

  /** No complete entry follows the last span: no ##TITLE line there is followed by an ##END= line. */
  ghost predicate NoTrailingEntry(lines: seq<string>, k: nat, r: seq<Span>) {
    forall j, j' :: Boundary(r, |r|, k) <= j < j' < |lines| && IsTitle(lines[j]) ==> !IsEnd(lines[j'])
  }

  lemma {:induction false} IndexFromSpans(lines: seq<string>, single: bool, k: nat, open: Option<nat>)
    requires k <= |lines|
    requires open.Some? ==> open.value < k && IsTitle(lines[open.value])
    requires open.Some? ==> forall j :: open.value < j < k ==> !IsEnd(lines[j])
    ensures forall i :: 0 <= i < |IndexFrom(lines, single, k, open)| ==> SpanOf(lines, IndexFrom(lines, single, k, open)[i])
    decreases |lines| - k
  {
    if k < |lines| {
      var r := IndexFrom(lines, single, k, open);
      match open
      case Some(ls) =>
        if IsEnd(lines[k]) {
          if !single {
            var r' := IndexFrom(lines, single, k + 1, None);
            IndexFromSpans(lines, single, k + 1, None);
            assert r == [r[0]] + r';
            forall i | 0 < i < |r|
              ensures SpanOf(lines, r[i])
            {
              assert r[i] == r'[i - 1];
            }
          }
        } else {
          IndexFromSpans(lines, single, k + 1, open);
        }
      case None =>
        if IsTitle(lines[k]) {
          IndexFromSpans(lines, single, k + 1, Some(k));
        } else {
          assert r == IndexFrom(lines, single, k + 1, None);
          IndexFromSpans(lines, single, k + 1, None);
        }
    }
  }

  lemma {:induction false} IndexFromOrdered(lines: seq<string>, single: bool, k: nat, open: Option<nat>)
    requires k <= |lines|
    requires open.Some? ==> open.value < k
    ensures Ordered(if open.Some? then open.value else k, k, IndexFrom(lines, single, k, open))
    ensures open.Some? && |IndexFrom(lines, single, k, open)| > 0 ==> IndexFrom(lines, single, k, open)[0].lineStart == open.value
    ensures single ==> |IndexFrom(lines, single, k, open)| <= 1
    decreases |lines| - k
  {
    if k < |lines| {
      var r := IndexFrom(lines, single, k, open);
      match open
      case Some(ls) =>
        if IsEnd(lines[k]) {
          if !single {
            var r' := IndexFrom(lines, single, k + 1, None);
            IndexFromOrdered(lines, single, k + 1, None);
            assert r == [r[0]] + r';
            forall i | 0 < i < |r|
              ensures r[i] == r'[i - 1] && r[i - 1].lineEnd < r[i].lineStart
            {
              if i > 1 {
                assert r[i - 1] == r'[i - 2];
              }
            }
          }
        } else {
          IndexFromOrdered(lines, single, k + 1, open);
        }
      case None =>
        if IsTitle(lines[k]) {
          IndexFromOrdered(lines, single, k + 1, Some(k));
        } else {
          assert r == IndexFrom(lines, single, k + 1, None);
          IndexFromOrdered(lines, single, k + 1, None);
        }
    }
  }

  lemma {:induction false} IndexFromGaps(lines: seq<string>, single: bool, k: nat, open: Option<nat>)
    requires k <= |lines|
    requires open.Some? ==> open.value < k
    ensures NoSkippedTitle(lines, k, IndexFrom(lines, single, k, open))
    decreases |lines| - k
  {
    if k < |lines| {
      var r := IndexFrom(lines, single, k, open);
      match open
      case Some(ls) =>
        if IsEnd(lines[k]) {
          if !single {
            var r' := IndexFrom(lines, single, k + 1, None);
            IndexFromGaps(lines, single, k + 1, None);
            assert r == [r[0]] + r' && r[0].lineStart == ls;
            forall i | 0 <= i < |r|
              ensures NoTitleBetween(lines, Boundary(r, i, k), r[i].lineStart)
            {
              if i > 0 {
                assert r[i] == r'[i - 1];
                if i > 1 {
                  assert r[i - 1] == r'[i - 2];
                }
                assert Boundary(r, i, k) == Boundary(r', i - 1, k + 1);
              }
            }
          }
        } else {
          assert r == IndexFrom(lines, single, k + 1, open);
          IndexFromOrdered(lines, single, k, open);
          IndexFromGaps(lines, single, k + 1, open);
        }
      case None =>
        if IsTitle(lines[k]) {
          assert r == IndexFrom(lines, single, k + 1, Some(k));
          IndexFromOrdered(lines, single, k + 1, Some(k));
          IndexFromGaps(lines, single, k + 1, Some(k));
        } else {
          assert r == IndexFrom(lines, single, k + 1, None);
          IndexFromGaps(lines, single, k + 1, None);
        }
    }
  }

  lemma {:induction false} IndexFromTail(lines: seq<string>, single: bool, k: nat, open: Option<nat>)
    requires k <= |lines|
    requires open.Some? ==> open.value < k
    requires !single || IndexFrom(lines, single, k, open) == []
    ensures IndexFrom(lines, single, k, open) == [] && open.Some? ==> forall j :: k <= j < |lines| ==> !IsEnd(lines[j])
    ensures NoTrailingEntry(lines, k, IndexFrom(lines, single, k, open))
    decreases |lines| - k
  {
    if k < |lines| {
      var r := IndexFrom(lines, single, k, open);
      match open
      case Some(ls) =>
        if IsEnd(lines[k]) {
          var r' := IndexFrom(lines, single, k + 1, None);
          IndexFromTail(lines, single, k + 1, None);
          assert r == [r[0]] + r';
          assert Boundary(r, |r|, k) == Boundary(r', |r'|, k + 1);
        } else {
          IndexFromTail(lines, single, k + 1, open);
        }
      case None =>
        if IsTitle(lines[k]) {
          IndexFromTail(lines, single, k + 1, Some(k));
        } else {
          assert r == IndexFrom(lines, single, k + 1, None);
          IndexFromTail(lines, single, k + 1, None);
        }
    }
  }

  lemma {:induction false} IndexFromSingle(lines: seq<string>, k: nat, open: Option<nat>)
    requires k <= |lines|
    requires open.Some? ==> open.value < k
    ensures IndexFrom(lines, true, k, open)
            == if IndexFrom(lines, false, k, open) == [] then [] else [IndexFrom(lines, false, k, open)[0]]
    decreases |lines| - k
  {
    if k < |lines| {
      match open
      case Some(ls) =>
        if !IsEnd(lines[k]) {
          IndexFromSingle(lines, k + 1, open);
        }
      case None =>
        if IsTitle(lines[k]) {
          IndexFromSingle(lines, k + 1, Some(k));
        } else {
          IndexFromSingle(lines, k + 1, None);
        }
    }
  }

  /** An index of a text: each span is a well-formed entry located at the offsets of its lines. */
  ghost predicate IndexOf(text: string, r: seq<Span>) {
    forall i :: 0 <= i < |r| ==>
      SpanOf(SplitLines(text), r[i])
      && r[i].start < r[i].end < |text|
      && IsTitle(ReadLine(text, r[i].start))
      && IsEnd(ReadLine(text, r[i].end))
  }

  /**
   * Each span runs from a ##TITLE line to the first ##END= line after it; start is the
   * offset of the ##TITLE line and end the offset of the ##END= line (not the position after it).
   */
  lemma SpansWellFormed(text: string, single: bool)
    ensures IndexOf(text, ScanLimits(text, single))
  {
    var lines, r := SplitLines(text), ScanLimits(text, single);
    IndexFromSpans(lines, single, 0, None);
    forall i | 0 <= i < |r|
      ensures r[i].start < r[i].end < |text|
      ensures IsTitle(ReadLine(text, r[i].start)) && IsEnd(ReadLine(text, r[i].end))
    {
      assert SpanOf(lines, r[i]);
      OffsetGrows(lines, r[i].lineStart, r[i].lineEnd);
      LineAt(text, r[i].lineStart);
      LineAt(text, r[i].lineEnd);
    }
  }

  /** Spans in file order: each ends, in lines and in offsets, before the next one starts. */
  ghost predicate InFileOrder(r: seq<Span>) {
    forall i :: 0 < i < |r| ==> r[i - 1].lineEnd < r[i].lineStart && r[i - 1].end < r[i].start
  }

  lemma SpansInFileOrder(text: string, single: bool)
    ensures InFileOrder(ScanLimits(text, single))
  {
    var lines, r := SplitLines(text), ScanLimits(text, single);
    IndexFromSpans(lines, single, 0, None);
    IndexFromOrdered(lines, single, 0, None);
    forall i | 0 < i < |r|
      ensures r[i - 1].end < r[i].start
    {
      assert SpanOf(lines, r[i - 1]) && SpanOf(lines, r[i]);
      OffsetGrows(lines, r[i - 1].lineEnd, r[i].lineStart);
    }
  }

  /**
   * The index misses no complete entry: each span starts at the first ##TITLE line after the
   * previous span, and past the last span no ##TITLE line is followed by an ##END= line
   * (unless single stopped the scan), so a trailing entry without ##END= yields no span.
   */
  lemma SpansComplete(text: string, single: bool)
    ensures NoSkippedTitle(SplitLines(text), 0, ScanLimits(text, single))
    ensures !single || ScanLimits(text, single) == [] ==> NoTrailingEntry(SplitLines(text), 0, ScanLimits(text, single))
  {
    IndexFromGaps(SplitLines(text), single, 0, None);
    if !single || ScanLimits(text, single) == [] {
      IndexFromTail(SplitLines(text), single, 0, None);
    }
  }

  /** With single the index is the first span of the full index, or empty. */
  lemma SingleStopsAfterFirst(text: string)
    ensures |ScanLimits(text, true)| <= 1
    ensures ScanLimits(text, true)
            == if ScanLimits(text, false) == [] then [] else [ScanLimits(text, false)[0]]
  {
    IndexFromSingle(SplitLines(text), 0, None);
  }

  /** Some ##TITLE line is followed, later in the file, by an ##END= line. */
  ghost predicate HasCompleteEntry(lines: seq<string>) {
    exists j, j' :: 0 <= j < j' < |lines| && IsTitle(lines[j]) && IsEnd(lines[j'])
  }

  /** The index is empty exactly when the file holds no complete entry (so construction then fails). */
  lemma IndexEmptyIffNoEntry(text: string, single: bool)
    ensures ScanLimits(text, single) == [] <==> !HasCompleteEntry(SplitLines(text))
  {
    var lines, r := SplitLines(text), ScanLimits(text, single);
    if r == [] {
      IndexFromTail(lines, single, 0, None);
      assert NoTrailingEntry(lines, 0, r);
    } else {
      IndexFromSpans(lines, single, 0, None);
      assert SpanOf(lines, r[0]);
      assert IsTitle(lines[r[0].lineStart]) && IsEnd(lines[r[0].lineEnd]);
    }
  }

  /** The text handed to the decoder for a span: read(1 + end - start) after seek(start). */
  function Chunk(text: string, sp: Span): string {
    Read(text, sp.start, 1 + sp.end - sp.start)
  }

  /**
   * The chunk of an indexed entry holds exactly 1 + end - start characters from start on:
   * it begins with the ##TITLE line and stops after the first character of the ##END= line.
   */
  lemma ChunkOfSpan(text: string, single: bool, i: nat)
    requires i < |ScanLimits(text, single)|
    ensures var sp := ScanLimits(text, single)[i];
      var c := Chunk(text, sp);
      sp.start < sp.end < |text|
      && |c| == 1 + sp.end - sp.start
      && c == text[sp.start..sp.end + 1]
      && IsTitle(c)
      && c[|c| - 1] == '#'
  {
    var lines, sp := SplitLines(text), ScanLimits(text, single)[i];
    SpansWellFormed(text, single);
    var c := Chunk(text, sp);
    var title, endLine := ReadLine(text, sp.start), ReadLine(text, sp.end);
    LineAt(text, sp.lineStart);
    OffsetGrows(lines, sp.lineStart, sp.lineEnd);
    assert SpanOf(lines, sp) && lines[sp.lineStart] == title;
    var n := |TitleMarker|;
    assert n <= |title| <= sp.end - sp.start;
    assert c == text[sp.start..sp.end + 1];
    assert title == text[sp.start..sp.start + |title|];
    assert c[..n] == text[sp.start..sp.start + n] by { assert n <= |c|; }
    assert title[..n] == text[sp.start..sp.start + n] by { assert n <= |title|; }
    assert c[|c| - 1] == text[sp.end] == endLine[0];
  }

  /** The constructor's scanning loop: readline() until it returns "", tracking tell() and the line count. */
  method BuildIndex(text: string, single: bool) returns (limits: seq<Span>)
    ensures limits == ScanLimits(text, single)
  {
    ghost var lines := SplitLines(text);
    ghost var open: Option<nat> := None;
    limits := [];
    var entryStarted := false;
    var start, lineStart := 0, 0;
    var current := 0;
    var line := ReadLine(text, current);
    var nLines := 0;
    while |line| > 0
      invariant nLines <= |lines| && current == Offset(lines, nLines) && current <= |text|
      invariant line == ReadLine(text, current)
      invariant open == (if entryStarted then Some(lineStart) else None)
      invariant entryStarted ==> lineStart < nLines && start == Offset(lines, lineStart)
      invariant limits + IndexFrom(lines, single, nLines, open) == ScanLimits(text, single)
      decreases |lines| - nLines
    {
      SplitAt(text, nLines);
      if nLines < |lines| {
        LineAt(text, nLines);
      }
      assert nLines < |lines| && lines[nLines] == line;
      ghost var rest := IndexFrom(lines, single, nLines + 1, None);
      if entryStarted {
        if StartsWith(line, EndMarker) {
          var lineEnd := nLines;
          var sp := Span(start, current, lineStart, lineEnd);
          assert IndexFrom(lines, single, nLines, open) == if single then [sp] else [sp] + rest;
          limits := limits + [sp];
          entryStarted := false;
          open := None;
          if single {
            break;
          }
          assert limits + rest == ScanLimits(text, single);
        }
      } else if StartsWith(line, TitleMarker) {
        start := current;
        lineStart := nLines;
        entryStarted := true;
        open := Some(nLines);
      }
      nLines := nLines + 1;
      current := current + |line|;
      line := ReadLine(text, current);
    }
    SplitAt(text, nLines);
  }
}
