/** A text file read line by line, the way a Python text file's readline() and tell() see it. */
module Lines {

  /** Python's str.startswith. */
  predicate StartsWith(s: string, prefix: string) {
    |prefix| <= |s| && s[..|prefix|] == prefix
  }

  /** The position just after the line that begins at pos: after its '\n', or the end of the text. */
  function LineEnd(text: string, pos: nat): (e: nat)
    requires pos <= |text|
    ensures pos <= e <= |text|
    ensures e == pos <==> pos == |text|
    ensures pos < e ==> e == |text| || text[e - 1] == '\n'
    ensures forall i :: pos <= i < e - 1 ==> text[i] != '\n'
    decreases |text| - pos
  {
    if pos == |text| then pos
    else if text[pos] == '\n' then pos + 1
    else LineEnd(text, pos + 1)
  }

  /** readline() with the file positioned at pos: "" exactly at the end of the file. */
  function ReadLine(text: string, pos: nat): (line: string)
    requires pos <= |text|
    ensures |line| == 0 <==> pos == |text|
    ensures pos + |line| == LineEnd(text, pos) && line == text[pos..pos + |line|]
  {
    text[pos..LineEnd(text, pos)]
  }

  /** read(n) with the file positioned at pos: at most n characters; a negative n reads to the end. */
  function Read(text: string, pos: nat, n: int): (s: string)
    ensures pos <= |text| && 0 <= n && pos + n <= |text| ==> s == text[pos..pos + n]
    ensures |text| <= pos ==> s == ""
    ensures pos < |text| && (n < 0 || |text| < pos + n) ==> s == text[pos..]
  {
    if |text| <= pos then ""
    else if n < 0 || |text| < pos + n then text[pos..]
    else text[pos..pos + n]
  }

  /** The lines that successive readline() calls return from position pos on. */
  function SplitFrom(text: string, pos: nat): (lines: seq<string>)
    requires pos <= |text|
    ensures lines == [] <==> pos == |text|
    ensures forall k :: 0 <= k < |lines| ==> |lines[k]| > 0
    decreases |text| - pos
  {
    if pos == |text| then []
    else [ReadLine(text, pos)] + SplitFrom(text, LineEnd(text, pos))
  }

  /** The lines of the whole file. */
  function SplitLines(text: string): seq<string> {
    SplitFrom(text, 0)
  }

  /** The offset of line k: the total length of the lines before it. */
  function Offset(lines: seq<string>, k: nat): nat
    requires k <= |lines|
  {
    if k == 0 then 0 else Offset(lines, k - 1) + |lines[k - 1]|
  }

  /** Offsets grow by at least one per non-empty line. */
  lemma {:induction false} OffsetGrows(lines: seq<string>, i: nat, j: nat)
    requires i < j <= |lines|
    requires forall k :: 0 <= k < |lines| ==> |lines[k]| > 0
    ensures Offset(lines, i) + |lines[i]| <= Offset(lines, j)
    ensures Offset(lines, i) + (j - i) <= Offset(lines, j)
    decreases j - i
  {
    if j > i + 1 {
      OffsetGrows(lines, i, j - 1);
    }
  }

  /** Reading on from the offset of line k yields exactly the lines from k on. */
  lemma {:induction false} SplitAt(text: string, k: nat)
    requires k <= |SplitLines(text)|
    ensures Offset(SplitLines(text), k) <= |text|
    ensures SplitFrom(text, Offset(SplitLines(text), k)) == SplitLines(text)[k..]
  {
    var lines := SplitLines(text);
    if k > 0 {
      SplitAt(text, k - 1);
      var o := Offset(lines, k - 1);
      assert SplitFrom(text, o) == lines[k - 1..];
      assert SplitFrom(text, o)[0] == lines[k - 1];
      assert SplitFrom(text, o)[1..] == lines[k..];
    }
  }

  /** Line k of the file is what readline() returns at the offset of line k. */
  lemma LineAt(text: string, k: nat)
    requires k < |SplitLines(text)|
    ensures Offset(SplitLines(text), k) < |text|
    ensures SplitLines(text)[k] == ReadLine(text, Offset(SplitLines(text), k))
    ensures Offset(SplitLines(text), k) + |SplitLines(text)[k]| <= |text|
  {
    SplitAt(text, k);
    var o := Offset(SplitLines(text), k);
    assert SplitFrom(text, o)[0] == SplitLines(text)[k];
  }
}
