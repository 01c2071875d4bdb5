/** The two records ("SCAN" and "MCA") built from one decoded JCAMP-DX entry, and their accessors. */
module ScanRecords {
  import opened Outcomes
  import opened Lines
  import opened Format

  /** What the JCAMP-DX block decoder yields for one entry's text: metadata, samples and, maybe, a file header. */
  datatype Decoded =
    | Decoded(info: map<string, string>, x: seq<real>, y: seq<real>, header: Option<string>)
    | Undecodable

  /** The collaborators the parser relies on: the block decoder, numpy's float32 conversion and "%f". */
  datatype Env = Env(decode: string -> Decoded, toFloat32: real -> real, formatFloat: real -> string)

  /** Everything a record holds besides its sample array. */
  datatype View = View(scantype: string, header: seq<string>, labels: Option<seq<string>>, fileHeader: Option<string>)

  /** A scan record: an N x 2 sample array (x, y), possibly shared with the other record of its entry. */
  datatype ScanRecord = ScanRecord(data: array2<real>, view: View) {

    /** The file header, whatever key is asked for. */
    function Fileheader(key: string): (h: Option<string>)
      ensures h == view.fileHeader
    {
      view.fileHeader
    }

    /** 0 for a "SCAN" record, 1 for any other. */
    function Nbmca(): (n: nat)
      ensures n <= 1
      ensures n == 0 <==> view.scantype == "SCAN"
    {
      if view.scantype == "SCAN" then 0 else 1
    }

    /** mca(number): only number 1 is accepted, and it gives column 1 (y) of the samples. */
    function Mca(number: int): (r: Result<seq<real>>)
      reads data
      ensures r.Ok? <==> number == 1 && 2 <= data.Length1
      ensures number != 1 ==> r == Err(ChannelError(number))
      ensures r.Ok? ==> |r.value| == data.Length0 && forall i :: 0 <= i < data.Length0 ==> r.value[i] == data[i, 1]
    {
      if number != 1 then Err(ChannelError(number))
      else if data.Length1 < 2 then Err(SampleIndexError(1, data.Length1))
      else Ok(seq(data.Length0, i requires 0 <= i < data.Length0 reads data => data[i, 1]))
    }
  }

  const UnknownTitle: string := "Unknown scan"
  const DefaultXLabel: string := "channel"
  const DefaultYLabel: string := "counts"
  /** The XYDATA layout whose x axis is equally spaced and so can be given as a calibration. */
  const XYTag: string := "(X++(Y..Y))"

  /** dict.get(key, default). */
  function Get(info: map<string, string>, key: string, default: string): string {
    if key in info then info[key] else default
  }

  function Title(info: map<string, string>): string { Get(info, "TITLE", UnknownTitle) }
  function XLabel(info: map<string, string>): string { Get(info, "XUNITS", DefaultXLabel) }
  function YLabel(info: map<string, string>): string { Get(info, "YUNITS", DefaultYLabel) }

  predicate IsXYTag(xydata: string) {
    Upper(xydata) == XYTag
  }

  /** The tag check ignores the case of the letters X and Y and nothing else. */
  lemma XYTagIgnoresCase(xydata: string)
    ensures IsXYTag(xydata) <==> |xydata| == |XYTag| && forall i :: 0 <= i < |xydata| ==> UpperOf(xydata[i], XYTag[i])
  {
  }

  /** "#S %d %s" % (n, title). */
  function ScanLine(n: nat, title: string): string {
    "#S " + NatToString(n) + " " + title
  }

  /** "#@CHANN %d  %d  %d  1" % (n, 0, n - 1). */
  function ChannLine(n: nat): string
    requires 1 <= n
  {
    "#@CHANN " + NatToString(n) + "  0  " + NatToString(n - 1) + "  1"
  }

  /** "#@CALIB %f %f 0" % (x0, dx). */
  function CalibLine(x0: real, dx: real, formatFloat: real -> string): string {
    "#@CALIB " + formatFloat(x0) + " " + formatFloat(dx) + " 0"
  }

  /** Reads back the scan number and title of a "#S <n> <title>" line. */
  function ParseScanLine(line: string): Option<(nat, string)> {
    if !StartsWith(line, "#S ") then None
    else
      var rest := line[3..];
      var k := LeadingDigits(rest);
      if k == 0 || k == |rest| || rest[k] != ' ' then None
      else Some((ParseLeadingNat(rest), rest[k + 1..]))
  }

  lemma ScanLineRoundTrip(n: nat, title: string)
    ensures ParseScanLine(ScanLine(n, title)) == Some((n, title))
  {
    var line, ds := ScanLine(n, title), NatToString(n);
    assert StartsWith(line, "#S ");
    assert line[3..] == ds + (" " + title);
    ParseFormatted(n, " " + title);
    assert line[3..][|ds| + 1..] == title;
  }

  /** The first field of the #@CHANN line is the number of samples. */
  lemma ChannLineCount(n: nat)
    requires 1 <= n
    ensures StartsWith(ChannLine(n), "#@CHANN ")
    ensures ParseLeadingNat(ChannLine(n)[8..]) == n
  {
    var ds, rest := NatToString(n), "  0  " + NatToString(n - 1) + "  1";
    var prefix := "#@CHANN ";
    assert ChannLine(n) == prefix + (ds + rest);
    assert rest[0] == ' ';
    ParseFormatted(n, rest);
  }

  /** The header, labels and header of the "SCAN" record of entry idx. */
  function ScanView(idx: nat, info: map<string, string>, fileHeader: Option<string>): View {
    View("SCAN",
         [ScanLine(2 * idx + 1, Title(info)), "#N 2", "#L " + XLabel(info) + "  " + YLabel(info)],
         Some([XLabel(info), YLabel(info)]),
         fileHeader)
  }

  /** The header of the "MCA" record: calibration lines only for the (X++(Y..Y)) layout. */
  function McaHeader(idx: nat, info: map<string, string>, x: seq<real>, formatFloat: real -> string): Result<seq<string>> {
    var first := ScanLine(2 * idx + 2, Title(info));
    if "XYDATA" !in info then Err(KeyError("XYDATA"))
    else if !IsXYTag(info["XYDATA"]) then Ok([first])
    else if |x| < 2 then Err(SampleIndexError(|x|, |x|))
    else Ok([first, ChannLine(|x|), CalibLine(x[0], x[1] - x[0], formatFloat)])
  }

  /** numpy's assignment of y to a column of |x| rows: same length, or one value repeated. */
  function Broadcast(x: seq<real>, y: seq<real>): (col: Option<seq<real>>)
    ensures col.Some? <==> |y| == |x| || |y| == 1
    ensures col.Some? ==> |col.value| == |x| && forall i :: 0 <= i < |x| ==> col.value[i] == y[if |y| == |x| then i else 0]
  {
    if |y| == |x| then Some(y)
    else if |y| == 1 then Some(seq(|x|, _ => y[0]))
    else None
  }

  /**
   * What building the records of entry idx leads to: a failure before anything changes, a
   * failure after the "SCAN" record was stored, or both records; with the samples to store.
   */
  datatype Plan =
    | Fail(err: Error)
    | HalfDone(scan: View, err: Error, x: seq<real>, column: seq<real>)
    | Done(scan: View, mca: View, x: seq<real>, column: seq<real>)

  function PlanEntry(idx: nat, d: Decoded, formatFloat: real -> string): (p: Plan)
    ensures d.Undecodable? ==> p == Fail(DecodeError)
    ensures d.Decoded? && Broadcast(d.x, d.y).None? ==> p == Fail(BroadcastError(|d.x|, |d.y|))
    ensures p.Fail? <==> d.Undecodable? || Broadcast(d.x, d.y).None?
    ensures p.Done? <==>
      d.Decoded? && Broadcast(d.x, d.y).Some? && "XYDATA" in d.info && (IsXYTag(d.info["XYDATA"]) ==> 2 <= |d.x|)
    ensures p.HalfDone? ==> p.err == if "XYDATA" !in d.info then KeyError("XYDATA") else SampleIndexError(|d.x|, |d.x|)
    ensures !p.Fail? ==> p.scan == ScanView(idx, d.info, d.header) && p.x == d.x && Some(p.column) == Broadcast(d.x, d.y)
  {
    match d
    case Undecodable => Fail(DecodeError)
    case Decoded(info, x, y, header) =>
      match Broadcast(x, y)
      case None => Fail(BroadcastError(|x|, |y|))
      case Some(col) =>
        var scan := ScanView(idx, info, header);
        match McaHeader(idx, info, x, formatFloat)
        case Err(e) => HalfDone(scan, e, x, col)
        case Ok(h) => Done(scan, View("MCA", h, None, header), x, col)
  }

  /**
   * The records of a fully built entry: "#S 2*idx+1" SCAN with two labels, "#S 2*idx+2" MCA
   * without labels, both under the same title and file header; the MCA header has the
   * #@CHANN/#@CALIB pair exactly for the (X++(Y..Y)) layout.
   */
  lemma EntryViews(idx: nat, d: Decoded, formatFloat: real -> string)
    requires PlanEntry(idx, d, formatFloat).Done?
    ensures var p := PlanEntry(idx, d, formatFloat);
      p.scan.scantype == "SCAN"
      && p.scan.header == [ScanLine(2 * idx + 1, Title(d.info)), "#N 2", "#L " + XLabel(d.info) + "  " + YLabel(d.info)]
      && ParseScanLine(p.scan.header[0]) == Some((2 * idx + 1, Title(d.info)))
      && p.scan.labels == Some([XLabel(d.info), YLabel(d.info)])
      && p.mca.scantype == "MCA"
      && p.mca.labels == None
      && |p.mca.header| == (if IsXYTag(d.info["XYDATA"]) then 3 else 1)
      && p.mca.header[0] == ScanLine(2 * idx + 2, Title(d.info))
      && ParseScanLine(p.mca.header[0]) == Some((2 * idx + 2, Title(d.info)))
      && (IsXYTag(d.info["XYDATA"]) ==>
            p.mca.header[1] == ChannLine(|d.x|)
            && ParseLeadingNat(p.mca.header[1][8..]) == |d.x|
            && p.mca.header[2] == CalibLine(d.x[0], d.x[1] - d.x[0], formatFloat))
      && p.scan.fileHeader == p.mca.fileHeader == d.header
  {
    ScanLineRoundTrip(2 * idx + 1, Title(d.info));
    ScanLineRoundTrip(2 * idx + 2, Title(d.info));
    if IsXYTag(d.info["XYDATA"]) {
      ChannLineCount(|d.x|);
    }
  }

  /** The values f32 gives to the samples s. */
  function Samples(f32: real -> real, s: seq<real>): seq<real> {
    seq(|s|, i requires 0 <= i < |s| => f32(s[i]))
  }

  /** The sample array holds x in column 0 and col in column 1, one row per x, each as float32. */
  ghost predicate Holds(data: array2<real>, x: seq<real>, col: seq<real>, f32: real -> real)
    reads data
  {
    data.Length0 == |x| && data.Length1 == 2 && |col| == |x|
    && forall i :: 0 <= i < |x| ==> data[i, 0] == f32(x[i]) && data[i, 1] == f32(col[i])
  }

  /** A fresh |x| by 2 array of float32 values, filled column 0 (from x) and then column 1 (from col). */
  method FillData(x: seq<real>, col: seq<real>, f32: real -> real) returns (data: array2<real>)
    requires |col| == |x|
    ensures fresh(data)
    ensures Holds(data, x, col, f32)
  {
    data := new real[|x|, 2];
    for i := 0 to |x|
      invariant forall j :: 0 <= j < i ==> data[j, 0] == f32(x[j])
    {
      data[i, 0] := f32(x[i]);
    }
    for i := 0 to |x|
      invariant forall j :: 0 <= j < |x| ==> data[j, 0] == f32(x[j])
      invariant forall j :: 0 <= j < i ==> data[j, 1] == f32(col[j])
    {
      data[i, 1] := f32(col[i]);
    }
  }

  /** mca(1) of a record over the samples of an entry is its y column, as float32. */
  lemma McaIsYColumn(r: ScanRecord, x: seq<real>, col: seq<real>, f32: real -> real)
    requires Holds(r.data, x, col, f32)
    ensures r.Mca(1) == Ok(Samples(f32, col))
  {
    assert r.Mca(1).value == Samples(f32, col);
  }
}
