/**
 * The JCAMP-DX scan-file parser: the entry index built at construction, the single-slot
 * cache of the last entry materialized, and the 0-based record addressing of __getitem__.
 */
module JcampFileParser {
  import opened Outcomes
  import opened Lines
  import opened Format
  import opened EntryIndex
  import opened ScanRecords

  /** What materializing entry idx of the indexed text leads to. */
  function PlanAt(text: string, limits: seq<Span>, env: Env, idx: nat): Plan
    requires idx < |limits|
  {
    PlanEntry(idx, env.decode(Chunk(text, limits[idx])), env.formatFloat)
  }

  /**
   * __getitem__'s addressing: a negative item is replaced by scanno - item (which lies
   * beyond scanno); then the entry is item // 2 and the record item % 2.
   */
  function ItemSlot(item: int, scanno: nat): (s: (nat, nat))
    ensures s.1 < 2
    ensures item >= 0 ==> 2 * s.0 + s.1 == item
    ensures item < 0 ==> 2 * s.0 + s.1 == scanno - item && scanno < 2 * s.0 + s.1
  {
    var it := if item < 0 then scanno - item else item;
    (it / 2, it % 2)
  }

  /** scandata[slot], or the IndexError of a list too short for it. */
  function Slot(records: seq<ScanRecord>, slot: nat): (r: Result<ScanRecord>)
    ensures r.Ok? <==> slot < |records|
    ensures r.Ok? ==> r.value == records[slot]
  {
    if slot < |records| then Ok(records[slot]) else Err(RecordIndexError(slot, |records|))
  }

  /** The view that record slot of an entry's plan gives: SCAN for slot 0, MCA for slot 1. */
  function SlotView(p: Plan, slot: nat): View
    requires p.Done?
  {
    if slot == 0 then p.scan else p.mca
  }

  /**
   * Item numbering is 0-based while headers number scans from 1: item n >= 0 materializes the
   * record whose "#S" line carries n + 1, a SCAN record for even n and an MCA record for odd n.
   */
  lemma ItemMatchesHeaderNumber(item: nat, scanno: nat, d: Decoded, formatFloat: real -> string)
    requires PlanEntry(ItemSlot(item, scanno).0, d, formatFloat).Done?
    ensures var s := ItemSlot(item, scanno);
      var v := SlotView(PlanEntry(s.0, d, formatFloat), s.1);
      v.header[0] == ScanLine(item + 1, Title(d.info))
      && ParseScanLine(v.header[0]) == Some((item + 1, Title(d.info)))
      && (v.scantype == "SCAN" <==> item % 2 == 0)
  {
    var s := ItemSlot(item, scanno);
    EntryViews(s.0, d, formatFloat);
  }

  /** With two records per entry a negative item always addresses an entry past the last one. */
  lemma NegativeItemBeyondEntries(item: int, entries: nat)
    requires item < 0
    ensures ItemSlot(item, 2 * entries).0 >= entries
  {
  }

  class Parser {
    /** The file's contents; every read sees the same text. */
    const text: string
    const single: bool
    const env: Env
    /** The entry index (_scanLimits). */
    const scanLimits: seq<Span>
    /** The cache key: the index of the entry whose records scandata holds, -1 for none. */
    var lastEntryData: int
    var scandata: seq<ScanRecord>

    /**
     * The index is the one the text gives, and the cache is consistent: no key without records,
     * and with both records stored, they are the SCAN and MCA records of entry lastEntryData
     * over one array holding that entry's samples.
     */
    ghost predicate Valid()
      reads this, if |scandata| == 2 then {scandata[0].data} else {}
    {
      scanLimits == ScanLimits(text, single)
      && -1 <= lastEntryData < |scanLimits|
      && |scandata| <= 2
      && (|scandata| == 0 ==> lastEntryData == -1)
      && (|scandata| == 2 ==>
            0 <= lastEntryData
            && var p := PlanAt(text, scanLimits, env, lastEntryData);
            p.Done? && scandata[0].view == p.scan && scandata[1].view == p.mca
            && scandata[0].data == scandata[1].data
            && Holds(scandata[0].data, p.x, p.column, env.toFloat32))
    }

    /** The index-building part of construction. */
    constructor (text: string, single: bool, env: Env)
      ensures Valid()
      ensures this.text == text && this.single == single && this.env == env
      ensures lastEntryData == -1 && scandata == []
    {
      this.text := text;
      this.single := single;
      this.env := env;
      var limits := BuildIndex(text, single);
      scanLimits := limits;
      lastEntryData := -1;
      scandata := [];
    }

    /** Two records per indexed entry while scandata holds both; one per entry after a partial build. */
    function Scanno(): nat
      reads this
    {
      |scandata| * |scanLimits|
    }

    /** list(): "1:" followed by scanno(). */
    function List(): (s: string)
      reads this
      ensures StartsWith(s, "1:")
      ensures LeadingDigits(s[2..]) == |s| - 2 && ParseLeadingNat(s[2..]) == Scanno()
      ensures |s| > 3 ==> s[2] != '0'
    {
      var digits := NatToString(Scanno());
      ParseFormatted(Scanno(), []);
      assert digits + [] == digits;
      assert ("1:" + digits)[2..] == digits;
      "1:" + digits
    }

    /**
     * _parseEntryData(idx): nothing to do for the cached entry; an IndexError outside the
     * index; otherwise decode the entry's chunk and rebuild scandata.
     */
    method ParseEntryData(idx: int) returns (err: Option<Error>)
      requires Valid()
      modifies this
      ensures Valid()
      ensures idx == old(lastEntryData) ==> err == None && unchanged(this)
      ensures idx != old(lastEntryData) && (idx < 0 || |scanLimits| <= idx) ==>
        err == Some(EntryIndexError(|scanLimits|, idx)) && unchanged(this)
      ensures idx != old(lastEntryData) && 0 <= idx < |scanLimits| ==>
        var p := PlanAt(text, scanLimits, env, idx);
        (p.Fail? ==> err == Some(p.err) && unchanged(this))
        && (p.HalfDone? ==>
              err == Some(p.err) && lastEntryData == old(lastEntryData)
              && |scandata| == 1 && scandata[0].view == p.scan
              && fresh(scandata[0].data) && Holds(scandata[0].data, p.x, p.column, env.toFloat32))
        && (p.Done? ==>
              err == None && lastEntryData == idx
              && |scandata| == 2 && scandata[0].view == p.scan && scandata[1].view == p.mca
              && scandata[0].data == scandata[1].data
              && fresh(scandata[0].data) && Holds(scandata[0].data, p.x, p.column, env.toFloat32)
              && Scanno() == 2 * |scanLimits|)
    {
      if idx == lastEntryData {
        return None;
      }
      if idx < 0 || idx >= |scanLimits| {
        return Some(EntryIndexError(|scanLimits|, idx));
      }
      var sp := scanLimits[idx];
      var d := env.decode(Read(text, sp.start, 1 + sp.end - sp.start));
      if d.Undecodable? {
        return Some(DecodeError);
      }
      var info, x, y := d.info, d.x, d.y;
      var fileheader := d.header;
      var column := Broadcast(x, y);
      if column.None? {
        return Some(BroadcastError(|x|, |y|));
      }
      var data := FillData(x, column.value, env.toFloat32);
      scandata := [];
      scandata := scandata + [ScanRecord(data, ScanView(idx, info, fileheader))];
      // the MCA header; its lookup of info['XYDATA'] and of x[0], x[1] can still fail
      var mcaHeader := McaHeader(idx, info, x, env.formatFloat);
      if mcaHeader.Err? {
        return Some(mcaHeader.error);
      }
      scandata := scandata + [ScanRecord(data, View("MCA", mcaHeader.value, None, fileheader))];
      lastEntryData := idx;
      return None;
    }

    /** __getitem__(item): materialize entry item // 2 (after the negative-item rewrite) and pick record item % 2. */
    method GetItem(item: int) returns (r: Result<ScanRecord>)
      requires Valid()
      modifies this
      ensures Valid()
      ensures var s := ItemSlot(item, old(Scanno()));
        s.0 == old(lastEntryData) ==>
          unchanged(this) && r == Slot(scandata, s.1)
          && (|scandata| == 2 ==>
                var p := PlanAt(text, scanLimits, env, s.0);
                p.Done? && r.Ok? && r.value.view == SlotView(p, s.1)
                && Holds(r.value.data, p.x, p.column, env.toFloat32))
      ensures var s := ItemSlot(item, old(Scanno()));
        s.0 != old(lastEntryData) && |scanLimits| <= s.0 ==>
          unchanged(this) && r == Err(EntryIndexError(|scanLimits|, s.0))
      ensures var s := ItemSlot(item, old(Scanno()));
        s.0 != old(lastEntryData) && s.0 < |scanLimits| ==>
          var p := PlanAt(text, scanLimits, env, s.0);
          (p.Fail? ==> unchanged(this) && r == Err(p.err))
          && (p.HalfDone? ==>
                r == Err(p.err) && lastEntryData == old(lastEntryData)
                && |scandata| == 1 && scandata[0].view == p.scan
                && fresh(scandata[0].data) && Holds(scandata[0].data, p.x, p.column, env.toFloat32))
          && (p.Done? ==>
                lastEntryData == s.0 && |scandata| == 2 && r == Ok(scandata[s.1])
                && r.value.view == SlotView(p, s.1)
                && fresh(r.value.data) && Holds(r.value.data, p.x, p.column, env.toFloat32))
      ensures old(|scandata|) == 2 && item < 0 ==> r.Err? && r.error.EntryIndexError?
    {
      var s := ItemSlot(item, Scanno());
      if item < 0 && |scandata| == 2 {
        NegativeItemBeyondEntries(item, |scanLimits|);
      }
      var err := ParseEntryData(s.0);
      if err.Some? {
        return Err(err.value);
      }
      r := Slot(scandata, s.1);
    }
  }

  /** JcampFileParser(filename, single): build the index, then materialize entry 0 eagerly. */
  method Open(text: string, single: bool, env: Env) returns (r: Result<Parser>)
    ensures r.Ok? ==> fresh(r.value) && r.value.Valid()
    ensures r.Ok? ==> r.value.text == text && r.value.single == single && r.value.env == env
    ensures r.Ok? ==> r.value.lastEntryData == 0 && |r.value.scandata| == 2
    ensures r.Ok? ==> r.value.Scanno() == 2 * |ScanLimits(text, single)|
    ensures r.Ok? ==>
      var q := r.value;
      var p := PlanAt(text, q.scanLimits, env, 0);
      p.Done? && q.scandata[0].view == p.scan && q.scandata[1].view == p.mca
      && q.scandata[0].data == q.scandata[1].data
      && fresh(q.scandata[0].data) && Holds(q.scandata[0].data, p.x, p.column, env.toFloat32)
    ensures ScanLimits(text, single) == [] ==> r == Err(EntryIndexError(0, 0))
    ensures ScanLimits(text, single) != [] ==>
      var p := PlanAt(text, ScanLimits(text, single), env, 0);
      (r.Ok? <==> p.Done?) && (r.Err? ==> r.error == p.err)
  {
    var parser := new Parser(text, single, env);
    var err := parser.ParseEntryData(0);
    if err.Some? {
      return Err(err.value);
    }
    return Ok(parser);
  }
}
