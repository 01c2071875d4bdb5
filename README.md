# JCAMP-DX scan-file parser, modelled in Dafny

This project models the core of PyMca's JCAMP-DX file parser (`JcampFileParser` and `JCAMPFileScan`)
and proves properties of the model.

A JCAMP-DX file holds entries. Each entry is a block of lines that runs from a line starting with
`##TITLE` to a line starting with `##END=`. The parser builds an index at construction: one span
`(start, end, lineStart, lineEnd)` per complete entry. Then it materializes entries on demand. For
entry `idx` it gives the entry's text to a JCAMP block decoder. From the decoded metadata and the
x/y samples it builds two records over one shared `N x 2` sample array:

- a `SCAN` record, numbered `#S 2*idx+1`, with labels;
- an `MCA` record, numbered `#S 2*idx+2`, without labels. When the entry's `XYDATA` layout is
  `(X++(Y..Y))`, this record also gets the channel and calibration lines.

A single-slot cache remembers the last entry that was built. The class invariant `Parser.Valid`
ties the cache to its key: with both records stored, they are the SCAN and MCA records of entry
`lastEntryData` over one array holding that entry's samples; a key other than -1 always has
records behind it.

Modules, one per concern:

- `Outcomes` (`outcomes.dfy`): `Option`, `Result` and the parser's errors.
- `Lines` (`lines.dfy`): the file as a text, read the way `readline()`, `tell()`, `seek()` and
  `read(n)` see it. `SplitLines` gives the file's lines. `Offset(lines, k)` is the total length of
  the lines before line `k`.
- `Format` (`format.dfy`): `"%d"` formatting of naturals and its inverse, plus ASCII `str.upper()`.
- `EntryIndex` (`entry_index.dfy`): the spec of the index (`IndexFrom`, `ScanLimits`), its lemmas,
  the chunk given to the decoder, and `BuildIndex`, the constructor's scanning loop, proved equal
  to the spec.
- `ScanRecords` (`scan_records.dfy`): the decoder's output, the record type with its accessors,
  the headers, `PlanEntry` (what building an entry leads to), and `FillData`, which fills the
  sample array column by column.
- `JcampFileParser` (`jcamp_file_parser.dfy`): the `Parser` class (index, cache key
  `lastEntryData`, `scandata`), `_parseEntryData`, `__getitem__`, `scanno`, `list`, and `Open`
  for construction with its eager materialization of entry 0.

Some of the code's behaviour is easy to misread; the model follows the code:

- The stored end offset is the offset of the `##END=` line, not the position after it.
- The decoder gets `1 + end - start` characters. So its text stops after the first `#` of the
  `##END=` line (`EntryIndex.ChunkOfSpan`).
- `__getitem__` is 0-based: item `n` gives the record whose header says `#S n+1`.
- A negative item is replaced by `scanno() - item`. That value lies beyond `scanno()`.
- `scanno()` is `len(scandata) * len(_scanLimits)`. After a partial build (see below) it counts
  one record per entry.
- A missing `XYDATA` key (or fewer than two samples under the `(X++(Y..Y))` layout) fails after
  `scandata` was reset and the SCAN record was stored. The cache key keeps its old value. A later
  request for that old entry then finds only this one SCAN record. That record belongs to the
  entry that failed.

The collaborators are parameters, bundled in `ScanRecords.Env`: the block decoder (a function from
an entry's text to `Decoded`), numpy's float32 conversion, and the `%f` formatter. The file is a
`string`, and every read of it sees the same text.

## Model

| member | source | states |
|---|---|---|
| `EntryIndex.BuildIndex` | PyMca5/PyMcaIO/JcampFileParser.py:47-68 | The readline/tell loop (with `entryStarted`, `start`, `lineStart`, `current`, `nLines`, and `break` when `single`) returns exactly the index `ScanLimits(text, single)` |
| `EntryIndex.SpansWellFormed` | PyMca5/PyMcaIO/JcampFileParser.py:53-64 | Each span starts at a `##TITLE` line and ends at the first later `##END=` line; `start`/`end` are those lines' offsets and `lineStart`/`lineEnd` their 0-based numbers; `start < end < len(text)` and `lineStart < lineEnd` |
| `EntryIndex.SpansInFileOrder` | PyMca5/PyMcaIO/JcampFileParser.py:55-58 | Spans are appended in file order: each ends, in line numbers and in offsets, before the next one starts |
| `EntryIndex.SpansComplete` | PyMca5/PyMcaIO/JcampFileParser.py:54-64 | A `##TITLE` seen inside an open entry is ignored; each span starts at the first `##TITLE` line after the previous span; without `single`, no `##TITLE` line after the last span is followed by an `##END=` line, so a trailing entry without `##END=` gives no span |
| `EntryIndex.SingleStopsAfterFirst` | PyMca5/PyMcaIO/JcampFileParser.py:59-60 | With `single` the index has at most one span, and it is the first span of the full index |
| `EntryIndex.IndexEmptyIffNoEntry` | PyMca5/PyMcaIO/JcampFileParser.py:53-68 | The index is empty exactly when no `##TITLE` line is followed by an `##END=` line |
| `EntryIndex.ChunkOfSpan` | PyMca5/PyMcaIO/JcampFileParser.py:79-84 | The text handed to the decoder for an indexed span is exactly `1 + end - start` characters from `start` on; it begins with `##TITLE` and ends with the `#` that starts the `##END=` line |
| `Lines.LineAt` | PyMca5/PyMcaIO/JcampFileParser.py:50-51 | Line `k` of the file is what `readline()` returns after the position `tell()` reported for it, the sum of the lengths of the lines before it |
| `Lines.ReadLine` | PyMca5/PyMcaIO/JcampFileParser.py:51 | `readline()` returns the empty string exactly at the end of the file, and otherwise the text from the current position through the next `\n`, or to the end of the file when no `\n` follows |
| `Lines.Read` | PyMca5/PyMcaIO/JcampFileParser.py:81-82 | `read(n)` after `seek(pos)` gives the `n` characters at `pos` when they exist, the rest of the file for a short read or a negative `n`, and nothing past the end |
| `ScanRecords.FillData` | PyMca5/PyMcaIO/JcampFileParser.py:96-98 | A fresh `len(x) x 2` array with column 0 = float32(x) and column 1 = float32(y column) |
| `ScanRecords.Broadcast` | PyMca5/PyMcaIO/JcampFileParser.py:98 | Assigning `y` to column 1 succeeds exactly when `len(y) == len(x)` or `len(y) == 1`, and gives `y` or `y[0]` repeated |
| `ScanRecords.PlanEntry` | PyMca5/PyMcaIO/JcampFileParser.py:84-119 | The outcome of building an entry: a decoder failure or a broadcast error, and only these, fails before any change; any other failure is `KeyError('XYDATA')` or the `x[0]`/`x[1]` IndexError, raised after the SCAN record is stored; otherwise both records; it succeeds exactly when the decoder succeeds, y fits, `XYDATA` is present and the tag implies two samples |
| `ScanRecords.EntryViews` | PyMca5/PyMcaIO/JcampFileParser.py:88-118 | SCAN header is exactly `["#S <2idx+1> <title>", "#N 2", "#L <x>  <y>"]` with labels `[x, y]` and the defaults `Unknown scan`/`channel`/`counts`; MCA header starts with exactly the `%d` line `#S <2idx+2> <title>` and has the `#@CHANN`/`#@CALIB` pair only under `(X++(Y..Y))`, where the second line is exactly the `#@CHANN` line for `len(x)` samples, whose first field reads back as `len(x)`, and `#@CALIB` carries `x[0]` and `x[1]-x[0]`; MCA has type `MCA` and no labels; both share the file header |
| `ScanRecords.ScanLineRoundTrip` | PyMca5/PyMcaIO/JcampFileParser.py:100 | A `"#S %d %s"` line reads back as its scan number and title |
| `ScanRecords.ChannLineCount` | PyMca5/PyMcaIO/JcampFileParser.py:112 | The first field of `"#@CHANN %d  %d  %d  1"` reads back as the sample count |
| `ScanRecords.XYTagIgnoresCase` | PyMca5/PyMcaIO/JcampFileParser.py:110 | `info['XYDATA'].upper() == '(X++(Y..Y))'` holds exactly when the value spells the tag, with its X and Y in either case |
| `ScanRecords.ScanRecord.Fileheader` | PyMca5/PyMcaIO/JcampFileParser.py:144-145 | `fileheader(key)` returns the stored file header whatever the key |
| `ScanRecords.ScanRecord.Nbmca` | PyMca5/PyMcaIO/JcampFileParser.py:147-151 | `nbmca()` is 0 exactly for a `SCAN` record, else 1 |
| `ScanRecords.ScanRecord.Mca` | PyMca5/PyMcaIO/JcampFileParser.py:153-156 | `mca(n)` raises `ValueError` unless `n == 1`, and otherwise returns column 1 of the data |
| `ScanRecords.McaIsYColumn` | PyMca5/PyMcaIO/JcampFileParser.py:96-98 | On a record over an entry's samples, `mca(1)` is the y column as float32 |
| `Format.ParseFormatted` | PyMca5/PyMcaIO/JcampFileParser.py:130 | A number formatted with `%d` and followed by a non-digit reads back as that number |
| `JcampFileParser.ItemSlot` | PyMca5/PyMcaIO/JcampFileParser.py:123-127 | For `item >= 0` the entry and record are `item // 2` and `item % 2`; a negative item is rewritten to exactly `scanno() - item`, which lies beyond `scanno()` |
| `JcampFileParser.ItemMatchesHeaderNumber` | PyMca5/PyMcaIO/JcampFileParser.py:122-127 | Item `n >= 0` gives the record whose `#S` line is exactly `#S <n+1> <title>`: SCAN for even `n`, MCA for odd `n` |
| `JcampFileParser.NegativeItemBeyondEntries` | PyMca5/PyMcaIO/JcampFileParser.py:123-125 | With two records per entry, a negative item addresses an entry at or past the entry count |
| `JcampFileParser.Slot` | PyMca5/PyMcaIO/JcampFileParser.py:127 | `scandata[item % 2]` is the record when the list is long enough, else an IndexError |
| `JcampFileParser.Parser.List` | PyMca5/PyMcaIO/JcampFileParser.py:129-133 | `list()` is `"1:"` followed by the `%d` digits of `scanno()`, with no leading zero, and nothing else |
| `JcampFileParser.Parser.ParseEntryData` | PyMca5/PyMcaIO/JcampFileParser.py:72-120 | A cache hit changes nothing. An index outside `[0, K)` raises an IndexError with the count and the index, and changes nothing. Otherwise the new state follows `PlanEntry`. On success `scandata` is exactly `[SCAN, MCA]` over one fresh shared array holding x and y, the cache key is `idx`, and `scanno() == 2K`. After `KeyError` only the SCAN record is stored and the key is unchanged |
| `JcampFileParser.Parser.GetItem` | PyMca5/PyMcaIO/JcampFileParser.py:122-127 | Materializes entry `item // 2` and returns `scandata[item % 2]`. On a cache hit with both records stored, that is entry `item // 2`'s SCAN (slot 0) or MCA (slot 1) record over its samples; after a partial build it is whatever the one stored record is, or an IndexError for slot 1. On a miss the new state follows `PlanEntry`: unchanged on an early failure, only the SCAN record after `KeyError`, both records over a fresh array on success. With both records cached, a negative item always raises the entry IndexError |
| `JcampFileParser.Parser.constructor` | PyMca5/PyMcaIO/JcampFileParser.py:44-69 | Builds the index `ScanLimits(text, single)` with an empty cache (`lastEntryData == -1`) |
| `JcampFileParser.Open` | PyMca5/PyMcaIO/JcampFileParser.py:44-70 | Construction materializes entry 0 eagerly: it succeeds exactly when entry 0 builds fully, and then caches entry 0's SCAN and MCA records over one fresh array holding its samples, with `scanno() == 2K`. With no complete entry it raises `IndexError(0 entries, requested 0)` |

## Left out

- The JCAMP-DX block decoder (`JcampReader`) is not part of this model. It is the parameter
  `Env.decode`, and any exception it raises is the single error `DecodeError`.
- `isJcampFile` is a one-line forward to the decoder's own sniffer, with no logic of its own.
- Real file handling is not modelled: `open`, `close`, `os.path.abspath`, and reopening the file
  for each entry. The file is a string that does not change between reads.
- Text-mode newline translation and `tell()` cookies are not modelled. Offsets are character
  positions.
- numpy's float32 conversion and `%f` formatting are the parameters `Env.toFloat32` and
  `Env.formatFloat`.
- Samples are exact reals, so the `#@CALIB` step `x[1] - x[0]` is exact real subtraction. Python
  subtracts the decoder's double-precision floats, with rounding, before `%f` formats the result.
- The `try`/`except` around `instance._header` is the optional `Decoded.header`. The diagnostic
  message it prints is not modelled.
- Metadata values are strings. The `AttributeError` that `.upper()` would raise on a non-string
  `XYDATA` value is not modelled.
- `Format.Upper` maps only ASCII letters. Python's Unicode case mapping is not modelled.
- `ScanRecords.Broadcast` covers a 1-D `y` only. Other numpy shapes are not modelled.
- `ScanRecords.ScanRecord.Mca`: returns a copy of column 1 instead of a numpy view that aliases
  the array.
- `ScanRecords.ScanRecord.Mca`: takes an integer channel number. Python's `in [1]` would also
  accept `1.0` and `True`.
- `JcampFileParser.Parser.Scanno` has no contract of its own. It is the product
  `len(scandata) * len(_scanLimits)`, and `ParseEntryData` and `Open` state its value after a
  full build.
- The `__main__` demonstration is not part of the model.
- Behaviour inherited from `SpecFileAbstractClass` (`select` and the rest) is not part of this
  model.
