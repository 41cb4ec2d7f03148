/**
 * The CPK archive reader (lib/cri/cpk/reader.py). Opening an archive reads
 * the header table at offset 0, collects the files from the ITOC (mode 0)
 * or from the TOC in ITOC id order (mode 2), and recomputes where each file
 * lies: from ContentOffset on, each at the next multiple of Align after the
 * one before. The recorded FileOffset of the TOC is not consulted.
 */
module CpkReader {
  import opened Wrappers
  import opened Bytes
  import opened CpkCommon
  import opened Utf
  import Sorting
  import Crilayla
  import CpkWriter

  datatype ReaderError =
    | TagMismatch(expected: seq<byte>, actual: seq<byte>)
    | ShortRead                 // the file ends before a field it announces
    | NegativeSeek              // an offset or a length below zero
    | BadTable                  // table bytes that do not decode
    | RowCount(count: nat)      // `[x] = rows` on a table without exactly one row
    | Field(e: FieldError)      // a missing or mistyped column
    | NotImplemented
    | EmptyTranspose            // `tuple(zip(*pairs))[1]` on no pairs
    | ZeroDivision
    | IndexOutOfRange(index: int)
    | UnknownId(id: int)
    | Layla(cause: Crilayla.LaylaError)
    | SizeMismatch

  /** `Entry`: a file's position in the archive and its id. */
  datatype Entry = Entry(index: nat, id: int)

  /** A file as the index tables describe it, before it is placed. */
  datatype StagingEntry = StagingEntry(id: int, encodedSize: int, size: int)

  /** Where a file's bytes lie, and how long it is once decoded. */
  datatype Range = Range(offset: int, encodedSize: int, size: int)

  /** What opening an archive records. */
  datatype Info = Info(ranges: seq<Range>, entries: seq<Entry>, byId: map<int, Entry>)

  // ---- Python's `%` ----

  /** Python's `x % d`: the remainder takes the sign of the divisor. */
  function PyMod(x: int, d: int): (r: int)
    requires d != 0
    ensures d > 0 ==> r == x % d && 0 <= r < d
    ensures d < 0 ==> d < r <= 0
  {
    if d > 0 || x % d == 0 then x % d else x % d + d
  }

  /** For a positive divisor Python's `%` is the writer's padding arithmetic. */
  lemma PyModIsMod(x: int, d: nat)
    requires d > 0
    ensures PyMod(x, d) == CpkWriter.Mod(x, d)
  {
    CpkWriter.ModIsRemainder(x, d);
  }

  /**
   * `offset += -offset % alignment`: for a positive alignment the least
   * multiple of it at or after `offset`; for a negative one the position
   * moves back, never by a whole alignment.
   */
  function Aligned(offset: int, alignment: int): (r: int)
    requires alignment != 0
    ensures alignment > 0 ==> r % alignment == 0 && offset <= r < offset + alignment
    ensures alignment < 0 ==> offset + alignment < r <= offset
  {
    if alignment > 0 then AlignedMultiple(offset, alignment); offset + PyMod(-offset, alignment)
    else offset + PyMod(-offset, alignment)
  }

  lemma AlignedStep(offset: int, alignment: int)
    requires alignment != 0
    ensures Aligned(offset, alignment) == offset + PyMod(-offset, alignment)
  {
  }

  lemma AlignedMultiple(offset: int, d: nat)
    requires d > 0
    ensures (offset + (-offset) % d) % d == 0
  {
    var q := (-offset) / d;
    var m := (-offset) % d;
    assert -offset == d * q + m;
    assert offset + m == d * -q;
    DivModUniqueInt(offset + m, d, -q, 0);
  }

  // ---- reading one table ----

  /** `decode_table` on a byte string; lib/cri/utf.py is a parameter. */
  function DecodeTable(data: seq<byte>, decode: seq<byte> -> Option<Table>): (r: Result<Table, ReaderError>)
    ensures r.Ok? <==> decode(data).Some?
    ensures r.Ok? ==> r.value == decode(data).value
    ensures r.Err? ==> r.error == BadTable
  {
    match decode(data)
    case None => Err(BadTable)
    case Some(t) => Ok(t)
  }

  /**
   * `_read_table`: the tag, a flag word (0 means the body is enciphered),
   * the body length as 8 little-endian bytes, then the body, deciphered
   * when flagged and decoded as a table.
   */
  function ReadTable(input: seq<byte>, tag: seq<byte>, decode: seq<byte> -> Option<Table>): (r: Result<Table, ReaderError>)
    ensures |input| < 4 ==> r == Err(ShortRead)
    ensures |input| >= 4 && input[..4] != tag ==> r == Err(TagMismatch(tag, input[..4]))
    ensures r.Ok? ==> 16 <= |input| && input[..4] == tag && 16 + LeValue(input[8..16]) <= |input|
    ensures r.Ok? && LeValue(input[4..8]) == 0 ==> decode(CryptSpec(input[16..16 + LeValue(input[8..16])])) == Some(r.value)
    ensures r.Ok? && LeValue(input[4..8]) != 0 ==> decode(input[16..16 + LeValue(input[8..16])]) == Some(r.value)
  {
    if |input| < 4 then Err(ShortRead)
    else if input[..4] != tag then Err(TagMismatch(tag, input[..4]))
    else if |input| < 16 then Err(ShortRead)
    else
      var encrypted := LeValue(input[4..8]) == 0;
      var size := LeValue(input[8..16]);
      if |input| < 16 + size then Err(ShortRead)
      else
        var data := input[16..16 + size];
        DecodeTable(if encrypted then CryptSpec(data) else data, decode)
  }

  /** `_read_span_table`: the `size` bytes at `offset`, read as a table. */
  function ReadSpanTable(file: seq<byte>, offset: int, size: int, tag: seq<byte>,
                         decode: seq<byte> -> Option<Table>): (r: Result<Table, ReaderError>)
    ensures offset < 0 || size < 0 ==> r == Err(NegativeSeek)
    ensures 0 <= offset && 0 <= size && |file| < offset + size ==> r == Err(ShortRead)
    ensures 0 <= offset && 0 <= size && offset + size <= |file| ==>
      r == ReadTable(file[offset..offset + size], tag, decode)
  {
    if offset < 0 || size < 0 then Err(NegativeSeek)
    else
      match ReadAt(file, offset, size)
      case None => Err(ShortRead)
      case Some(data) => ReadTable(data, tag, decode)
  }

  /** A chunk the writer produced, followed by anything, reads back as the table its data encodes. */
  lemma ChunkReadBack(data: seq<byte>, encrypted: bool, tag: seq<byte>, rest: seq<byte>,
                      decode: seq<byte> -> Option<Table>)
    requires |tag| == 4 && |data| < CpkWriter.LENGTH_LIMIT
    ensures ReadTable(CpkWriter.Chunk(tag, data, encrypted).value + rest, tag, decode) == DecodeTable(data, decode)
  {
    var c := CpkWriter.Chunk(tag, data, encrypted).value;
    var input := c + rest;
    CpkWriter.ChunkFields(tag, data, encrypted);
    CpkWriter.ChunkFlagValue(encrypted);
    assert input[..4] == tag && input[4..8] == c[4..8] && input[8..16] == c[8..16];
    assert input[16..16 + |data|] == c[16..];
    if encrypted {
      CryptInvolution(data);
    }
  }

  /** The chunk at the start of a file is the table the reader finds there. */
  lemma HeadReadBack(file: seq<byte>, data: seq<byte>, encrypted: bool, tag: seq<byte>,
                     decode: seq<byte> -> Option<Table>)
    requires |tag| == 4 && |data| < CpkWriter.LENGTH_LIMIT
    requires ReadAt(file, 0, 16 + |data|) == Some(CpkWriter.Chunk(tag, data, encrypted).value)
    ensures ReadTable(file, tag, decode) == DecodeTable(data, decode)
  {
    var c := CpkWriter.Chunk(tag, data, encrypted).value;
    assert file == c + file[|c|..];
    ChunkReadBack(data, encrypted, tag, file[|c|..], decode);
  }

  /** The chunk at `offset` is the table the reader finds in the span of its length there. */
  lemma SpanReadBack(file: seq<byte>, offset: nat, data: seq<byte>, encrypted: bool, tag: seq<byte>,
                     decode: seq<byte> -> Option<Table>)
    requires |tag| == 4 && |data| < CpkWriter.LENGTH_LIMIT
    requires ReadAt(file, offset, 16 + |data|) == Some(CpkWriter.Chunk(tag, data, encrypted).value)
    ensures ReadSpanTable(file, offset, 16 + |data|, tag, decode) == DecodeTable(data, decode)
  {
    var c := CpkWriter.Chunk(tag, data, encrypted).value;
    assert c + [] == c;
    ChunkReadBack(data, encrypted, tag, [], decode);
  }

  // ---- the header and the list of files ----

  /** A column that must hold an integer. */
  function IntColumn(row: Row, column: string): (r: Result<int, ReaderError>)
    ensures r.Ok? <==> column in row && row[column].Int?
    ensures r.Ok? ==> row[column] == Int(r.value)
  {
    match IntField(row, column)
    case Err(e) => Err(Field(e))
    case Ok(n) => Ok(n)
  }

  /** A column that must hold bytes. */
  function BlobColumn(row: Row, column: string): (r: Result<seq<byte>, ReaderError>)
    ensures r.Ok? <==> column in row && row[column].Blob?
    ensures r.Ok? ==> row[column] == Blob(r.value)
  {
    match BlobField(row, column)
    case Err(e) => Err(Field(e))
    case Ok(b) => Ok(b)
  }

  /** `[header] = header_table.rows` of the table at offset 0. */
  function ReadHeader(file: seq<byte>, decode: seq<byte> -> Option<Table>): (r: Result<Row, ReaderError>)
    ensures r.Ok? <==> ReadTable(file, CpkWriter.CPK_TAG, decode).Ok? && |ReadTable(file, CpkWriter.CPK_TAG, decode).value.rows| == 1
    ensures r.Ok? ==> ReadTable(file, CpkWriter.CPK_TAG, decode).value.rows == [r.value]
  {
    var t :- ReadTable(file, CpkWriter.CPK_TAG, decode);
    if |t.rows| != 1 then Err(RowCount(|t.rows|)) else Ok(t.rows[0])
  }

  /** The staging entry of one row: its ID, FileSize and ExtractSize. */
  function RowEntry(row: Row): (r: Result<StagingEntry, ReaderError>)
    ensures r.Ok? <==> IntColumn(row, "ID").Ok? && IntColumn(row, "FileSize").Ok? && IntColumn(row, "ExtractSize").Ok?
    ensures r.Ok? ==>
      row["ID"] == Int(r.value.id) && row["FileSize"] == Int(r.value.encodedSize) && row["ExtractSize"] == Int(r.value.size)
  {
    var id :- IntColumn(row, "ID");
    var encodedSize :- IntColumn(row, "FileSize");
    var size :- IntColumn(row, "ExtractSize");
    Ok(StagingEntry(id, encodedSize, size))
  }

  /** The reader takes a TOC row the writer built as that file's id, stored uncompressed at its own length. */
  lemma TocRowEntry(e: CpkWriter.StagingToc)
    ensures RowEntry(CpkWriter.TocRow(e)) == Ok(StagingEntry(e.id, e.size, e.size))
  {
  }

  /** One staging entry per row, in row order; the first row with a bad column is the error. */
  function RowsStaging(rows: seq<Row>): (r: Result<seq<StagingEntry>, ReaderError>)
    ensures r.Ok? <==> forall i :: 0 <= i < |rows| ==> RowEntry(rows[i]).Ok?
    ensures r.Ok? ==> |r.value| == |rows| && forall i :: 0 <= i < |rows| ==> RowEntry(rows[i]) == Ok(r.value[i])
  {
    if rows == [] then Ok([])
    else
      var e :- RowEntry(rows[0]);
      var rest :- RowsStaging(rows[1..]);
      assert forall i :: 1 <= i < |rows| ==> rows[i] == rows[1..][i - 1];
      Ok([e] + rest)
  }

  predicate IdLe(a: StagingEntry, b: StagingEntry) {
    a.id <= b.id
  }

  /** Mode 0: the one ITOC row holds two tables (DataL, DataH) whose rows, in that order, are sorted by id. */
  function Mode0Staging(file: seq<byte>, header: Row, decode: seq<byte> -> Option<Table>): (r: Result<seq<StagingEntry>, ReaderError>)
    ensures r.Ok? ==> Sorting.SortedBy(r.value, IdLe)
    ensures IntColumn(header, "ItocOffset").Err? ==> r == Err(IntColumn(header, "ItocOffset").error)
  {
    var offset :- IntColumn(header, "ItocOffset");
    var size :- IntColumn(header, "ItocSize");
    var itoc :- ReadSpanTable(file, offset, size, CpkWriter.ITOC_TAG, decode);
    if |itoc.rows| != 1 then Err(RowCount(|itoc.rows|))
    else
      var low :- BlobColumn(itoc.rows[0], "DataL");
      var lowTable :- DecodeTable(low, decode);
      var high :- BlobColumn(itoc.rows[0], "DataH");
      var highTable :- DecodeTable(high, decode);
      var entries :- RowsStaging(lowTable.rows + highTable.rows);
      assert Sorting.TotalPreorder(IdLe);
      Sorting.SortBySorted(entries, IdLe);
      Ok(Sorting.SortBy(entries, IdLe))
  }

  /** A row paired with the sort key taken from it (or from the row it is zipped with). */
  type Keyed = (int, Row)

  predicate KeyLe(a: Keyed, b: Keyed) {
    a.0 <= b.0
  }

  /** Each row with the integer in `column`: a sort key, computed for every row before sorting. */
  function KeyedBy(rows: seq<Row>, column: string): (r: Result<seq<Keyed>, ReaderError>)
    ensures r.Ok? <==> forall i :: 0 <= i < |rows| ==> IntColumn(rows[i], column).Ok?
    ensures r.Ok? ==> |r.value| == |rows|
    ensures r.Ok? ==> forall i :: 0 <= i < |rows| ==> r.value[i] == (IntColumn(rows[i], column).value, rows[i])
  {
    if rows == [] then Ok([])
    else
      var k :- IntColumn(rows[0], column);
      var rest :- KeyedBy(rows[1..], column);
      assert forall i :: 1 <= i < |rows| ==> rows[i] == rows[1..][i - 1];
      Ok([(k, rows[0])] + rest)
  }

  /** The rows of keyed pairs, keys dropped. */
  function SecondColumn(pairs: seq<Keyed>): (r: seq<Row>)
    ensures |r| == |pairs| && forall k :: 0 <= k < |pairs| ==> r[k] == pairs[k].1
  {
    seq(|pairs|, k requires 0 <= k < |pairs| => pairs[k].1)
  }

  /** `zip(ids, toc)`: each TOC row keyed by the id of the ITOC row at the same position, up to the shorter. */
  function ZipIds(ids: seq<Keyed>, toc: seq<Row>): (r: seq<Keyed>)
    ensures |r| == if |ids| < |toc| then |ids| else |toc|
    ensures forall k :: 0 <= k < |r| ==> r[k] == (ids[k].0, toc[k])
  {
    var n := if |ids| < |toc| then |ids| else |toc|;
    seq(n, k requires 0 <= k < n => (ids[k].0, toc[k]))
  }

  /**
   * Mode 2, up to the transposition: the TOC rows, each keyed by the ID of
   * the ITOC row at the same place once the ITOC is sorted by TocIndex,
   * sorted by that ID.
   */
  function Mode2Pairs(file: seq<byte>, header: Row, decode: seq<byte> -> Option<Table>): (r: Result<seq<Keyed>, ReaderError>)
    ensures r.Ok? ==> Sorting.SortedBy(r.value, KeyLe)
  {
    var tocOffset :- IntColumn(header, "TocOffset");
    var tocSize :- IntColumn(header, "TocSize");
    var toc :- ReadSpanTable(file, tocOffset, tocSize, CpkWriter.TOC_TAG, decode);
    var itocOffset :- IntColumn(header, "ItocOffset");
    var itocSize :- IntColumn(header, "ItocSize");
    var itoc :- ReadSpanTable(file, itocOffset, itocSize, CpkWriter.ITOC_TAG, decode);
    var byTocIndex :- KeyedBy(itoc.rows, "TocIndex");
    var itocRows := SecondColumn(Sorting.SortBy(byTocIndex, KeyLe));
    var n := if |itocRows| < |toc.rows| then |itocRows| else |toc.rows|;
    var ids :- KeyedBy(itocRows[..n], "ID");
    assert Sorting.TotalPreorder(KeyLe);
    Sorting.SortBySorted(ZipIds(ids, toc.rows), KeyLe);
    Ok(Sorting.SortBy(ZipIds(ids, toc.rows), KeyLe))
  }

  /** `tuple(zip(*pairs))[1]` as written: the rows, except that no pairs at all is an IndexError. */
  function TransposedRows(pairs: seq<Keyed>): (r: Result<seq<Row>, ReaderError>)
    ensures r.Err? <==> pairs == []
    ensures r.Ok? ==> r.value == SecondColumn(pairs)
  {
    if pairs == [] then Err(EmptyTranspose) else Ok(SecondColumn(pairs))
  }

  /** Staging entries numbered from `first` in row order, with each row's FileSize and ExtractSize. */
  function NumberedStaging(rows: seq<Row>, first: int): (r: Result<seq<StagingEntry>, ReaderError>)
    ensures r.Ok? <==> forall i :: 0 <= i < |rows| ==>
      IntColumn(rows[i], "FileSize").Ok? && IntColumn(rows[i], "ExtractSize").Ok?
    ensures r.Ok? ==> |r.value| == |rows| && forall i :: 0 <= i < |rows| ==>
      r.value[i] == StagingEntry(first + i, IntColumn(rows[i], "FileSize").value, IntColumn(rows[i], "ExtractSize").value)
  {
    if rows == [] then Ok([])
    else
      var encodedSize :- IntColumn(rows[0], "FileSize");
      var size :- IntColumn(rows[0], "ExtractSize");
      var rest :- NumberedStaging(rows[1..], first + 1);
      assert forall i :: 1 <= i < |rows| ==> rows[i] == rows[1..][i - 1];
      Ok([StagingEntry(first, encodedSize, size)] + rest)
  }

  /** Mode 2 as written: an archive without files fails on the transposition. */
  function Mode2StagingAsWritten(file: seq<byte>, header: Row, decode: seq<byte> -> Option<Table>): (r: Result<seq<StagingEntry>, ReaderError>)
    ensures Mode2Pairs(file, header, decode) == Ok([]) ==> r == Err(EmptyTranspose)
  {
    var pairs :- Mode2Pairs(file, header, decode);
    var rows :- TransposedRows(pairs);
    NumberedStaging(rows, 0)
  }

  /** Mode 2: the TOC rows in ITOC id order, numbered 0, 1, ... as their ids. */
  function Mode2Staging(file: seq<byte>, header: Row, decode: seq<byte> -> Option<Table>): (r: Result<seq<StagingEntry>, ReaderError>)
    ensures r.Ok? ==> forall i :: 0 <= i < |r.value| ==> r.value[i].id == i
    ensures Mode2Pairs(file, header, decode) == Ok([]) ==> r == Ok([])
  {
    var pairs :- Mode2Pairs(file, header, decode);
    NumberedStaging(SecondColumn(pairs), 0)
  }

  /** Mode 2 as written and as corrected agree on every archive that holds a file. */
  lemma Mode2Agrees(file: seq<byte>, header: Row, decode: seq<byte> -> Option<Table>)
    requires !(Mode2Pairs(file, header, decode) == Ok([]))
    ensures Mode2StagingAsWritten(file, header, decode) == Mode2Staging(file, header, decode)
  {
  }

  /** The files the header's mode calls for; an empty ITOC and any mode but 0 and 2 are not implemented. */
  function StagingOf(file: seq<byte>, header: Row, decode: seq<byte> -> Option<Table>): (r: Result<seq<StagingEntry>, ReaderError>)
    ensures "ItocSize" in header && header["ItocSize"] == Int(0) ==> r == Err(NotImplemented)
    ensures "ItocSize" in header && header["ItocSize"] != Int(0) && "CpkMode" in header ==>
      (header["CpkMode"] != Int(0) && header["CpkMode"] != Int(2) ==> r == Err(NotImplemented))
    ensures "ItocSize" in header && header["ItocSize"] != Int(0) && "CpkMode" in header ==>
      (header["CpkMode"] == Int(0) ==> r == Mode0Staging(file, header, decode))
    ensures "ItocSize" in header && header["ItocSize"] != Int(0) && "CpkMode" in header ==>
      (header["CpkMode"] == Int(2) ==> r == Mode2Staging(file, header, decode))
    ensures "ItocSize" !in header ==> r == Err(Field(MissingColumn("ItocSize")))
  {
    if "ItocSize" !in header then Err(Field(MissingColumn("ItocSize")))
    else if header["ItocSize"] == Int(0) then Err(NotImplemented)
    else if "CpkMode" !in header then Err(Field(MissingColumn("CpkMode")))
    else if header["CpkMode"] == Int(0) then Mode0Staging(file, header, decode)
    else if header["CpkMode"] == Int(2) then Mode2Staging(file, header, decode)
    else Err(NotImplemented)
  }

  // ---- placing the files ----

  /** Where the next file may start once the files of `s` are placed from `start`. */
  function Next(s: seq<StagingEntry>, alignment: int, start: int): int
    requires alignment != 0
  {
    if s == [] then start
    else Aligned(Next(s[..|s| - 1], alignment, start), alignment) + s[|s| - 1].encodedSize
  }

  /** The range of each file of `s`: at the aligned position after the file before it. */
  function Ranges(s: seq<StagingEntry>, alignment: int, start: int): (r: seq<Range>)
    requires alignment != 0
    ensures |r| == |s|
    ensures forall i :: 0 <= i < |s| ==> r[i].encodedSize == s[i].encodedSize && r[i].size == s[i].size
  {
    if s == [] then []
    else
      var init := s[..|s| - 1];
      var last := s[|s| - 1];
      Ranges(init, alignment, start) + [Range(Aligned(Next(init, alignment, start), alignment), last.encodedSize, last.size)]
  }

  /** The entries: position i holds index i and the id of file i. */
  function EntriesOf(s: seq<StagingEntry>): (r: seq<Entry>)
    ensures |r| == |s| && forall i :: 0 <= i < |s| ==> r[i] == Entry(i, s[i].id)
  {
    if s == [] then [] else EntriesOf(s[..|s| - 1]) + [Entry(|s| - 1, s[|s| - 1].id)]
  }

  /** `_by_id` after the loop: each file recorded under its id, a later file replacing an earlier one. */
  function ById(s: seq<StagingEntry>): map<int, Entry> {
    if s == [] then map[]
    else ById(s[..|s| - 1])[s[|s| - 1].id := Entry(|s| - 1, s[|s| - 1].id)]
  }

  /** Every id of the files is recorded, with the entry of the last file that has it. */
  lemma {:induction false} ByIdLast(s: seq<StagingEntry>)
    ensures forall i :: 0 <= i < |s| ==> s[i].id in ById(s)
    ensures forall id :: id in ById(s) ==> ById(s)[id].id == id && ById(s)[id].index < |s| && s[ById(s)[id].index].id == id
    ensures forall id, j :: id in ById(s) && ById(s)[id].index < j < |s| ==> s[j].id != id
  {
    if s != [] {
      var init := s[..|s| - 1];
      ByIdLast(init);
      ByIdStep(init, s, ById(init), ById(s));
    }
  }

  /** Recording one more file keeps `ById`'s promises. */
  lemma ByIdStep(init: seq<StagingEntry>, s: seq<StagingEntry>, m: map<int, Entry>, r: map<int, Entry>)
    requires s != [] && s == init + [s[|s| - 1]] && r == m[s[|s| - 1].id := Entry(|init|, s[|s| - 1].id)]
    requires forall i :: 0 <= i < |init| ==> init[i].id in m
    requires forall id :: id in m ==> m[id].id == id && m[id].index < |init| && init[m[id].index].id == id
    requires forall id, j :: id in m && m[id].index < j < |init| ==> init[j].id != id
    ensures forall i :: 0 <= i < |s| ==> s[i].id in r
    ensures forall id :: id in r ==> r[id].id == id && r[id].index < |s| && s[r[id].index].id == id
    ensures forall id, j :: id in r && r[id].index < j < |s| ==> s[j].id != id
  {
  }

  /** The layout as the header's Align and ContentOffset give it; mistyped values matter only once a file is placed. */
  function PlaceFiles(header: Row, staging: seq<StagingEntry>): (r: Result<Info, ReaderError>)
    ensures "Align" in header && "ContentOffset" in header && staging == [] ==> r == Ok(Info([], [], map[]))
    ensures staging != [] && "ContentOffset" in header && header["ContentOffset"].Int? ==>
      ("Align" in header && header["Align"] == Int(0) ==> r == Err(ZeroDivision))
    ensures r.Ok? ==>
      |r.value.ranges| == |staging| && r.value.entries == EntriesOf(staging) && r.value.byId == ById(staging)
    ensures r.Ok? && staging != [] ==>
      IntColumn(header, "Align").Ok? && IntColumn(header, "Align").value != 0 && IntColumn(header, "ContentOffset").Ok?
    ensures r.Ok? && staging != [] ==>
      r.value.ranges == Ranges(staging, IntColumn(header, "Align").value, IntColumn(header, "ContentOffset").value)
  {
    if "Align" !in header then Err(Field(MissingColumn("Align")))
    else if "ContentOffset" !in header then Err(Field(MissingColumn("ContentOffset")))
    else if staging == [] then Ok(Info([], [], map[]))
    else if !header["ContentOffset"].Int? then Err(Field(NotAnInteger("ContentOffset")))
    else if !header["Align"].Int? then Err(Field(NotAnInteger("Align")))
    else if header["Align"].n == 0 then Err(ZeroDivision)
    else
      var alignment := header["Align"].n;
      var start := header["ContentOffset"].n;
      Ok(Info(Ranges(staging, alignment, start), EntriesOf(staging), ById(staging)))
  }

  /** `_read_info` as a whole: the header, the files of its mode, and their places. */
  function InfoSpec(file: seq<byte>, decode: seq<byte> -> Option<Table>): (r: Result<Info, ReaderError>)
    ensures r.Ok? ==> ReadHeader(file, decode).Ok? && StagingOf(file, ReadHeader(file, decode).value, decode).Ok?
    ensures r.Ok? ==> |r.value.ranges| == |r.value.entries|
    ensures r.Ok? ==> forall i :: 0 <= i < |r.value.entries| ==> r.value.entries[i].index == i
    ensures r.Ok? ==> forall id :: id in r.value.byId ==>
      r.value.byId[id].index < |r.value.entries| && r.value.entries[r.value.byId[id].index] == r.value.byId[id]
  {
    var header :- ReadHeader(file, decode);
    var staging :- StagingOf(file, header, decode);
    ByIdLast(staging);
    PlaceFiles(header, staging)
  }

  /** Placing file i after the files before it, as the loop of `_read_info` does. */
  lemma PlaceStep(s: seq<StagingEntry>, i: nat, alignment: int, start: int,
                  offset: int, placed: seq<Range>, listed: seq<Entry>, byId: map<int, Entry>)
    requires i < |s| && alignment != 0
    requires offset == Next(s[..i], alignment, start) && placed == Ranges(s[..i], alignment, start)
    requires listed == EntriesOf(s[..i]) && byId == ById(s[..i])
    ensures Next(s[..i + 1], alignment, start) == offset + PyMod(-offset, alignment) + s[i].encodedSize
    ensures Ranges(s[..i + 1], alignment, start)
      == placed + [Range(offset + PyMod(-offset, alignment), s[i].encodedSize, s[i].size)]
    ensures EntriesOf(s[..i + 1]) == listed + [Entry(|placed|, s[i].id)]
    ensures ById(s[..i + 1]) == byId[s[i].id := Entry(|placed|, s[i].id)]
  {
    AlignedStep(offset, alignment);
    NextStep(s, i, alignment, start);
    RangesStep(s, i, alignment, start);
    EntriesStep(s, i);
    ByIdAt(s, i);
  }

  lemma NextStep(s: seq<StagingEntry>, i: nat, alignment: int, start: int)
    requires i < |s| && alignment != 0
    ensures Next(s[..i + 1], alignment, start) == Aligned(Next(s[..i], alignment, start), alignment) + s[i].encodedSize
  {
    assert s[..i + 1][..i] == s[..i];
  }

  lemma RangesStep(s: seq<StagingEntry>, i: nat, alignment: int, start: int)
    requires i < |s| && alignment != 0
    ensures Ranges(s[..i + 1], alignment, start)
      == Ranges(s[..i], alignment, start) + [Range(Aligned(Next(s[..i], alignment, start), alignment), s[i].encodedSize, s[i].size)]
  {
    assert s[..i + 1][..i] == s[..i];
  }

  lemma EntriesStep(s: seq<StagingEntry>, i: nat)
    requires i < |s|
    ensures EntriesOf(s[..i + 1]) == EntriesOf(s[..i]) + [Entry(i, s[i].id)]
  {
    assert s[..i + 1][..i] == s[..i];
  }

  lemma ByIdAt(s: seq<StagingEntry>, i: nat)
    requires i < |s|
    ensures ById(s[..i + 1]) == ById(s[..i])[s[i].id := Entry(i, s[i].id)]
  {
    assert s[..i + 1][..i] == s[..i];
  }

  /** Placed files are aligned, start at or after `start`, and do not overlap. */
  lemma {:induction false} RangesPlaced(s: seq<StagingEntry>, alignment: int, start: int)
    requires alignment > 0 && forall i :: 0 <= i < |s| ==> s[i].encodedSize >= 0
    ensures start <= Next(s, alignment, start)
    ensures forall i :: 0 <= i < |s| ==> Ranges(s, alignment, start)[i].offset % alignment == 0
    ensures forall i :: 0 <= i < |s| ==> start <= Ranges(s, alignment, start)[i].offset
    ensures forall i :: 0 <= i < |s| ==>
      Ranges(s, alignment, start)[i].offset + s[i].encodedSize <= Next(s, alignment, start)
    ensures forall i, j :: 0 <= i < j < |s| ==>
      Ranges(s, alignment, start)[i].offset + s[i].encodedSize <= Ranges(s, alignment, start)[j].offset
  {
    if s != [] {
      var init := s[..|s| - 1];
      RangesPlaced(init, alignment, start);
      var r := Ranges(s, alignment, start);
      var ri := Ranges(init, alignment, start);
      assert r == ri + [r[|s| - 1]];
      forall i | 0 <= i < |init| ensures r[i] == ri[i] && s[i] == init[i] {}
    }
  }

  /** The writer's files as the reader stages them: FileSize and ExtractSize are both the size. */
  function Staged(s: seq<CpkWriter.StagingToc>): (r: seq<StagingEntry>)
    ensures |r| == |s| && forall i :: 0 <= i < |s| ==> r[i] == StagingEntry(s[i].id, s[i].size, s[i].size)
  {
    seq(|s|, i requires 0 <= i < |s| => StagingEntry(s[i].id, s[i].size, s[i].size))
  }

  /** Placed files lose their last one to files placed up to where it starts. */
  lemma {:induction false} PlacedInit(s: seq<CpkWriter.StagingToc>, start: nat, alignment: nat, end: nat) returns (m: nat)
    requires alignment > 0 && s != [] && CpkWriter.Placed(s, start, alignment, end)
    ensures CpkWriter.Placed(s[..|s| - 1], start, alignment, m)
    ensures s[|s| - 1].offset == CpkWriter.AlignUp(m, alignment) && end == s[|s| - 1].offset + s[|s| - 1].size
    decreases |s|
  {
    if |s| == 1 {
      m := start;
      assert s[..0] == [];
    } else {
      var rest := s[1..];
      m := PlacedInit(rest, s[0].offset + s[0].size, alignment, end);
      assert s[..|s| - 1] == [s[0]] + rest[..|rest| - 1];
      assert s[..|s| - 1][1..] == rest[..|rest| - 1];
    }
  }

  /**
   * When the files were written in the order the reader walks them, the
   * reader finds each one where the writer put it.
   */
  lemma {:induction false} ReaderFindsWrittenFiles(s: seq<CpkWriter.StagingToc>, start: nat, alignment: nat, end: nat)
    requires alignment > 0 && CpkWriter.Placed(s, start, alignment, end)
    ensures Next(Staged(s), alignment, start) == end
    ensures forall i :: 0 <= i < |s| ==> Ranges(Staged(s), alignment, start)[i] == Range(s[i].offset, s[i].size, s[i].size)
    decreases |s|
  {
    if s != [] {
      var init := s[..|s| - 1];
      var last := s[|s| - 1];
      var m := PlacedInit(s, start, alignment, end);
      ReaderFindsWrittenFiles(init, start, alignment, m);
      var t := Staged(s);
      var ti := Staged(init);
      assert t[..|s| - 1] == ti by {
        forall k | 0 <= k < |init| ensures t[k] == ti[k] {}
      }
      LastPlaced(t, ti, alignment, start, m, last);
      forall i | 0 <= i < |s| ensures Ranges(t, alignment, start)[i] == Range(s[i].offset, s[i].size, s[i].size) {
        if i < |init| {
          assert Ranges(t, alignment, start)[i] == Ranges(ti, alignment, start)[i];
        }
      }
    }
  }

  /** The last file of `t` lands at the aligned end of the ones before it. */
  lemma LastPlaced(t: seq<StagingEntry>, ti: seq<StagingEntry>, alignment: nat, start: int, m: nat, last: CpkWriter.StagingToc)
    requires alignment > 0 && t != [] && t[..|t| - 1] == ti && Next(ti, alignment, start) == m
    requires t[|t| - 1] == StagingEntry(last.id, last.size, last.size) && last.offset == CpkWriter.AlignUp(m, alignment)
    ensures Next(t, alignment, start) == last.offset + last.size
    ensures Ranges(t, alignment, start) == Ranges(ti, alignment, start) + [Range(last.offset, last.size, last.size)]
  {
    assert Aligned(m, alignment) == last.offset by {
      AlignedStep(m, alignment);
      PyModIsMod(-(m as int), alignment);
    }
  }

  // ---- the reader ----

  class Reader {
    const file: seq<byte>
    var ranges: seq<Range>
    var entries: seq<Entry>
    var byId: map<int, Entry>

    constructor (file: seq<byte>)
      ensures this.file == file && ranges == [] && entries == [] && byId == map[]
    {
      this.file := file;
      ranges, entries, byId := [], [], map[];
    }

    /** `Reader(fp)`: an archive opened and indexed, or the error that stops it. */
    static method Open(file: seq<byte>, decode: seq<byte> -> Option<Table>) returns (r: Result<Reader, ReaderError>)
      ensures r.Err? <==> InfoSpec(file, decode).Err?
      ensures r.Err? ==> r.error == InfoSpec(file, decode).error
      ensures r.Ok? ==> fresh(r.value) && r.value.file == file
      ensures r.Ok? ==> InfoSpec(file, decode).value == Info(r.value.ranges, r.value.entries, r.value.byId)
    {
      var reader := new Reader(file);
      var info := reader.ReadInfo(decode);
      if info.Err? {
        return Err(info.error);
      }
      return Ok(reader);
    }

    /** `_read_info`: reads the header and the index tables, then places the files one by one. */
    method ReadInfo(decode: seq<byte> -> Option<Table>) returns (r: Result<(), ReaderError>)
      modifies this
      ensures r.Err? <==> InfoSpec(file, decode).Err?
      ensures r.Err? ==> r.error == InfoSpec(file, decode).error
      ensures r.Ok? ==> InfoSpec(file, decode).value == Info(ranges, entries, byId)
    {
      var header :- ReadHeader(file, decode);
      var staging :- StagingOf(file, header, decode);
      byId := map[];
      if "Align" !in header {
        return Err(Field(MissingColumn("Align")));
      }
      if "ContentOffset" !in header {
        return Err(Field(MissingColumn("ContentOffset")));
      }
      if staging == [] {
        ranges, entries := [], [];
        return Ok(());
      }
      if !header["ContentOffset"].Int? {
        return Err(Field(NotAnInteger("ContentOffset")));
      }
      if !header["Align"].Int? {
        return Err(Field(NotAnInteger("Align")));
      }
      var alignment := header["Align"].n;
      var start := header["ContentOffset"].n;
      if alignment == 0 {
        return Err(ZeroDivision);
      }
      ranges, entries, byId := PlaceAll(staging, alignment, start);
      return Ok(());
    }

    /** The loop of `_read_info`: each file at the aligned position after the one before, recorded by index and by id. */
    static method PlaceAll(staging: seq<StagingEntry>, alignment: int, start: int)
      returns (placed: seq<Range>, listed: seq<Entry>, recorded: map<int, Entry>)
      requires alignment != 0
      ensures placed == Ranges(staging, alignment, start)
      ensures listed == EntriesOf(staging) && recorded == ById(staging)
    {
      placed, listed, recorded := [], [], map[];
      var offset := start;
      for i := 0 to |staging|
        invariant offset == Next(staging[..i], alignment, start)
        invariant placed == Ranges(staging[..i], alignment, start)
        invariant listed == EntriesOf(staging[..i])
        invariant recorded == ById(staging[..i])
      {
        PlaceStep(staging, i, alignment, start, offset, placed, listed, recorded);
        offset := offset + PyMod(-offset, alignment);
        var index := |placed|;
        placed := placed + [Range(offset, staging[i].encodedSize, staging[i].size)];
        var entry := Entry(index, staging[i].id);
        listed := listed + [entry];
        recorded := recorded[staging[i].id := entry];
        offset := offset + staging[i].encodedSize;
      }
      assert staging[..|staging|] == staging;
    }

    /** `get_by_id`: the entry recorded for an id, or a KeyError. */
    function GetById(id: int): (r: Result<Entry, ReaderError>)
      reads this
      ensures r.Ok? <==> id in byId
      ensures r.Ok? ==> r.value == byId[id]
      ensures r.Err? ==> r.error == UnknownId(id)
    {
      if id in byId then Ok(byId[id]) else Err(UnknownId(id))
    }

    /** `read_file`: the stored bytes of the file at `index`, decompressed when the two sizes differ. */
    method ReadFile(index: int) returns (r: Result<seq<byte>, ReaderError>)
      ensures r == ReadFileSpec(file, ranges, index)
    {
      if !(-|ranges| <= index < |ranges|) {
        return Err(IndexOutOfRange(index));
      }
      var entry := ranges[Position(ranges, index)];
      if entry.offset < 0 || entry.encodedSize < 0 {
        return Err(NegativeSeek);
      }
      var raw := ReadAt(file, entry.offset, entry.encodedSize);
      if raw.None? {
        return Err(ShortRead);
      }
      var data := raw.value;
      if entry.encodedSize != entry.size {
        var decoded := Crilayla.Decode(data);
        if decoded.Err? {
          return Err(Layla(decoded.error));
        }
        data := decoded.value;
        if |data| != entry.size {
          return Err(SizeMismatch);
        }
      }
      return Ok(data);
    }
  }

  /** Python indexing: a negative index counts from the end. */
  function Position<T>(s: seq<T>, index: int): (p: nat)
    requires -|s| <= index < |s|
    ensures p < |s| && (index >= 0 ==> p == index) && (index < 0 ==> p == |s| + index)
  {
    if index < 0 then index + |s| else index
  }

  /**
   * What `read_file` returns: Python indexing (a negative index counts from
   * the end); stored bytes as they are when both sizes agree, otherwise
   * their CRILAYLA decoding, which must be exactly `size` long.
   */
  function ReadFileSpec(file: seq<byte>, ranges: seq<Range>, index: int): (r: Result<seq<byte>, ReaderError>)
    ensures !(-|ranges| <= index < |ranges|) ==> r == Err(IndexOutOfRange(index))
    ensures r.Ok? ==> -|ranges| <= index < |ranges|
    ensures r.Ok? ==> |r.value| == ranges[Position(ranges, index)].size
    ensures r.Ok? ==>
      (ranges[Position(ranges, index)].encodedSize == ranges[Position(ranges, index)].size ==>
        0 <= ranges[Position(ranges, index)].offset
        && ranges[Position(ranges, index)].offset + ranges[Position(ranges, index)].size <= |file|
        && r.value == file[ranges[Position(ranges, index)].offset..ranges[Position(ranges, index)].offset + ranges[Position(ranges, index)].size])
  {
    if !(-|ranges| <= index < |ranges|) then Err(IndexOutOfRange(index))
    else
      var e := ranges[Position(ranges, index)];
      if e.offset < 0 || e.encodedSize < 0 then Err(NegativeSeek)
      else
        match ReadAt(file, e.offset, e.encodedSize)
        case None => Err(ShortRead)
        case Some(raw) =>
          if e.encodedSize == e.size then Ok(raw)
          else
            match Crilayla.DecodeSpec(raw)
            case Err(err) => Err(Layla(err))
            case Ok(data) => if |data| != e.size then Err(SizeMismatch) else Ok(data)
  }

  /**
   * An archive closed by the writer opens in mode 2: the reader finds the
   * header row the writer built and the TOC and ITOC tables where the
   * header says they are, provided the table codec round-trips.
   */
  lemma ClosedArchiveReadBack(file: seq<byte>, l: CpkWriter.Layout, toc: Table, itoc: Table, encrypted: bool,
                              encode: Table -> seq<byte>, decode: seq<byte> -> Option<Table>)
    requires 16 + |encode(CpkWriter.HeaderTable(l))| <= BODY_OFFSET
    requires |encode(toc)| < CpkWriter.LENGTH_LIMIT && |encode(itoc)| < CpkWriter.LENGTH_LIMIT
    requires l.tocSize == 16 + |encode(toc)| && l.itocSize == 16 + |encode(itoc)|
    requires CpkWriter.ClosedFile(file, CpkWriter.Chunk(CpkWriter.CPK_TAG, encode(CpkWriter.HeaderTable(l)), encrypted).value,
                                  l.tocOffset, CpkWriter.Chunk(CpkWriter.TOC_TAG, encode(toc), encrypted).value,
                                  l.itocOffset, CpkWriter.Chunk(CpkWriter.ITOC_TAG, encode(itoc), encrypted).value)
    requires decode(encode(CpkWriter.HeaderTable(l))) == Some(CpkWriter.HeaderTable(l))
    requires decode(encode(toc)) == Some(toc) && decode(encode(itoc)) == Some(itoc)
    ensures ReadHeader(file, decode) == Ok(CpkWriter.HeaderRow(l))
    ensures ReadSpanTable(file, l.tocOffset, l.tocSize, CpkWriter.TOC_TAG, decode) == Ok(toc)
    ensures ReadSpanTable(file, l.itocOffset, l.itocSize, CpkWriter.ITOC_TAG, decode) == Ok(itoc)
    ensures StagingOf(file, CpkWriter.HeaderRow(l), decode) == Mode2Staging(file, CpkWriter.HeaderRow(l), decode)
  {
    var data := encode(CpkWriter.HeaderTable(l));
    assert ReadTable(file, CpkWriter.CPK_TAG, decode) == Ok(CpkWriter.HeaderTable(l)) by {
      HeadReadBack(file, data, encrypted, CpkWriter.CPK_TAG, decode);
    }
    SpanReadBack(file, l.tocOffset, encode(toc), encrypted, CpkWriter.TOC_TAG, decode);
    SpanReadBack(file, l.itocOffset, encode(itoc), encrypted, CpkWriter.ITOC_TAG, decode);
    HeaderRowMode(l);
  }

  /** The header row the writer builds names a non-empty ITOC and mode 2. */
  lemma HeaderRowMode(l: CpkWriter.Layout)
    requires l.itocSize > 0
    ensures "ItocSize" in CpkWriter.HeaderRow(l) && CpkWriter.HeaderRow(l)["ItocSize"] == Int(l.itocSize)
    ensures "CpkMode" in CpkWriter.HeaderRow(l) && CpkWriter.HeaderRow(l)["CpkMode"] == Int(2)
  {
  }
}
