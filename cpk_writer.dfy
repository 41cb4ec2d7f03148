/**
 * The CPK archive writer (lib/cri/cpk/writer.py). Files are written one
 * after another from BODY_OFFSET on, each at the next multiple of the
 * alignment; closing the archive writes the TOC (files sorted by name) and
 * the ITOC (ids sorted, each pointing at its TOC row) after the contents and
 * then the header table into the area before BODY_OFFSET.
 */
module CpkWriter {
  import opened Wrappers
  import opened Bytes
  import opened CpkCommon
  import opened Utf
  import PyText
  import Sorting

  datatype WriterError =
    | DuplicateId(id: int)
    | DuplicateName(name: string)
    | InvalidChunkName(tag: seq<byte>)
    | ValueTooLarge           // a chunk longer than an 8-byte length can say
    | InfoTooLarge            // the header chunk does not fit before BODY_OFFSET

  const FORMAT_VERSION: int := 7
  const FORMAT_REVISION: int := 14

  /** A file as `write_file` records it: where its contents start and how long they are. */
  datatype StagingToc = StagingToc(id: int, name: string, offset: nat, size: nat)

  /** An id and the position of its file in the name-sorted TOC. */
  datatype StagingItoc = StagingItoc(id: int, index: nat)

  // ---- alignment ----

  /** `x % d` for a positive `d`, by repeated addition or subtraction of `d`. */
  function Mod(x: int, d: nat): (r: nat)
    requires d > 0
    ensures r < d
    decreases if x < 0 then d - x else x
  {
    if x < 0 then Mod(x + d, d) else if x < d then x else Mod(x - d, d)
  }

  lemma {:induction false} ModIsRemainder(x: int, d: nat)
    requires d > 0
    ensures Mod(x, d) == x % d
    decreases if x < 0 then d - x else x
  {
    var q := x / d;
    assert x == d * q + x % d;
    if x < 0 {
      ModIsRemainder(x + d, d);
      assert x + d == d * (q + 1) + x % d;
      DivModUniqueInt(x + d, d, q + 1, x % d);
    } else if x >= d {
      ModIsRemainder(x - d, d);
      assert x - d == d * (q - 1) + x % d;
      DivModUniqueInt(x - d, d, q - 1, x % d);
    } else {
      DivModUniqueInt(x, d, 0, x);
    }
  }

  /** `-pos % alignment`: the padding that `_align` writes at `pos`. */
  function Padding(pos: nat, alignment: nat): (r: nat)
    requires alignment > 0
    ensures r < alignment
  {
    Mod(-(pos as int), alignment)
  }

  lemma PaddingAligns(pos: nat, alignment: nat)
    requires alignment > 0
    ensures (pos + Padding(pos, alignment)) % alignment == 0
  {
    var negated: int := -(pos as int);
    ModIsRemainder(negated, alignment);
    var r := negated % alignment;
    var q := negated / alignment;
    assert pos + r == alignment * -q;
    DivModUnique(pos + r, alignment, -q, 0);
  }

  /** Where `_align` leaves the position. */
  function AlignUp(pos: nat, alignment: nat): nat
    requires alignment > 0
  {
    pos + Padding(pos, alignment)
  }

  /** `AlignUp` is the least multiple of the alignment at or after `pos`. */
  lemma AlignUpLeast(pos: nat, alignment: nat, m: nat)
    requires alignment > 0 && m >= pos && m % alignment == 0
    ensures pos <= AlignUp(pos, alignment) <= m
    ensures AlignUp(pos, alignment) % alignment == 0
  {
    var up := AlignUp(pos, alignment);
    PaddingAligns(pos, alignment);
    if up > m {
      MultiplesApart(alignment, m, up);
    }
  }

  // ---- the order in which files were placed ----

  /**
   * The files of `s` lie one after another from `start`: each at the next
   * multiple of the alignment after the end of the one before, the last
   * ending at `end`.
   */
  ghost predicate Placed(s: seq<StagingToc>, start: nat, alignment: nat, end: nat)
    requires alignment > 0
    decreases |s|
  {
    if s == [] then start == end
    else s[0].offset == AlignUp(start, alignment) && Placed(s[1..], s[0].offset + s[0].size, alignment, end)
  }

  lemma {:induction false} PlacedSnoc(s: seq<StagingToc>, start: nat, alignment: nat, end: nat, e: StagingToc)
    requires alignment > 0 && Placed(s, start, alignment, end) && e.offset == AlignUp(end, alignment)
    ensures Placed(s + [e], start, alignment, e.offset + e.size)
    decreases |s|
  {
    if s != [] {
      assert (s + [e])[1..] == s[1..] + [e];
      PlacedSnoc(s[1..], s[0].offset + s[0].size, alignment, end, e);
    }
  }

  /**
   * Placed files are aligned, start at or after `start`, end by `end`, and
   * a file placed earlier ends before a later one begins.
   */
  lemma {:induction false} PlacedLayout(s: seq<StagingToc>, start: nat, alignment: nat, end: nat)
    requires alignment > 0 && Placed(s, start, alignment, end)
    ensures start <= end
    ensures forall i :: 0 <= i < |s| ==>
      s[i].offset % alignment == 0 && start <= s[i].offset && s[i].offset + s[i].size <= end
    ensures forall i, j :: 0 <= i < j < |s| ==> s[i].offset + s[i].size <= s[j].offset
    ensures Within(s, start, end)
    decreases |s|
  {
    if s != [] {
      var next := s[0].offset + s[0].size;
      PlacedLayout(s[1..], next, alignment, end);
      PaddingAligns(start, alignment);
      forall i | 0 < i < |s| ensures s[i] == s[1..][i - 1] {}
    }
  }

  /** The contents of every placed file can be read back where it was placed. */
  ghost predicate Stored(file: seq<byte>, s: seq<StagingToc>, contents: seq<seq<byte>>) {
    |contents| == |s|
    && forall i :: 0 <= i < |s| ==>
      |contents[i]| == s[i].size
      && (contents[i] != [] ==> ReadAt(file, s[i].offset, s[i].size) == Some(contents[i]))
  }

  ghost function NameSet(s: seq<StagingToc>): set<string> {
    set i | 0 <= i < |s| :: s[i].name
  }

  ghost predicate DistinctNames(s: seq<StagingToc>) {
    forall i, j :: 0 <= i < j < |s| ==> s[i].name != s[j].name
  }

  // ---- chunks ----

  const CPK_TAG: seq<byte> := [0x43, 0x50, 0x4B, 0x20]   // "CPK "
  const TOC_TAG: seq<byte> := [0x54, 0x4F, 0x43, 0x20]   // "TOC "
  const ITOC_TAG: seq<byte> := [0x49, 0x54, 0x4F, 0x43]  // "ITOC"

  /** One more than the largest length an 8-byte field holds. */
  const LENGTH_LIMIT: nat := 0x1_0000_0000_0000_0000

  lemma Pow2Of32()
    ensures Pow2(32) == 0x1_0000_0000
  {
    Pow2Add(16, 16);
    Pow2Add(8, 8);
    assert Pow2(8) == 256;
  }

  lemma Pow2Of64()
    ensures Pow2(64) == LENGTH_LIMIT
  {
    Pow2Of32();
    Pow2Add(32, 32);
  }

  /** The flag word: 0 for an encrypted chunk, 0xFF for a plain one. */
  function ChunkFlag(encrypted: bool): (r: seq<byte>)
    ensures |r| == 4
  {
    LeBytes(if encrypted then 0 else 0xFF, 4)
  }

  /** The flag word reads back as the number it encodes. */
  lemma ChunkFlagValue(encrypted: bool)
    ensures LeValue(ChunkFlag(encrypted)) == if encrypted then 0 else 0xFF
  {
    Pow2Of32();
    LeRoundTrip(if encrypted then 0 else 0xFF, 4);
  }

  /**
   * A chunk: its four-byte name, the flag word, the length of the plain
   * data as 8 little-endian bytes, then the data, enciphered when the
   * chunk is encrypted.
   */
  function Chunk(name: seq<byte>, data: seq<byte>, encrypted: bool): (r: Result<seq<byte>, WriterError>)
    ensures r.Ok? <==> |name| == 4 && |data| < LENGTH_LIMIT
    ensures |name| != 4 ==> r == Err(InvalidChunkName(name))
    ensures |name| == 4 && r.Err? ==> r.error == ValueTooLarge
    ensures r.Ok? ==> |r.value| == 16 + |data|
  {
    if |name| != 4 then Err(InvalidChunkName(name))
    else if |data| >= LENGTH_LIMIT then Err(ValueTooLarge)
    else
      var body := if encrypted then CryptSpec(data) else data;
      Ok(name + ChunkFlag(encrypted) + LeBytes(|data|, 8) + body)
  }

  /** The fields of a chunk, each where a reader looks for it. */
  lemma ChunkFields(name: seq<byte>, data: seq<byte>, encrypted: bool)
    requires |name| == 4 && |data| < LENGTH_LIMIT
    ensures var c := Chunk(name, data, encrypted).value;
      && c[..4] == name
      && c[4..8] == ChunkFlag(encrypted)
      && LeValue(c[8..16]) == |data|
      && c[16..] == (if encrypted then CryptSpec(data) else data)
  {
    Pow2Of64();
    var length := LeBytes(|data|, 8);
    LeRoundTrip(|data|, 8);
    var c := Chunk(name, data, encrypted).value;
    assert c[8..16] == length;
  }

  // ---- the tables written by close ----

  /** The TOC order: by file name, compared code point by code point. */
  predicate ByName(a: StagingToc, b: StagingToc) {
    PyText.LexLe(a.name, b.name)
  }

  /** The ITOC order: by id. */
  predicate ById(a: StagingItoc, b: StagingItoc) {
    a.id <= b.id
  }

  /** Python's string order on file names is a total preorder, so sorting by it orders the TOC. */
  lemma ByNameTotalPreorder()
    ensures Sorting.TotalPreorder(ByName)
  {
    forall a: StagingToc, b: StagingToc ensures ByName(a, b) || ByName(b, a) {
      PyText.LexLeTotal(a.name, b.name);
    }
    forall a: StagingToc, b: StagingToc, c: StagingToc | ByName(a, b) && ByName(b, c)
      ensures ByName(a, c)
    {
      PyText.LexLeTransitive(a.name, b.name, c.name);
    }
  }

  /** `sorted(staging, key=name)`: the staged files rearranged in file-name order. */
  function SortedToc(s: seq<StagingToc>): (r: seq<StagingToc>)
    ensures multiset(r) == multiset(s) && |r| == |s|
    ensures Sorting.SortedBy(r, ByName)
  {
    ByNameTotalPreorder();
    Sorting.SortBySorted(s, ByName);
    Sorting.SortBy(s, ByName)
  }

  /** Each file's id with its position in the TOC, in TOC order. */
  function IndexedItoc(toc: seq<StagingToc>): (r: seq<StagingItoc>)
    ensures |r| == |toc|
    ensures forall i :: 0 <= i < |toc| ==> r[i] == StagingItoc(toc[i].id, i)
  {
    seq(|toc|, i requires 0 <= i < |toc| => StagingItoc(toc[i].id, i))
  }

  /** `sorted(staging_itoc, key=id)`: the (id, TOC position) pairs rearranged in id order. */
  function SortedItoc(toc: seq<StagingToc>): (r: seq<StagingItoc>)
    ensures multiset(r) == multiset(IndexedItoc(toc)) && |r| == |toc|
    ensures Sorting.SortedBy(r, ById)
  {
    Sorting.SortBySorted(IndexedItoc(toc), ById);
    Sorting.SortBy(IndexedItoc(toc), ById)
  }

  /** A file's TOC row: stored uncompressed (both sizes are its length), at its offset from the body start. */
  function TocRow(e: StagingToc): (r: Row)
    ensures "FileSize" in r && "ExtractSize" in r && r["FileSize"] == r["ExtractSize"] == Int(e.size)
    ensures "FileOffset" in r && r["FileOffset"] == Int(e.offset - BODY_OFFSET)
    ensures "ID" in r && r["ID"] == Int(e.id) && "FileName" in r && r["FileName"] == Chars(e.name)
  {
    map[
      "DirName" := Chars(""),
      "FileName" := Chars(e.name),
      "FileSize" := Int(e.size),
      "ExtractSize" := Int(e.size),
      "FileOffset" := Int(e.offset - BODY_OFFSET),
      "ID" := Int(e.id),
      "UserString" := Chars("")
    ]
  }

  /** An ITOC row: an id and the position of its file's row in the TOC. */
  function ItocRow(e: StagingItoc): (r: Row)
    ensures r.Keys == {"ID", "TocIndex"} && r["ID"] == Int(e.id) && r["TocIndex"] == Int(e.index)
  {
    map["ID" := Int(e.id), "TocIndex" := Int(e.index)]
  }

  function TocRows(toc: seq<StagingToc>): (r: seq<Row>)
    ensures |r| == |toc| && forall i :: 0 <= i < |toc| ==> r[i] == TocRow(toc[i])
  {
    seq(|toc|, i requires 0 <= i < |toc| => TocRow(toc[i]))
  }

  function ItocRows(itoc: seq<StagingItoc>): (r: seq<Row>)
    ensures |r| == |itoc| && forall i :: 0 <= i < |itoc| ==> r[i] == ItocRow(itoc[i])
  {
    seq(|itoc|, i requires 0 <= i < |itoc| => ItocRow(itoc[i]))
  }

  function TotalSize(s: seq<StagingToc>): nat {
    if s == [] then 0 else s[0].size + TotalSize(s[1..])
  }

  /** Where the header says everything is. */
  datatype Layout = Layout(
    contentOffset: nat, contentSize: nat,
    tocOffset: nat, tocSize: nat,
    itocOffset: nat, itocSize: nat,
    totalSize: nat, files: nat, alignment: nat)

  /** The single header row: the layout, the format constants, and zero or empty everywhere else. */
  function HeaderRow(l: Layout): (r: Row)
    ensures "CpkMode" in r && r["CpkMode"] == Int(2)
    ensures "ItocSize" in r && r["ItocSize"] == Int(l.itocSize)
    ensures "Align" in r && r["Align"] == Int(l.alignment)
  {
    map[
      "UpdateDateTime" := Int(0), "FileSize" := Int(0),
      "ContentOffset" := Int(l.contentOffset), "ContentSize" := Int(l.contentSize),
      "TocOffset" := Int(l.tocOffset), "TocSize" := Int(l.tocSize), "TocCrc" := Int(0),
      "HtocOffset" := Int(0), "HtocSize" := Int(0),
      "EtocOffset" := Int(0), "EtocSize" := Int(0),
      "ItocOffset" := Int(l.itocOffset), "ItocSize" := Int(l.itocSize), "ItocCrc" := Int(0),
      "GtocOffset" := Int(0), "GtocSize" := Int(0), "GtocCrc" := Int(0),
      "HgtocOffset" := Int(0), "HgtocSize" := Int(0),
      "EnabledPackedSize" := Int(l.totalSize), "EnabledDataSize" := Int(l.totalSize),
      "TotalDataSize" := Int(0), "Tocs" := Int(0), "Files" := Int(l.files),
      "Groups" := Int(0), "Attrs" := Int(0), "TotalFiles" := Int(0),
      "Directories" := Int(0), "Updates" := Int(0),
      "Version" := Int(FORMAT_VERSION), "Revision" := Int(FORMAT_REVISION),
      "Align" := Int(l.alignment), "Sorted" := Int(1), "EnableFileName" := Int(1),
      "EID" := Int(1), "CpkMode" := Int(2),
      "Tvers" := Chars(""), "Comment" := Chars(""),
      "Codec" := Int(0), "DpkItoc" := Int(0),
      "EnableTocCrc" := Int(0), "EnableFileCrc" := Int(0), "CrcMode" := Int(0),
      "CrcTable" := Blob([])
    ]
  }

  function TocTable(toc: seq<StagingToc>): Table {
    Table("CpkTocInfo", TocRows(toc))
  }

  function ItocTable(itoc: seq<StagingItoc>): Table {
    Table("CpkExtendId", ItocRows(itoc))
  }

  function HeaderTable(l: Layout): Table {
    Table("CpkHeader", [HeaderRow(l)])
  }

  /**
   * The layout `close` records: the contents from `contentOffset` to `end`,
   * the TOC chunk at the next aligned position, the ITOC chunk at the next
   * aligned position after it.
   */
  function ClosedLayout(contentOffset: nat, end: nat, alignment: nat, tocData: seq<byte>, itocData: seq<byte>,
                        total: nat, files: nat): (l: Layout)
    requires alignment > 0 && contentOffset <= end
    ensures l.tocOffset % alignment == 0 && l.itocOffset % alignment == 0
    ensures end <= l.tocOffset < end + alignment
    ensures l.tocOffset + l.tocSize <= l.itocOffset < l.tocOffset + l.tocSize + alignment
    ensures l.contentOffset + l.contentSize == end
    ensures l.tocSize == 16 + |tocData| && l.itocSize == 16 + |itocData| && l.alignment == alignment
  {
    var tocOffset := AlignUp(end, alignment);
    PaddingAligns(end, alignment);
    PaddingAligns(tocOffset + 16 + |tocData|, alignment);
    Layout(contentOffset, end - contentOffset, tocOffset, 16 + |tocData|,
           AlignUp(tocOffset + 16 + |tocData|, alignment), 16 + |itocData|, total, files, alignment)
  }

  // ---- what the writer sends to the file ----

  /** `_write_chunk`: the name, the flag word, the 8-byte length, then the (enciphered) data. */
  function ChunkFieldWrites(pos: nat, name: seq<byte>, data: seq<byte>, encrypted: bool): (r: seq<Write>)
    requires |data| < LENGTH_LIMIT
    ensures |r| == 4
  {
    [Write(pos, name), Write(pos + 4, ChunkFlag(encrypted)), Write(pos + 8, LeBytes(|data|, 8)),
     Write(pos + 16, if encrypted then CryptSpec(data) else data)]
  }

  /** `_align` and then `_write_chunk` at the aligned position. */
  function AlignedChunkWrites(pos: nat, alignment: nat, name: seq<byte>, data: seq<byte>, encrypted: bool): seq<Write>
    requires alignment > 0 && |data| < LENGTH_LIMIT
  {
    [Write(pos, Zeros(Padding(pos, alignment)))] + ChunkFieldWrites(AlignUp(pos, alignment), name, data, encrypted)
  }

  /** The header chunk at offset 0 and the zeros that fill the rest of the header area. */
  function HeaderWrites(data: seq<byte>, encrypted: bool): seq<Write>
    requires 16 + |data| <= BODY_OFFSET
  {
    ChunkFieldWrites(0, CPK_TAG, data, encrypted) + [Write(16 + |data|, Zeros(BODY_OFFSET - 16 - |data|))]
  }

  /** Everything `close` writes, from the end of the contents at `pos`. */
  function CloseLog(pos: nat, alignment: nat, encrypted: bool,
                    tocData: seq<byte>, itocData: seq<byte>, headerData: seq<byte>): seq<Write>
    requires alignment > 0 && |tocData| < LENGTH_LIMIT && |itocData| < LENGTH_LIMIT && 16 + |headerData| <= BODY_OFFSET
  {
    var tocEnd := AlignUp(pos, alignment) + 16 + |tocData|;
    AlignedChunkWrites(pos, alignment, TOC_TAG, tocData, encrypted)
      + AlignedChunkWrites(tocEnd, alignment, ITOC_TAG, itocData, encrypted)
      + HeaderWrites(headerData, encrypted)
  }

  // ---- the writer ----

  /**
   * What the writer keeps true: contents start aligned after the header
   * area, the staged files lie where they were written, in order, and are
   * readable there, names are distinct, and every staged id is taken.
   */
  ghost predicate Consistent(writes: seq<Write>, pos: nat, ids: set<int>, names: set<string>,
                             staging: seq<StagingToc>, contents: seq<seq<byte>>, contentOffset: nat, alignment: nat)
  {
    alignment > 0
    && BODY_OFFSET <= contentOffset && contentOffset % alignment == 0
    && contentOffset <= pos && |Contents(writes)| <= pos
    && Placed(staging, contentOffset, alignment, pos)
    && Stored(Contents(writes), staging, contents)
    && names == NameSet(staging) && DistinctNames(staging)
    && forall i :: 0 <= i < |staging| ==> staging[i].id in ids
  }

  /** Writing a new file at the next aligned position keeps the writer consistent. */
  lemma WriteFileConsistent(writes: seq<Write>, pos: nat, ids: set<int>, names: set<string>,
                            staging: seq<StagingToc>, contents: seq<seq<byte>>, contentOffset: nat, alignment: nat,
                            id: int, name: string, data: seq<byte>)
    requires Consistent(writes, pos, ids, names, staging, contents, contentOffset, alignment)
    requires id !in ids && name !in names
    ensures Consistent(writes + [Write(pos, Zeros(Padding(pos, alignment))), Write(AlignUp(pos, alignment), data)],
                       AlignUp(pos, alignment) + |data|, ids + {id}, names + {name},
                       staging + [StagingToc(id, name, AlignUp(pos, alignment), |data|)], contents + [data],
                       contentOffset, alignment)
    ensures data != [] ==>
      ReadAt(Contents(writes + [Write(pos, Zeros(Padding(pos, alignment))), Write(AlignUp(pos, alignment), data)]),
             AlignUp(pos, alignment), |data|) == Some(data)
  {
    var e := StagingToc(id, name, AlignUp(pos, alignment), |data|);
    AppendedLog(writes, pos, alignment, contentOffset, staging, contents, id, name, data);
    NamesAppended(staging, id, name, AlignUp(pos, alignment), |data|);
    IdsAppended(staging, ids + {id}, e);
  }

  class Writer {
    /** Every write sent to the file so far, in order; `Contents(writes)` is the file. */
    var writes: seq<Write>
    var pos: nat
    var ids: set<int>
    var names: set<string>
    var staging: seq<StagingToc>
    ghost var contents: seq<seq<byte>>
    var contentOffset: nat
    const alignment: nat
    const encryptTables: bool

    ghost predicate Valid()
      reads this
    {
      Consistent(writes, pos, ids, names, staging, contents, contentOffset, alignment)
    }

    /** `__init__`: an empty archive positioned at the first aligned offset at or after BODY_OFFSET. */
    constructor (alignment: nat, encryptTables: bool)
      requires alignment > 0
      ensures Valid()
      ensures this.alignment == alignment && this.encryptTables == encryptTables
      ensures ids == {} && names == {} && staging == []
      ensures contentOffset == pos == AlignUp(BODY_OFFSET, alignment)
      ensures writes == [Write(BODY_OFFSET, Zeros(Padding(BODY_OFFSET, alignment)))]
    {
      this.alignment := alignment;
      this.encryptTables := encryptTables;
      new;
      writes := [];
      pos := BODY_OFFSET;
      ids := {};
      names := {};
      staging := [];
      contents := [];
      Align();
      contentOffset := pos;
      ContentsSnoc([], Write(BODY_OFFSET, Zeros(Padding(BODY_OFFSET, alignment))));
    }

    /** `write_bytes`: the data goes to the file at the position, which moves past it. */
    method WriteBytes(data: seq<byte>)
      modifies this`writes, this`pos
      ensures writes == old(writes) + [Write(old(pos), data)] && pos == old(pos) + |data|
    {
      writes := writes + [Write(pos, data)];
      pos := pos + |data|;
    }

    /** `_pad`: `size` zero bytes. */
    method Pad(size: nat)
      modifies this`writes, this`pos
      ensures writes == old(writes) + [Write(old(pos), Zeros(size))] && pos == old(pos) + size
    {
      WriteBytes(Zeros(size));
    }

    /** `_align`: pads up to the next multiple of the alignment. */
    method Align()
      requires alignment > 0
      modifies this`writes, this`pos
      ensures pos == AlignUp(old(pos), alignment) && pos % alignment == 0
      ensures writes == old(writes) + [Write(old(pos), Zeros(Padding(old(pos), alignment)))]
    {
      PaddingAligns(pos, alignment);
      Pad(Padding(pos, alignment));
    }

    /**
     * `write_file`: a known id is refused; otherwise the id is taken, even
     * when the name is then refused as a known name; otherwise the contents
     * go at the next aligned position and the file is recorded.
     */
    method WriteFile(id: int, name: string, data: seq<byte>) returns (r: Result<(), WriterError>)
      requires Valid()
      modifies this
      ensures Valid()
      ensures contentOffset == old(contentOffset)
      ensures id in old(ids) ==> r == Err(DuplicateId(id)) && ids == old(ids)
      ensures id !in old(ids) ==> ids == old(ids) + {id}
      ensures id !in old(ids) && name in old(names) ==> r == Err(DuplicateName(name))
      ensures r.Err? ==> names == old(names) && staging == old(staging) && writes == old(writes) && pos == old(pos)
      ensures r.Ok? <==> id !in old(ids) && name !in old(names)
      ensures r.Ok? ==> names == old(names) + {name}
      ensures r.Ok? ==> staging == old(staging) + [StagingToc(id, name, AlignUp(old(pos), alignment), |data|)]
      ensures r.Ok? ==>
        writes == old(writes) + [Write(old(pos), Zeros(Padding(old(pos), alignment))),
                                 Write(AlignUp(old(pos), alignment), data)]
      ensures r.Ok? ==> AlignUp(old(pos), alignment) % alignment == 0 && pos == AlignUp(old(pos), alignment) + |data|
      ensures r.Ok? && data != [] ==> ReadAt(Contents(writes), AlignUp(old(pos), alignment), |data|) == Some(data)
    {
      if id in ids {
        return Err(DuplicateId(id));
      }
      ids := ids + {id};
      if name in names {
        return Err(DuplicateName(name));
      }
      WriteFileConsistent(writes, pos, old(ids), names, staging, contents, contentOffset, alignment, id, name, data);
      names := names + {name};
      ghost var end := pos;
      ghost var before := writes;
      Align();
      var offset := pos;
      WriteBytes(data);
      assert writes == before + [Write(end, Zeros(Padding(end, alignment))), Write(offset, data)];
      staging := staging + [StagingToc(id, name, offset, |data|)];
      contents := contents + [data];
      return Ok(());
    }

    /**
     * `_write_chunk`: refuses a name that is not four bytes before writing
     * anything; a length that does not fit 8 bytes is refused once the name
     * and the flag word are written; otherwise the four fields go out.
     */
    method WriteChunk(name: seq<byte>, data: seq<byte>, encrypted: bool) returns (r: Result<(), WriterError>)
      modifies this`writes, this`pos
      ensures r.Ok? <==> Chunk(name, data, encrypted).Ok?
      ensures r.Err? ==> r == Err(Chunk(name, data, encrypted).error)
      ensures |name| != 4 ==> writes == old(writes) && pos == old(pos)
      ensures |name| == 4 && r.Err? ==>
        writes == old(writes) + [Write(old(pos), name), Write(old(pos) + 4, ChunkFlag(encrypted))]
      ensures r.Ok? ==>
        writes == old(writes) + ChunkFieldWrites(old(pos), name, data, encrypted)
        && pos == old(pos) + 16 + |data|
    {
      if |name| != 4 {
        return Err(InvalidChunkName(name));
      }
      WriteBytes(name);
      WriteBytes(ChunkFlag(encrypted));
      if |data| >= LENGTH_LIMIT {
        return Err(ValueTooLarge);
      }
      WriteBytes(LeBytes(|data|, 8));
      var body := data;
      if encrypted {
        body := Crypt(data);
      }
      WriteBytes(body);
      return Ok(());
    }

    /** `_write_chunk_table`: the encoded table as a chunk, encrypted as configured. */
    method WriteChunkTable(name: seq<byte>, table: Table, encode: Table -> seq<byte>) returns (r: Result<(), WriterError>)
      modifies this`writes, this`pos
      ensures r.Ok? <==> Chunk(name, encode(table), encryptTables).Ok?
      ensures r.Err? ==> r == Err(Chunk(name, encode(table), encryptTables).error)
      ensures r.Ok? ==>
        writes == old(writes) + ChunkFieldWrites(old(pos), name, encode(table), encryptTables)
        && pos == old(pos) + 16 + |encode(table)|
    {
      var data := encode(table);
      r := WriteChunk(name, data, encryptTables);
    }

    /**
     * The loop of `close` over the name-sorted files: the TOC rows, the
     * (id, TOC position) pairs and the total size.
     */
    static method StageTables(toc: seq<StagingToc>) returns (itoc: seq<StagingItoc>, rows: seq<Row>, total: nat)
      ensures itoc == IndexedItoc(toc) && rows == TocRows(toc) && total == TotalSize(toc)
    {
      itoc := [];
      rows := [];
      total := 0;
      for i := 0 to |toc|
        invariant itoc == IndexedItoc(toc[..i]) && rows == TocRows(toc[..i])
        invariant total + TotalSize(toc[i..]) == TotalSize(toc)
      {
        total := total + toc[i].size;
        itoc := itoc + [StagingItoc(toc[i].id, |rows|)];
        rows := rows + [TocRow(toc[i])];
        assert toc[i..][1..] == toc[i + 1..];
      }
      assert toc[..|toc|] == toc;
    }

    /** The loop of `close` over the id-sorted pairs: the ITOC rows. */
    static method ItocTableRows(itoc: seq<StagingItoc>) returns (rows: seq<Row>)
      ensures rows == ItocRows(itoc)
    {
      rows := [];
      for i := 0 to |itoc|
        invariant rows == ItocRows(itoc[..i])
      {
        rows := rows + [ItocRow(itoc[i])];
      }
      assert itoc[..|itoc|] == itoc;
    }

    /** `_align` followed by `_write_chunk_table`: a chunk at the next aligned position. */
    method WriteAlignedChunk(name: seq<byte>, table: Table, encode: Table -> seq<byte>)
      returns (r: Result<nat, WriterError>)
      requires alignment > 0 && |name| == 4
      modifies this`writes, this`pos
      ensures r.Ok? <==> |encode(table)| < LENGTH_LIMIT
      ensures r.Err? ==> r.error == ValueTooLarge
      ensures r.Ok? ==>
        && r.value == AlignUp(old(pos), alignment)
        && pos == r.value + 16 + |encode(table)|
        && writes == old(writes) + AlignedChunkWrites(old(pos), alignment, name, encode(table), encryptTables)
    {
      Align();
      var offset := pos;
      var written := WriteChunkTable(name, table, encode);
      if written.Err? {
        return Err(written.error);
      }
      return Ok(offset);
    }

    /**
     * The end of `close`: the header chunk at offset 0, refused when it
     * ends past BODY_OFFSET, and otherwise zero-padded up to it.
     */
    method WriteHeader(table: Table, encode: Table -> seq<byte>) returns (r: Result<(), WriterError>)
      modifies this`writes, this`pos
      ensures r.Err? ==> r.error == ValueTooLarge || r.error == InfoTooLarge
      ensures r.Ok? <==> 16 + |encode(table)| <= BODY_OFFSET
      ensures r.Ok? ==> pos == BODY_OFFSET && writes == old(writes) + HeaderWrites(encode(table), encryptTables)
    {
      pos := 0;
      var written := WriteChunkTable(CPK_TAG, table, encode);
      if written.Err? {
        return Err(written.error);
      }
      if pos > BODY_OFFSET {
        return Err(InfoTooLarge);
      }
      ghost var data := encode(table);
      assert pos == 16 + |data| && BODY_OFFSET - pos == BODY_OFFSET - 16 - |data|;
      Pad(BODY_OFFSET - pos);
      return Ok(());
    }

    /**
     * `close` once the tables are staged: the TOC and ITOC chunks after the
     * contents, then the header chunk with the layout they ended up at.
     */
    method WriteTables(tocTable: Table, itocTable: Table, files: nat, total: nat, encode: Table -> seq<byte>)
      returns (r: Result<Layout, WriterError>)
      requires alignment > 0 && contentOffset <= pos
      modifies this`writes, this`pos
      ensures r.Ok? ==> |encode(tocTable)| < LENGTH_LIMIT && |encode(itocTable)| < LENGTH_LIMIT
      ensures r.Ok? ==> 16 + |encode(HeaderTable(r.value))| <= BODY_OFFSET
      ensures r.Ok? ==>
        r.value == ClosedLayout(contentOffset, old(pos), alignment, encode(tocTable), encode(itocTable), total, files)
      ensures r.Ok? ==> pos == BODY_OFFSET
      ensures r.Ok? ==>
        writes == old(writes) + CloseLog(old(pos), alignment, encryptTables,
                                         encode(tocTable), encode(itocTable), encode(HeaderTable(r.value)))
      ensures r.Err? ==> r.error == ValueTooLarge || r.error == InfoTooLarge
    {
      ghost var p0 := pos;
      var contentSize := pos - contentOffset;
      var offsets := WriteIndexChunks(tocTable, itocTable, encode);
      if offsets.Err? {
        return Err(offsets.error);
      }
      var (tocOffset, itocOffset) := offsets.value;
      ghost var p1 := tocOffset + 16 + |encode(tocTable)|;
      var layout := Layout(contentOffset, contentSize, tocOffset, 16 + |encode(tocTable)|, itocOffset,
                           pos - itocOffset, total, files, alignment);
      assert layout == ClosedLayout(contentOffset, p0, alignment, encode(tocTable), encode(itocTable), total, files);
      var written := WriteHeader(HeaderTable(layout), encode);
      if written.Err? {
        return Err(written.error);
      }
      CloseLogAppended(writes, old(writes), p0, p1, alignment, encryptTables, encode(tocTable), encode(itocTable),
                       encode(HeaderTable(layout)));
      return Ok(layout);
    }

    /** The TOC chunk and then the ITOC chunk, each at the next aligned position; their offsets. */
    method WriteIndexChunks(tocTable: Table, itocTable: Table, encode: Table -> seq<byte>)
      returns (r: Result<(nat, nat), WriterError>)
      requires alignment > 0
      modifies this`writes, this`pos
      ensures r.Ok? <==> |encode(tocTable)| < LENGTH_LIMIT && |encode(itocTable)| < LENGTH_LIMIT
      ensures r.Err? ==> r.error == ValueTooLarge
      ensures r.Ok? ==>
        && r.value.0 == AlignUp(old(pos), alignment)
        && r.value.1 == AlignUp(r.value.0 + 16 + |encode(tocTable)|, alignment)
        && pos == r.value.1 + 16 + |encode(itocTable)|
        && writes == old(writes) + AlignedChunkWrites(old(pos), alignment, TOC_TAG, encode(tocTable), encryptTables)
           + AlignedChunkWrites(r.value.0 + 16 + |encode(tocTable)|, alignment, ITOC_TAG, encode(itocTable), encryptTables)
    {
      var tocOffset := WriteAlignedChunk(TOC_TAG, tocTable, encode);
      if tocOffset.Err? {
        return Err(tocOffset.error);
      }
      var itocOffset := WriteAlignedChunk(ITOC_TAG, itocTable, encode);
      if itocOffset.Err? {
        return Err(itocOffset.error);
      }
      return Ok((tocOffset.value, itocOffset.value));
    }

    /**
     * `close`: sorts the files by name, writes the TOC and the ITOC at the
     * next aligned positions after the contents, then the header at offset
     * 0, which must end by BODY_OFFSET and is zero-padded up to it.
     */
    method Close(encode: Table -> seq<byte>) returns (r: Result<Layout, WriterError>)
      requires Valid()
      modifies this`writes, this`pos, this`staging
      ensures staging == SortedToc(old(staging))
      ensures r.Ok? ==> |encode(TocTable(staging))| < LENGTH_LIMIT
      ensures r.Ok? ==> |encode(ItocTable(SortedItoc(staging)))| < LENGTH_LIMIT
      ensures r.Ok? ==> 16 + |encode(HeaderTable(r.value))| <= BODY_OFFSET
      ensures r.Ok? ==>
        r.value == ClosedLayout(contentOffset, old(pos), alignment, encode(TocTable(staging)),
                                encode(ItocTable(SortedItoc(staging))), TotalSize(staging), |staging|)
      ensures r.Ok? ==> pos == BODY_OFFSET
      ensures r.Ok? ==>
        writes == old(writes) + CloseLog(old(pos), alignment, encryptTables, encode(TocTable(staging)),
                                         encode(ItocTable(SortedItoc(staging))), encode(HeaderTable(r.value)))
      ensures r.Err? ==> r.error == ValueTooLarge || r.error == InfoTooLarge
    {
      staging := SortedToc(staging);
      var itoc, tocRows, total := StageTables(staging);
      itoc := Sorting.SortBy(itoc, ById);
      var itocRows := ItocTableRows(itoc);
      assert TocTable(staging) == Table("CpkTocInfo", tocRows);
      assert itoc == SortedItoc(staging) && ItocTable(itoc) == Table("CpkExtendId", itocRows);
      r := WriteTables(TocTable(staging), ItocTable(itoc), |staging|, total, encode);
    }
  }

  /** Padding from `pos` to the next multiple of the alignment, then `data` there. */
  ghost function AlignedWrite(file: seq<byte>, pos: nat, alignment: nat, data: seq<byte>): seq<byte>
    requires alignment > 0
  {
    WriteAt(WriteAt(file, pos, Zeros(Padding(pos, alignment))), AlignUp(pos, alignment), data)
  }

  /** The TOC chunk and the ITOC chunk written one after the other from `pos`, each aligned. */
  ghost function IndexWrites(file: seq<byte>, pos: nat, alignment: nat, toc: seq<byte>, itoc: seq<byte>): seq<byte>
    requires alignment > 0
  {
    AlignedWrite(AlignedWrite(file, pos, alignment, toc), AlignUp(pos, alignment) + |toc|, alignment, itoc)
  }

  /** The header at offset 0 and zeros after it up to BODY_OFFSET. */
  ghost function WithHeader(file: seq<byte>, header: seq<byte>): seq<byte>
    requires |header| <= BODY_OFFSET
  {
    WriteAt(WriteAt(file, 0, header), |header|, Zeros(BODY_OFFSET - |header|))
  }

  /** A closed archive: the header, zeros up to BODY_OFFSET, and both index chunks where the header says. */
  ghost predicate ClosedFile(file: seq<byte>, header: seq<byte>, tocOffset: nat, toc: seq<byte>,
                             itocOffset: nat, itoc: seq<byte>)
  {
    && |header| <= BODY_OFFSET
    && ReadAt(file, 0, |header|) == Some(header)
    && ReadAt(file, |header|, BODY_OFFSET - |header|) == Some(Zeros(BODY_OFFSET - |header|))
    && ReadAt(file, tocOffset, |toc|) == Some(toc)
    && ReadAt(file, itocOffset, |itoc|) == Some(itoc)
  }

  /** The files all lie between `lo` and `hi`. */
  ghost predicate Within(s: seq<StagingToc>, lo: nat, hi: nat) {
    forall i :: 0 <= i < |s| ==> lo <= s[i].offset && s[i].offset + s[i].size <= hi
  }

  /** The writes of `close` leave every file, the index chunks and the header readable. */
  lemma CloseWrites(f0: seq<byte>, p0: nat, alignment: nat, contentOffset: nat,
                    s: seq<StagingToc>, contents: seq<seq<byte>>,
                    toc: seq<byte>, itoc: seq<byte>, header: seq<byte>)
    requires alignment > 0 && BODY_OFFSET <= contentOffset <= p0 && |f0| <= p0
    requires Stored(f0, s, contents) && Within(s, contentOffset, p0)
    requires toc != [] && itoc != [] && header != [] && |header| <= BODY_OFFSET
    ensures ClosedFile(WithHeader(IndexWrites(f0, p0, alignment, toc, itoc), header), header,
                       AlignUp(p0, alignment), toc, AlignUp(AlignUp(p0, alignment) + |toc|, alignment), itoc)
    ensures Stored(WithHeader(IndexWrites(f0, p0, alignment, toc, itoc), header), s, contents)
  {
    var f4 := IndexWrites(f0, p0, alignment, toc, itoc);
    StoredThroughIndex(f0, p0, alignment, contentOffset, s, contents, toc, itoc);
    KeepStoredHeader(f4, header, s, contents, contentOffset, p0);
    IndexWritesRead(f0, p0, alignment, toc, itoc);
    HeaderKeeps(f4, header, AlignUp(p0, alignment), |toc|);
    HeaderKeeps(f4, header, AlignUp(AlignUp(p0, alignment) + |toc|, alignment), |itoc|);
    HeaderWritten(f4, header);
  }

  /** Writing the TOC and the ITOC after the files keeps them all readable. */
  lemma StoredThroughIndex(f0: seq<byte>, p0: nat, alignment: nat, contentOffset: nat,
                           s: seq<StagingToc>, contents: seq<seq<byte>>, toc: seq<byte>, itoc: seq<byte>)
    requires alignment > 0 && Stored(f0, s, contents) && Within(s, contentOffset, p0)
    ensures Stored(IndexWrites(f0, p0, alignment, toc, itoc), s, contents)
  {
    var f2 := AlignedWrite(f0, p0, alignment, toc);
    KeepStoredAligned(f0, p0, alignment, toc, s, contents, contentOffset, p0);
    KeepStoredAligned(f2, AlignUp(p0, alignment) + |toc|, alignment, itoc, s, contents, contentOffset, p0);
  }

  /** An aligned write after the files keeps them all readable. */
  lemma KeepStoredAligned(file: seq<byte>, pos: nat, alignment: nat, data: seq<byte>,
                          s: seq<StagingToc>, contents: seq<seq<byte>>, lo: nat, hi: nat)
    requires alignment > 0 && Stored(file, s, contents) && Within(s, lo, hi) && hi <= pos
    ensures Stored(AlignedWrite(file, pos, alignment, data), s, contents)
  {
    var padded := WriteAt(file, pos, Zeros(Padding(pos, alignment)));
    KeepStored(file, pos, Zeros(Padding(pos, alignment)), s, contents, lo, hi);
    KeepStored(padded, AlignUp(pos, alignment), data, s, contents, lo, hi);
  }

  /** The header and its padding, written before BODY_OFFSET, keep the files readable. */
  lemma KeepStoredHeader(file: seq<byte>, header: seq<byte>, s: seq<StagingToc>, contents: seq<seq<byte>>,
                         lo: nat, hi: nat)
    requires Stored(file, s, contents) && Within(s, lo, hi) && BODY_OFFSET <= lo && |header| <= BODY_OFFSET
    ensures Stored(WithHeader(file, header), s, contents)
  {
    KeepStored(file, 0, header, s, contents, lo, hi);
    KeepStored(WriteAt(file, 0, header), |header|, Zeros(BODY_OFFSET - |header|), s, contents, lo, hi);
  }

  /** Both index chunks can be read back where `close` wrote them. */
  lemma IndexWritesRead(f0: seq<byte>, p0: nat, alignment: nat, toc: seq<byte>, itoc: seq<byte>)
    requires alignment > 0 && toc != [] && itoc != []
    ensures ReadAt(IndexWrites(f0, p0, alignment, toc, itoc), AlignUp(p0, alignment), |toc|) == Some(toc)
    ensures ReadAt(IndexWrites(f0, p0, alignment, toc, itoc), AlignUp(AlignUp(p0, alignment) + |toc|, alignment), |itoc|)
      == Some(itoc)
  {
    var tocOffset := AlignUp(p0, alignment);
    var tocEnd := tocOffset + |toc|;
    var itocOffset := AlignUp(tocEnd, alignment);
    var f1 := WriteAt(f0, p0, Zeros(Padding(p0, alignment)));
    var f2 := WriteAt(f1, tocOffset, toc);
    var f3 := WriteAt(f2, tocEnd, Zeros(Padding(tocEnd, alignment)));
    var f4 := WriteAt(f3, itocOffset, itoc);
    IndexWritesUnfold(f0, p0, alignment, toc, itoc, tocEnd);
    ReadWhatWasWritten(f1, tocOffset, toc);
    assert ReadAt(f2, tocOffset, |toc|) == Some(toc);
    WriteAtKeeps(f2, tocEnd, Zeros(Padding(tocEnd, alignment)), tocOffset, |toc|);
    assert ReadAt(f3, tocOffset, |toc|) == Some(toc);
    WriteAtKeeps(f3, itocOffset, itoc, tocOffset, |toc|);
    ReadWhatWasWritten(f3, itocOffset, itoc);
  }

  /** The header and its padding, both before BODY_OFFSET, leave what lies after it alone. */
  lemma HeaderKeeps(f4: seq<byte>, header: seq<byte>, o: nat, n: nat)
    requires |header| <= BODY_OFFSET <= o && o + n <= |f4|
    ensures ReadAt(WithHeader(f4, header), o, n) == ReadAt(f4, o, n)
  {
    WriteAtKeeps(f4, 0, header, o, n);
    WriteAtKeeps(WriteAt(f4, 0, header), |header|, Zeros(BODY_OFFSET - |header|), o, n);
  }

  /** The header and the zeros after it are where they were written. */
  lemma HeaderWritten(f4: seq<byte>, header: seq<byte>)
    requires header != [] && |header| <= BODY_OFFSET
    ensures ReadAt(WithHeader(f4, header), 0, |header|) == Some(header)
    ensures ReadAt(WithHeader(f4, header), |header|, BODY_OFFSET - |header|) == Some(Zeros(BODY_OFFSET - |header|))
  {
    var f5 := WriteAt(f4, 0, header);
    var zeros := Zeros(BODY_OFFSET - |header|);
    var f6 := WriteAt(f5, |header|, zeros);
    ReadWhatWasWritten(f4, 0, header);
    WriteAtKeeps(f5, |header|, zeros, 0, |header|);
    if zeros != [] {
      ReadWhatWasWritten(f5, |header|, zeros);
    } else {
      assert f6[|header|..|header|] == zeros;
    }
  }

  /** A write that misses the stretch holding every placed file keeps them all readable. */
  lemma KeepStored(file: seq<byte>, pos: nat, data: seq<byte>, s: seq<StagingToc>, contents: seq<seq<byte>>,
                   lo: nat, hi: nat)
    requires Stored(file, s, contents) && Within(s, lo, hi)
    requires hi <= pos || pos + |data| <= lo
    ensures Stored(WriteAt(file, pos, data), s, contents)
  {
    forall i | 0 <= i < |s| && contents[i] != []
      ensures ReadAt(WriteAt(file, pos, data), s[i].offset, s[i].size) == Some(contents[i])
    {
      WriteAtKeeps(file, pos, data, s[i].offset, s[i].size);
    }
  }

  /** Writing a chunk's fields one after another writes the chunk. */
  lemma ChunkWrites(file: seq<byte>, pos: nat, name: seq<byte>, data: seq<byte>, encrypted: bool)
    requires |name| == 4 && |data| < LENGTH_LIMIT
    ensures WriteAt(WriteAt(WriteAt(WriteAt(file, pos, name), pos + 4, ChunkFlag(encrypted)),
                            pos + 8, LeBytes(|data|, 8)),
                    pos + 16, if encrypted then CryptSpec(data) else data)
      == WriteAt(file, pos, Chunk(name, data, encrypted).value)
  {
    var flag := ChunkFlag(encrypted);
    var length := LeBytes(|data|, 8);
    var body := if encrypted then CryptSpec(data) else data;
    WriteAtConcat(file, pos, name, flag);
    WriteAtConcat(file, pos, name + flag, length);
    WriteAtConcat(file, pos, name + flag + length, body);
    assert Chunk(name, data, encrypted).value == name + flag + length + body;
  }

  /** Replaying a chunk's four field writes writes the chunk. */
  lemma ChunkReplay(file: seq<byte>, pos: nat, name: seq<byte>, data: seq<byte>, encrypted: bool)
    requires |name| == 4 && |data| < LENGTH_LIMIT
    ensures Chunk(name, data, encrypted).Ok?
    ensures Replay(file, ChunkFieldWrites(pos, name, data, encrypted)) == WriteAt(file, pos, Chunk(name, data, encrypted).value)
  {
    var w := ChunkFieldWrites(pos, name, data, encrypted);
    var f1 := WriteAt(file, pos, name);
    var f2 := WriteAt(f1, pos + 4, w[1].data);
    var f3 := WriteAt(f2, pos + 8, w[2].data);
    var f4 := WriteAt(f3, pos + 16, w[3].data);
    assert Replay(f3, w[3..]) == f4 by {
      assert w[3..][1..] == [];
    }
    assert Replay(f2, w[2..]) == Replay(f3, w[3..]) by {
      assert w[2..][1..] == w[3..];
    }
    assert Replay(f1, w[1..]) == Replay(f2, w[2..]) by {
      assert w[1..][1..] == w[2..];
    }
    ChunkWrites(file, pos, name, data, encrypted);
  }

  /** Replaying the padding and the chunk of `AlignedChunkWrites` is an aligned write of the chunk. */
  lemma AlignedChunkReplay(file: seq<byte>, pos: nat, alignment: nat, name: seq<byte>, data: seq<byte>, encrypted: bool)
    requires alignment > 0 && |name| == 4 && |data| < LENGTH_LIMIT
    ensures Chunk(name, data, encrypted).Ok?
    ensures Replay(file, AlignedChunkWrites(pos, alignment, name, data, encrypted))
      == AlignedWrite(file, pos, alignment, Chunk(name, data, encrypted).value)
  {
    var pad := Write(pos, Zeros(Padding(pos, alignment)));
    ReplayAppend(file, [pad], ChunkFieldWrites(AlignUp(pos, alignment), name, data, encrypted));
    assert [pad][1..] == [];
    ChunkReplay(WriteAt(file, pos, pad.data), AlignUp(pos, alignment), name, data, encrypted);
  }

  /** Replaying `HeaderWrites` writes the header chunk at 0 and zeros up to BODY_OFFSET. */
  lemma HeaderReplay(file: seq<byte>, data: seq<byte>, encrypted: bool)
    requires 16 + |data| <= BODY_OFFSET
    ensures Chunk(CPK_TAG, data, encrypted).Ok?
    ensures Replay(file, HeaderWrites(data, encrypted)) == WithHeader(file, Chunk(CPK_TAG, data, encrypted).value)
  {
    var pad := Write(16 + |data|, Zeros(BODY_OFFSET - 16 - |data|));
    ReplayAppend(file, ChunkFieldWrites(0, CPK_TAG, data, encrypted), [pad]);
    ChunkReplay(file, 0, CPK_TAG, data, encrypted);
    assert [pad][1..] == [];
  }

  /** Replaying the log of `close` writes both index chunks, each aligned, and then the header. */
  lemma CloseLogReplay(f0: seq<byte>, p0: nat, alignment: nat, encrypted: bool,
                       tocData: seq<byte>, itocData: seq<byte>, headerData: seq<byte>,
                       toc: seq<byte>, itoc: seq<byte>, header: seq<byte>)
    requires alignment > 0 && |tocData| < LENGTH_LIMIT && |itocData| < LENGTH_LIMIT && 16 + |headerData| <= BODY_OFFSET
    requires Chunk(TOC_TAG, tocData, encrypted) == Ok(toc) && Chunk(ITOC_TAG, itocData, encrypted) == Ok(itoc)
    requires Chunk(CPK_TAG, headerData, encrypted) == Ok(header)
    ensures Replay(f0, CloseLog(p0, alignment, encrypted, tocData, itocData, headerData))
      == WithHeader(IndexWrites(f0, p0, alignment, toc, itoc), header)
  {
    var tocEnd := AlignUp(p0, alignment) + 16 + |tocData|;
    var a := AlignedChunkWrites(p0, alignment, TOC_TAG, tocData, encrypted);
    var b := AlignedChunkWrites(tocEnd, alignment, ITOC_TAG, itocData, encrypted);
    var h := HeaderWrites(headerData, encrypted);
    var f2 := AlignedWrite(f0, p0, alignment, toc);
    var f4 := AlignedWrite(f2, tocEnd, alignment, itoc);
    assert Replay(f0, a + b + h) == WithHeader(f4, header) by {
      AlignedChunkReplay(f0, p0, alignment, TOC_TAG, tocData, encrypted);
      AlignedChunkReplay(f2, tocEnd, alignment, ITOC_TAG, itocData, encrypted);
      HeaderReplay(f4, headerData, encrypted);
      ReplayChain(f0, a, b, h, f2, f4, WithHeader(f4, header));
    }
    CloseLogUnfold(f0, p0, alignment, encrypted, tocData, itocData, headerData, toc, itoc, header, tocEnd);
  }

  lemma IndexWritesUnfold(f0: seq<byte>, p0: nat, alignment: nat, toc: seq<byte>, itoc: seq<byte>, tocEnd: nat)
    requires alignment > 0 && tocEnd == AlignUp(p0, alignment) + |toc|
    ensures IndexWrites(f0, p0, alignment, toc, itoc)
      == AlignedWrite(AlignedWrite(f0, p0, alignment, toc), tocEnd, alignment, itoc)
  {
  }

  /** The log of `close` is its three parts, and the first two write the index chunks. */
  lemma CloseLogUnfold(f0: seq<byte>, pos: nat, alignment: nat, encrypted: bool,
                       tocData: seq<byte>, itocData: seq<byte>, headerData: seq<byte>,
                       toc: seq<byte>, itoc: seq<byte>, header: seq<byte>, tocEnd: nat)
    requires alignment > 0 && |tocData| < LENGTH_LIMIT && |itocData| < LENGTH_LIMIT && 16 + |headerData| <= BODY_OFFSET
    requires |toc| == 16 + |tocData| && |header| <= BODY_OFFSET && tocEnd == AlignUp(pos, alignment) + 16 + |tocData|
    requires Replay(f0, AlignedChunkWrites(pos, alignment, TOC_TAG, tocData, encrypted)
       + AlignedChunkWrites(tocEnd, alignment, ITOC_TAG, itocData, encrypted)
       + HeaderWrites(headerData, encrypted))
      == WithHeader(AlignedWrite(AlignedWrite(f0, pos, alignment, toc), tocEnd, alignment, itoc), header)
    ensures Replay(f0, CloseLog(pos, alignment, encrypted, tocData, itocData, headerData))
      == WithHeader(IndexWrites(f0, pos, alignment, toc, itoc), header)
  {
    CloseLogParts(pos, tocEnd, alignment, encrypted, tocData, itocData, headerData);
    IndexWritesUnfold(f0, pos, alignment, toc, itoc, tocEnd);
  }

  /** Appending the three parts of the log of `close` one after the other is appending the log. */
  lemma CloseLogAppended(w: seq<Write>, w0: seq<Write>, pos: nat, next: nat, alignment: nat, encrypted: bool,
                         tocData: seq<byte>, itocData: seq<byte>, headerData: seq<byte>)
    requires alignment > 0 && |tocData| < LENGTH_LIMIT && |itocData| < LENGTH_LIMIT && 16 + |headerData| <= BODY_OFFSET
    requires next == AlignUp(pos, alignment) + 16 + |tocData|
    requires w == w0 + AlignedChunkWrites(pos, alignment, TOC_TAG, tocData, encrypted)
      + AlignedChunkWrites(next, alignment, ITOC_TAG, itocData, encrypted)
      + HeaderWrites(headerData, encrypted)
    ensures w == w0 + CloseLog(pos, alignment, encrypted, tocData, itocData, headerData)
  {
    CloseLogParts(pos, next, alignment, encrypted, tocData, itocData, headerData);
    var a := AlignedChunkWrites(pos, alignment, TOC_TAG, tocData, encrypted);
    var b := AlignedChunkWrites(next, alignment, ITOC_TAG, itocData, encrypted);
    var h := HeaderWrites(headerData, encrypted);
    AppendThree(w0, a, b, h);
  }

  lemma CloseLogParts(pos: nat, next: nat, alignment: nat, encrypted: bool,
                      tocData: seq<byte>, itocData: seq<byte>, headerData: seq<byte>)
    requires alignment > 0 && |tocData| < LENGTH_LIMIT && |itocData| < LENGTH_LIMIT && 16 + |headerData| <= BODY_OFFSET
    requires next == AlignUp(pos, alignment) + 16 + |tocData|
    ensures CloseLog(pos, alignment, encrypted, tocData, itocData, headerData)
      == AlignedChunkWrites(pos, alignment, TOC_TAG, tocData, encrypted)
       + AlignedChunkWrites(next, alignment, ITOC_TAG, itocData, encrypted)
       + HeaderWrites(headerData, encrypted)
  {
  }

  /** After the log of `close`, the archive is closed and every file is still readable. */
  lemma ClosedContents(w0: seq<Write>, p0: nat, alignment: nat, contentOffset: nat,
                       s: seq<StagingToc>, contents: seq<seq<byte>>, encrypted: bool,
                       tocData: seq<byte>, itocData: seq<byte>, headerData: seq<byte>)
    requires alignment > 0 && BODY_OFFSET <= contentOffset <= p0 && |Contents(w0)| <= p0
    requires Stored(Contents(w0), s, contents) && Within(s, contentOffset, p0)
    requires |tocData| < LENGTH_LIMIT && |itocData| < LENGTH_LIMIT && 16 + |headerData| <= BODY_OFFSET
    ensures Chunk(TOC_TAG, tocData, encrypted).Ok? && Chunk(ITOC_TAG, itocData, encrypted).Ok?
    ensures Chunk(CPK_TAG, headerData, encrypted).Ok?
    ensures ClosedFile(Contents(w0 + CloseLog(p0, alignment, encrypted, tocData, itocData, headerData)),
                       Chunk(CPK_TAG, headerData, encrypted).value,
                       AlignUp(p0, alignment), Chunk(TOC_TAG, tocData, encrypted).value,
                       AlignUp(AlignUp(p0, alignment) + 16 + |tocData|, alignment), Chunk(ITOC_TAG, itocData, encrypted).value)
    ensures Stored(Contents(w0 + CloseLog(p0, alignment, encrypted, tocData, itocData, headerData)), s, contents)
  {
    var log := CloseLog(p0, alignment, encrypted, tocData, itocData, headerData);
    var toc := Chunk(TOC_TAG, tocData, encrypted).value;
    var itoc := Chunk(ITOC_TAG, itocData, encrypted).value;
    var header := Chunk(CPK_TAG, headerData, encrypted).value;
    var f0 := Contents(w0);
    var f6 := WithHeader(IndexWrites(f0, p0, alignment, toc, itoc), header);
    assert Contents(w0 + log) == f6 by {
      ReplayAppend([], w0, log);
      CloseLogReplay(f0, p0, alignment, encrypted, tocData, itocData, headerData, toc, itoc, header);
    }
    assert ClosedFile(f6, header, AlignUp(p0, alignment), toc, AlignUp(AlignUp(p0, alignment) + 16 + |tocData|, alignment), itoc)
        && Stored(f6, s, contents) by {
      CloseWrites(f0, p0, alignment, contentOffset, s, contents, toc, itoc, header);
    }
  }

  /**
   * `close` from a consistent writer: once its log is appended, the file is
   * a closed archive with the index chunks where the layout says, and every
   * file written before is still readable where it was placed.
   */
  lemma CloseKeepsFiles(writes: seq<Write>, pos: nat, ids: set<int>, names: set<string>,
                        staging: seq<StagingToc>, contents: seq<seq<byte>>, contentOffset: nat, alignment: nat,
                        encrypted: bool, tocData: seq<byte>, itocData: seq<byte>, headerData: seq<byte>)
    requires Consistent(writes, pos, ids, names, staging, contents, contentOffset, alignment)
    requires |tocData| < LENGTH_LIMIT && |itocData| < LENGTH_LIMIT && 16 + |headerData| <= BODY_OFFSET
    ensures Chunk(TOC_TAG, tocData, encrypted).Ok? && Chunk(ITOC_TAG, itocData, encrypted).Ok?
    ensures Chunk(CPK_TAG, headerData, encrypted).Ok?
    ensures ClosedFile(Contents(writes + CloseLog(pos, alignment, encrypted, tocData, itocData, headerData)),
                       Chunk(CPK_TAG, headerData, encrypted).value,
                       AlignUp(pos, alignment), Chunk(TOC_TAG, tocData, encrypted).value,
                       AlignUp(AlignUp(pos, alignment) + 16 + |tocData|, alignment), Chunk(ITOC_TAG, itocData, encrypted).value)
    ensures Stored(Contents(writes + CloseLog(pos, alignment, encrypted, tocData, itocData, headerData)), staging, contents)
  {
    PlacedLayout(staging, contentOffset, alignment, pos);
    ClosedContents(writes, pos, alignment, contentOffset, staging, contents, encrypted, tocData, itocData, headerData);
  }


  /** `write_file`'s two writes, seen through the log: the layout of `Appended`. */
  lemma AppendedLog(before: seq<Write>, end: nat, alignment: nat, contentOffset: nat,
                    s: seq<StagingToc>, contents: seq<seq<byte>>, id: int, name: string, data: seq<byte>)
    requires alignment > 0 && Placed(s, contentOffset, alignment, end)
    requires Stored(Contents(before), s, contents) && |Contents(before)| <= end
    ensures Placed(s + [StagingToc(id, name, AlignUp(end, alignment), |data|)], contentOffset, alignment,
                   AlignUp(end, alignment) + |data|)
    ensures Stored(Contents(before + [Write(end, Zeros(Padding(end, alignment))), Write(AlignUp(end, alignment), data)]),
                   s + [StagingToc(id, name, AlignUp(end, alignment), |data|)], contents + [data])
    ensures |Contents(before + [Write(end, Zeros(Padding(end, alignment))), Write(AlignUp(end, alignment), data)])|
      <= AlignUp(end, alignment) + |data|
    ensures data != [] ==>
      ReadAt(Contents(before + [Write(end, Zeros(Padding(end, alignment))), Write(AlignUp(end, alignment), data)]),
             AlignUp(end, alignment), |data|) == Some(data)
  {
    var pad := Write(end, Zeros(Padding(end, alignment)));
    var w := Write(AlignUp(end, alignment), data);
    ContentsSnoc(before, pad);
    ContentsSnoc(before + [pad], w);
    assert before + [pad, w] == before + [pad] + [w];
    Appended(Contents(before), end, alignment, contentOffset, s, contents, id, name, data);
  }

  /**
   * What `write_file` does to the layout: the new file goes at the next
   * aligned position after the last one, and every file stays readable.
   */
  lemma Appended(before: seq<byte>, end: nat, alignment: nat, contentOffset: nat,
                 s: seq<StagingToc>, contents: seq<seq<byte>>, id: int, name: string, data: seq<byte>)
    requires alignment > 0 && Placed(s, contentOffset, alignment, end)
    requires Stored(before, s, contents) && |before| <= end
    ensures Placed(s + [StagingToc(id, name, AlignUp(end, alignment), |data|)], contentOffset, alignment,
                   AlignUp(end, alignment) + |data|)
    ensures Stored(AlignedWrite(before, end, alignment, data),
                   s + [StagingToc(id, name, AlignUp(end, alignment), |data|)], contents + [data])
    ensures |AlignedWrite(before, end, alignment, data)| <= AlignUp(end, alignment) + |data|
    ensures data != [] ==> ReadAt(AlignedWrite(before, end, alignment, data), AlignUp(end, alignment), |data|) == Some(data)
  {
    var offset := AlignUp(end, alignment);
    var padded := WriteAt(before, end, Zeros(Padding(end, alignment)));
    var after := WriteAt(padded, offset, data);
    var e := StagingToc(id, name, offset, |data|);
    PlacedLayout(s, contentOffset, alignment, end);
    PlacedSnoc(s, contentOffset, alignment, end, e);
    KeepStored(before, end, Zeros(Padding(end, alignment)), s, contents, contentOffset, end);
    KeepStored(padded, offset, data, s, contents, contentOffset, end);
    if data != [] {
      ReadWhatWasWritten(padded, offset, data);
    }
    var s2 := s + [e];
    var c2 := contents + [data];
    forall i | 0 <= i < |s2|
      ensures |c2[i]| == s2[i].size
      ensures c2[i] != [] ==> ReadAt(after, s2[i].offset, s2[i].size) == Some(c2[i])
    {
      if i < |s| {
        assert s2[i] == s[i] && c2[i] == contents[i];
      }
    }
  }

  /** Appending a file whose id is taken keeps every staged id taken. */
  lemma IdsAppended(s: seq<StagingToc>, ids: set<int>, e: StagingToc)
    requires (forall i :: 0 <= i < |s| ==> s[i].id in ids) && e.id in ids
    ensures forall i :: 0 <= i < |s + [e]| ==> (s + [e])[i].id in ids
  {
    forall i | 0 <= i < |s + [e]| ensures (s + [e])[i].id in ids {
      if i < |s| {
        assert (s + [e])[i] == s[i];
      }
    }
  }

  /** Recording a file under a new name adds that name, and names stay distinct. */
  lemma NamesAppended(s: seq<StagingToc>, id: int, name: string, offset: nat, size: nat)
    requires DistinctNames(s) && name !in NameSet(s)
    ensures NameSet(s + [StagingToc(id, name, offset, size)]) == NameSet(s) + {name}
    ensures DistinctNames(s + [StagingToc(id, name, offset, size)])
  {
    var s2 := s + [StagingToc(id, name, offset, size)];
    forall i | 0 <= i < |s| ensures s2[i].name in NameSet(s) {
      assert s2[i] == s[i];
    }
    assert s2[|s|].name == name;
    forall x | x in NameSet(s2) ensures x in NameSet(s) + {name} {
      var i :| 0 <= i < |s2| && s2[i].name == x;
      if i < |s| {
        assert s2[i] == s[i];
      }
    }
    forall x | x in NameSet(s) ensures x in NameSet(s2) {
      var i :| 0 <= i < |s| && s[i].name == x;
      assert s2[i] == s[i];
    }
  }
}
