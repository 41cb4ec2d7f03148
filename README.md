# coalesc3 patch compiler and CPK archive codec, in Dafny

This project models the core of coalesc3, the build system that turns
fan translations of visual-novel scripts into distributable patches, and
proves properties of that model. The modelled parts are:

- the **patch preprocessor** (`PatchPreprocessor` in lib/ScriptPatcher.py),
  which resolves `$$NAME` constant tags and expands `+/Macro args` lines
  through the macro table, re-scanning each expansion so that nested
  invocations are expanded too, and which numbers `@label(auto_N)` and
  `@ra(auto_N)` per `@@` block;
- the **patch aggregator** (`ScriptPatcher`), which collects preprocessed
  script patches and translated message lines, refuses a duplicate
  (script, language, index) slot, concatenates the patches in key order,
  and merges the message tables into the loaded MST files, renumbering
  lines when an SCT-formatted translation feeds MST output;
- the **translation line injection** (`TranslationProcessor`), which
  derives each translation file's script name, decides per entry whether
  the line is replaced, removed or split across new indices, and generates
  the `remove_mes` and `extend_mes` patches for the two save-addressing
  methods (return address and instruction pointer);
- the shared value types of lib/types.py (`ScSPatchLine`, `ScSPatch`,
  `Language`, `ScriptFormat`, `BuildInfo`) and the MST line format of
  lib/utils.py;
- the CRI archive layer: the CRILAYLA decompressor, the table cipher, and
  the CPK writer and reader. For these, the model proves that a file
  written into an archive can be read back where the TOC places it.

Modules follow the source files:

| module | file | source |
|---|---|---|
| `Wrappers` | wrappers.dfy | Option and Result |
| `Bytes` | bytes.dfy | little-endian integers and seekable writes (the read and write helpers the CRI code imports) |
| `OrderedDict`, `Sorting` | collections.dfy | Python's insertion-ordered `dict`, and stable `sort(key=...)` |
| `PyText` | pytext.dfy | the `str` methods the core relies on (`split`, `strip`, `splitlines`, `int`, `str`) |
| `Utf` | utf.dfy | the row interface of `@UTF` tables (values only) |
| `CpkCommon` | cpk_common.dfy | lib/cri/cpk/_common.py |
| `Crilayla` | crilayla.dfy | lib/cri/crilayla.py |
| `CpkWriter` | cpk_writer.dfy | lib/cri/cpk/writer.py |
| `CpkReader` | cpk_reader.dfy | lib/cri/cpk/reader.py |
| `PatchTypes` | patch_types.dfy | lib/types.py |
| `MstFiles` | mst_files.dfy | lib/utils.py |
| `MacroTable`, `MacroFacts` | macro_table.dfy, macro_facts.dfy | `MACRO_TABLE` and its entries in lib/ScriptPatcher.py |
| `Preprocess` | preprocess.dfy | `PatchPreprocessor`, as functions over its state |
| `Patcher` | script_patcher.dfy | the `ScriptPatcher` and `PatchPreprocessor` classes |
| `PatchApply` | patch_apply.dfy | `_apply_mst_patches`, table by table |
| `TranslationText`, `Translation` | translation_text.dfy, translation.dfy | lib/TranslationProcessor.py |

Classes whose fields the source updates in place are Dafny classes:
`Patcher.ScriptPatcher`, `Patcher.PatchPreprocessor`,
`PatchTypes.Patch`, `Translation.TranslationProcessor`, `CpkWriter.Writer`
and `CpkReader.Reader`. Their methods are proved against the
specification functions beside them. The writer's file is a log of writes
(`Bytes.Write`), and `Bytes.Contents` replays it.

Three points where the code reads differently from what its names and
callers suggest:

- `load_mst` (lib/utils.py:60-68) takes only a path and keeps every line
  under its own index. Its callers pass a line increment and a comment
  flag as well (lib/ScriptPatcher.py:62, lib/TranslationProcessor.py:32),
  which the function does not accept. The model's loader is the
  one-parameter function as written; see Findings for the call.
- `re.match(r"_[0-9]{2}$", script)` (lib/TranslationProcessor.py:41) is
  anchored at the start of the name, so it accepts only a name that is
  exactly `_NN`. The two statements it guards take `script[-2:]` as the
  language and keep `script[:-3]` as the name, which only makes sense for
  a suffix after a real name. `TargetAsWritten` is the test as written and
  `Target` the suffix test; the operations use `Target` (see Findings and
  "## Left out").
- The voiced-line pattern at lib/TranslationProcessor.py:61 is compared
  with its characters as they are stored in the file: three code points,
  U+00E3 U+20AC U+201D. These are the three UTF-8 bytes of the bracket
  U+3014 read back as Windows-1252 text, so the pattern most likely meant
  that bracket. The model keeps the three code points.

Where a Findings row records a defect, the corrected member is the one
the class methods run; each such method is listed under "## Left out".

## Model

| member | source | states |
|---|---|---|
| CpkCommon.CryptSpec | lib/cri/cpk/_common.py:4-10 | each output byte is the input byte XOR the key at its position; the length is kept |
| CpkCommon.Crypt | lib/cri/cpk/_common.py:4-10 | the in-place XOR loop over a copy, with the key multiplied by 0x15 modulo 256 each step, yields exactly `CryptSpec` |
| CpkCommon.CryptInvolution | lib/cri/cpk/_common.py:4-10 | the cipher is its own inverse: enciphering twice gives back the data |
| CpkCommon.CryptLocal | lib/cri/cpk/_common.py:7-9 | output byte i depends only on input byte i and on i |
| CpkCommon.CryptPrefix | lib/cri/cpk/_common.py:4-10 | enciphering a longer message begins with the encipherment of its prefix |
| Crilayla.ReadBits | lib/cri/crilayla.py:59-63 | reading succeeds exactly when enough bits remain (otherwise the negative-shift error); the value fits in `count` bits and `count` bits are consumed |
| Crilayla.BitStream.constructor | lib/cri/crilayla.py:55-57 | the stream holds the bytes as one little-endian integer with 8 bits per byte left |
| Crilayla.BitStream.Read | lib/cri/crilayla.py:59-63 | reads the next `count` bits as `ReadBits` does and consumes them; on error nothing is consumed |
| Crilayla.ReadBitsCompose | lib/cri/crilayla.py:59-63 | reading `a` then `b` bits equals reading `a + b` bits at once, the first read being the high part |
| Crilayla.Snapshot | lib/cri/crilayla.py:40 | Python's `buffer[start:]`: a plain suffix for an in-range start, empty exactly when the buffer is empty or the start is at or past its end |
| Crilayla.Cycle | lib/cri/crilayla.py:42-45 | `n` bytes cycling through the data: byte i is `data[i % |data|]` |
| Crilayla.CopySpec | lib/cri/crilayla.py:39-45 | a copy fails (never finishes) exactly when bytes are wanted from an empty snapshot; otherwise it appends `length` bytes and keeps the buffer as its prefix |
| Crilayla.Copy | lib/cri/crilayla.py:39-45 | the chunked `while length` loop appends exactly `CopySpec`'s result |
| Crilayla.CopyRepeats | lib/cri/crilayla.py:32-45 | a back-reference `offset` bytes behind the end succeeds and every appended byte equals the byte `offset` positions earlier, so overlapping copies repeat the output |
| Crilayla.ChunkWidth | lib/cri/crilayla.py:48-51 | the chunk widths 2, 3, 5, then 8 for ever; each at least 2 |
| Crilayla.ReadLength | lib/cri/crilayla.py:26-31 | the length only grows from its start value, and reading it consumes bits |
| Crilayla.Step | lib/cri/crilayla.py:22-32 | one token consumes bits and extends the output, keeping what was there |
| Crilayla.LiteralToken | lib/cri/crilayla.py:22-23 | a token whose first nine bits are below 256 appends exactly those bits as one byte and consumes nine bits |
| Crilayla.BackReferenceToken | lib/cri/crilayla.py:24-32 | a back-reference token appends at least three bytes, each equal to the byte `3 + read(13)` positions before it |
| Crilayla.Reverse | lib/cri/crilayla.py:35 | byte i of the result is byte `|s| - 1 - i` of the input |
| Crilayla.Run | lib/cri/crilayla.py:21-36 | a successful run yields exactly `size` bytes |
| Crilayla.ReadCopyLength | lib/cri/crilayla.py:26-31 | the chunk loop computes the length `ReadLength` gives from 3, consuming the same bits, or its error |
| Crilayla.DecodeToken | lib/cri/crilayla.py:22-32 | one pass of the loop produces `Step`'s output and remaining bits, or its error |
| Crilayla.DecodeBody | lib/cri/crilayla.py:18-36 | `_decode` on the encoded bytes is `Run` from an empty buffer with 8 bits per byte |
| Crilayla.Magic | lib/cri/crilayla.py:7 | the signature read first is eight bytes long (the text `CRILAYLA`) |
| Crilayla.DecodeSpec | lib/cri/crilayla.py:6-15 | input shorter than the header or without the signature is an error; a success is the 256 stored bytes followed by exactly `size` decoded bytes |
| Crilayla.Decode | lib/cri/crilayla.py:6-15 | reading the header fields in order and decoding gives exactly `DecodeSpec` |
| CpkReader.PyMod | lib/cri/cpk/reader.py:95 | Python's `%`: for a positive divisor the usual remainder in `[0, d)`; for a negative one a remainder in `(d, 0]` |
| CpkReader.PyModIsMod | lib/cri/cpk/reader.py:95 | for a positive divisor the reader's remainder is the writer's padding remainder |
| CpkReader.Aligned | lib/cri/cpk/reader.py:95 | `offset += -offset % alignment`: a positive alignment gives the least multiple at or after `offset`; a negative one moves back by less than the alignment |
| CpkReader.AlignedStep | lib/cri/cpk/reader.py:95 | `Aligned` is exactly the statement's `offset + (-offset % alignment)` |
| CpkReader.DecodeTable | lib/cri/cpk/reader.py:128 | the table codec's result, its failure reported as a bad table |
| CpkReader.ReadTable | lib/cri/cpk/reader.py:119-128 | a short read or a tag mismatch is an error; a success had the tag, a 16-byte head and the whole body, and decodes the body deciphered exactly when the flag word is 0 |
| CpkReader.ReadSpanTable | lib/cri/cpk/reader.py:114-117 | a negative offset or size, or a span past the end of the file, is an error; otherwise the table read from exactly that span |
| CpkReader.ChunkReadBack | lib/cri/cpk/reader.py:119-128 | a chunk the writer produced, followed by anything, reads back as the table its data encodes (in either cipher mode) |
| CpkReader.HeadReadBack | lib/cri/cpk/reader.py:43 | the chunk at the start of a file is the header table the reader finds |
| CpkReader.SpanReadBack | lib/cri/cpk/reader.py:114-117 | the chunk at `offset` is the table the reader finds in the span of its length |
| CpkReader.IntColumn | lib/cri/cpk/reader.py:62-64 | a column read succeeds exactly when the row has the column and it holds an integer, which is the value |
| CpkReader.BlobColumn | lib/cri/cpk/reader.py:55-56 | a column read succeeds exactly when the row has the column and it holds bytes, which are the value |
| CpkReader.ReadHeader | lib/cri/cpk/reader.py:43-44 | the header is found exactly when the table at offset 0 reads and has one row, which is the header |
| CpkReader.RowEntry | lib/cri/cpk/reader.py:61-65 | a staging entry exists exactly when ID, FileSize and ExtractSize are integers, and carries those values |
| CpkReader.TocRowEntry | lib/cri/cpk/reader.py:61-65 | a TOC row the writer built is read as that file's id with both sizes equal to its length, so the file is read back raw |
| CpkReader.RowsStaging | lib/cri/cpk/reader.py:58-66 | every row gives its own staging entry, in row order, or the whole read fails |
| CpkReader.Mode0Staging | lib/cri/cpk/reader.py:51-68 | mode 0 yields the DataL and DataH rows sorted by id; a missing or mistyped ItocOffset is that error |
| CpkReader.KeyedBy | lib/cri/cpk/reader.py:72 | every row paired with its integer key, in order, or the error when some row lacks one |
| CpkReader.SecondColumn | lib/cri/cpk/reader.py:74 | the rows of the pairs, in order |
| CpkReader.ZipIds | lib/cri/cpk/reader.py:74 | `zip(itoc, toc)`: up to the shorter of the two, each TOC row keyed by the id at its position |
| CpkReader.Mode2Pairs | lib/cri/cpk/reader.py:71-74 | the TOC rows keyed by the ITOC ids (ITOC sorted by TocIndex) come out sorted by id |
| CpkReader.TransposedRows | lib/cri/cpk/reader.py:74 | `tuple(zip(*pairs))[1]` fails exactly when there are no pairs; otherwise it is the rows |
| CpkReader.NumberedStaging | lib/cri/cpk/reader.py:76-83 | the rows numbered from `first` with their FileSize and ExtractSize, succeeding exactly when every row has both |
| CpkReader.Mode2StagingAsWritten | lib/cri/cpk/reader.py:70-83 | as written, an archive in mode 2 with no files fails at the transposition |
| CpkReader.Mode2Staging | lib/cri/cpk/reader.py:70-83 | mode 2 numbers the files 0, 1, ... as their ids; with no files the list is empty |
| CpkReader.Mode2Agrees | lib/cri/cpk/reader.py:70-83 | the as-written and corrected mode 2 agree on every archive whose index pairs are not empty |
| CpkReader.StagingOf | lib/cri/cpk/reader.py:46-86 | an ITOC size of 0 and any mode other than 0 and 2 are not implemented; mode 0 gives its file list, and mode 2 the corrected `Mode2Staging` list, so an empty mode-2 archive gives no files where the source raises (see Findings) |
| CpkReader.Ranges | lib/cri/cpk/reader.py:89-110 | one range per file, with that file's two sizes |
| CpkReader.EntriesOf | lib/cri/cpk/reader.py:104-108 | entry i has index i and the id of file i |
| CpkReader.ByIdLast | lib/cri/cpk/reader.py:109 | every id is recorded, each with the entry of the LAST file that has it |
| CpkReader.PlaceFiles | lib/cri/cpk/reader.py:89-112 | with no files nothing is placed; alignment 0 is a division by zero; a success has the ranges, entries and id map of the files |
| CpkReader.InfoSpec | lib/cri/cpk/reader.py:42-112 | a success read a header and file list; every entry is at its own index and every id maps to the entry at that index |
| CpkReader.PlaceStep | lib/cri/cpk/reader.py:94-110 | one pass of the placement loop extends the offset, ranges, entries and id map as the specification functions do |
| CpkReader.RangesPlaced | lib/cri/cpk/reader.py:94-110 | with a positive alignment, files are aligned, start at or after the content offset, and do not overlap |
| CpkReader.ReaderFindsWrittenFiles | lib/cri/cpk/reader.py:89-110 | when the reader walks the files in the order the writer wrote them, it finds each one exactly where the writer put it; since mode 2 walks them by ascending id, this holds for archives whose files were written in ascending id order |
| CpkReader.Reader.constructor | lib/cri/cpk/reader.py:25-27 | a reader starts over the file with nothing placed yet |
| CpkReader.Reader.Open | lib/cri/cpk/reader.py:25-27 | opening fails exactly when `InfoSpec` fails, with its error; otherwise the reader holds `InfoSpec`'s layout |
| CpkReader.Reader.ReadInfo | lib/cri/cpk/reader.py:42-112 | `_read_info` records exactly the layout of `InfoSpec`, or fails with its error |
| CpkReader.Reader.PlaceAll | lib/cri/cpk/reader.py:89-110 | the placement loop produces exactly `Ranges`, `EntriesOf` and `ById` |
| CpkReader.Reader.GetById | lib/cri/cpk/reader.py:29-30 | an id is found exactly when recorded, with its entry; otherwise a key error |
| CpkReader.Reader.ReadFile | lib/cri/cpk/reader.py:32-40 | `read_file` returns exactly `ReadFileSpec` |
| CpkReader.Position | lib/cri/cpk/reader.py:33 | Python indexing: a negative index counts from the end |
| CpkReader.ReadFileSpec | lib/cri/cpk/reader.py:32-40 | an index out of range is an error; a success has the file's size, and when both sizes agree it is exactly the stored bytes |
| CpkReader.ClosedArchiveReadBack | lib/cri/cpk/reader.py:42-74 | an archive closed by the writer reads back its header row, TOC and ITOC, and is read in mode 2 |
| CpkReader.HeaderRowMode | lib/cri/cpk/reader.py:46-50 | the header row the writer builds has a non-empty ITOC and mode 2 |
| MstFiles.LoadText | lib/utils.py:38-40 | reading as `utf-8-sig` drops a leading byte-order mark and nothing else |
| MstFiles.SaveLines | lib/utils.py:42-47 | only no lines give an empty file; lines without breaks (the first not starting with a byte-order mark) load back as the same lines |
| MstFiles.LoadCls | lib/utils.py:49-51 | line i of the file is stored under key i, keys in line order |
| MstFiles.SortedIndices | lib/utils.py:56 | `sorted(entries.keys())`: a rearrangement of exactly the table's keys |
| MstFiles.EntryLines | lib/utils.py:54-57 | one `index:text` line per key, in the order given |
| MstFiles.ParseEntry | lib/utils.py:63-64 | a line fails exactly when it has no colon or the text before the first colon is not an integer |
| MstFiles.ParseEntryLine | lib/utils.py:55-64 | a line `save_mst` writes parses back to its index and text |
| MstFiles.Parsed | lib/utils.py:62-64 | each line's parse outcome, in line order |
| MstFiles.Collect | lib/utils.py:61-68 | a built table has one key per line, in line order, each with its line's text |
| MstFiles.CollectOk | lib/utils.py:61-68 | building the table succeeds exactly when every line parsed and no index repeats |
| MstFiles.CollectFirstError | lib/utils.py:61-68 | once building has failed, later lines change nothing: the first error is reported |
| MstFiles.FirstErrorIsFinal | lib/utils.py:61-68 | an error within the first n lines is the error of the whole file |
| MstFiles.ParseEntries | lib/utils.py:60-68 | loading succeeds exactly when every line parses and no index repeats; then one entry per line, in line order |
| MstFiles.DuplicateRejected | lib/utils.py:65-66 | a repeated index makes loading fail, whatever the texts |
| MstFiles.LoadMst | lib/utils.py:60-68 | `load_mst` with the path as its only argument yields exactly `ParseEntries` of the file's lines |
| MstFiles.ReadEntries | lib/utils.py:61-68 | the loop over the lines yields exactly `ParseEntries` |
| MstFiles.CollectOkEntries | lib/utils.py:61-68 | lines with distinct indices build exactly those entries, in line order |
| MstFiles.SaveMstLines | lib/utils.py:53-58 | the lines `save_mst` writes load back one per entry, in ascending index order |
| MstFiles.SaveMst | lib/utils.py:53-58 | `save_mst` writes nothing exactly when the table is empty (the round trip is `MstRoundTrip`) |
| MstFiles.ParseEntryLines | lib/utils.py:53-68 | lines written for distinct keys load back as exactly those entries, in the same order |
| MstFiles.ParseTableLines | lib/utils.py:53-68 | the lines written for a whole table load back as that table, keyed in ascending order |
| MstFiles.MstRoundTrip | lib/utils.py:53-68 | saving a table and loading it back gives the same entries when no text holds a line break |
| MstFiles.LinesOfTable | lib/utils.py:54-57 | the lines `save_mst` writes hold no line break and the first does not start with a byte-order mark |
| PyText.RemoveSuffix | lib/ScriptPatcher.py:178 | `removesuffix`: with the suffix, what remains followed by the suffix is the string; without it, the string itself |
| PyText.LStripShape | lib/ScriptPatcher.py:119 | `lstrip()` removes exactly a leading run of blanks: the result is a suffix that is empty or starts with a non-blank |
| PyText.RStripShape | lib/ScriptPatcher.py:133 | `rstrip()` removes exactly a trailing run of blanks: the result is a prefix that is empty or ends with a non-blank |
| PyText.RStripAppend | lib/ScriptPatcher.py:133 | the trailing blanks of `p + t` come from `t` unless `t` is blank throughout |
| PyText.IndexOf | lib/ScriptPatcher.py:179 | `find` of one character: -1 exactly when absent, otherwise the first position holding it |
| PyText.Find | lib/ScriptPatcher.py:141 | `find("$$")`: -1 or an occurrence, with no occurrence before it |
| PyText.SplitChar | lib/ScriptPatcher.py:187 | `split(",")`: at least one piece, none containing the separator |
| PyText.SplitOnce | lib/ScriptPatcher.py:396 | `split(":", 1)`: none exactly when there is no colon; otherwise the text before the first colon and the rest, which rebuild the string |
| PyText.BeforeFirst | lib/ScriptPatcher.py:386 | `split(":", 1)[0]`: a colon-free prefix of the string |
| PyText.SplitStr | lib/TranslationProcessor.py:51 | `split(sep)`: one piece exactly when the separator does not occur; no piece contains it |
| PyText.SplitFirstWord | lib/ScriptPatcher.py:153 | `split(None, 1)`: nothing exactly when the text is blank; otherwise a non-empty word with no blank in it |
| PyText.WordEnd | lib/ScriptPatcher.py:153 | the first word ends at the first blank or at the end |
| PyText.LineEnd | lib/ScriptPatcher.py:96 | the first line ends at the first line break or at the end |
| PyText.SplitLines | lib/ScriptPatcher.py:96 | `splitlines()`: no piece holds a line break; only the empty string has no lines |
| PyText.ConcatAppend | lib/TranslationProcessor.py:103-105 | `+=` of one more piece extends the joined text by that piece |
| PyText.TerminatedAppend | lib/TranslationProcessor.py:103-105 | one more newline-terminated line extends the text by the line and a newline |
| PyText.TerminatedConcat | lib/TranslationProcessor.py:93-134 | the newline-terminated text of two blocks is the text of the first followed by the second |
| PyText.SplitLinesTerminated | lib/ScriptPatcher.py:96 | `splitlines()` gives back the lines of a newline-terminated text when no line holds a break |
| PyText.SplitLinesCons | lib/ScriptPatcher.py:96 | a line, a newline and a rest split into that line followed by the lines of the rest |
| PyText.NatToStr | lib/ScriptPatcher.py:149 | decimal digits only, never empty |
| PyText.IntToStr | lib/ScriptPatcher.py:149 | `str()` of an integer: never empty, digits and a minus sign only |
| PyText.NatToStrValue | lib/ScriptPatcher.py:149 | the digits `NatToStr` prints have the number's value |
| PyText.IntToStrRoundTrip | lib/ScriptPatcher.py:180 | `int(str(i)) == i` for every integer |
| PyText.NegativeRoundTrip | lib/ScriptPatcher.py:180 | `int(str(i)) == i` for a negative integer |
| PyText.ParseSigned | lib/ScriptPatcher.py:180 | a minus sign and digits parse as the negated digits |
| PyText.ParseUnsigned | lib/ScriptPatcher.py:180 | digits alone parse as their value |
| PyText.IntToStrPlain | lib/ScriptPatcher.py:149 | `str()` of an integer holds no blank, no line break and no colon |
| PyText.StripOfNoSpace | lib/ScriptPatcher.py:187 | a string of digits and minus signs is unchanged by `strip()` |
| PyText.IntToStrInjective | lib/TranslationProcessor.py:104 | distinct integers print differently |
| PyText.LexLeTotal | lib/ScriptPatcher.py:44 | Python's string order compares any two strings |
| PyText.LexLeTransitive | lib/ScriptPatcher.py:44 | Python's string order is transitive |
| PyText.LexLeAntisymmetric | lib/ScriptPatcher.py:44 | two strings each at most the other are equal |
| MacroTable.ParseArgs | lib/ScriptPatcher.py:187 | unpacking `args.split(",")` into `n` names succeeds exactly when there are `n` pieces; each value is stripped (stripping again changes nothing) |
| MacroTable.StripTwice | lib/ScriptPatcher.py:187 | stripping is idempotent |
| MacroTable.FramesOf | lib/ScriptPatcher.py:395 | `int(time) * 3 // 50` is the floor of `time * 3 / 50`, also for negative times |
| MacroTable.BadTicks | lib/ScriptPatcher.py:393-400 | no conversion error exactly when every `int()` field of the template parses |
| MacroTable.BadColon | lib/ScriptPatcher.py:403-412 | no split error exactly when every field split on `:` has a colon |
| MacroTable.Instantiate | lib/ScriptPatcher.py:393-400 | a handler raises exactly when its arguments do not unpack, an `int()` fails, or a `:` split fails |
| MacroTable.MoveBgNowaitCallsUnregistered | lib/ScriptPatcher.py:570-578 | `MoveBgNowait` as written ends with `/CallFarRL 6, 1547`, and no handler is registered under `CallFarRL` |
| MacroTable.Lookup | lib/ScriptPatcher.py:83-91 | `MACRO_TABLE.get(name)`: `Msb` is the one name whose handler registers a message line instead of expanding to text |
| MacroTable.Handler | lib/ScriptPatcher.py:83-91 | the handler table is `MACRO_TABLE` for every name other than `MoveBgNowait` |
| MacroTable.MoveBgNowaitFixedCallsRegistered | lib/ScriptPatcher.py:570-578 | the corrected `MoveBgNowait` differs from the original only in its last line, which invokes the registered `CallFar` |
| MacroFacts.InsertedTail | lib/ScriptPatcher.py:132-137 | the last line of `MoveBgNowait`'s expansion is inserted as `+` and a tab before its text |
| MacroFacts.TailIsMacroLine | lib/ScriptPatcher.py:116-126 | an inserted line made of a tab and a `/` invocation is itself a macro line, with the same invocation, so it is expanded in its turn |
| MacroFacts.BlankLStrip | lib/ScriptPatcher.py:119 | a leading blank is dropped by `lstrip()` |
| MacroFacts.SplitWordBlank | lib/ScriptPatcher.py:153 | a word, one blank and an argument text not starting with a blank split into the word and that text |
| MacroFacts.SplitCallFarRL | lib/ScriptPatcher.py:153 | `CallFarRL 6, 1547` splits into the name `CallFarRL` and the arguments `6, 1547` |
| MacroFacts.CallFarRLUnrecognized | lib/ScriptPatcher.py:152-161 | with the table as written, expanding `CallFarRL 6, 1547` fails with "unrecognized macro: CallFarRL" |
| Preprocess.AddLine | lib/ScriptPatcher.py:24-35 | `add_mst_line` keeps the tables well formed (keys in insertion order, no duplicates) |
| Preprocess.AddLineExact | lib/ScriptPatcher.py:24-35 | raises "line ID conflict" exactly when the slot is taken, leaving the tables as they were; otherwise adds that one entry and every other entry keeps its text |
| Preprocess.AddLineAppends | lib/ScriptPatcher.py:29-35 | a new index goes last in its language table, as a new key of a Python dict does |
| Preprocess.NameRun | lib/ScriptPatcher.py:144 | the match of `[^\s;,)]+`: the longest run of name characters |
| Preprocess.ResolvedHasNoTag | lib/ScriptPatcher.py:139-150 | a resolved line holds no `$$` when no constant's value does |
| Preprocess.ResolveTagsOutcome | lib/ScriptPatcher.py:139-150 | a line without `$$` is kept as it is; resolution fails only on a line holding `$$`, either with no name after it or with a name that is not a constant |
| Preprocess.TagEdges | lib/ScriptPatcher.py:141-149 | around a resolved tag, the text before does not end in `$` and the resolved rest does not start with one |
| Preprocess.NoTagBeforeFirst | lib/ScriptPatcher.py:141 | the text before the first `$$` holds none |
| Preprocess.LeadingCharKept | lib/ScriptPatcher.py:139-150 | resolution never touches the first character of a line not starting with `$`, so the `#`, `+` and `@@` tests see the same character after it |
| Preprocess.NoTagInPair | lib/ScriptPatcher.py:149 | two pieces without `$$` that do not meet on two `$` join into a text without `$$` |
| Preprocess.FindFrom | lib/ScriptPatcher.py:141 | searching a text whose first `d` positions hold no `$$` is searching its tail |
| Preprocess.ResolveUnfold | lib/ScriptPatcher.py:141-149 | one round replaces the first tag by its constant's value and resolves the rest |
| Preprocess.ResolveNoName | lib/ScriptPatcher.py:144-146 | a `$$` with no name after it raises |
| Preprocess.ResolveUnknown | lib/ScriptPatcher.py:148-149 | a name with no constant raises (the dictionary lookup's KeyError) |
| Preprocess.TagLoopStart | lib/ScriptPatcher.py:139-140 | the loop invariant of `process_tags` holds on entry |
| Preprocess.TagLoopDone | lib/ScriptPatcher.py:141-143 | with no `$$` left, the loop's text is the line resolved left to right |
| Preprocess.TagLoopNoName | lib/ScriptPatcher.py:144-146 | a round that finds no name fails the whole line the same way |
| Preprocess.TagLoopUnknown | lib/ScriptPatcher.py:148-149 | a round that finds an unknown name fails the whole line the same way |
| Preprocess.TagLoopStep | lib/ScriptPatcher.py:147-149 | a round that replaces a tag keeps the loop invariant |
| Preprocess.TagStepShape | lib/ScriptPatcher.py:149 | after a round the text up to the end of the value holds no `$$` |
| Preprocess.NoTagBeforeValue | lib/ScriptPatcher.py:149 | replacing the first tag by a value without `$$` leaves no `$$` before the end of the value |
| Preprocess.LabelNameInjective | lib/ScriptPatcher.py:163-173 | `@label(auto_N)` and `@ra(auto_N)` names drawn at different counter values differ |
| Preprocess.LabelNames | lib/ScriptPatcher.py:163-167 | the `count` labels drawn with the counter at `from` are `auto_from`, `auto_from+1`, ... |
| Preprocess.RaNames | lib/ScriptPatcher.py:169-173 | the `count` return addresses drawn with the counter at `from` are `auto_from`, `auto_from+1`, ... |
| Preprocess.RegisterMessage | lib/ScriptPatcher.py:176-183 | `Msb` keeps the tables well formed |
| Preprocess.RegisterMessageStores | lib/ScriptPatcher.py:176-183 | a message registered by `Msb` reads back under the block's script (without `.scs`), the language and the index it names |
| Preprocess.ExpandMacro | lib/ScriptPatcher.py:152-161 | an expansion keeps the tables well formed and never moves the counters back |
| Preprocess.ExpandDrawsFreshNames | lib/ScriptPatcher.py:152-173 | a handler's labels and return addresses are drawn from the counters, so each differs from every name drawn before in the block |
| Preprocess.Inserted | lib/ScriptPatcher.py:132-137 | no more lines than the expansion had |
| Preprocess.InsertedTagged | lib/ScriptPatcher.py:132-137 | every inserted line starts with `+` and a tab and has something after it |
| Preprocess.InsertedSnoc | lib/ScriptPatcher.py:132-137 | one more expansion line adds its right-trimmed form unless it is blank |
| Preprocess.Splice | lib/ScriptPatcher.py:125-137 | the line at `at` replaced by `ins`: lines before it kept, `ins` in its place |
| Preprocess.SpliceByRemoval | lib/ScriptPatcher.py:125-137 | popping the line and inserting the expansion at its place is splicing the expansion in for it |
| Preprocess.Dispatch | lib/ScriptPatcher.py:116-137 | the second half of `process_line` keeps the tables well formed |
| Preprocess.DispatchIgnoresCurrentLine | lib/ScriptPatcher.py:115-137 | what the line at the cursor held before it was overwritten does not matter |
| Preprocess.Step | lib/ScriptPatcher.py:107-137 | `process_line` keeps the tables well formed |
| Preprocess.StepKeepsPlainLine | lib/ScriptPatcher.py:113-122 | a line that is not a macro line is kept with its tags resolved and the cursor moves past it |
| Preprocess.StepOpensBlock | lib/ScriptPatcher.py:109-112 | an `@@` line names the block (the rest of the line, stripped) and restarts both counters |
| Preprocess.StepRejectsEarlyMacro | lib/ScriptPatcher.py:123-124 | a macro line before any `@@` line raises "macro before patch start" |
| Preprocess.StepExpandsMacro | lib/ScriptPatcher.py:125-137 | a macro line is replaced by its expansion's lines and the cursor stays on the first of them, so nested macros are expanded later |
| Preprocess.StepKeepsDoneLines | lib/ScriptPatcher.py:107-137 | lines before the cursor never change and the cursor advances by at most one |
| Preprocess.StepKeepsDoneLinesPlain | lib/ScriptPatcher.py:107-137 | no line behind the cursor is a macro line, before and after a step |
| Preprocess.PlainAfterAdvance | lib/ScriptPatcher.py:116-122 | advancing past a non-macro line keeps the lines behind the cursor free of macros |
| Preprocess.PlainAfterSplice | lib/ScriptPatcher.py:125-137 | splicing at the cursor keeps the lines behind the cursor free of macros |
| Preprocess.RunSteps | lib/ScriptPatcher.py:102-105 | `run` keeps the tables well formed |
| Preprocess.RunStepsUnfold | lib/ScriptPatcher.py:103-104 | one turn of `run`'s loop: a failing step fails the run, otherwise the run goes on from the step's state |
| Preprocess.RunLeavesNoMacro | lib/ScriptPatcher.py:102-105 | a finished run has looked at every line and left no macro line |
| Preprocess.PreprocessedHasNoMacro | lib/ScriptPatcher.py:102-105 | the output of a finished run holds no macro line |
| Patcher.AddLineInPlace | lib/ScriptPatcher.py:24-35 | creating the script and language tables first and then assigning the line gives the tables of `AddLine` |
| Patcher.ScriptPatcher.constructor | lib/ScriptPatcher.py:12-18 | a patcher starts with no patch texts and no message tables, and with the handler table `Handler` (`MACRO_TABLE` with `MoveBgNowait` corrected, see Findings) |
| Patcher.ScriptPatcher.AddMstLine | lib/ScriptPatcher.py:24-35 | `add_mst_line` succeeds exactly when `AddLine` does, and then the tables are `AddLine`'s |
| Patcher.ScriptPatcher.AddPatch | lib/ScriptPatcher.py:20-22 | `add_patch` appends `(key, preprocessed text)` and takes the message tables the preprocessing left, or fails as it does |
| Patcher.ScriptPatcher.ApplyScsPatches | lib/ScriptPatcher.py:41-50 | the text written to `combined.patch` is `Combined` of the patches: every patch in key order followed by a blank line |
| Patcher.ScriptPatcher.ApplyMstPatches | lib/ScriptPatcher.py:52-81 | `_apply_mst_patches` with the loader called on the path alone (the corrected call, see Findings) yields exactly `ApplyAll` of the tables over the files, and leaves the patch texts alone |
| Patcher.ScriptPatcher.Run | lib/ScriptPatcher.py:37-39 | `run`: the combined patch text, then the message tables merged into the files |
| Patcher.InsertLines | lib/ScriptPatcher.py:132-137 | the insertion loop puts exactly `Inserted(expansion)` at `at`, keeping the lines around it |
| Patcher.InsertAfter | lib/ScriptPatcher.py:136-137 | inserting one more line after the ones already inserted extends the inserted block |
| Patcher.PatchPreprocessor.constructor | lib/ScriptPatcher.py:94-100 | a preprocessor starts at line 0 of the text's `splitlines()`, with no block and the patcher's tables |
| Patcher.PatchPreprocessor.Run | lib/ScriptPatcher.py:102-105 | `run` ends in the state `RunSteps` describes and returns its lines joined by newlines, or its error |
| Patcher.PatchPreprocessor.RunStep | lib/ScriptPatcher.py:103-104 | one round of the loop keeps the run's outcome: a failure is the run's failure, otherwise the rest of the run reaches the same end |
| Patcher.PatchPreprocessor.ProcessLine | lib/ScriptPatcher.py:107-137 | `process_line` moves the preprocessor to exactly `Step`'s state, or fails with its error |
| Patcher.PatchPreprocessor.DispatchLine | lib/ScriptPatcher.py:116-137 | the rest of `process_line` moves to exactly `Dispatch`'s state, or fails with its error |
| Patcher.PatchPreprocessor.ExpandLine | lib/ScriptPatcher.py:123-137 | the macro line is replaced in place by the inserted lines of its expansion, the cursor stays, the counters and tables are the expansion's; a failing handler is reported with the macro text |
| Patcher.PatchPreprocessor.ExpandedLines | lib/ScriptPatcher.py:125-137 | pop, expand, insert: the lines with the macro line spliced out for its inserted expansion, or the handler's error with the macro text |
| Patcher.PatchPreprocessor.ProcessTags | lib/ScriptPatcher.py:139-150 | the `while` loop returns exactly the line resolved left to right (`ResolveTags`), including its errors |
| Patcher.PatchPreprocessor.ProcessMacro | lib/ScriptPatcher.py:152-161 | `process_macro` returns exactly `ExpandMacro`'s text and leaves its counters and tables |
| Patcher.PatchPreprocessor.NextLabel | lib/ScriptPatcher.py:163-167 | returns the label for the current count and increments it |
| Patcher.PatchPreprocessor.NextRa | lib/ScriptPatcher.py:169-173 | returns the return address for the current count and increments it |
| Patcher.PatchPreprocessor.DrawLabels | lib/ScriptPatcher.py:163-167 | `count` calls of `next_label()` return `LabelNames` from the current count and move it by `count` |
| Patcher.PatchPreprocessor.DrawRas | lib/ScriptPatcher.py:169-173 | `count` calls of `next_ra()` return `RaNames` from the current count and move it by `count` |
| Patcher.PatchPreprocessor.Msb | lib/ScriptPatcher.py:175-183 | `Msb` leaves exactly `RegisterMessage`'s tables, or fails as it does |
| PatchApply.KeyLeTotalPreorder | lib/ScriptPatcher.py:44 | ordering patches by key (Python string order) is a total preorder, so `sorted` is well defined |
| PatchApply.EmitAppend | lib/ScriptPatcher.py:44-45 | the document of two runs of patches is the first's followed by the second's |
| PatchApply.CombinedOrderFree | lib/ScriptPatcher.py:44-45 | with distinct keys the document does not depend on the order the patches were added in |
| PatchApply.SameKeyKeepsOrder | lib/ScriptPatcher.py:44 | `sorted` is stable: for every key, the patches filed under it come out in the order they were added, whatever other patches surround them |
| PatchApply.CombinedSorted | lib/ScriptPatcher.py:44-45 | the document emits the patches sorted by key, each exactly once |
| PatchApply.Combined | lib/ScriptPatcher.py:42-44 | the document is empty exactly when there are no patches |
| PatchApply.WriteCombined | lib/ScriptPatcher.py:43-45 | the writing loop produces exactly `Combined` |
| PatchApply.Pad2 | lib/ScriptPatcher.py:58 | `{language:02}` is at least two characters and `int()` reads the language back from it |
| PatchApply.MstPath | lib/ScriptPatcher.py:55-60 | with MST output the path is in the language's `mesNN` directory and ends in `_NN.mst`; with SCT output it is `<script>.sct` |
| PatchApply.MstPathLanguages | lib/ScriptPatcher.py:55-60 | with MST output two languages of one script share a path exactly when they are the same language; with SCT output every language of a script goes to the same file, so its tables are merged into it one after another |
| PatchApply.LoadTable | lib/ScriptPatcher.py:62 | calling the one-parameter loader with any other number of arguments raises; a success is the parsed file at that path |
| PatchApply.OldIndexAbove | lib/ScriptPatcher.py:70-71 | for an off-step index the old index is `diff + 9 * (diff % inc)`, further down |
| PatchApply.OldIndex | lib/ScriptPatcher.py:69-70 | the old index is the new one moved nine sub-steps down, and equals it exactly when the index is on the step |
| PatchApply.Diffs | lib/ScriptPatcher.py:68 | exactly the baseline keys that are not multiples of the increment |
| PatchApply.Above | lib/ScriptPatcher.py:73 | exactly the keys above the bound; distinct keys stay distinct |
| PatchApply.ShiftOne | lib/ScriptPatcher.py:74 | `d[k - inc] = d.pop(k)`: the entry at `k` moves to `k - inc` |
| PatchApply.ShiftDown | lib/ScriptPatcher.py:73-74 | the shifting loop keeps the table a well-formed dict |
| PatchApply.AscendingTail | lib/ScriptPatcher.py:73 | the first of ascending keys is the least and the rest stay ascending |
| PatchApply.ShiftedByCons | lib/ScriptPatcher.py:73-74 | shifting the least key first and then the rest is one shift of them all |
| PatchApply.ShiftDownMoves | lib/ScriptPatcher.py:73-74 | keys taken in ascending order move exactly the listed entries down by the increment and keep every other entry |
| PatchApply.RenumberOne | lib/ScriptPatcher.py:70-74 | one round fails exactly when the old index is not in the table (the `pop` KeyError) |
| PatchApply.Renumber | lib/ScriptPatcher.py:69-74 | the renumbering loop keeps the table well formed; its only failure is a missing index |
| PatchApply.ApplyTable | lib/ScriptPatcher.py:64-80 | the renumbered table and the merged baseline are well-formed dicts |
| PatchApply.ApplyTableSameKeys | lib/ScriptPatcher.py:64-80 | when the new table covers exactly the baseline's indices, nothing is renumbered, no warning is given, and the merged table keeps the baseline's order with every text from the new table |
| PatchApply.UpdateKeysKeepsOrder | lib/ScriptPatcher.py:80 | `update` with keys already present keeps the key order |
| PatchApply.ApplyTableRenumbersOnlyWhenWanted | lib/ScriptPatcher.py:64-80 | without the three conditions the table is merged as it is; with them and a non-MST output the assertion fails; the merged texts are the baseline's overridden by the table's |
| PatchApply.LanguageStep | lib/ScriptPatcher.py:55-81 | one table loaded, merged and saved keeps the tables well formed and their languages; with one loader argument no arity error arises |
| PatchApply.ApplyLanguages | lib/ScriptPatcher.py:54-81 | the inner loop keeps the tables well formed and their languages |
| PatchApply.ScriptStep | lib/ScriptPatcher.py:53-81 | one script's tables processed keeps the tables well formed and their scripts |
| PatchApply.ApplyScripts | lib/ScriptPatcher.py:53-81 | the outer loop keeps the tables well formed and their scripts |
| PatchApply.ApplyAll | lib/ScriptPatcher.py:52-81 | `_apply_mst_patches` keeps the tables well formed and their scripts |
| PatchApply.ApplyAsWrittenRaises | lib/ScriptPatcher.py:62 | as written (two arguments to a one-parameter loader) the first table reached raises |
| PatchApply.ApplyCorrectedNeverArity | lib/ScriptPatcher.py:62 | with the loader called with the path alone, no failure is an arity error |
| PatchApply.SavedTableReloads | lib/ScriptPatcher.py:80-81 | a merged table is saved so that loading the file gives back the baseline's texts overridden by the table's |
| PatchApply.ShiftSuffix | lib/ScriptPatcher.py:73-74 | one key shifted leaves the later keys distinct and present, and the rest of the loop is the rest of the shift |
| PatchApply.ShiftKeys | lib/ScriptPatcher.py:73-74 | the pop-and-reinsert loop yields exactly `ShiftDown` |
| PatchApply.RenumberTable | lib/ScriptPatcher.py:69-74 | the renumbering loop yields exactly `Renumber` |
| PatchApply.ApplyLanguage | lib/ScriptPatcher.py:55-81 | one pass of the inner loop yields exactly `LanguageStep` |
| PatchApply.ApplyLanguageTables | lib/ScriptPatcher.py:54-81 | the inner loop over a script's languages yields exactly `ApplyLanguages` |
| PatchApply.ApplyTables | lib/ScriptPatcher.py:53-81 | the outer loop yields exactly `ApplyAll` |
| PatchApply.ScriptsNeverArity | lib/ScriptPatcher.py:53-62 | over any scripts, the corrected loop never fails with an arity error |
| PatchApply.LanguagesNeverArity | lib/ScriptPatcher.py:54-62 | over any languages, the corrected loop never fails with an arity error |
| PatchTypes.Extension | lib/types.py:17-38 | `str(ScriptFormat.X)` is a dot followed by the format's lower-case name |
| PatchTypes.ExtensionInjective | lib/types.py:17-38 | different formats have different extensions |
| PatchTypes.LanguageIndex | lib/types.py:64-67 | `int(language)` is the member's position in the declaration: 0 exactly for Japanese |
| PatchTypes.LanguageOf | lib/types.py:62-63 | `Language(value)` finds the member with that value, and fails exactly for values other than `jpn` and `eng` |
| PatchTypes.LanguageRoundTrip | lib/types.py:62-63 | a member is found again from its value |
| PatchTypes.SelectedOf | lib/types.py:134 | the language argument is `all` or names a member by its value; nothing else is accepted |
| PatchTypes.LineInc | lib/types.py:137-143 | the line step is 100 exactly for MST output and 1 for SCT output |
| PatchTypes.FirstNamed | lib/types.py:151-156 | the first spec with the given name, or none when no spec has it |
| PatchTypes.GetPlatformSpec | lib/types.py:151-156 | the loop returns the first spec with the given name; no such spec fails the assertion |
| PatchTypes.FromValidated | lib/types.py:128-149 | a build description exists exactly when the platform is known; it is valid and carries the platform and the language chosen |
| PatchTypes.NewLine | lib/types.py:176-185 | a non-string fails; no argument is an empty neutral line; text is a neutral line exactly when it holds no newline; a tagged line keeps its tag |
| PatchTypes.Plus | lib/types.py:187-190 | `+line`: the same text as an addition |
| PatchTypes.Minus | lib/types.py:192-195 | `-line`: the same text as a removal |
| PatchTypes.RenderLine | lib/types.py:197-198 | `str(line)`: marker, tab, a second tab unless the line is a label, the text, a newline |
| PatchTypes.LabelLineTab | lib/types.py:198 | a leading tab does not change whether a line is a label line |
| PatchTypes.ParseRenderLine | lib/types.py:197-198 | rendering loses nothing: the line is read back from its text |
| PatchTypes.RenderLines | lib/types.py:223-224 | `str(patch)` is empty exactly when the patch has no lines |
| PatchTypes.RenderLinesAppend | lib/types.py:223-224 | rendering a concatenation concatenates the renderings |
| PatchTypes.RenderLineBody | lib/types.py:198 | a rendered line is a newline-free body followed by one newline |
| PatchTypes.ParseRenderLines | lib/types.py:223-224 | a patch whose texts hold no newline is read back from its rendering |
| PatchTypes.Patch.constructor | lib/types.py:201-203 | a new patch copies another's lines, or has none |
| PatchTypes.Patch.Render | lib/types.py:223-224 | `str(patch)` is empty exactly when the patch has no lines |
| PatchTypes.Patch.AddOrConcat | lib/types.py:205-215 | fails exactly on an unsupported operand or multi-line text, and then changes nothing; a line or a patch is always accepted; otherwise the operand's lines are appended to this patch (in place, returning None) or to a fresh copy (returned), leaving this one alone |
| PatchTypes.Patch.AugmentedAdd | lib/types.py:220-221 | `+=` as written fails exactly on an unsupported operand or multi-line text; otherwise it appends in place but yields None, which Python binds to the variable |
| PatchTypes.Patch.AugmentedAddIntended | lib/types.py:220-221 | `+=` corrected fails exactly on an unsupported operand or multi-line text; otherwise it appends in place and yields the same patch |
| PatchTypes.RenderAfterConcat | lib/types.py:217-224 | the rendering of `patch + other` is the patch's rendering followed by the added lines' |
| PatchTypes.AugmentedAddTwice | lib/types.py:220-221 | with the corrected `+=`, two `+=` of text extend the same patch with both lines |
| PatchTypes.AugmentedAddTwiceAsWritten | lib/types.py:220-221 | as written, the variable holds None after one `+=` |
| Utf.IntField | lib/cri/cpk/reader.py:62 | a column reads as an integer exactly when it is present and holds one |
| Utf.BlobField | lib/cri/cpk/reader.py:55 | a column reads as bytes exactly when it is present and holds them |
| CpkWriter.Mod | lib/cri/cpk/writer.py:190 | Python's `%` by a positive alignment: a result below the alignment |
| CpkWriter.ModIsRemainder | lib/cri/cpk/writer.py:190 | that result is the remainder of Euclidean division, so negative positions are handled as Python does |
| CpkWriter.Padding | lib/cri/cpk/writer.py:190 | the padding `_align` writes is less than the alignment |
| CpkWriter.PaddingAligns | lib/cri/cpk/writer.py:189-190 | after the padding, the position is a multiple of the alignment |
| CpkWriter.AlignUpLeast | lib/cri/cpk/writer.py:189-190 | `_align` moves to the least multiple of the alignment at or after the position |
| CpkWriter.PlacedSnoc | lib/cri/cpk/writer.py:52-63 | a file written at the next aligned position after the last one keeps the files laid out one after another |
| CpkWriter.PlacedLayout | lib/cri/cpk/writer.py:52-63 | staged files are aligned, start after the content offset, and never overlap, earlier ones first |
| CpkWriter.ChunkFlag | lib/cri/cpk/writer.py:180-183 | the flag word is four bytes |
| CpkWriter.ChunkFlagValue | lib/cri/cpk/writer.py:180-183 | the flag word reads back as 0 for an encrypted chunk and 0xFF for a plain one |
| CpkWriter.Chunk | lib/cri/cpk/writer.py:176-187 | a chunk exists exactly when the name is four bytes and the length fits eight bytes; the wrong name or the oversized length is the error; a chunk is 16 bytes longer than its data |
| CpkWriter.ChunkFields | lib/cri/cpk/writer.py:176-187 | a chunk holds the name, the flag, the little-endian length and the (enciphered) data, each at its offset |
| CpkWriter.SortedToc | lib/cri/cpk/writer.py:67 | the TOC is the staged files rearranged (a permutation) and ordered by file name in Python's string order |
| CpkWriter.ByNameTotalPreorder | lib/cri/cpk/writer.py:67 | Python's string order on file names is total and transitive, so `sorted` by name is well defined |
| CpkWriter.IndexedItoc | lib/cri/cpk/writer.py:70-77 | the `i`-th staged ITOC entry pairs the `i`-th TOC file's id with `i` |
| CpkWriter.SortedItoc | lib/cri/cpk/writer.py:90 | the ITOC is the (id, TOC position) pairs rearranged (a permutation) and ordered by id |
| CpkWriter.TocRows | lib/cri/cpk/writer.py:78-88 | one TOC row per file, in TOC order |
| CpkWriter.TocRow | lib/cri/cpk/writer.py:78-88 | a TOC row records the file uncompressed (FileSize and ExtractSize both its length), its offset from BODY_OFFSET, its id and its name |
| CpkWriter.ItocRow | lib/cri/cpk/writer.py:93-98 | an ITOC row holds exactly the id and the position of the file's TOC row |
| CpkWriter.HeaderRow | lib/cri/cpk/writer.py:116-165 | the header names mode 2 and records the ITOC size and the alignment the reader places files with |
| CpkWriter.ItocRows | lib/cri/cpk/writer.py:92-98 | one ITOC row per pair, in ITOC order |
| CpkWriter.ClosedLayout | lib/cri/cpk/writer.py:100-111 | the TOC starts at the first aligned position after the contents, the ITOC at the first aligned position after the TOC |
| CpkWriter.ChunkFieldWrites | lib/cri/cpk/writer.py:176-187 | `_write_chunk` makes four writes |
| CpkWriter.WriteFileConsistent | lib/cri/cpk/writer.py:43-63 | writing a file under a new id and a new name keeps the writer consistent, and its contents are readable where they were written |
| CpkWriter.Writer.constructor | lib/cri/cpk/writer.py:31-41 | a new writer has no ids, names or files and sits at the first aligned offset at or after BODY_OFFSET, which is where contents start |
| CpkWriter.Writer.WriteBytes | lib/cri/cpk/writer.py:54 | the data is written at the position, which moves past it |
| CpkWriter.Writer.Pad | lib/cri/cpk/writer.py:192-197 | `size` zero bytes are written at the position |
| CpkWriter.Writer.Align | lib/cri/cpk/writer.py:189-190 | the position moves to the next multiple of the alignment, writing the padding as zeros |
| CpkWriter.Writer.WriteFile | lib/cri/cpk/writer.py:43-63 | a known id is refused; an unknown id is kept even when a known name is then refused; a new file goes at the next aligned position, is staged with its offset and size, and can be read back there |
| CpkWriter.Writer.WriteChunk | lib/cri/cpk/writer.py:176-187 | a wrong name is refused before anything is written; an oversized length is refused after the name and flag are written; otherwise the chunk is written at the position |
| CpkWriter.Writer.WriteChunkTable | lib/cri/cpk/writer.py:172-174 | the encoded table goes out as a chunk, encrypted as configured |
| CpkWriter.Writer.StageTables | lib/cri/cpk/writer.py:66-88 | the loop over the sorted files yields the ITOC pairs, the TOC rows and the total size |
| CpkWriter.Writer.ItocTableRows | lib/cri/cpk/writer.py:91-98 | the loop over the sorted pairs yields the ITOC rows |
| CpkWriter.Writer.WriteAlignedChunk | lib/cri/cpk/writer.py:103-111 | a chunk written at the next aligned position, refused exactly when the encoded table is too long |
| CpkWriter.Writer.WriteHeader | lib/cri/cpk/writer.py:113-170 | the header chunk goes at offset 0; it is refused when it ends past BODY_OFFSET and is otherwise padded with zeros up to it |
| CpkWriter.Writer.WriteTables | lib/cri/cpk/writer.py:100-170 | the TOC and ITOC chunks after the contents, then the header recording where they are |
| CpkWriter.Writer.WriteIndexChunks | lib/cri/cpk/writer.py:103-111 | the TOC then the ITOC chunk, each aligned; their offsets are returned |
| CpkWriter.Writer.Close | lib/cri/cpk/writer.py:65-170 | `close` sorts the files by name and writes the index chunks and the header as the layout records |
| CpkWriter.CloseWrites | lib/cri/cpk/writer.py:100-170 | after `close`'s writes the header is at 0, zeros follow up to BODY_OFFSET, both index chunks are where the header says, and every file is still readable |
| CpkWriter.StoredThroughIndex | lib/cri/cpk/writer.py:103-111 | writing the index chunks after the files keeps the files readable |
| CpkWriter.KeepStoredAligned | lib/cri/cpk/writer.py:103-111 | an aligned write after the files keeps them readable |
| CpkWriter.KeepStoredHeader | lib/cri/cpk/writer.py:113-170 | the header and its padding before BODY_OFFSET keep the files readable |
| CpkWriter.IndexWritesRead | lib/cri/cpk/writer.py:103-111 | both index chunks read back at their aligned offsets |
| CpkWriter.HeaderKeeps | lib/cri/cpk/writer.py:113-170 | the header write leaves everything from BODY_OFFSET on alone |
| CpkWriter.HeaderWritten | lib/cri/cpk/writer.py:113-170 | the header and its zero padding read back |
| CpkWriter.KeepStored | lib/cri/cpk/writer.py:52-54 | a write outside the stretch holding the files keeps them readable |
| CpkWriter.ChunkWrites | lib/cri/cpk/writer.py:176-187 | the four field writes of `_write_chunk` write the chunk |
| CpkWriter.ChunkReplay | lib/cri/cpk/writer.py:176-187 | replaying those four writes writes the chunk |
| CpkWriter.AlignedChunkReplay | lib/cri/cpk/writer.py:103-111 | replaying the padding and the chunk is an aligned write of the chunk |
| CpkWriter.HeaderReplay | lib/cri/cpk/writer.py:113-170 | replaying the header writes gives the header at 0 and zeros up to BODY_OFFSET |
| CpkWriter.CloseLogReplay | lib/cri/cpk/writer.py:100-170 | replaying `close`'s log writes both index chunks, each aligned, and then the header |
| CpkWriter.ClosedContents | lib/cri/cpk/writer.py:65-170 | after `close`'s log the archive is closed and every file is still readable |
| CpkWriter.CloseKeepsFiles | lib/cri/cpk/writer.py:43-170 | from a consistent writer, `close` leaves a closed archive in which every file written before is readable where it was placed |
| CpkWriter.AppendedLog | lib/cri/cpk/writer.py:52-63 | `write_file`'s two writes, seen through the log, place the file at the next aligned position and keep the others readable |
| CpkWriter.Appended | lib/cri/cpk/writer.py:52-63 | `write_file` places the new file at the next aligned position after the last and keeps every file readable |
| CpkWriter.IdsAppended | lib/cri/cpk/writer.py:44-46 | every staged id stays among the taken ids |
| CpkWriter.NamesAppended | lib/cri/cpk/writer.py:48-50 | a file under a new name adds that name and keeps names distinct |
| TranslationText.BaseName | lib/TranslationProcessor.py:22 | `os.path.basename`: a suffix of the path holding no `/` |
| TranslationText.BaseNameOf | lib/TranslationProcessor.py:22 | the base name of `dir/file` is `file` |
| TranslationText.Abbreviated | lib/TranslationProcessor.py:28 | `platform[:3]`: a prefix of the platform of length at most 3 |
| TranslationText.PlainScriptOf | lib/TranslationProcessor.py:21-25 | an unversioned file `dir/<script><ext>` feeds `script` |
| TranslationText.VersionedScriptOf | lib/TranslationProcessor.py:24-30 | a versioned file for this platform, `<script>_<platform><ext>`, feeds `script` |
| TranslationText.ScriptOfVersioned | lib/TranslationProcessor.py:24-30 | a versioned name ending in `_<platform>` loses exactly that suffix |
| TranslationText.VersionedSuffixes | lib/TranslationProcessor.py:24-30 | a versioned name ending in `_<platform[:3]>` only is kept whole, one ending in neither suffix is skipped, and the full suffix is removed |
| TranslationText.ScriptOf | lib/TranslationProcessor.py:21-30 | a file is skipped exactly when its name is versioned and ends in neither platform suffix; otherwise its script is a prefix of the name without the extension, the whole of it for an unversioned script |
| TranslationText.SelectedIndex | lib/TranslationProcessor.py:37-39 | no language exactly when every language is selected; otherwise `int(selected)` |
| TranslationText.TargetSplitsSuffix | lib/TranslationProcessor.py:41-43 | with MST input, a name ending in `_NN` loses that suffix and its two digits become the language |
| TranslationText.TargetKeepsName | lib/TranslationProcessor.py:39-43 | any other name, or SCT input, keeps the name and the selected language |
| TranslationText.TargetAgreesOnBareSuffix | lib/TranslationProcessor.py:41-43 | the source's anchored test and the suffix test agree on a name that is exactly `_NN` |
| TranslationText.SuffixIgnoredAsWritten | lib/TranslationProcessor.py:41-43 | as written, `name_NN` keeps its suffix and the selected language, where the suffix test splits it off |
| TranslationText.TargetAsWritten | lib/TranslationProcessor.py:37-43 | as written: no target when every language is selected; the name is kept with the selected language, except a name that is exactly `_NN`, which becomes the empty name with language NN |
| TranslationText.Target | lib/TranslationProcessor.py:37-43 | with the suffix test: no target when every language is selected; the name is kept with the selected language, or, with MST input, a trailing `_NN` is split off and NN (below 100) becomes the language |
| TranslationText.DigitRun | lib/TranslationProcessor.py:61 | the length of the leading run of ASCII digits |
| TranslationText.VoicedLines | lib/TranslationProcessor.py:61 | a line opening with the mark, or with digits, a colon and the mark, is voiced |
| TranslationText.Voiced | lib/TranslationProcessor.py:61 | the pattern's meaning: the mark at the start, or a non-empty run of digits, a colon and the mark |
| TranslationText.UnvoicedLine | lib/TranslationProcessor.py:61 | a line starting neither with the mark nor with a digit is not voiced |
| TranslationText.ExpandSnoc | lib/TranslationProcessor.py:124-131 | one more new index adds its own lines at the end of a per-index block |
| TranslationText.ExpandLength | lib/TranslationProcessor.py:124-131 | `w` lines per new index make `w` times as many lines |
| TranslationText.ExpandAt | lib/TranslationProcessor.py:124-131 | line `w * i + r` of a per-index block is line `r` of the `i`-th index's lines |
| TranslationText.Guards | lib/TranslationProcessor.py:103-105 | one guard per new index, the `i`-th jumping to the `i`-th index's label |
| TranslationText.ChainHead | lib/TranslationProcessor.py:124-131 | three lines per new index for a build that is not Japanese alone, one otherwise |
| TranslationText.Chain | lib/TranslationProcessor.py:124-131 | the chain has three or one lines per new index |
| TranslationText.ChainAt | lib/TranslationProcessor.py:124-131 | the `r`-th chain line of the `i`-th new index sits at `3 * i + r` |
| TranslationText.IpChain | lib/TranslationProcessor.py:144-145 | one display line per new index, in order |
| TranslationText.ExtendTextRa | lib/TranslationProcessor.py:93-134 | under return-address saving, the patch text is the `@@` line, the opening, the guards, the line's own display, the chain and the closing, in that order |
| TranslationText.ExtendTextIp | lib/TranslationProcessor.py:136-145 | under instruction-pointer saving, the patch text is the `@@` line, the line's own display and the chain |
| TranslationText.ChainAtJapanese | lib/TranslationProcessor.py:124-131 | for a Japanese-only build, the `i`-th chain line shows the `i`-th new index |
| TranslationText.ExtendByIp | lib/TranslationProcessor.py:136-145 | under instruction-pointer saving, the patch shows the original line and then every new index in order, one line each |
| TranslationText.ExtendHeader | lib/TranslationProcessor.py:78-94 | both generated patches open with `@@ <script>.scs` |
| TranslationText.RemoveLines | lib/TranslationProcessor.py:77-88 | `remove_mes` opens the script's block and adds exactly two lines, the language guard and the end label; the other eight are context lines |
| TranslationText.RemoveText | lib/TranslationProcessor.py:77-88 | the patch text opens with the script's `@@` line |
| TranslationText.RemovePatchLines | lib/TranslationProcessor.py:77-88 | for a script name without line breaks, the patch text splits back into exactly `remove_mes`'s lines |
| TranslationText.ExtendLines | lib/TranslationProcessor.py:92-145 | `extend_mes` opens the script's block; it has 7 lines plus one per new index under instruction-pointer saving or for a Japanese-only build, and otherwise 13 (MST) or 10 (SCT) lines plus four per new index |
| TranslationText.ExtendText | lib/TranslationProcessor.py:92-145 | the patch text opens with the script's `@@` line |
| TranslationText.RaLengths | lib/TranslationProcessor.py:97-134 | the fixed blocks around the guards and the chain have the lengths the MST and SCT outputs give them |
| TranslationText.ExtendByRa | lib/TranslationProcessor.py:97-134 | under return-address saving for a build that is not Japanese alone, each new index has one guard to its label and, in order after the line, sets the savepoint slot, places its label and shows the piece |
| TranslationText.ExtendByRaJapanese | lib/TranslationProcessor.py:97-134 | a Japanese-only build adds no guard and no slot update: one display per new index |
| Translation.ExtensionSlots | lib/TranslationProcessor.py:62-74 | the new indices are consecutive from the first |
| Translation.Clash | lib/TranslationProcessor.py:62-74 | the lowest already-taken index of a run, and none exactly when the whole run is free |
| Translation.ClashAt | lib/TranslationProcessor.py:62-74 | the first taken index after a free stretch is the clash of any longer run |
| Translation.FirstPiece | lib/TranslationProcessor.py:65-69 | the first new index is above 30,000,000 when lines are a hundred apart, and otherwise the source's `num_entries + len(table) - index - 1` with the table already holding the first piece |
| Translation.Key | lib/TranslationProcessor.py:89 | the key begins with the prefix, the script and a colon |
| Translation.KeyInjective | lib/TranslationProcessor.py:89 | with one prefix and script names without colons, distinct entries are submitted under distinct keys |
| Translation.AddLinePlaces | lib/TranslationProcessor.py:53-59 | one `add_mst_line` into a free slot places that line, last in its table |
| Translation.AddLineFresh | lib/TranslationProcessor.py:53-59 | registering into a missing table makes a table holding just that line |
| Translation.AddLines | lib/TranslationProcessor.py:62-74 | a run of registrations keeps the tables valid |
| Translation.AddLinesPlaces | lib/TranslationProcessor.py:62-74 | registering distinct free slots places each text in its slot and changes nothing else |
| Translation.AddLinesRun | lib/TranslationProcessor.py:62-74 | a run without a clash puts its slots last in the table, in order |
| Translation.PieceStep | lib/TranslationProcessor.py:62-74 | one turn of the piece loop fails exactly at an index taken before and otherwise grows the table by one |
| Translation.ClashStep | lib/TranslationProcessor.py:62-74 | the next index after a free stretch is the clash of the whole run if taken, one more free index otherwise |
| Translation.PlacedThen | lib/TranslationProcessor.py:59-74 | placing the first piece and then the others places all of them |
| Translation.ExtensionPlaced | lib/TranslationProcessor.py:59-74 | with a free first slot and no clash, every piece lands in its slot and nothing else changes |
| Translation.GuardText | lib/TranslationProcessor.py:103-105 | the `+=` loop builds the text of the guard lines |
| Translation.ChainText | lib/TranslationProcessor.py:124-131 | the `+=` loop builds the text of the chain |
| Translation.IpChainText | lib/TranslationProcessor.py:144-145 | the `+=` loop builds the text of the instruction-pointer chain |
| Translation.ExtendMesText | lib/TranslationProcessor.py:92-148 | `extend_mes` builds exactly the patch text that `ExtendText` describes |
| Translation.TranslationProcessor.constructor | lib/TranslationProcessor.py:15-18 | the processor keeps its patcher and prefix |
| Translation.TranslationProcessor.RemoveMes | lib/TranslationProcessor.py:77-90 | `remove_mes` submits its patch under `prefix + script + ":" + index`, with the patcher's outcome |
| Translation.TranslationProcessor.ExtendMes | lib/TranslationProcessor.py:92-151 | `extend_mes` submits its patch under the entry's key, with the patcher's outcome |
| Translation.TranslationProcessor.AddPiece | lib/TranslationProcessor.py:65-74 | one piece goes to the next new index, `30_000_000 + index + i` or `num_entries + len(table) - index - 1` |
| Translation.TranslationProcessor.AddPieces | lib/TranslationProcessor.py:62-74 | the pieces fail exactly at the first clash among the new indices; otherwise they are placed at consecutive indices, which are returned in order |
| Translation.TranslationProcessor.RemoveEntry | lib/TranslationProcessor.py:48-50 | the placeholder goes to language 1, then `remove_mes`'s patch is submitted; a conflict changes nothing |
| Translation.TranslationProcessor.ExtendEntry | lib/TranslationProcessor.py:59-75 | the first piece goes to the entry's index, the others to consecutive new indices, then `extend_mes`'s patch naming them is submitted; a conflict at the entry's index changes nothing |
| Translation.TranslationProcessor.ProcessEntry | lib/TranslationProcessor.py:36-75 | `process_entry`, with the script and language chosen by the suffix test `Target` (the corrected line 41, see Findings): all languages, a stray removal marker, an index of 10,000,000 or more, or more than 11 pieces fail without changing anything; the exact marker removes the line; plain text is registered as it is; an extended line is split across new indices |
| OrderedDict.Empty | lib/ScriptPatcher.py:25-31 | an empty dict has no keys |
| OrderedDict.Set | lib/ScriptPatcher.py:35 | `d[k] = v`: the mapping gains `k ↦ v`, an existing key keeps its place and a new key goes last |
| OrderedDict.SetSet | lib/ScriptPatcher.py:72-74 | assigning a key twice is assigning it the second value in the first assignment's place |
| OrderedDict.Without | lib/ScriptPatcher.py:72-74 | taking a key out of the key order removes exactly that key and keeps the others distinct |
| OrderedDict.Pop | lib/ScriptPatcher.py:72-74 | `d.pop(k)` fails exactly for a missing key; otherwise it yields the value and the dict without `k` |
| OrderedDict.UpdateKeys | lib/ScriptPatcher.py:80 | assigning each key of a list in turn: the keys are the old ones and the listed ones, each listed key with its new value |
| OrderedDict.Update | lib/ScriptPatcher.py:80 | `d.update(e)`: the mapping is `d`'s overridden by `e`'s |
| OrderedDict.LengthIsKeyCount | lib/ScriptPatcher.py:65 | `len(d)` counts the keys |
| Sorting.Insert | lib/cri/cpk/writer.py:67 | inserting an element adds exactly that element |
| Sorting.SortBy | lib/cri/cpk/writer.py:67 | sorting permutes its input |
| Sorting.InsertSorted | lib/cri/cpk/writer.py:67 | inserting into a sorted sequence keeps it sorted |
| Sorting.SortBySorted | lib/cri/cpk/writer.py:67 | the sort's result is ordered by the key whenever the key order is a total preorder |
| Sorting.SortedUnique | lib/cri/cpk/reader.py:68-74 | two sorted arrangements of the same elements coincide when no two of them have equal keys |
| Sorting.SortByPermutationInvariant | lib/cri/cpk/reader.py:68-74 | with distinct keys the sort's result does not depend on the input order |
| Sorting.Filter | lib/ScriptPatcher.py:44 | the elements that satisfy the test, in order, never more than the input |
| Sorting.InsertFilter | lib/ScriptPatcher.py:44 | an inserted element goes ahead of every element equivalent to it |
| Sorting.SortByFilter | lib/ScriptPatcher.py:44 | the sort is stable: within each class of equivalent elements the input order is kept |
| Bytes.LeValue | lib/cri/cpk/reader.py:123-124 | a little-endian number of `n` bytes is below `2^(8n)` |
| Bytes.LeBytes | lib/cri/cpk/writer.py:181-184 | `write_le_u` writes exactly `width` bytes |
| Bytes.LeRoundTrip | lib/cri/cpk/writer.py:184 | reading back a little-endian encoding gives the number, when it fits the width |
| Bytes.LeBytesOfValue | lib/cri/cpk/reader.py:123-124 | encoding a decoded byte string gives it back |
| Bytes.Put | lib/cri/cpk/writer.py:54 | one byte written at a position of a file, which grows by zeros to reach it |
| Bytes.PutBytes | lib/cri/cpk/writer.py:54 | every other byte stays and the gap reads as zeros |
| Bytes.WriteAt | lib/cri/cpk/writer.py:54 | writing nothing changes nothing; otherwise the file grows to cover the data |
| Bytes.WriteAtBytes | lib/cri/cpk/writer.py:54 | the data reads back where it was written; the bytes before and after it stay |
| Bytes.ReplayAppend | lib/cri/cpk/writer.py:54 | replaying two logs in turn is replaying their concatenation |
| Bytes.ContentsSnoc | lib/cri/cpk/writer.py:54 | the last write of a log applies to what the others left |
| Bytes.ReadAt | lib/cri/cpk/reader.py:114-128 | reading fails exactly when the file ends first, and otherwise gives the bytes there |
| Bytes.ReadWhatWasWritten | lib/cri/cpk/reader.py:35 | what was written reads back at the same place |
| Bytes.WriteAtConcat | lib/cri/cpk/writer.py:179-187 | two writes back to back are one write of both |
| Bytes.WriteAtKeeps | lib/cri/cpk/writer.py:54 | a write elsewhere leaves a stretch of the file as it was |

## Left out

- TranslationText.MatchesAsWritten: Python's `$` also matches before one trailing newline, so the source would also accept `_NN` followed by a line break and yield the name `_`; script names come from file names, which this model takes without line breaks.
- File system access is not modelled: `glob` discovery, `open`, `Path` arithmetic and the reading and writing of MST and SCT files. The MST files are a map from path to text passed in as a parameter, and `_apply_mst_patches` returns the new map.
- The external patch tool run by `_apply_scs_patches` (`run_command(PATCHSCS_PATH, …)`) is not modelled. The model stops at the text written to `combined.patch`.
- `lib.cri.utf` table encoding and decoding are not modelled. Both the writer and the reader take them as function parameters.
- The `lib.codecutils` read and write helpers are modelled by `Bytes.ReadAt` and `Bytes.WriteAt` on a byte sequence, not on a stream.
- The writer's `randomize_padding` option, which pads with `os.urandom`, is not modelled. Padding is always zeros.
- The printed warning in `_apply_mst_patches` is not printed. The model returns the list of scripts it would be printed for.
- Patcher.PatchPreprocessor.Run: takes a step budget (`fuel`) and fails with `OutOfSteps` when the budget runs out. The source loops for as long as expansions keep producing macro lines, and can loop forever.
- Preprocess.RunSteps: has the same step budget as `Run`.
- Patcher.ScriptPatcher.constructor: requires that no constant's value contains `$$` (`NoTagInValues`). Without it, tag resolution in `process_tags` need not terminate. The condition is stronger than termination needs: it also excludes constants whose values name other constants and that do resolve, such as `{"A": "$$B", "B": "x"}`.
- Patcher.ScriptPatcher.constructor: installs the corrected handler table `MacroTable.Handler`, so `/MoveBgNowait` expands to a registered far call where the source raises "unrecognized macro" (see Findings).
- Patcher.PatchPreprocessor.ProcessTags: requires the same `NoTagInValues` condition, for the same reason, and so does not cover nested constants that do resolve.
- Patcher.ScriptPatcher.ApplyMstPatches: runs the corrected loader call (one argument), so it never raises the `TypeError` that lib/ScriptPatcher.py:62 raises for any non-empty table; the as-written behaviour is `PatchApply.ApplyAll` with two arguments (see Findings).
- Translation.TranslationProcessor.ProcessEntry: chooses the script and language with the corrected suffix test `TranslationText.Target`. With MST input and the script `scr_01`, the source registers the line under (`scr_01`, selected language), and the model under (`scr`, 1); `TranslationText.TargetAsWritten` is the test as written (see Findings).
- CpkReader.StagingOf: dispatches mode 2 to the corrected `Mode2Staging`, so a mode-2 archive with no files yields an empty file list where lib/cri/cpk/reader.py:74 raises `IndexError`; `Mode2StagingAsWritten` is the behaviour as written (see Findings).
- CpkReader.ReaderFindsWrittenFiles: is stated for files written in the order the reader walks them. The mode-2 reader walks files by ascending id and recomputes their offsets without reading FileOffset, while the writer lays them out in call order, so for an archive written in another order the claim is not made (and the source's reader would look in the wrong places).
- CpkWriter.Writer.constructor: requires a positive alignment. The source divides by the alignment in `_align` (lib/cri/cpk/writer.py:190), so an alignment of 0 raises `ZeroDivisionError` there; a negative alignment gives a padding of zero or a negative size, which is accepted (alignment -1 behaves like 1) or makes `bytes()` raise. The writer model covers neither. The reader model does handle negative alignments (`CpkReader.Aligned`).
- When an exception escapes part-way through an operation, the model does not describe what is left behind. It only states the outcome of the operations that do not raise, plus the error itself. One exception: the operations that refuse before changing anything are stated as changing nothing.
- PyText.ParseInt: accepts optional surrounding whitespace, an optional sign and ASCII digits. It does not accept Python's `_` separators or non-ASCII decimal digits, which `int()` also allows.
- `BuildInfo` carries only the fields the core reads. The game name, the character set, the output paths and the other configuration fields are not modelled.
- CpkReader.Mode0Staging: states that the result is sorted by id, but not that it is a permutation of the DataL and DataH rows. The permutation is proved for `Sorting.SortBy` in general.
- `TranslationProcessor.run` is modelled only for its script-name logic (`TranslationText.ScriptOf`). It reads each file with `load_mst(path, line_inc, comments)` (lib/TranslationProcessor.py:32). That call passes three arguments to a one-parameter function, like the call in Findings, and is not modelled because file loading is not modelled.
- Python's dynamic type checks in `ScSPatchLine.__new__` and `ScSPatch.add_or_concat` are modelled by an operand datatype with a case for any other value.
- Concurrency, floating point and the command-line entry points are not part of the core and are not modelled.

## Findings

| source | as written | input that shows it | evidently intended | confidence | as-written member | corrected member |
|---|---|---|---|---|---|---|
| lib/ScriptPatcher.py:62 | `load_mst(mst_path, self.build_info.line_inc)` passes two arguments, but `load_mst` (lib/utils.py:60) takes one, so Python raises `TypeError` | any `run()` with at least one registered message line | call the loader with the path alone | high (not executed) | PatchApply.ApplyAsWrittenRaises | PatchApply.ApplyCorrectedNeverArity |
| lib/ScriptPatcher.py:577 | `MoveBgNowait` expands to `/CallFarRL 6, 1547`, but no macro `CallFarRL` is registered, so re-scanning the expansion raises "unrecognized macro" | a patch block containing `+/MoveBgNowait 0, 10, 0, 0` | invoke the registered `CallFar` macro | medium (not executed) | MacroTable.MoveBgNowaitCallsUnregistered, MacroFacts.CallFarRLUnrecognized | MacroTable.MoveBgNowaitFixedCallsRegistered |
| lib/TranslationProcessor.py:41 | `re.match(r"_[0-9]{2}$", script)` is anchored at the start, so a language suffix is recognised only on a name that is exactly `_NN` | MST input, script name `scr_01` | recognise a trailing `_NN` on any name, split it off and use it as the language | medium (not executed) | TranslationText.SuffixIgnoredAsWritten | TranslationText.TargetSplitsSuffix |
| lib/cri/cpk/reader.py:74 | `tuple(zip(*sorted(zip(itoc, toc), …)))[1]` raises `IndexError` when the archive has no files, because the transposition of nothing is empty | a mode 2 archive whose TOC and ITOC tables have no rows | an empty file list | high (not executed) | CpkReader.Mode2StagingAsWritten | CpkReader.Mode2Staging |
| lib/types.py:220-221 | `__iadd__` returns None, so `patch += x` binds `patch` to None after appending | `p = ScSPatch(); p += "a"` | return `self` | high (not executed) | PatchTypes.AugmentedAddTwiceAsWritten | PatchTypes.AugmentedAddTwice |
