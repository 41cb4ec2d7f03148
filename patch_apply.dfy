/**
 * What `ScriptPatcher.run` produces from the collected patches
 * (lib/ScriptPatcher.py:37-81): the combined patch document handed to the
 * external patch tool, and the message tables merged into the game's
 * baseline tables, with the renumbering pass for SCT-to-MST builds. File
 * contents are a map from path (relative to the script directory) to text.
 */
module PatchApply {
  import opened Wrappers
  import opened PyText
  import opened OrderedDict
  import opened Sorting
  import opened PatchTypes
  import opened MstFiles
  import opened Preprocess

  // ---- the combined document (`_apply_scs_patches`) ----

  /** Patches ordered by key, as `sorted(..., key=lambda x: x[0])` compares strings. */
  function KeyLe(a: (string, string), b: (string, string)): bool {
    LexLe(a.0, b.0)
  }

  lemma KeyLeTotalPreorder()
    ensures TotalPreorder(KeyLe)
  {
    forall a: (string, string), b: (string, string) ensures KeyLe(a, b) || KeyLe(b, a) {
      LexLeTotal(a.0, b.0);
    }
    forall a: (string, string), b: (string, string), c: (string, string) | KeyLe(a, b) && KeyLe(b, c)
      ensures KeyLe(a, c)
    {
      LexLeTransitive(a.0, b.0, c.0);
    }
  }

  /** Each patch text followed by a blank line, in the given order. */
  function Emit(ps: seq<(string, string)>): string {
    if ps == [] then "" else Emit(ps[..|ps| - 1]) + ps[|ps| - 1].1 + "\n\n"
  }

  /** The text written to `combined.patch`. */
  function Combined(ps: seq<(string, string)>): (r: string)
    ensures r == [] <==> ps == []
  {
    var sorted := SortBy(ps, KeyLe);
    assert |sorted| == |multiset(sorted)| == |multiset(ps)| == |ps|;
    EmitEmpty(sorted);
    Emit(sorted)
  }

  /** Every patch adds at least its blank line, so nothing is emitted only for no patches. */
  lemma EmitEmpty(ps: seq<(string, string)>)
    ensures Emit(ps) == [] <==> ps == []
  {
    if ps != [] {
      var e := Emit(ps[..|ps| - 1]) + ps[|ps| - 1].1 + "\n\n";
      assert |e| >= 2;
    }
  }

  lemma {:induction false} EmitAppend(a: seq<(string, string)>, b: seq<(string, string)>)
    ensures Emit(a + b) == Emit(a) + Emit(b)
    decreases |b|
  {
    if b != [] {
      var n := |b| - 1;
      assert (a + b)[..|a + b| - 1] == a + b[..n];
      EmitAppend(a, b[..n]);
    } else {
      assert a + b == a;
    }
  }

  /** No two different patches share a key. */
  predicate DistinctKeys(ps: seq<(string, string)>) {
    forall i, j :: 0 <= i < |ps| && 0 <= j < |ps| && ps[i].0 == ps[j].0 ==> ps[i] == ps[j]
  }

  /**
   * With distinct keys, the document does not depend on the order in which
   * the patches were added.
   */
  lemma CombinedOrderFree(a: seq<(string, string)>, b: seq<(string, string)>)
    requires multiset(a) == multiset(b) && DistinctKeys(a)
    ensures Combined(a) == Combined(b)
  {
    KeyLeTotalPreorder();
    forall x, y | x in a && y in a && KeyLe(x, y) && KeyLe(y, x) ensures x == y {
      LexLeAntisymmetric(x.0, y.0);
    }
    SortByPermutationInvariant(a, b, KeyLe);
  }

  /** The patches filed under `key`. */
  function HasKey(key: string): ((string, string)) -> bool {
    (q: (string, string)) => q.0 == key
  }

  /** Patches filed under one key come out in the order they were added. */
  lemma SameKeyKeepsOrder(ps: seq<(string, string)>, key: string)
    ensures Filter(SortBy(ps, KeyLe), HasKey(key)) == Filter(ps, HasKey(key))
  {
    KeyLeTotalPreorder();
    var k := (key, "");
    forall y: (string, string) ensures HasKey(key)(y) <==> KeyLe(y, k) && KeyLe(k, y) {
      LexLeTotal(key, key);
      if KeyLe(y, k) && KeyLe(k, y) {
        LexLeAntisymmetric(y.0, key);
      }
    }
    SortByFilter(ps, KeyLe, k, HasKey(key));
  }

  /** The document is sorted by key and holds each patch exactly once. */
  lemma CombinedSorted(ps: seq<(string, string)>)
    ensures SortedBy(SortBy(ps, KeyLe), KeyLe) && multiset(SortBy(ps, KeyLe)) == multiset(ps)
    ensures Combined(ps) == Emit(SortBy(ps, KeyLe))
  {
    KeyLeTotalPreorder();
    SortBySorted(ps, KeyLe);
  }

  /** The loop of `_apply_scs_patches` that writes the sorted texts. */
  method WriteCombined(ps: seq<(string, string)>) returns (doc: string)
    ensures doc == Combined(ps)
  {
    var sorted := SortBy(ps, KeyLe);
    doc := "";
    var i := 0;
    while i < |sorted|
      invariant i <= |sorted|
      invariant doc == Emit(sorted[..i])
    {
      assert sorted[..i + 1][..i] == sorted[..i];
      doc := doc + sorted[i].1 + "\n\n";
      i := i + 1;
    }
    assert sorted[..i] == sorted;
  }

  // ---- merging message tables (`_apply_mst_patches`) ----

  datatype ApplyError =
    | MissingFile(path: string)                 // `open` fails
    | BadTable(path: string, error: MstError)   // `load_mst` raises
    | LoadArity(count: nat)                     // `load_mst` called with the wrong number of arguments
    | RenumberNotToMst                          // the renumbering assertion
    | MissingIndex(index: int)                  // `language_table.pop(old_index)` raises KeyError

  /**
   * `{language:02}`: non-negative numbers below 10 get a leading zero. The
   * text is at least two characters of digits and a sign, and `int()` reads
   * the number back from it.
   */
  function Pad2(n: int): (r: string)
    ensures |r| >= 2
    ensures forall k :: 0 <= k < |r| ==> IsDigit(r[k]) || r[k] == '-'
    ensures ParseInt(r) == Some(n)
  {
    if 0 <= n < 10 then
      var r := "0" + IntToStr(n);
      assert IntToStr(n) == NatToStr(n) == [DigitChar(n)];
      NatToStrValue(n);
      assert r[..1] == "0" && DigitsValue(r[..1]) == 0;
      StripOfNoSpace(r);
      ParseUnsigned(r);
      r
    else
      IntToStrRoundTrip(n);
      IntToStr(n)
  }

  /**
   * The baseline table a language table is merged into, relative to the
   * script directory: with MST output the language's own `mesNN` directory
   * and `<script>_NN.mst` file; with SCT output the script's one `.sct` file,
   * whatever the language.
   */
  function MstPath(outFmt: ScriptFormat, script: string, language: int): (r: string)
    ensures outFmt.Mst? ==> StartsWith(r, "mes" + Pad2(language) + "/") && EndsWith(r, "_" + Pad2(language) + ".mst")
    ensures outFmt.Sct? ==> r == script + ".sct"
  {
    match outFmt
    case Mst => "mes" + Pad2(language) + "/" + script + "_" + Pad2(language) + ".mst"
    case Sct => script + ".sct"
  }

  /**
   * With MST output the languages of one script go to different files; with
   * SCT output they all go to the same file, so `_apply_mst_patches` merges
   * them into it one after another.
   */
  lemma MstPathLanguages(script: string, l1: int, l2: int)
    ensures MstPath(Mst, script, l1) == MstPath(Mst, script, l2) <==> l1 == l2
    ensures MstPath(Sct, script, l1) == MstPath(Sct, script, l2)
  {
    if MstPath(Mst, script, l1) == MstPath(Mst, script, l2) {
      MstPathDirectory(script, l1);
      MstPathDirectory(script, l2);
      assert Pad2(l1) == Pad2(l2);
    }
  }

  /** The directory part of an MST path: the first `/` comes right after `mesNN`. */
  lemma MstPathDirectory(script: string, l: int)
    ensures var path, p := MstPath(Mst, script, l), Pad2(l);
      IndexOf(path, '/') == 3 + |p| && path[3..3 + |p|] == p
  {
    DirectoryOf(MstPath(Mst, script, l), Pad2(l));
  }

  /** A text starting with `mes`, a number and `/` has its first `/` right after the number. */
  lemma DirectoryOf(path: string, p: string)
    requires StartsWith(path, "mes" + p + "/")
    requires forall k :: 0 <= k < |p| ==> IsDigit(p[k]) || p[k] == '-'
    ensures IndexOf(path, '/') == 3 + |p| && path[3..3 + |p|] == p
  {
    var d := "mes" + p;
    assert '/' !in d by {
      forall k | 0 <= k < |d| ensures d[k] != '/' {
        if k >= 3 { assert d[k] == p[k - 3]; }
      }
    }
    SlashAt(path, d);
    assert path[..|d| + 1][3..3 + |p|] == (d + "/")[3..3 + |p|] == p;
  }

  /** In a text that starts with `d` and a `/`, the first `/` is that one when `d` holds none. */
  lemma SlashAt(t: string, d: string)
    requires StartsWith(t, d + "/") && '/' !in d
    ensures IndexOf(t, '/') == |d|
  {
    assert t[..|d|] == (d + "/")[..|d|] == d;
    assert t[|d|] == (d + "/")[|d|] == '/';
  }


  /**
   * The call `load_mst(mst_path, ...)` with `argCount` arguments. The loader
   * takes one parameter, so any other count raises before reading anything.
   */
  function LoadTable(files: map<string, string>, path: string, argCount: nat): (r: Result<Dict<int, string>, ApplyError>)
    ensures argCount != 1 ==> r == Err(LoadArity(argCount))
    ensures r.Ok? ==> path in files && ParseEntries(LoadLines(files[path])) == Ok(r.value)
  {
    if argCount != 1 then Err(LoadArity(argCount))
    else if path !in files then Err(MissingFile(path))
    else
      match ParseEntries(LoadLines(files[path]))
      case Err(e) => Err(BadTable(path, e))
      case Ok(d) => Ok(d)
  }

  function KeySet(d: Dict<int, string>): set<int> {
    d.vals.Keys
  }

  /** The index a line that should sit at `diff` has in the new table: its sub-step scaled by ten. */
  function OldIndex(diff: int, inc: nat): (r: int)
    requires inc > 0
    ensures r == diff + 9 * (diff % inc)
    ensures diff % inc == 0 <==> r == diff
  {
    (diff - diff % inc) + (diff % inc) * 10
  }

  /** A line whose index is off the step sits further down, at nine times its sub-step. */
  lemma OldIndexAbove(diff: int, inc: nat)
    requires inc > 0 && diff % inc != 0
    ensures OldIndex(diff, inc) == diff + 9 * (diff % inc) > diff
  {
  }

  /** `list(filter(lambda key: key % inc != 0, keys))` */
  function Diffs(keys: seq<int>, inc: nat): (r: seq<int>)
    requires inc > 0
    ensures forall k :: k in r <==> k in keys && k % inc != 0
  {
    if keys == [] then []
    else (if keys[0] % inc != 0 then [keys[0]] else []) + Diffs(keys[1..], inc)
  }

  /** `list(filter(lambda x: x > bound, keys))` */
  function Above(keys: seq<int>, bound: int): (r: seq<int>)
    ensures forall k :: k in r <==> k in keys && k > bound
    ensures Distinct(keys) ==> Distinct(r)
  {
    if keys == [] then []
    else
      var rest := Above(keys[1..], bound);
      assert Distinct(keys) ==> keys[0] !in keys[1..];
      (if keys[0] > bound then [keys[0]] else []) + rest
  }

  /** `d[k - inc] = d.pop(k)` */
  function ShiftOne(d: Dict<int, string>, k: int, inc: nat): (r: Dict<int, string>)
    requires Valid(d) && k in d.vals
    ensures Valid(r)
    ensures r.vals == (d.vals - {k})[k - inc := d.vals[k]]
  {
    Set(Pop(d, k).value.1, k - inc, Pop(d, k).value.0)
  }

  /** The inner loop: each key of `ks` in turn popped and its entry stored `inc` lower. */
  function ShiftDown(d: Dict<int, string>, ks: seq<int>, inc: nat): (r: Dict<int, string>)
    requires Valid(d) && Distinct(ks) && forall k :: k in ks ==> k in d.vals
    ensures Valid(r)
    decreases |ks|
  {
    if ks == [] then d
    else
      assert forall j :: 0 < j < |ks| ==> ks[j] != ks[0];
      ShiftDown(ShiftOne(d, ks[0], inc), ks[1..], inc)
  }

  /** Keys taken in strictly ascending order. */
  predicate Ascending(ks: seq<int>) {
    forall i, j :: 0 <= i < j < |ks| ==> ks[i] < ks[j]
  }

  /** The first of ascending keys is the least, and the rest stay ascending. */
  lemma AscendingTail(ks: seq<int>)
    requires Ascending(ks) && ks != []
    ensures forall x :: x in ks ==> ks[0] <= x
    ensures forall x :: x in ks[1..] ==> ks[0] < x
    ensures Distinct(ks[1..]) && Ascending(ks[1..])
  {
    var ks1 := ks[1..];
    forall x | x in ks1 ensures ks[0] < x {
      var i :| 0 <= i < |ks1| && ks1[i] == x;
      assert ks[i + 1] == x;
    }
    forall i, j | 0 <= i < j < |ks1| ensures ks1[i] < ks1[j] {
      assert ks1[i] == ks[i + 1] && ks1[j] == ks[j + 1];
    }
    assert ks == [ks[0]] + ks1;
  }

  /** What shifting the keys `ks` down by `inc` does to a mapping `m`, as a mapping `r`. */
  ghost predicate ShiftedBy(m: map<int, string>, ks: seq<int>, inc: int, r: map<int, string>) {
    && (forall k :: k in ks ==> k in m)
    && (forall j {:trigger j in r} :: j in r <==> (j in m && j !in ks) || j + inc in ks)
    && (forall j {:trigger j in r} :: j in r ==> r[j] == if j + inc in ks then m[j + inc] else m[j])
  }

  /** Shifting the least key first, then the rest, is one shift of them all. */
  lemma ShiftedByCons(m: map<int, string>, ks: seq<int>, inc: int, r: map<int, string>)
    requires ks != [] && ks[0] in m && inc > 0 && forall x :: x in ks[1..] ==> ks[0] < x
    requires ShiftedBy((m - {ks[0]})[ks[0] - inc := m[ks[0]]], ks[1..], inc, r)
    ensures ShiftedBy(m, ks, inc, r)
  {
    var k, ks1 := ks[0], ks[1..];
    assert ks == [k] + ks1;
    assert k - inc !in ks1;
    forall j ensures j in r <==> (j in m && j !in ks) || j + inc in ks {
      assert j + inc in ks <==> j + inc == k || j + inc in ks1;
      assert j in ks <==> j == k || j in ks1;
    }
    forall j | j in r ensures r[j] == if j + inc in ks then m[j + inc] else m[j] {
      assert j + inc in ks <==> j + inc == k || j + inc in ks1;
    }
  }

  /**
   * Shifting keys taken in ascending order moves exactly the listed entries
   * down by `inc` and keeps every other entry, except the ones a moved entry
   * lands on.
   */
  lemma {:induction false} ShiftDownMoves(d: Dict<int, string>, ks: seq<int>, inc: nat)
    requires Valid(d) && Distinct(ks) && forall k :: k in ks ==> k in d.vals
    requires inc > 0 && Ascending(ks)
    ensures ShiftedBy(d.vals, ks, inc, ShiftDown(d, ks, inc).vals)
    decreases |ks|
  {
    if ks != [] {
      AscendingTail(ks);
      ShiftDownMoves(ShiftOne(d, ks[0], inc), ks[1..], inc);
      ShiftedByCons(d.vals, ks, inc, ShiftDown(d, ks, inc).vals);
    }
  }

  /** One round of the renumbering loop for the baseline index `diff`. */
  function RenumberOne(d: Dict<int, string>, diff: int, inc: nat): (r: Result<Dict<int, string>, ApplyError>)
    requires Valid(d) && inc > 0
    ensures r.Ok? ==> Valid(r.value)
    ensures r.Err? <==> OldIndex(diff, inc) !in d.vals
  {
    var oldIndex := OldIndex(diff, inc);
    match Pop(d, oldIndex)
    case None => Err(MissingIndex(oldIndex))
    case Some((v, rest)) =>
      var moved := Set(rest, diff, v);
      Ok(ShiftDown(moved, Above(moved.keys, oldIndex), inc))
  }

  /** The renumbering loop over the baseline's off-step indices, first to last. */
  function Renumber(d: Dict<int, string>, diffs: seq<int>, inc: nat): (r: Result<Dict<int, string>, ApplyError>)
    requires Valid(d) && inc > 0
    ensures r.Ok? ==> Valid(r.value)
    ensures r.Err? ==> r.error.MissingIndex?
    decreases |diffs|
  {
    if diffs == [] then Ok(d)
    else
      match RenumberOne(d, diffs[0], inc)
      case Err(e) => Err(e)
      case Ok(d') => Renumber(d', diffs[1..], inc)
  }

  /** The renumbering pass runs only when all three of its conditions hold. */
  predicate RenumberWanted(info: BuildInfo, entries: Dict<int, string>, table: Dict<int, string>) {
    KeySet(entries) != KeySet(table) && |entries.keys| == |table.keys| && info.outFmt != info.inFmt
  }

  /** The outcome for one language table: the table after renumbering, the merged baseline, the warning flag. */
  datatype TableResult = TableResult(table: Dict<int, string>, merged: Dict<int, string>, warn: bool)

  /** The body of the inner loop of `_apply_mst_patches` once the baseline is loaded. */
  function ApplyTable(info: BuildInfo, entries: Dict<int, string>, table: Dict<int, string>): (r: Result<TableResult, ApplyError>)
    requires Valid(entries) && Valid(table) && info.lineInc > 0
    ensures r.Ok? ==> Valid(r.value.table) && Valid(r.value.merged)
  {
    var renumbered :-
      if !RenumberWanted(info, entries, table) then Ok(table)
      else if info.outFmt != Mst then Err(RenumberNotToMst)
      else Renumber(table, Diffs(entries.keys, info.lineInc), info.lineInc);
    Ok(TableResult(renumbered, Update(entries, renumbered),
      KeySet(entries) != KeySet(renumbered) && info.outFmt != info.inFmt))
  }

  /**
   * When the new table covers exactly the baseline's indices nothing is
   * renumbered and no warning is given; the merged table keeps the
   * baseline's indices in their order and takes every text from the new table.
   */
  lemma ApplyTableSameKeys(info: BuildInfo, entries: Dict<int, string>, table: Dict<int, string>)
    requires Valid(entries) && Valid(table) && info.lineInc > 0
    requires KeySet(entries) == KeySet(table)
    ensures ApplyTable(info, entries, table).Ok?
    ensures ApplyTable(info, entries, table).value.table == table
    ensures !ApplyTable(info, entries, table).value.warn
    ensures ApplyTable(info, entries, table).value.merged.vals == table.vals
    ensures ApplyTable(info, entries, table).value.merged.keys == entries.keys
  {
    var e := entries;
    var r := UpdateKeys(e, table.keys, table.vals);
    UpdateKeysKeepsOrder(e, table.keys, table.vals);
  }

  lemma {:induction false} UpdateKeysKeepsOrder(d: Dict<int, string>, ks: seq<int>, m: map<int, string>)
    requires Valid(d) && (forall k :: k in ks ==> k in m) && (forall k :: k in ks ==> k in d.vals)
    ensures UpdateKeys(d, ks, m).keys == d.keys
    decreases |ks|
  {
    if ks != [] {
      UpdateKeysKeepsOrder(Set(d, ks[0], m[ks[0]]), ks[1..], m);
    }
  }

  /**
   * Without the three conditions the new table is merged as it is; with them
   * and a non-MST output the build stops at the assertion.
   */
  lemma ApplyTableRenumbersOnlyWhenWanted(info: BuildInfo, entries: Dict<int, string>, table: Dict<int, string>)
    requires Valid(entries) && Valid(table) && info.lineInc > 0
    ensures !RenumberWanted(info, entries, table) ==>
      ApplyTable(info, entries, table).Ok? && ApplyTable(info, entries, table).value.table == table
    ensures RenumberWanted(info, entries, table) && info.outFmt != Mst ==>
      ApplyTable(info, entries, table) == Err(RenumberNotToMst)
    ensures ApplyTable(info, entries, table).Ok? ==>
      ApplyTable(info, entries, table).value.merged.vals
        == entries.vals + ApplyTable(info, entries, table).value.table.vals
  {
  }

  /** The tables of one script: language to index to text. */
  type ScriptTables = Dict<int, Dict<int, string>>

  ghost predicate ScriptValid(st: ScriptTables) {
    Valid(st) && forall l :: l in st.vals ==> Valid(st.vals[l])
  }

  /** What the loops have produced so far: the (renumbered) tables, the files, the scripts warned about. */
  datatype Progress<T> = Progress(tables: T, files: map<string, string>, warnings: seq<string>)

  /** The body of the inner loop of `_apply_mst_patches`: load, renumber, merge and save one table. */
  function LanguageStep(info: BuildInfo, argCount: nat, script: string, p: Progress<ScriptTables>, l: int)
    : (r: Result<Progress<ScriptTables>, ApplyError>)
    requires info.lineInc > 0 && ScriptValid(p.tables) && l in p.tables.vals
    ensures r.Ok? ==> ScriptValid(r.value.tables) && r.value.tables.keys == p.tables.keys
    ensures r.Err? && argCount == 1 ==> !r.error.LoadArity?
  {
    var path := MstPath(info.outFmt, script, l);
    var entries :- LoadTable(p.files, path, argCount);
    var res :- ApplyTable(info, entries, p.tables.vals[l]);
    Ok(Progress(Set(p.tables, l, res.table), p.files[path := SaveMst(res.merged)],
                if res.warn then p.warnings + [script] else p.warnings))
  }

  /** The inner loop of `_apply_mst_patches`, over the languages `ls` of `script`. */
  function ApplyLanguages(info: BuildInfo, argCount: nat, script: string, p: Progress<ScriptTables>, ls: seq<int>)
    : (r: Result<Progress<ScriptTables>, ApplyError>)
    requires info.lineInc > 0 && ScriptValid(p.tables) && forall l :: l in ls ==> l in p.tables.vals
    ensures r.Ok? ==> ScriptValid(r.value.tables) && r.value.tables.keys == p.tables.keys
    decreases |ls|
  {
    if ls == [] then Ok(p)
    else
      match LanguageStep(info, argCount, script, p, ls[0])
      case Err(e) => Err(e)
      case Ok(q) => ApplyLanguages(info, argCount, script, q, ls[1..])
  }

  /** The body of the outer loop: every language of one script, then its tables stored back. */
  function ScriptStep(info: BuildInfo, argCount: nat, p: Progress<MstTables>, s: string)
    : (r: Result<Progress<MstTables>, ApplyError>)
    requires info.lineInc > 0 && TablesValid(p.tables) && s in p.tables.vals
    ensures r.Ok? ==> TablesValid(r.value.tables) && r.value.tables.keys == p.tables.keys
  {
    var st := p.tables.vals[s];
    var q :- ApplyLanguages(info, argCount, s, Progress(st, p.files, p.warnings), st.keys);
    Ok(Progress(Set(p.tables, s, q.tables), q.files, q.warnings))
  }

  /** The outer loop of `_apply_mst_patches`, over the scripts `ss`. */
  function ApplyScripts(info: BuildInfo, argCount: nat, p: Progress<MstTables>, ss: seq<string>)
    : (r: Result<Progress<MstTables>, ApplyError>)
    requires info.lineInc > 0 && TablesValid(p.tables) && forall s :: s in ss ==> s in p.tables.vals
    ensures r.Ok? ==> TablesValid(r.value.tables) && r.value.tables.keys == p.tables.keys
    decreases |ss|
  {
    if ss == [] then Ok(p)
    else
      match ScriptStep(info, argCount, p, ss[0])
      case Err(e) => Err(e)
      case Ok(q) => ApplyScripts(info, argCount, q, ss[1..])
  }

  /** `_apply_mst_patches` with the loader called with `argCount` arguments. */
  function ApplyAll(info: BuildInfo, argCount: nat, t: MstTables, files: map<string, string>)
    : (r: Result<Progress<MstTables>, ApplyError>)
    requires info.lineInc > 0 && TablesValid(t)
    ensures r.Ok? ==> TablesValid(r.value.tables) && r.value.tables.keys == t.keys
  {
    ApplyScripts(info, argCount, Progress(t, files, []), t.keys)
  }

  /**
   * As written, `_apply_mst_patches` passes the line increment to a loader
   * that takes only the path, so the first table it reaches raises.
   */
  lemma ApplyAsWrittenRaises(info: BuildInfo, t: MstTables, files: map<string, string>)
    requires info.lineInc > 0 && TablesValid(t)
    requires t.keys != [] && t.vals[t.keys[0]].keys != []
    ensures ApplyAll(info, 2, t, files) == Err(LoadArity(2))
  {
  }

  /**
   * With the loader called with its one argument the arity error never
   * arises: every failure is a missing file, a bad table, the renumbering
   * assertion or a missing index.
   */
  lemma ApplyCorrectedNeverArity(info: BuildInfo, t: MstTables, files: map<string, string>)
    requires info.lineInc > 0 && TablesValid(t)
    ensures ApplyAll(info, 1, t, files).Err? ==> !ApplyAll(info, 1, t, files).error.LoadArity?
  {
    ScriptsNeverArity(info, Progress(t, files, []), t.keys);
  }

  lemma {:induction false} ScriptsNeverArity(info: BuildInfo, p: Progress<MstTables>, ss: seq<string>)
    requires info.lineInc > 0 && TablesValid(p.tables) && forall s :: s in ss ==> s in p.tables.vals
    ensures ApplyScripts(info, 1, p, ss).Err? ==> !ApplyScripts(info, 1, p, ss).error.LoadArity?
    decreases |ss|
  {
    if ss != [] {
      var st := p.tables.vals[ss[0]];
      LanguagesNeverArity(info, ss[0], Progress(st, p.files, p.warnings), st.keys);
      match ScriptStep(info, 1, p, ss[0])
      case Err(_) =>
      case Ok(q) =>
        assert forall s :: s in ss[1..] ==> s in q.tables.vals;
        ScriptsNeverArity(info, q, ss[1..]);
    }
  }

  lemma {:induction false} LanguagesNeverArity(info: BuildInfo, script: string, p: Progress<ScriptTables>, ls: seq<int>)
    requires info.lineInc > 0 && ScriptValid(p.tables) && forall l :: l in ls ==> l in p.tables.vals
    ensures ApplyLanguages(info, 1, script, p, ls).Err? ==> !ApplyLanguages(info, 1, script, p, ls).error.LoadArity?
    decreases |ls|
  {
    if ls != [] {
      match LanguageStep(info, 1, script, p, ls[0])
      case Err(_) =>
      case Ok(q) =>
        assert forall l :: l in ls[1..] ==> l in q.tables.vals;
        LanguagesNeverArity(info, script, q, ls[1..]);
    }
  }

  /** A merged table is saved where it is read back from: the file holds exactly the merged entries. */
  lemma SavedTableReloads(info: BuildInfo, entries: Dict<int, string>, table: Dict<int, string>)
    requires Valid(entries) && Valid(table) && info.lineInc > 0
    requires ApplyTable(info, entries, table).Ok?
    requires forall k :: k in ApplyTable(info, entries, table).value.merged.vals ==>
      NoLineBreak(ApplyTable(info, entries, table).value.merged.vals[k])
    ensures ParseEntries(LoadLines(SaveMst(ApplyTable(info, entries, table).value.merged))).Ok?
    ensures ParseEntries(LoadLines(SaveMst(ApplyTable(info, entries, table).value.merged))).value.vals
      == entries.vals + ApplyTable(info, entries, table).value.table.vals
  {
    MstRoundTrip(ApplyTable(info, entries, table).value.merged);
  }

  // ---- the loops, as the source runs them ----

  /** One key shifted leaves the keys after it distinct and present, ready for the next round. */
  lemma ShiftSuffix(d: Dict<int, string>, ks: seq<int>, i: nat, inc: nat)
    requires Valid(d) && Distinct(ks) && i < |ks| && forall k :: k in ks[i..] ==> k in d.vals
    ensures Distinct(ks[i..]) && Distinct(ks[i + 1..])
    ensures forall k :: k in ks[i + 1..] ==> k in ShiftOne(d, ks[i], inc).vals
    ensures ShiftDown(d, ks[i..], inc) == ShiftDown(ShiftOne(d, ks[i], inc), ks[i + 1..], inc)
  {
    assert ks[i..][0] == ks[i] && ks[i..][1..] == ks[i + 1..];
    forall k | k in ks[i + 1..] ensures k in ShiftOne(d, ks[i], inc).vals {
      var j :| i + 1 <= j < |ks| && ks[j] == k;
      assert ks[j] in ks[i..];
    }
  }

  /** The shifting loop, popping and reinserting keys in place. */
  method ShiftKeys(d: Dict<int, string>, ks: seq<int>, inc: nat) returns (r: Dict<int, string>)
    requires Valid(d) && Distinct(ks) && forall k :: k in ks ==> k in d.vals
    ensures r == ShiftDown(d, ks, inc)
  {
    r := d;
    var i := 0;
    assert ks[i..] == ks;
    while i < |ks|
      invariant i <= |ks| && Valid(r) && Distinct(ks[i..])
      invariant forall k :: k in ks[i..] ==> k in r.vals
      invariant ShiftDown(r, ks[i..], inc) == ShiftDown(d, ks, inc)
    {
      ShiftSuffix(r, ks, i, inc);
      r := ShiftOne(r, ks[i], inc);
      i := i + 1;
    }
  }

  /** The renumbering loop over `diffs`. */
  method RenumberTable(d: Dict<int, string>, diffs: seq<int>, inc: nat) returns (r: Result<Dict<int, string>, ApplyError>)
    requires Valid(d) && inc > 0
    ensures r == Renumber(d, diffs, inc)
  {
    var table := d;
    var i := 0;
    while i < |diffs|
      invariant i <= |diffs| && Valid(table)
      invariant Renumber(table, diffs[i..], inc) == Renumber(d, diffs, inc)
    {
      var diff := diffs[i];
      assert diffs[i..][0] == diff && diffs[i..][1..] == diffs[i + 1..];
      var oldIndex := OldIndex(diff, inc);
      var popped := Pop(table, oldIndex);
      if popped.None? {
        return Err(MissingIndex(oldIndex));
      }
      table := Set(popped.value.1, diff, popped.value.0);
      table := ShiftKeys(table, Above(table.keys, oldIndex), inc);
      i := i + 1;
    }
    return Ok(table);
  }

  /** One pass of the inner loop of `_apply_mst_patches`. */
  method ApplyLanguage(info: BuildInfo, argCount: nat, script: string, p: Progress<ScriptTables>, l: int)
    returns (r: Result<Progress<ScriptTables>, ApplyError>)
    requires info.lineInc > 0 && ScriptValid(p.tables) && l in p.tables.vals
    ensures r == LanguageStep(info, argCount, script, p, l)
  {
    var path := MstPath(info.outFmt, script, l);
    var loaded := LoadTable(p.files, path, argCount);
    if loaded.Err? {
      return Err(loaded.error);
    }
    var entries := loaded.value;
    var table := p.tables.vals[l];
    if RenumberWanted(info, entries, table) {
      if info.outFmt != Mst {
        return Err(RenumberNotToMst);
      }
      var res := RenumberTable(table, Diffs(entries.keys, info.lineInc), info.lineInc);
      if res.Err? {
        return Err(res.error);
      }
      table := res.value;
    }
    var warn := KeySet(entries) != KeySet(table) && info.outFmt != info.inFmt;
    var merged := Update(entries, table);
    return Ok(Progress(Set(p.tables, l, table), p.files[path := SaveMst(merged)],
                       if warn then p.warnings + [script] else p.warnings));
  }

  /** The inner loop of `_apply_mst_patches` for one script. */
  method ApplyLanguageTables(info: BuildInfo, argCount: nat, script: string, p: Progress<ScriptTables>)
    returns (r: Result<Progress<ScriptTables>, ApplyError>)
    requires info.lineInc > 0 && ScriptValid(p.tables)
    ensures r == ApplyLanguages(info, argCount, script, p, p.tables.keys)
  {
    var ls := p.tables.keys;
    var q := p;
    var i := 0;
    while i < |ls|
      invariant i <= |ls| && ScriptValid(q.tables) && q.tables.keys == ls
      invariant ApplyLanguages(info, argCount, script, q, ls[i..]) == ApplyLanguages(info, argCount, script, p, ls)
    {
      assert ls[i..][0] == ls[i] && ls[i..][1..] == ls[i + 1..];
      var res := ApplyLanguage(info, argCount, script, q, ls[i]);
      if res.Err? {
        return Err(res.error);
      }
      q := res.value;
      i := i + 1;
    }
    return Ok(q);
  }

  /** The outer loop of `_apply_mst_patches`. */
  method ApplyTables(info: BuildInfo, argCount: nat, t: MstTables, files: map<string, string>)
    returns (r: Result<Progress<MstTables>, ApplyError>)
    requires info.lineInc > 0 && TablesValid(t)
    ensures r == ApplyAll(info, argCount, t, files)
  {
    var ss := t.keys;
    var q := Progress(t, files, []);
    var i := 0;
    while i < |ss|
      invariant i <= |ss| && TablesValid(q.tables) && q.tables.keys == ss
      invariant ApplyScripts(info, argCount, q, ss[i..]) == ApplyAll(info, argCount, t, files)
    {
      var s := ss[i];
      assert ss[i..][0] == s && ss[i..][1..] == ss[i + 1..];
      var st := q.tables.vals[s];
      var res := ApplyLanguageTables(info, argCount, s, Progress(st, q.files, q.warnings));
      if res.Err? {
        return Err(res.error);
      }
      q := Progress(Set(q.tables, s, res.value.tables), res.value.files, res.value.warnings);
      i := i + 1;
    }
    return Ok(q);
  }
}
