/**
 * lib/TranslationProcessor.py: each translated line of a script either
 * replaces its original line, removes it, or extends it with further lines
 * at freshly allocated indices; removals and extensions also submit a
 * generated patch. `TranslationProcessor` drives a `ScriptPatcher` the way
 * the source does, and its methods state which message slots each entry
 * fills and which patch it submits.
 */
module Translation {
  import opened Wrappers
  import opened PyText
  import opened OrderedDict
  import opened PatchTypes
  import opened MacroTable
  import opened Preprocess
  import opened Patcher
  import opened TranslationText

  /** Why processing an entry raises. */
  datatype TranslationError =
    | AllLanguages                  // the build processes every language at once
    | InvalidLine(text: string)     // `\lineRemove;` mixed with other text
    | IndexTooLarge(index: int)     // an extended line at an index of 10,000,000 or more
    | TooManyPieces(count: nat)     // more than 11 pieces
    | Patching(cause: PatchError)   // `add_mst_line` or `add_patch` raised

  // ---- the message slots an entry fills ----

  /** The keys of `mst_patches[script][language]` in insertion order, empty while that table does not exist. */
  function Keys(t: MstTables, script: string, language: int): seq<int> {
    if script in t.vals && language in t.vals[script].vals then t.vals[script].vals[language].keys else []
  }

  /** `len(mst_patches[script][language])`. */
  function Size(t: MstTables, script: string, language: int): nat {
    |Keys(t, script, language)|
  }

  /**
   * The index of the first extension piece, given the size of the language
   * table before the entry registered anything: above 30,000,000 when lines
   * are a hundred apart, and otherwise counted from the entry count and the
   * table size (the source's `num_entries + len(table) - index - 1`, taken
   * after the first piece went in).
   */
  function FirstPiece(lineInc: nat, numEntries: int, size: nat, index: int): (r: int)
    ensures lineInc == 100 ==> r >= 30_000_000 + index
    ensures lineInc != 100 ==> r == numEntries + (size + 1) - index - 1
  {
    if lineInc == 100 then 30_000_000 + index else numEntries + size - index
  }

  /** The key a generated patch is submitted under. */
  function Key(prefix: string, script: string, index: int): (r: string)
    ensures StartsWith(r, prefix + script + ":")
  {
    var h := prefix + script + ":";
    assert (h + IntToStr(index))[..|h|] == h;
    h + IntToStr(index)
  }

  /** The first colon of `s:rest` is the one after `s` when `s` holds none. */
  lemma ColonAfter(s: string, rest: string)
    requires ':' !in s
    ensures IndexOf(s + ":" + rest, ':') == |s|
  {
    var t := s + ":" + rest;
    assert t[|s|] == ':' && t[..|s|] == s;
  }

  /** With one prefix, scripts without a colon and distinct entries get distinct keys. */
  lemma KeyInjective(prefix: string, s1: string, i1: int, s2: string, i2: int)
    requires ':' !in s1 && ':' !in s2
    requires Key(prefix, s1, i1) == Key(prefix, s2, i2)
    ensures s1 == s2 && i1 == i2
  {
    var k1, k2 := Key(prefix, s1, i1), Key(prefix, s2, i2);
    var t1, t2 := s1 + ":" + IntToStr(i1), s2 + ":" + IntToStr(i2);
    assert k1 == prefix + t1 && k2 == prefix + t2;
    assert t1 == k1[|prefix|..] == t2;
    ColonAfter(s1, IntToStr(i1));
    ColonAfter(s2, IntToStr(i2));
    assert s1 == t1[..|s1|] && s2 == t2[..|s2|];
    assert IntToStr(i1) == t1[|s1| + 1..] && IntToStr(i2) == t2[|s2| + 1..];
    IntToStrInjective(i1, i2);
  }

  /**
   * `t` is `t0` with `texts[i]` placed in slot `slots[i]` of one language
   * table, each slot appended to its keys in order, and every other slot as
   * before.
   */
  ghost predicate Placed(t0: MstTables, t: MstTables, script: string, language: int, slots: seq<int>, texts: seq<string>) {
    && |slots| == |texts|
    && Keys(t, script, language) == Keys(t0, script, language) + slots
    && (forall i :: 0 <= i < |slots| ==> Get(t, script, language, slots[i]) == Some(texts[i]))
    && (forall s, l, j :: (s != script || l != language || j !in slots) ==> Get(t, s, l, j) == Get(t0, s, l, j))
  }

  /** `first`, `first + 1`, … in order. */
  predicate Consecutive(ns: seq<int>, first: int) {
    forall i :: 0 <= i < |ns| ==> ns[i] == first + i
  }

  /** The indices an extension's pieces get: `first`, `first + 1`, … */
  function ExtensionSlots(first: int, k: nat): (r: seq<int>)
    ensures |r| == k && Consecutive(r, first)
  {
    seq(k, i => first + i)
  }

  lemma ExtensionSlotsAre(ns: seq<int>, first: int)
    requires Consecutive(ns, first)
    ensures ns == ExtensionSlots(first, |ns|)
  {
  }

  /** The lowest of `first` … `first + k - 1` already taken in the language table, if any. */
  function Clash(t: MstTables, script: string, language: int, first: int, k: nat): (r: Option<int>)
    ensures r.None? <==> forall j :: first <= j < first + k ==> Get(t, script, language, j).None?
    ensures r.Some? ==> first <= r.value < first + k && Get(t, script, language, r.value).Some?
    ensures r.Some? ==> forall j :: first <= j < r.value ==> Get(t, script, language, j).None?
    decreases k
  {
    if k == 0 then None
    else if Get(t, script, language, first).Some? then Some(first)
    else Clash(t, script, language, first + 1, k - 1)
  }

  /** When `first` … `first + i - 1` are free and `first + i` is taken, that is the clash among any longer run. */
  lemma {:induction false} ClashAt(t: MstTables, script: string, language: int, first: int, i: nat, k: nat)
    requires i < k && Clash(t, script, language, first, i).None? && Get(t, script, language, first + i).Some?
    ensures Clash(t, script, language, first, k) == Some(first + i)
    decreases i
  {
    if i > 0 {
      assert Get(t, script, language, first).None?;
      ClashAt(t, script, language, first + 1, i - 1, k - 1);
    }
  }

  /** A free slot just past a run without a clash extends the run. */
  lemma {:induction false} ClashSnoc(t: MstTables, script: string, language: int, first: int, i: nat)
    requires Clash(t, script, language, first, i).None? && Get(t, script, language, first + i).None?
    ensures Clash(t, script, language, first, i + 1).None?
    decreases i
  {
    if i > 0 {
      ClashSnoc(t, script, language, first + 1, i - 1);
    }
  }

  /** One `add_mst_line` into a free slot places exactly that line, last in its table. */
  lemma AddLinePlaces(t: MstTables, script: string, language: int, index: int, text: string)
    requires TablesValid(t) && Get(t, script, language, index).None?
    ensures AddLine(t, script, language, index, text).Ok?
    ensures Placed(t, AddLine(t, script, language, index, text).value, script, language, [index], [text])
  {
    AddLineExact(t, script, language, index, text);
    var t1 := AddLine(t, script, language, index, text).value;
    if script in t.vals && language in t.vals[script].vals {
      AddLineAppends(t, script, language, index, text);
    } else {
      AddLineFresh(t, script, language, index, text);
    }
    assert Keys(t1, script, language) == Keys(t, script, language) + [index];
  }

  /** A registration into a missing language table makes a table holding just that line. */
  lemma AddLineFresh(t: MstTables, script: string, language: int, index: int, text: string)
    requires TablesValid(t) && !(script in t.vals && language in t.vals[script].vals)
    ensures AddLine(t, script, language, index, text).Ok?
    ensures AddLine(t, script, language, index, text).value.vals[script].vals[language].keys == [index]
  {
  }

  /** Placing one more line into a free slot extends the placement by that slot. */
  lemma {:induction false} PlacedSnoc(t0: MstTables, t: MstTables, t1: MstTables, script: string, language: int,
                                      slots: seq<int>, texts: seq<string>, n: int, text: string)
    requires Placed(t0, t, script, language, slots, texts)
    requires Get(t, script, language, n).None?
    requires Placed(t, t1, script, language, [n], [text])
    ensures n !in slots
    ensures Placed(t0, t1, script, language, slots + [n], texts + [text])
  {
    forall i | 0 <= i < |slots| ensures slots[i] != n {
      assert Get(t, script, language, slots[i]).Some?;
    }
    forall i | 0 <= i < |slots| + 1
      ensures Get(t1, script, language, (slots + [n])[i]) == Some((texts + [text])[i])
    {
      if i < |slots| {
        assert [n][0] != slots[i];
      }
    }
    forall s, l, j | s != script || l != language || j !in slots + [n]
      ensures Get(t1, s, l, j) == Get(t0, s, l, j)
    {
      assert s != script || l != language || j !in [n];
      if s == script && l == language {
        assert j !in slots;
      }
    }
  }

  lemma ConsecutiveSnoc(ns: seq<int>, first: int, n: int)
    requires Consecutive(ns, first) && n == first + |ns|
    ensures Consecutive(ns + [n], first)
  {
  }

  lemma TakeNext<T>(s: seq<T>, i: nat)
    requires i < |s|
    ensures s[..i + 1] == s[..i] + [s[i]]
  {
  }

  /** `add_mst_line` for each slot and its text in turn, up to the first that raises. */
  function AddLines(t: MstTables, script: string, language: int, ns: seq<int>, texts: seq<string>)
    : (r: Result<MstTables, PatchError>)
    requires TablesValid(t) && |ns| == |texts|
    ensures r.Ok? ==> TablesValid(r.value)
    decreases |ns|
  {
    if ns == [] then Ok(t)
    else
      var k := |ns| - 1;
      match AddLines(t, script, language, ns[..k], texts[..k])
      case Err(e) => Err(e)
      case Ok(t') => AddLine(t', script, language, ns[k], texts[k])
  }

  lemma AddLinesSnoc(t: MstTables, script: string, language: int, ns: seq<int>, texts: seq<string>, n: int, text: string)
    requires TablesValid(t) && |ns| == |texts| && AddLines(t, script, language, ns, texts).Ok?
    ensures AddLines(t, script, language, ns + [n], texts + [text])
      == AddLine(AddLines(t, script, language, ns, texts).value, script, language, n, text)
  {
    assert (ns + [n])[..|ns|] == ns && (texts + [text])[..|ns|] == texts;
  }

  /** Registering distinct free slots one after another places each text in its slot and changes nothing else. */
  lemma {:induction false} AddLinesPlaces(t: MstTables, script: string, language: int, ns: seq<int>, texts: seq<string>)
    requires TablesValid(t) && |ns| == |texts| && Distinct(ns)
    requires forall i :: 0 <= i < |ns| ==> Get(t, script, language, ns[i]).None?
    ensures AddLines(t, script, language, ns, texts).Ok?
    ensures Placed(t, AddLines(t, script, language, ns, texts).value, script, language, ns, texts)
    decreases |ns|
  {
    if ns == [] {
      assert Keys(t, script, language) + [] == Keys(t, script, language);
    } else {
      var k := |ns| - 1;
      var ns', texts' := ns[..k], texts[..k];
      assert ns' + [ns[k]] == ns && texts' + [texts[k]] == texts;
      assert forall i :: 0 <= i < k ==> ns'[i] == ns[i];
      AddLinesPlaces(t, script, language, ns', texts');
      assert ns[k] !in ns';
      PlacedStep(t, AddLines(t, script, language, ns', texts').value, script, language, ns', texts', ns[k], texts[k]);
    }
  }

  /** One more registration, into a slot free before the placement and not among its slots, extends the placement. */
  lemma PlacedStep(t0: MstTables, t: MstTables, script: string, language: int,
                   slots: seq<int>, texts: seq<string>, n: int, text: string)
    requires TablesValid(t) && Placed(t0, t, script, language, slots, texts)
    requires n !in slots && Get(t0, script, language, n).None?
    ensures AddLine(t, script, language, n, text).Ok?
    ensures Placed(t0, AddLine(t, script, language, n, text).value, script, language, slots + [n], texts + [text])
  {
    assert Get(t, script, language, n) == Get(t0, script, language, n);
    AddLinePlaces(t, script, language, n, text);
    PlacedSnoc(t0, t, AddLine(t, script, language, n, text).value, script, language, slots, texts, n, text);
  }

  lemma ConsecutiveDistinct(ns: seq<int>, first: int)
    requires Consecutive(ns, first)
    ensures Distinct(ns)
    ensures forall i :: 0 <= i < |ns| ==> first <= ns[i] < first + |ns|
  {
  }

  /** Registering a run without a clash keeps the next index as it was and puts the run last in its table. */
  lemma AddLinesRun(t0: MstTables, script: string, language: int, first: int, ns: seq<int>, texts: seq<string>, n: int)
    requires TablesValid(t0) && |ns| == |texts| && Consecutive(ns, first) && n == first + |ns|
    requires Clash(t0, script, language, first, |ns|).None?
    ensures AddLines(t0, script, language, ns, texts).Ok?
    ensures var t := AddLines(t0, script, language, ns, texts).value;
      && Keys(t, script, language) == Keys(t0, script, language) + ns
      && Get(t, script, language, n) == Get(t0, script, language, n)
  {
    ConsecutiveDistinct(ns, first);
    forall j | 0 <= j < |ns| ensures Get(t0, script, language, ns[j]).None? {
      assert first <= ns[j] < first + |ns|;
    }
    AddLinesPlaces(t0, script, language, ns, texts);
    assert n !in ns;
  }

  /**
   * Registering the next piece at `n`: it fails exactly when `n` is the
   * first clash of the whole run, and otherwise extends the run.
   */
  lemma PieceOutcome(t0: MstTables, t: MstTables, t': MstTables, res: Result<(), PatchError>, script: string, language: int,
                     first: int, ns: seq<int>, texts: seq<string>, n: int, text: string, k: nat)
    requires Progress(t0, script, language, first, ns, texts, t)
    requires n == first + |ns| && |ns| < k
    requires res.Ok? <==> AddLine(t, script, language, n, text).Ok?
    requires res.Ok? ==> t' == AddLine(t, script, language, n, text).value
    requires res.Err? ==> res.error == AddLine(t, script, language, n, text).error
    ensures res.Err? ==> Clash(t0, script, language, first, k) == Some(n) && res.error == LineConflict(language, n)
    ensures res.Ok? ==> Progress(t0, script, language, first, ns + [n], texts + [text], t')
  {
    ClashStep(t0, script, language, first, |ns|, k, n);
    PieceStep(t0, t, script, language, first, ns, texts, n, text);
    ConsecutiveSnoc(ns, first, n);
  }

  /** With lines one apart, the size of the language table after `|ns|` pieces gives the next new index. */
  lemma SizedIndex(t0: MstTables, script: string, language: int, first: int, ns: seq<int>, texts: seq<string>, t: MstTables,
                   numEntries: int, sizeBefore: nat, index: int, lineInc: nat)
    requires Progress(t0, script, language, first, ns, texts, t)
    requires Size(t0, script, language) == sizeBefore + 1 && lineInc != 100
    requires first == FirstPiece(lineInc, numEntries, sizeBefore, index)
    ensures script in t.vals && language in t.vals[script].vals
    ensures numEntries + |t.vals[script].vals[language].keys| - index - 1 == first + |ns|
  {
    AddLinesRun(t0, script, language, first, ns, texts, first + |ns|);
  }

  /**
   * One turn of `process_entry`'s loop over the pieces, with `ns` the
   * indices registered so far from `first` on into `t` and `n` the next:
   * registering `n` raises exactly when it was taken before the loop
   * began, and otherwise extends the registrations.
   */
  lemma PieceStep(t0: MstTables, t: MstTables, script: string, language: int, first: int,
                  ns: seq<int>, texts: seq<string>, n: int, text: string)
    requires TablesValid(t0) && |ns| == |texts| && Consecutive(ns, first) && n == first + |ns|
    requires Clash(t0, script, language, first, |ns|).None?
    requires AddLines(t0, script, language, ns, texts) == Ok(t)
    ensures TablesValid(t) && |Keys(t, script, language)| == |Keys(t0, script, language)| + |ns|
    ensures var a := AddLine(t, script, language, n, text);
      && (a.Err? <==> Get(t0, script, language, n).Some?)
      && (a.Err? ==> a.error == LineConflict(language, n))
      && (a.Ok? ==> AddLines(t0, script, language, ns + [n], texts + [text]) == a)
  {
    AddLinesRun(t0, script, language, first, ns, texts, n);
    AddLineExact(t, script, language, n, text);
    if AddLine(t, script, language, n, text).Ok? {
      AddLinesSnoc(t0, script, language, ns, texts, n, text);
    }
  }

  /** `ns` registered from `first` on into `t0`, without a clash, gave `t`. */
  ghost predicate Progress(t0: MstTables, script: string, language: int, first: int, ns: seq<int>, texts: seq<string>, t: MstTables) {
    && TablesValid(t0) && |ns| == |texts| && Consecutive(ns, first)
    && Clash(t0, script, language, first, |ns|).None?
    && AddLines(t0, script, language, ns, texts) == Ok(t)
  }

  /** The index `n` after a run of `i` without a clash: the first clash of the whole run if taken, one more free index otherwise. */
  lemma ClashStep(t: MstTables, script: string, language: int, first: int, i: nat, k: nat, n: int)
    requires i < k && n == first + i && Clash(t, script, language, first, i).None?
    ensures Get(t, script, language, n).Some? ==> Clash(t, script, language, first, k) == Some(n)
    ensures Get(t, script, language, n).None? ==> Clash(t, script, language, first, i + 1).None?
  {
    if Get(t, script, language, n).Some? {
      ClashAt(t, script, language, first, i, k);
    } else {
      ClashSnoc(t, script, language, first, i);
    }
  }

  /** A placement of one line followed by a placement of more lines is a placement of all of them. */
  lemma PlacedThen(t0: MstTables, t1: MstTables, t: MstTables, script: string, language: int,
                   index: int, text: string, slots: seq<int>, texts: seq<string>)
    requires Placed(t0, t1, script, language, [index], [text])
    requires Placed(t1, t, script, language, slots, texts)
    requires index !in slots
    ensures Placed(t0, t, script, language, [index] + slots, [text] + texts)
  {
    PlacedThenTexts(t0, t1, t, script, language, index, text, slots, texts);
    PlacedThenOthers(t0, t1, t, script, language, index, text, slots, texts);
  }

  lemma {:induction false} PlacedThenTexts(t0: MstTables, t1: MstTables, t: MstTables, script: string, language: int,
                                           index: int, text: string, slots: seq<int>, texts: seq<string>)
    requires Placed(t0, t1, script, language, [index], [text])
    requires Placed(t1, t, script, language, slots, texts)
    requires index !in slots
    ensures forall i :: 0 <= i < |slots| + 1 ==> Get(t, script, language, ([index] + slots)[i]) == Some(([text] + texts)[i])
  {
    forall i | 0 <= i < |slots| + 1
      ensures Get(t, script, language, ([index] + slots)[i]) == Some(([text] + texts)[i])
    {
      if i == 0 {
        assert Get(t, script, language, index) == Get(t1, script, language, index);
      } else {
        assert ([index] + slots)[i] == slots[i - 1];
      }
    }
  }

  lemma {:induction false} PlacedThenOthers(t0: MstTables, t1: MstTables, t: MstTables, script: string, language: int,
                                            index: int, text: string, slots: seq<int>, texts: seq<string>)
    requires Placed(t0, t1, script, language, [index], [text])
    requires Placed(t1, t, script, language, slots, texts)
    ensures forall s, l, j :: (s != script || l != language || j !in [index] + slots) ==> Get(t, s, l, j) == Get(t0, s, l, j)
  {
    forall s, l, j | s != script || l != language || j !in [index] + slots
      ensures Get(t, s, l, j) == Get(t0, s, l, j)
    {
      assert s != script || l != language || j !in slots;
      assert s != script || l != language || j !in [index];
    }
  }

  /**
   * An extended line's registrations: when the first piece's slot is free
   * and no later slot clashes, each piece lands in its slot, the first at
   * the entry's index and the others consecutively from `first`, and every
   * other slot keeps its text.
   */
  lemma ExtensionPlaced(t0: MstTables, script: string, language: int, index: int, text: string, first: int, texts: seq<string>)
    requires TablesValid(t0) && Get(t0, script, language, index).None?
    requires Clash(AddLine(t0, script, language, index, text).value, script, language, first, |texts|).None?
    ensures var t1 := AddLine(t0, script, language, index, text).value;
      && AddLines(t1, script, language, ExtensionSlots(first, |texts|), texts).Ok?
      && Placed(t0, AddLines(t1, script, language, ExtensionSlots(first, |texts|), texts).value,
                script, language, [index] + ExtensionSlots(first, |texts|), [text] + texts)
  {
    var t1 := AddLine(t0, script, language, index, text).value;
    var slots := ExtensionSlots(first, |texts|);
    AddLinePlaces(t0, script, language, index, text);
    ConsecutiveDistinct(slots, first);
    AddLinesPlaces(t1, script, language, slots, texts);
    assert index !in slots by {
      assert Get(t1, script, language, index).Some?;
    }
    PlacedThen(t0, t1, AddLines(t1, script, language, slots, texts).value, script, language, index, text, slots, texts);
  }

  // ---- the generated patch texts ----

  /** The guard lines of `extend_mes`, one `+=` per new index. */
  method GuardText(ns: seq<int>) returns (text: string)
    ensures text == Terminated(Guards(ns))
  {
    text := "";
    for i := 0 to |ns|
      invariant text == Terminated(Guards(ns[..i]))
    {
      assert ns[..i + 1] == ns[..i] + [ns[i]];
      GuardsSnoc(ns[..i], ns[i]);
      TerminatedAppend(Guards(ns[..i]), SavepointGuard(ns[i]));
      text := text + SavepointGuard(ns[i]) + "\n";
    }
    assert ns[..|ns|] == ns;
  }

  /** The chain of `extend_mes` under return-address saving, one `+=` per line. */
  method ChainText(outFmt: ScriptFormat, nonJapanese: bool, ns: seq<int>) returns (text: string)
    ensures text == Terminated(Chain(outFmt, nonJapanese, ns))
  {
    text := "";
    for i := 0 to |ns|
      invariant text == Terminated(Chain(outFmt, nonJapanese, ns[..i]))
    {
      var n := ns[i];
      if nonJapanese {
        text := text + (SavepointSet(n) + "\n" + PieceLabel(n) + "\n");
      }
      text := text + (ShowByRa(outFmt, n) + "\n");
      assert ns[..i + 1] == ns[..i] + [n];
      ChainTextSnoc(outFmt, nonJapanese, ns[..i], n);
    }
    assert ns[..|ns|] == ns;
  }

  /** The chain of `extend_mes` under instruction-pointer saving, one `+=` per new index. */
  method IpChainText(ns: seq<int>) returns (text: string)
    ensures text == Terminated(IpChain(ns))
  {
    text := "";
    for i := 0 to |ns|
      invariant text == Terminated(IpChain(ns[..i]))
    {
      assert ns[..i + 1] == ns[..i] + [ns[i]];
      IpChainSnoc(ns[..i], ns[i]);
      TerminatedAppend(IpChain(ns[..i]), ShowByIp(ns[i]));
      text := text + ShowByIp(ns[i]) + "\n";
    }
    assert ns[..|ns|] == ns;
  }

  /**
   * `extend_mes`'s text, built up with `+=` in the source's order; the fixed
   * blocks are appended as the text of their lines.
   */
  method ExtendMesText(info: BuildInfo, script: string, index: int, voiced: bool, ns: seq<int>) returns (patch: string)
    ensures patch == ExtendText(info, script, index, voiced, ns)
  {
    var nj := info.selected != Only(Japanese);
    patch := "@@ " + script + ".scs" + "\n";
    match info.saveMethod {
      case Ra =>
        if nj {
          patch := patch + Terminated(RaOpening(info, nj));
          var guards := GuardText(ns);
          patch := patch + guards;
        }
        patch := patch + Terminated(RaBase(info, nj, index, voiced));
        var chain := ChainText(info.outFmt, nj, ns);
        patch := patch + chain;
        if info.outFmt == Mst && nj {
          patch := patch + Terminated(RaClosing(info, nj));
        }
        ExtendTextRa(info, script, index, voiced, ns);
      case Ip =>
        patch := patch + Terminated(IpBase(index));
        var chain := IpChainText(ns);
        patch := patch + chain;
        ExtendTextIp(info, script, index, voiced, ns);
    }
  }

  // ---- the processor ----

  /** `TranslationProcessor`: feeds translated lines into a `ScriptPatcher`. */
  class TranslationProcessor {
    const patcher: ScriptPatcher
    const prefix: string

    ghost predicate Valid()
      reads patcher
    {
      patcher.Valid()
    }

    /** The text directory is not part of this model: `ScriptOf` derives a file's script name and `ProcessEntry` takes its entries. */
    constructor(patcher: ScriptPatcher, prefix: string)
      ensures this.patcher == patcher && this.prefix == prefix
    {
      this.patcher := patcher;
      this.prefix := prefix;
    }

    /**
     * After the lines of `t` were placed, the patch `text` went through
     * `add_patch` under `key`: the outcome `r` and the new state are those
     * of preprocessing it on `t`.
     */
    ghost predicate Submitted(scs0: seq<(string, string)>, t: MstTables, key: string, text: string, fuel: nat,
                              r: Result<seq<int>, TranslationError>)
      reads patcher
    {
      && TablesValid(t)
      && var m := Preprocessed(patcher.consts, patcher.macros, t, text, fuel);
      && (r.Ok? <==> m.Ok?)
      && (r.Ok? ==> patcher.scsPatches == scs0 + [(key, m.value.0)] && patcher.mstPatches == m.value.1)
      && (r.Err? ==> r.error == Patching(m.error) && patcher.scsPatches == scs0)
    }

    /** `remove_mes`: submits the patch that skips the line for Japanese, under the entry's key. */
    method RemoveMes(script: string, index: int, fuel: nat) returns (r: Result<(), PatchError>)
      requires Valid()
      modifies patcher
      ensures Valid()
      ensures var m := Preprocessed(patcher.consts, patcher.macros, old(patcher.mstPatches), RemoveText(script, index), fuel);
        && (r.Ok? <==> m.Ok?)
        && (r.Ok? ==> patcher.scsPatches == old(patcher.scsPatches) + [(Key(prefix, script, index), m.value.0)]
                      && patcher.mstPatches == m.value.1)
        && (r.Err? ==> r.error == m.error && patcher.scsPatches == old(patcher.scsPatches))
    {
      r := patcher.AddPatch(Key(prefix, script, index), RemoveText(script, index), fuel);
    }

    /** `extend_mes`: submits the patch that shows the pieces at `ns` after the line, under the entry's key. */
    method ExtendMes(script: string, index: int, voiced: bool, ns: seq<int>, fuel: nat) returns (r: Result<(), PatchError>)
      requires Valid()
      modifies patcher
      ensures Valid()
      ensures var m := Preprocessed(patcher.consts, patcher.macros, old(patcher.mstPatches),
                                    ExtendText(patcher.info, script, index, voiced, ns), fuel);
        && (r.Ok? <==> m.Ok?)
        && (r.Ok? ==> patcher.scsPatches == old(patcher.scsPatches) + [(Key(prefix, script, index), m.value.0)]
                      && patcher.mstPatches == m.value.1)
        && (r.Err? ==> r.error == m.error && patcher.scsPatches == old(patcher.scsPatches))
    {
      var patch := ExtendMesText(patcher.info, script, index, voiced, ns);
      r := patcher.AddPatch(Key(prefix, script, index), patch, fuel);
    }

    /**
     * One turn of `process_entry`'s loop over the pieces: registers `piece`
     * at the `i`-th new index, `30_000_000 + index + i` or
     * `num_entries + len(table) - index - 1`, when the `i` pieces before it
     * went to the indices `ns` from `first` on; `t0` is the table before
     * the loop and `k` the number of pieces.
     */
    method AddPiece(script: string, language: int, index: int, i: nat, piece: string, numEntries: int,
                    ghost t0: MstTables, ghost sizeBefore: nat, ghost first: int, ghost ns: seq<int>, ghost texts: seq<string>, ghost k: nat)
      returns (r: Result<int, PatchError>)
      requires Valid() && |ns| == i < k
      requires Size(t0, script, language) == sizeBefore + 1
      requires first == FirstPiece(patcher.info.lineInc, numEntries, sizeBefore, index)
      requires Progress(t0, script, language, first, ns, texts, patcher.mstPatches)
      modifies patcher
      ensures Valid() && patcher.scsPatches == old(patcher.scsPatches)
      ensures r.Err? ==> && Clash(t0, script, language, first, k) == Some(first + i)
                         && r.error == LineConflict(language, first + i)
      ensures r.Ok? ==> && r.value == first + i
                        && Progress(t0, script, language, first, ns + [r.value], texts + [piece], patcher.mstPatches)
    {
      var newIndex: int;
      if patcher.info.lineInc == 100 {
        newIndex := 30_000_000 + index + i;
      } else {
        SizedIndex(t0, script, language, first, ns, texts, patcher.mstPatches, numEntries, sizeBefore, index, patcher.info.lineInc);
        newIndex := numEntries + |patcher.mstPatches.vals[script].vals[language].keys| - index - 1;
      }
      assert newIndex == first + i;
      ghost var t := patcher.mstPatches;
      var res := patcher.AddMstLine(script, language, newIndex, piece);
      PieceOutcome(t0, t, patcher.mstPatches, res, script, language, first, ns, texts, newIndex, piece, k);
      if res.Err? {
        return Err(res.error);
      }
      return Ok(newIndex);
    }

    /**
     * The loop of `process_entry` over the pieces after the first: each
     * piece goes to the next new index, and the loop stops at the first
     * index already taken. `sizeBefore` is the table's size before the
     * entry's first piece went in.
     */
    method AddPieces(script: string, language: int, index: int, pieces: seq<string>, numEntries: int,
                     ghost t0: MstTables, ghost sizeBefore: nat, ghost first: int)
      returns (r: Result<seq<int>, PatchError>)
      requires Valid() && t0 == patcher.mstPatches
      requires Size(t0, script, language) == sizeBefore + 1
      requires first == FirstPiece(patcher.info.lineInc, numEntries, sizeBefore, index)
      modifies patcher
      ensures Valid() && patcher.scsPatches == old(patcher.scsPatches)
      ensures var clash := Clash(t0, script, language, first, |pieces|);
        && (r.Err? <==> clash.Some?)
        && (r.Err? ==> r.error == LineConflict(language, clash.value))
        && (r.Ok? ==> r.value == ExtensionSlots(first, |pieces|)
                      && AddLines(t0, script, language, r.value, pieces) == Ok(patcher.mstPatches))
    {
      var newIndices: seq<int> := [];
      var i := 0;
      while i < |pieces|
        invariant 0 <= i <= |pieces| && |newIndices| == i
        invariant Valid() && patcher.scsPatches == old(patcher.scsPatches)
        invariant Progress(t0, script, language, first, newIndices, pieces[..i], patcher.mstPatches)
      {
        TakeNext(pieces, i);
        var res := AddPiece(script, language, index, i, pieces[i], numEntries, t0, sizeBefore, first, newIndices, pieces[..i], |pieces|);
        if res.Err? {
          return Err(res.error);
        }
        newIndices := newIndices + [res.value];
        i := i + 1;
      }
      assert pieces[..i] == pieces;
      ExtensionSlotsAre(newIndices, first);
      return Ok(newIndices);
    }

    /**
     * The outcome of the removal marker from tables `t0` and patches `scs0`:
     * a conflict at language 1 fails the entry; otherwise the placeholder is
     * placed and `remove_mes`'s patch is submitted on top of it.
     */
    ghost predicate Removed(t0: MstTables, scs0: seq<(string, string)>, name: string, index: int, fuel: nat,
                            r: Result<seq<int>, TranslationError>)
      requires TablesValid(t0)
      reads patcher
    {
      if Get(t0, name, 1, index).Some? then r == Err(Patching(LineConflict(1, index)))
      else
        && (r.Ok? ==> r.value == [])
        && Submitted(scs0, AddLine(t0, name, 1, index, Placeholder).value,
                     Key(prefix, name, index), RemoveText(name, index), fuel, r)
    }

    /**
     * The outcome of an extended line split into `parts` from tables `t0`
     * and patches `scs0`: a conflict at the entry's index or at one of the
     * new indices from `FirstPiece` fails the entry; otherwise every piece is
     * placed (the tables `placed`), the new indices are returned, and
     * `extend_mes`'s patch naming them is submitted on top of `placed`.
     */
    ghost predicate Extended(t0: MstTables, scs0: seq<(string, string)>, name: string, language: int, index: int,
                             parts: seq<string>, numEntries: int, fuel: nat,
                             r: Result<seq<int>, TranslationError>, placed: MstTables)
      requires TablesValid(t0) && |parts| >= 1
      reads patcher
    {
      var first := FirstPiece(patcher.info.lineInc, numEntries, Size(t0, name, language), index);
      if Get(t0, name, language, index).Some? then r == Err(Patching(LineConflict(language, index)))
      else
        var t1 := AddLine(t0, name, language, index, parts[0]).value;
        var clash := Clash(t1, name, language, first, |parts| - 1);
        if clash.Some? then r == Err(Patching(LineConflict(language, clash.value))) && patcher.scsPatches == scs0
        else
          && AddLines(t1, name, language, ExtensionSlots(first, |parts| - 1), parts[1..]) == Ok(placed)
          && (r.Ok? ==> r.value == ExtensionSlots(first, |parts| - 1))
          && Submitted(scs0, placed, Key(prefix, name, index),
                       ExtendText(patcher.info, name, index, Voiced(parts[0]), ExtensionSlots(first, |parts| - 1)), fuel, r)
    }

    /**
     * The removal marker: the placeholder goes to language 1 at the entry's
     * index, then `remove_mes`'s patch is submitted.
     */
    method RemoveEntry(name: string, index: int, fuel: nat) returns (r: Result<seq<int>, TranslationError>)
      requires Valid()
      modifies patcher
      ensures Valid()
      ensures Removed(old(patcher.mstPatches), old(patcher.scsPatches), name, index, fuel, r)
      ensures Get(old(patcher.mstPatches), name, 1, index).Some? ==> unchanged(patcher)
    {
      AddLineExact(patcher.mstPatches, name, 1, index, Placeholder);
      var res := patcher.AddMstLine(name, 1, index, Placeholder);
      if res.Err? {
        return Err(Patching(res.error));
      }
      var sub := RemoveMes(name, index, fuel);
      if sub.Err? {
        return Err(Patching(sub.error));
      }
      return Ok([]);
    }

    /**
     * An extended line whose index and piece count passed the checks: the
     * first piece goes to the entry's index, the others to new indices from
     * `first`, then `extend_mes`'s patch naming them is submitted. `placed`
     * is the message tables once every piece is in.
     */
    method ExtendEntry(name: string, language: int, index: int, parts: seq<string>, numEntries: int, fuel: nat)
      returns (r: Result<seq<int>, TranslationError>, ghost placed: MstTables)
      requires Valid() && |parts| >= 1
      modifies patcher
      ensures Valid()
      ensures Extended(old(patcher.mstPatches), old(patcher.scsPatches), name, language, index, parts, numEntries, fuel, r, placed)
      ensures Get(old(patcher.mstPatches), name, language, index).Some? ==> unchanged(patcher)
    {
      ghost var t0 := patcher.mstPatches;
      placed := t0;
      AddLineExact(t0, name, language, index, parts[0]);
      var res := patcher.AddMstLine(name, language, index, parts[0]);
      if res.Err? {
        return Err(Patching(res.error)), placed;
      }
      if Get(t0, name, language, index).None? {
        AddLinePlaces(t0, name, language, index, parts[0]);
      }
      var voiced := Voiced(parts[0]);
      assert |parts[1..]| == |parts| - 1;
      var added := AddPieces(name, language, index, parts[1..], numEntries, patcher.mstPatches, Size(t0, name, language), FirstPiece(patcher.info.lineInc, numEntries, Size(t0, name, language), index));
      if added.Err? {
        return Err(Patching(added.error)), placed;
      }
      var newIndices := added.value;
      placed := patcher.mstPatches;
      var sub := ExtendMes(name, index, voiced, newIndices, fuel);
      if sub.Err? {
        return Err(Patching(sub.error)), placed;
      }
      return Ok(newIndices), placed;
    }

    /**
     * `process_entry`: the language comes from the build (or from an `_NN`
     * script name under MST input). The exact removal marker places the
     * placeholder under language 1 and submits `remove_mes`'s patch; text
     * without `\lineAdd;` is registered at the entry's index as it is; an
     * extended line registers its first piece there and the others at
     * consecutive new indices, then submits `extend_mes`'s patch naming
     * them, which the result returns.
     */
    method ProcessEntry(script: string, index: int, text: string, numEntries: int, fuel: nat)
      returns (r: Result<seq<int>, TranslationError>, ghost placed: MstTables)
      requires Valid()
      modifies patcher
      ensures Valid()
      ensures Target(patcher.info, script).None? ==> r == Err(AllLanguages) && unchanged(patcher)
      ensures Target(patcher.info, script).Some? ==>
        var (name, language) := Target(patcher.info, script).value;
        var t0 := old(patcher.mstPatches);
        var parts := SplitStr(text, AddMarker);
        && (Contains(text, RemoveMarker) && text != RemoveMarker ==> r == Err(InvalidLine(text)) && unchanged(patcher))
        && (text == RemoveMarker ==>
              && Removed(t0, old(patcher.scsPatches), name, index, fuel, r)
              && (Get(t0, name, 1, index).Some? ==> unchanged(patcher)))
        && (!Contains(text, RemoveMarker) && |parts| < 2 ==>
              if Get(t0, name, language, index).Some? then r == Err(Patching(LineConflict(language, index))) && unchanged(patcher)
              else r == Ok([]) && patcher.mstPatches == AddLine(t0, name, language, index, text).value
                   && patcher.scsPatches == old(patcher.scsPatches))
        && (!Contains(text, RemoveMarker) && |parts| >= 2 && index >= 10_000_000 ==>
              r == Err(IndexTooLarge(index)) && unchanged(patcher))
        && (!Contains(text, RemoveMarker) && |parts| >= 2 && index < 10_000_000 && |parts| > 11 ==>
              r == Err(TooManyPieces(|parts|)) && unchanged(patcher))
      ensures Target(patcher.info, script).Some? ==>
        var (name, language) := Target(patcher.info, script).value;
        var t0 := old(patcher.mstPatches);
        var parts := SplitStr(text, AddMarker);
        !Contains(text, RemoveMarker) && 2 <= |parts| <= 11 && index < 10_000_000 ==>
          && Extended(t0, old(patcher.scsPatches), name, language, index, parts, numEntries, fuel, r, placed)
          && (Get(t0, name, language, index).Some? ==> unchanged(patcher))
    {
      placed := patcher.mstPatches;
      var target := Target(patcher.info, script);
      if target.None? {
        return Err(AllLanguages), placed;
      }
      var (name, language) := target.value;
      if Contains(text, RemoveMarker) {
        if text != RemoveMarker {
          return Err(InvalidLine(text)), placed;
        }
        r := RemoveEntry(name, index, fuel);
        return r, placed;
      }
      var parts := SplitStr(text, AddMarker);
      if |parts| < 2 {
        AddLineExact(patcher.mstPatches, name, language, index, text);
        var res := patcher.AddMstLine(name, language, index, text);
        if res.Err? {
          return Err(Patching(res.error)), placed;
        }
        return Ok([]), placed;
      }
      if index >= 10_000_000 {
        return Err(IndexTooLarge(index)), placed;
      }
      if |parts| > 11 {
        return Err(TooManyPieces(|parts|)), placed;
      }
      r, placed := ExtendEntry(name, language, index, parts, numEntries, fuel);
    }
  }
}
