/**
 * The two classes of lib/ScriptPatcher.py. `ScriptPatcher` collects the
 * expanded patch texts and the message tables and applies them;
 * `PatchPreprocessor` walks a patch's line buffer with a cursor, changing the
 * buffer, the cursor, the block name and its counters in place. Each method
 * is proved to agree with the functions of preprocess.dfy and
 * patch_apply.dfy, whose lemmas state what the source promises.
 */
module Patcher {
  import opened Wrappers
  import opened PyText
  import opened OrderedDict
  import opened MacroTable
  import opened PatchTypes
  import opened Preprocess
  import opened PatchApply

  /**
   * Creating the script and language tables first, as `add_mst_line` does,
   * and then assigning the line gives the tables of `AddLine`.
   */
  lemma AddLineInPlace(t: MstTables, script: string, language: int, index: int, text: string)
    requires TablesValid(t)
    ensures var m1 := if script in t.vals then t else Set(t, script, Empty());
      var st := m1.vals[script];
      var m2 := if language in st.vals then m1 else Set(m1, script, Set(st, language, Empty()));
      var st2 := if language in st.vals then st else Set(st, language, Empty());
      var lt := st2.vals[language];
      index !in lt.vals ==>
        AddLine(t, script, language, index, text) == Ok(Set(m2, script, Set(st2, language, Set(lt, index, text))))
  {
    var m1 := if script in t.vals then t else Set(t, script, Empty());
    var st := m1.vals[script];
    var st2 := if language in st.vals then st else Set(st, language, Empty());
    var lt := st2.vals[language];
    var v := Set(lt, index, text);
    if language !in st.vals {
      SetSet(st, language, Empty(), v);
      SetSet(m1, script, st2, Set(st2, language, v));
    }
    if script !in t.vals {
      SetSet(t, script, Empty(), Set(st2, language, v));
    }
  }

  /** `ScriptPatcher`: the patch texts gathered so far and the message lines they registered. */
  class ScriptPatcher {
    const consts: map<string, string>
    const info: BuildInfo
    /** `MACRO_TABLE`, the handler table the module builds at import time. */
    const macros: string -> Option<Macro>
    var scsPatches: seq<(string, string)>
    var mstPatches: MstTables

    ghost predicate Valid()
      reads this
    {
      TablesValid(mstPatches) && ValidBuildInfo(info) && NoTagInValues(consts)
    }

    /** The scs and build directories are not part of this model: files are passed to the methods that use them. */
    constructor(consts: map<string, string>, info: BuildInfo)
      requires ValidBuildInfo(info) && NoTagInValues(consts)
      ensures Valid()
      ensures this.consts == consts && this.info == info && macros == Handler
      ensures scsPatches == [] && mstPatches == Empty()
    {
      this.consts := consts;
      this.info := info;
      macros := Handler;
      scsPatches := [];
      mstPatches := Empty();
    }

    /**
     * `add_mst_line`: creates the script and language tables when missing,
     * then raises on an index already present; the result is `AddLine`.
     */
    method AddMstLine(script: string, language: int, index: int, text: string) returns (r: Result<(), PatchError>)
      requires Valid()
      modifies this
      ensures Valid()
      ensures r.Ok? <==> AddLine(old(mstPatches), script, language, index, text).Ok?
      ensures r.Ok? ==> mstPatches == AddLine(old(mstPatches), script, language, index, text).value
      ensures r.Err? ==> r.error == AddLine(old(mstPatches), script, language, index, text).error
      ensures r.Err? ==> unchanged(this)
      ensures scsPatches == old(scsPatches)
    {
      var tables := mstPatches;
      if script !in tables.vals {
        tables := Set(tables, script, Empty());
      }
      var scriptTable := tables.vals[script];
      if language !in scriptTable.vals {
        scriptTable := Set(scriptTable, language, Empty());
        tables := Set(tables, script, scriptTable);
      }
      var languageTable := scriptTable.vals[language];
      if index in languageTable.vals {
        return Err(LineConflict(language, index));
      }
      AddLineInPlace(mstPatches, script, language, index, text);
      mstPatches := Set(tables, script, Set(scriptTable, language, Set(languageTable, index, text)));
      return Ok(());
    }

    /**
     * `add_patch`: preprocesses the text with a fresh `PatchPreprocessor`,
     * which may register message lines, and keeps the result under `key`.
     */
    method AddPatch(key: string, text: string, fuel: nat) returns (r: Result<(), PatchError>)
      requires Valid()
      modifies this
      ensures Valid()
      ensures var m := Preprocessed(consts, macros, old(mstPatches), text, fuel);
        && (r.Ok? <==> m.Ok?)
        && (r.Ok? ==> scsPatches == old(scsPatches) + [(key, m.value.0)] && mstPatches == m.value.1)
        && (r.Err? ==> r.error == m.error && scsPatches == old(scsPatches))
    {
      var pre := new PatchPreprocessor(this, macros, text);
      var out := pre.Run(fuel);
      if out.Err? {
        return Err(out.error);
      }
      scsPatches := scsPatches + [(key, out.value)];
      return Ok(());
    }

    /**
     * `_apply_scs_patches`: the text written to `combined.patch`, every patch
     * in key order followed by a blank line. Running the patch tool on it is
     * not part of this model.
     */
    method ApplyScsPatches() returns (doc: string)
      ensures doc == Combined(scsPatches)
    {
      doc := WriteCombined(scsPatches);
    }

    /**
     * `_apply_mst_patches`, with the loader called with its one argument:
     * merges every language table into its file in `files`, renumbering when
     * the line counts agree but the keys do not.
     */
    method ApplyMstPatches(files: map<string, string>) returns (r: Result<(map<string, string>, seq<string>), ApplyError>)
      requires Valid()
      modifies this
      ensures Valid()
      ensures var m := ApplyAll(info, 1, old(mstPatches), files);
        && (r.Ok? <==> m.Ok?)
        && (r.Ok? ==> r.value == (m.value.files, m.value.warnings) && mstPatches == m.value.tables)
        && (r.Err? ==> r.error == m.error && mstPatches == old(mstPatches))
      ensures scsPatches == old(scsPatches)
    {
      var res := ApplyTables(info, 1, mstPatches, files);
      if res.Err? {
        return Err(res.error);
      }
      mstPatches := res.value.tables;
      return Ok((res.value.files, res.value.warnings));
    }

    /** `run`: the combined patch text, then the message tables merged into `files`. */
    method Run(files: map<string, string>) returns (doc: string, r: Result<(map<string, string>, seq<string>), ApplyError>)
      requires Valid()
      modifies this
      ensures doc == Combined(old(scsPatches))
      ensures var m := ApplyAll(info, 1, old(mstPatches), files);
        && (r.Ok? <==> m.Ok?)
        && (r.Ok? ==> r.value == (m.value.files, m.value.warnings))
        && (r.Err? ==> r.error == m.error)
    {
      doc := ApplyScsPatches();
      r := ApplyMstPatches(files);
    }
  }

  /** The insertion loop of `process_line`: each expansion line right-trimmed, blank ones skipped, tagged `+\t`, from `at` on. */
  method InsertLines(lines: seq<string>, at: nat, expansion: seq<string>) returns (r: seq<string>)
    requires at <= |lines|
    ensures r == lines[..at] + Inserted(expansion) + lines[at..]
  {
    r := lines;
    var pos := at;
    var k := 0;
    while k < |expansion|
      invariant k <= |expansion|
      invariant pos == at + |Inserted(expansion[..k])|
      invariant r == lines[..at] + Inserted(expansion[..k]) + lines[at..]
    {
      var line := RStrip(expansion[k]);
      InsertedSnoc(expansion[..k], expansion[k]);
      assert expansion[..k + 1] == expansion[..k] + [expansion[k]];
      if line != "" {
        InsertAfter(lines[..at], Inserted(expansion[..k]), lines[at..], ["+\t" + line]);
        r := r[..pos] + ["+\t" + line] + r[pos..];
        pos := pos + 1;
      }
      k := k + 1;
    }
    assert expansion[..k] == expansion;
  }

  lemma InsertAfter(p: seq<string>, q: seq<string>, s: seq<string>, x: seq<string>)
    ensures var ls := p + q + s;
      ls[..|p| + |q|] + x + ls[|p| + |q|..] == p + (q + x) + s
  {
    var ls := p + q + s;
    assert ls[..|p| + |q|] == p + q;
    assert ls[|p| + |q|..] == s;
  }

  /**
   * `PatchPreprocessor`: a patch text split into lines, a cursor into them,
   * the name of the current `@@` block and the block's label and return
   * address counters. The counters start at 0 rather than None: they are
   * read only under a block, whose `@@` line sets them to 0. `macros` is the
   * handler table the module builds at import time (`Handler`).
   */
  class PatchPreprocessor {
    const patcher: ScriptPatcher
    const macros: string -> Option<Macro>
    var lines: seq<string>
    var offset: nat
    var name: Option<string>
    var labelCount: nat
    var raCount: nat

    ghost predicate Valid()
      reads this, patcher
    {
      patcher.Valid()
    }

    /** The state the functions of preprocess.dfy describe. */
    ghost function State(): Pre
      reads this, patcher
    {
      Pre(lines, offset, name, labelCount, raCount, patcher.mstPatches)
    }

    constructor(patcher: ScriptPatcher, macros: string -> Option<Macro>, text: string)
      requires patcher.Valid()
      ensures this.patcher == patcher && this.macros == macros && Valid()
      ensures State() == Start(text, patcher.mstPatches)
    {
      this.patcher := patcher;
      this.macros := macros;
      lines := SplitLines(text);
      offset := 0;
      name := None;
      labelCount := 0;
      raCount := 0;
    }

    /** `run`: processes lines until the cursor is past the last one, then joins them. */
    method Run(fuel: nat) returns (r: Result<string, PatchError>)
      requires Valid()
      modifies this, patcher
      ensures Valid()
      ensures var m := RunSteps(patcher.consts, macros, old(State()), fuel);
        && (r.Ok? <==> m.Ok?)
        && (r.Ok? ==> r.value == Join("\n", m.value.lines) && patcher.mstPatches == m.value.tables)
        && (r.Err? ==> r.error == m.error)
      ensures patcher.scsPatches == old(patcher.scsPatches)
    {
      var steps: nat := 0;
      ghost var left: nat := fuel;
      ghost var target := RunSteps(patcher.consts, macros, State(), fuel);
      while offset < |lines|
        invariant Valid() && steps + left == fuel
        invariant RunSteps(patcher.consts, macros, State(), left) == target
        invariant patcher.scsPatches == old(patcher.scsPatches)
        decreases left
      {
        if steps == fuel {
          return Err(OutOfSteps);
        }
        var e := RunStep(left, target);
        if e.Err? {
          return Err(e.error);
        }
        steps, left := steps + 1, left - 1;
      }
      return Ok(Join("\n", lines));
    }

    /** One round of `run`'s loop: a line processed, and `fuel` one step shorter. */
    method RunStep(ghost fuel: nat, ghost target: Result<Pre, PatchError>) returns (e: Result<(), PatchError>)
      requires Valid() && offset < |lines| && fuel > 0
      requires RunSteps(patcher.consts, macros, State(), fuel) == target
      modifies this, patcher
      ensures Valid()
      ensures e.Err? ==> target == Err(e.error)
      ensures e.Ok? ==> RunSteps(patcher.consts, macros, State(), fuel - 1) == target
      ensures patcher.scsPatches == old(patcher.scsPatches)
    {
      ghost var s := State();
      e := ProcessLine();
      RunStepsUnfold(patcher.consts, macros, s, fuel);
    }

    /** `process_line`: one step at the cursor, as `Step` describes it. */
    method ProcessLine() returns (r: Result<(), PatchError>)
      requires Valid() && offset < |lines|
      modifies this, patcher
      ensures Valid()
      ensures var m := Step(patcher.consts, macros, old(State()));
        && (r.Ok? <==> m.Ok?)
        && (r.Ok? ==> State() == m.value)
        && (r.Err? ==> r.error == m.error)
      ensures patcher.scsPatches == old(patcher.scsPatches)
    {
      ghost var s := State();
      var text := lines[offset];
      assert s.lines[s.offset := text] == s.lines;
      if StartsWith(text, "@@") {
        name := Some(Strip(text[2..]));
        labelCount := 0;
        raCount := 0;
      }
      if !StartsWith(text, "#") {
        var resolved := ProcessTags(text);
        if resolved.Err? {
          return Err(resolved.error);
        }
        text := resolved.value;
        lines := lines[offset := text];
        DispatchIgnoresCurrentLine(macros, Header(s), text, text);
      }
      r := DispatchLine(text);
    }

    /** The rest of `process_line` once the line's tags are resolved into `text`: keep it, or expand its macro. */
    method DispatchLine(text: string) returns (r: Result<(), PatchError>)
      requires Valid() && offset < |lines| && lines[offset] == text
      modifies this, patcher
      ensures Valid()
      ensures var m := Dispatch(macros, old(State()), text);
        && (r.Ok? <==> m.Ok?)
        && (r.Ok? ==> State() == m.value)
        && (r.Err? ==> r.error == m.error)
      ensures patcher.scsPatches == old(patcher.scsPatches)
    {
      if !IsMacroLine(text) {
        assert lines[offset := text] == lines;
        offset := offset + 1;
        return Ok(());
      }
      if name.None? {
        return Err(MacroBeforePatchStart);
      }
      r := ExpandLine(MacroText(text));
    }

    /** A macro line once a patch has started: the line is replaced by the lines of its expansion. */
    method ExpandLine(macro: string) returns (r: Result<(), PatchError>)
      requires Valid() && offset < |lines| && name.Some?
      modifies this, patcher
      ensures Valid()
      ensures var e := ExpandMacro(macros, old(name).value, old(labelCount), old(raCount), old(patcher.mstPatches), macro);
        && (r.Ok? <==> e.Ok?)
        && (r.Ok? ==> && lines == Splice(old(lines), old(offset), Inserted(SplitLines(e.value.text)))
                      && offset == old(offset) && name == old(name)
                      && labelCount == e.value.labels && raCount == e.value.ras && patcher.mstPatches == e.value.tables)
        && (r.Err? ==> r.error == InMacro(macro, e.error))
      ensures patcher.scsPatches == old(patcher.scsPatches)
    {
      var out := ExpandedLines(macro);
      if out.Err? {
        return Err(out.error);
      }
      lines := out.value;
      return Ok(());
    }

    /** The lines with the macro line at the cursor replaced by the lines of its expansion. */
    method ExpandedLines(macro: string) returns (r: Result<seq<string>, PatchError>)
      requires Valid() && offset < |lines| && name.Some?
      modifies this`labelCount, this`raCount, patcher
      ensures Valid()
      ensures var e := ExpandMacro(macros, name.value, old(labelCount), old(raCount), old(patcher.mstPatches), macro);
        && (r.Ok? <==> e.Ok?)
        && (r.Ok? ==> && r.value == Splice(lines, offset, Inserted(SplitLines(e.value.text)))
                      && labelCount == e.value.labels && raCount == e.value.ras && patcher.mstPatches == e.value.tables)
        && (r.Err? ==> r.error == InMacro(macro, e.error))
      ensures patcher.scsPatches == old(patcher.scsPatches)
    {
      var popped := lines[..offset] + lines[offset + 1..];
      var out := ProcessMacro(macro);
      if out.Err? {
        return Err(InMacro(macro, out.error));
      }
      SpliceByRemoval(lines, offset, Inserted(SplitLines(out.value)));
      var ls := InsertLines(popped, offset, SplitLines(out.value));
      return Ok(ls);
    }

    /** `process_tags`: replaces the first `$$NAME` of the line by its value until none is left. */
    method ProcessTags(line: string) returns (r: Result<string, PatchError>)
      requires Valid()
      ensures r == ResolveTags(patcher.consts, line)
    {
      var consts := patcher.consts;
      var text := line;
      ghost var rest := line;
      ghost var done: nat := 0;
      ghost var target := ResolveTags(consts, line);
      TagLoopStart(consts, line);
      while true
        invariant TagLoop(consts, target, text, done, rest)
        decreases |rest|
      {
        var start := Find(text, "$$");
        if start < 0 {
          TagLoopDone(consts, target, text, done, rest);
          return Ok(text);
        }
        var n := NameRun(text[start + 2..]);
        if n == 0 {
          TagLoopNoName(consts, target, text, done, rest, start);
          return Err(NoTagName);
        }
        var end := start + 2 + n;
        var name := text[start + 2..end];
        if name !in consts {
          TagLoopUnknown(consts, target, text, done, rest, start, n);
          return Err(UnknownConstant(name));
        }
        TagLoopStep(consts, target, text, done, rest, start, n);
        rest := text[end..];
        text := text[..start] + consts[name] + text[end..];
        done := start + |consts[name]|;
      }
    }

    /** `process_macro`: the first word picks the handler, which gets the rest of the text. */
    method ProcessMacro(text: string) returns (r: Result<string, PatchError>)
      requires Valid() && name.Some?
      modifies this`labelCount, this`raCount, patcher
      ensures Valid()
      ensures var m := ExpandMacro(macros, name.value, old(labelCount), old(raCount), old(patcher.mstPatches), text);
        && (r.Ok? <==> m.Ok?)
        && (r.Ok? ==> r.value == m.value.text && labelCount == m.value.labels && raCount == m.value.ras
                      && patcher.mstPatches == m.value.tables)
        && (r.Err? ==> r.error == m.error)
      ensures patcher.scsPatches == old(patcher.scsPatches)
    {
      var split := SplitFirstWord(text);
      if split.None? {
        return Err(NoMacroName);
      }
      var (macroName, args) := split.value;
      var handler := macros(macroName);
      if handler.None? {
        return Err(UnrecognizedMacro(macroName));
      }
      var m := handler.value;
      if m.RegisterLine? {
        var added := Msb(args);
        if added.Err? {
          return Err(added.error);
        }
        return Ok("");
      }
      var labelNames := DrawLabels(m.labels);
      var raNames := DrawRas(m.ras);
      var out := Instantiate(m, args, labelNames, raNames);
      if out.Err? {
        return Err(HandlerRaised(out.error));
      }
      return Ok(out.value);
    }

    /** `next_label`: the label for the current count, then the count moves on. */
    method NextLabel() returns (l: string)
      modifies this`labelCount
      ensures l == LabelName(old(labelCount)) && labelCount == old(labelCount) + 1
    {
      l := LabelName(labelCount);
      labelCount := labelCount + 1;
    }

    /** `next_ra`: the return address for the current count, then the count moves on. */
    method NextRa() returns (l: string)
      modifies this`raCount
      ensures l == RaName(old(raCount)) && raCount == old(raCount) + 1
    {
      l := RaName(raCount);
      raCount := raCount + 1;
    }

    /** The `count` calls of `next_label()` a template handler makes. */
    method DrawLabels(count: nat) returns (names: seq<string>)
      modifies this`labelCount
      ensures names == LabelNames(old(labelCount), count) && labelCount == old(labelCount) + count
    {
      names := [];
      while |names| < count
        invariant |names| <= count && labelCount == old(labelCount) + |names|
        invariant names == LabelNames(old(labelCount), |names|)
      {
        var l := NextLabel();
        names := names + [l];
      }
    }

    /** The `count` calls of `next_ra()` a template handler makes. */
    method DrawRas(count: nat) returns (names: seq<string>)
      modifies this`raCount
      ensures names == RaNames(old(raCount), count) && raCount == old(raCount) + count
    {
      names := [];
      while |names| < count
        invariant |names| <= count && raCount == old(raCount) + |names|
        invariant names == RaNames(old(raCount), |names|)
      {
        var l := NextRa();
        names := names + [l];
      }
    }

    /**
     * `Msb`: registers a message line under the block's script; expands to
     * nothing. The block name must not be empty.
     */
    method Msb(args: string) returns (r: Result<(), PatchError>)
      requires Valid() && name.Some?
      modifies patcher
      ensures Valid()
      ensures var m := RegisterMessage(name.value, args, old(patcher.mstPatches));
        && (r.Ok? <==> m.Ok?)
        && (r.Ok? ==> patcher.mstPatches == m.value)
        && (r.Err? ==> r.error == m.error)
      ensures patcher.scsPatches == old(patcher.scsPatches)
    {
      var block := name.value;
      if block == "" {
        return Err(NoBlockName);
      }
      var script := RemoveSuffix(block, ".scs");
      var first := SplitOnce(args, ':');
      if first.None? {
        return Err(BadMessageArgs(args));
      }
      var (language, rest) := first.value;
      var second := SplitOnce(rest, ':');
      if second.None? {
        return Err(BadMessageArgs(args));
      }
      var (index, text) := second.value;
      var l := ParseInt(language);
      if l.None? {
        return Err(HandlerRaised(NotAnInt(language)));
      }
      var i := ParseInt(index);
      if i.None? {
        return Err(HandlerRaised(NotAnInt(index)));
      }
      r := patcher.AddMstLine(script, l.value, i.value, text);
    }
  }
}
