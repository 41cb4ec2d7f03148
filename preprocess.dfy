/**
 * What the patch preprocessor of lib/ScriptPatcher.py does, as functions on
 * its state: the message tables of `add_mst_line`, `$$NAME` tag resolution,
 * one call of `process_line`, and `run` as repeated steps. The classes in
 * script_patcher.dfy perform the same operations in place and are proved to
 * agree with these functions; the lemmas here state what the source promises
 * about them.
 */
module Preprocess {
  import opened Wrappers
  import opened PyText
  import opened OrderedDict
  import opened MacroTable

  // ---- the message tables (`mst_patches`) ----

  /** `script -> language -> index -> text`, each level a dict in insertion order. */
  type MstTables = Dict<string, Dict<int, Dict<int, string>>>

  ghost predicate TablesValid(t: MstTables) {
    && Valid(t)
    && (forall s :: s in t.vals ==> Valid(t.vals[s]))
    && (forall s, l :: s in t.vals && l in t.vals[s].vals ==> Valid(t.vals[s].vals[l]))
  }

  /** The text registered for `(script, language, index)`, if any. */
  function Get(t: MstTables, script: string, language: int, index: int): Option<string> {
    if script in t.vals && language in t.vals[script].vals && index in t.vals[script].vals[language].vals
    then Some(t.vals[script].vals[language].vals[index])
    else None
  }

  /** Why preprocessing a patch raises. */
  datatype PatchError =
    | LineConflict(language: int, index: int)        // `add_mst_line` on an occupied slot
    | UnknownConstant(name: string)                  // a `$$NAME` with no constant of that name
    | NoTagName                                      // `$$` followed by no name character
    | MacroBeforePatchStart                          // a macro line before the first `@@` line
    | InMacro(macro: string, cause: PatchError)      // `raise Exception(e, macro)`
    | NoMacroName                                    // a `/` followed by nothing but blanks
    | UnrecognizedMacro(name: string)
    | HandlerRaised(error: MacroError)               // a template handler's unpacking or conversion
    | NoBlockName                                    // `Msb` under an `@@` line with an empty name
    | BadMessageArgs(args: string)                   // `Msb` arguments without two colons
    | OutOfSteps                                     // the step budget of `Run` ran out

  /** `add_mst_line`: a slot that is already taken raises, whatever its text. */
  function AddLine(t: MstTables, script: string, language: int, index: int, text: string): (r: Result<MstTables, PatchError>)
    requires TablesValid(t)
    ensures r.Ok? ==> TablesValid(r.value)
  {
    var st := if script in t.vals then t.vals[script] else Empty();
    var lt := if language in st.vals then st.vals[language] else Empty();
    if index in lt.vals then Err(LineConflict(language, index))
    else Ok(Set(t, script, Set(st, language, Set(lt, index, text))))
  }

  /**
   * `add_mst_line` raises exactly when the slot is taken; otherwise it adds
   * that one entry and every other entry keeps its text.
   */
  lemma AddLineExact(t: MstTables, script: string, language: int, index: int, text: string)
    requires TablesValid(t)
    ensures AddLine(t, script, language, index, text).Err? <==> Get(t, script, language, index).Some?
    ensures AddLine(t, script, language, index, text).Err? ==>
      AddLine(t, script, language, index, text).error == LineConflict(language, index)
    ensures AddLine(t, script, language, index, text).Ok? ==>
      forall s, l, i :: Get(AddLine(t, script, language, index, text).value, s, l, i)
        == if s == script && l == language && i == index then Some(text) else Get(t, s, l, i)
  {
  }

  /** A new index goes last in its language table, as a new key of a Python dict does. */
  lemma AddLineAppends(t: MstTables, script: string, language: int, index: int, text: string)
    requires TablesValid(t) && script in t.vals && language in t.vals[script].vals
    requires AddLine(t, script, language, index, text).Ok?
    ensures AddLine(t, script, language, index, text).value.vals[script].vals[language].keys
      == t.vals[script].vals[language].keys + [index]
  {
  }

  // ---- `$$NAME` tags (`process_tags`) ----

  /** A character the tag pattern `[^\s;,)]` accepts. */
  predicate NameChar(c: char) {
    !IsSpace(c) && c != ';' && c != ',' && c != ')'
  }

  /** The length of the longest run of name characters at the start of `t`. */
  function NameRun(t: string): (k: nat)
    ensures k <= |t|
    ensures forall i :: 0 <= i < k ==> NameChar(t[i])
    ensures k < |t| ==> !NameChar(t[k])
  {
    if |t| == 0 || !NameChar(t[0]) then 0 else 1 + NameRun(t[1..])
  }

  /** No constant's value contains `$$`; otherwise the source's loop can run forever. */
  predicate NoTagInValues(consts: map<string, string>) {
    forall n :: n in consts ==> !Contains(consts[n], "$$")
  }

  function Prepend(p: string, r: Result<string, PatchError>): Result<string, PatchError> {
    match r
    case Ok(s) => Ok(p + s)
    case Err(e) => Err(e)
  }

  /**
   * Tag resolution read left to right: the text up to the first `$$`, the
   * value of the name after it, then the rest of the line resolved the same way.
   */
  function ResolveTags(consts: map<string, string>, text: string): (r: Result<string, PatchError>)
    decreases |text|
  {
    var start := Find(text, "$$");
    if start < 0 then Ok(text)
    else
      var n := NameRun(text[start + 2..]);
      if n == 0 then Err(NoTagName)
      else
        var name := text[start + 2..start + 2 + n];
        if name !in consts then Err(UnknownConstant(name))
        else Prepend(text[..start] + consts[name], ResolveTags(consts, text[start + 2 + n..]))
  }

  /** A resolved line holds no `$$` when no constant's value does. */
  lemma {:induction false} ResolvedHasNoTag(consts: map<string, string>, text: string)
    requires NoTagInValues(consts)
    requires ResolveTags(consts, text).Ok?
    ensures !Contains(ResolveTags(consts, text).value, "$$")
    decreases |text|
  {
    var start := Find(text, "$$");
    if start >= 0 {
      var n := NameRun(text[start + 2..]);
      var rest := text[start + 2 + n..];
      ResolveUnfold(consts, text, start, n);
      ResolvedHasNoTag(consts, rest);
      TagEdges(consts, text, start, n);
      NoTagBeforeFirst(text, start);
      NoTagInJoin(text[..start], consts[text[start + 2..start + 2 + n]], ResolveTags(consts, rest).value);
    }
  }

  /**
   * What `process_tags` does with a line: one without `$$` comes back as it
   * is, and resolution fails only on a line holding `$$`, at a tag with no
   * name after it or with a name that is not a constant.
   */
  lemma {:induction false} ResolveTagsOutcome(consts: map<string, string>, text: string)
    ensures !Contains(text, "$$") ==> ResolveTags(consts, text) == Ok(text)
    ensures var r := ResolveTags(consts, text);
      r.Err? ==> Contains(text, "$$") && (r.error.NoTagName? || (r.error.UnknownConstant? && r.error.name !in consts))
    decreases |text|
  {
    var start := Find(text, "$$");
    if start >= 0 {
      var n := NameRun(text[start + 2..]);
      if n > 0 && text[start + 2..start + 2 + n] in consts {
        ResolveUnfold(consts, text, start, n);
        ResolveTagsOutcome(consts, text[start + 2 + n..]);
      }
    }
  }

  /**
   * Around a resolved tag: the text before it does not end in `$`, and the
   * resolved rest after its name does not start with one.
   */
  lemma TagEdges(consts: map<string, string>, text: string, start: nat, n: nat)
    requires start == Find(text, "$$") && n == NameRun(text[start + 2..])
    requires ResolveTags(consts, text[start + 2 + n..]).Ok?
    ensures start == 0 || text[..start][start - 1] != '$'
    ensures var q := ResolveTags(consts, text[start + 2 + n..]).value; q == [] || q[0] != '$'
  {
    if start > 0 {
      NoDollarBeforeFirstTag(text, start);
    }
    var rest := text[start + 2 + n..];
    if rest != [] {
      assert rest[0] == text[start + 2..][n];
      assert NameChar('$');
      LeadingCharKept(consts, rest);
    } else {
      assert Find(rest, "$$") < 0;
    }
  }

  /** The text before the first `$$` holds none. */
  lemma NoTagBeforeFirst(text: string, start: nat)
    requires start <= |text| && forall j :: 0 <= j < start ==> !At(text, "$$", j)
    ensures !Contains(text[..start], "$$")
  {
    var p := text[..start];
    forall j | 0 <= j && j + 2 <= |p| ensures !At(p, "$$", j) {
      assert p[j..j + 2] == text[j..j + 2];
      assert !At(text, "$$", j);
    }
  }

  /** The character before the first `$$` of a text is not `$`. */
  lemma NoDollarBeforeFirstTag(text: string, start: nat)
    requires 0 < start && Find(text, "$$") == start
    ensures text[..start][start - 1] != '$'
  {
    assert !At(text, "$$", start - 1);
    assert text[start..start + 2][0] == text[start] == '$';
    assert text[start - 1..start + 1] == [text[start - 1], text[start]];
  }

  /** Resolution never touches the first character of a line that does not start with `$`. */
  lemma LeadingCharKept(consts: map<string, string>, text: string)
    requires text != [] && text[0] != '$' && ResolveTags(consts, text).Ok?
    ensures ResolveTags(consts, text).value != [] && ResolveTags(consts, text).value[0] == text[0]
  {
    var start := Find(text, "$$");
    if |text| >= 2 {
      assert text[0..2][0] == text[0];
    }
    if start >= 0 {
      assert (text[..start] + consts[text[start + 2..start + 2 + NameRun(text[start + 2..])]])[0] == text[0];
    }
  }

  /**
   * `a + v + q` holds no `$$` when none of its parts does, `a` does not end
   * in `$` and `q` does not start with one.
   */
  lemma NoTagInJoin(a: string, v: string, q: string)
    requires !Contains(a, "$$") && !Contains(v, "$$") && !Contains(q, "$$")
    requires a == [] || a[|a| - 1] != '$'
    requires q == [] || q[0] != '$'
    ensures !Contains(a + v + q, "$$")
  {
    NoTagInPair(a, v);
    NoTagInPair(a + v, q);
  }

  /** `a + b` holds no `$$` when neither part does and they do not meet on two `$`. */
  lemma NoTagInPair(a: string, b: string)
    requires !Contains(a, "$$") && !Contains(b, "$$")
    requires a == [] || b == [] || a[|a| - 1] != '$' || b[0] != '$'
    ensures !Contains(a + b, "$$")
  {
    var s := a + b;
    forall j | 0 <= j && j + 2 <= |s| ensures !At(s, "$$", j) {
      assert s[j..j + 2][0] == s[j] && s[j..j + 2][1] == s[j + 1];
      if j + 2 <= |a| {
        assert s[j..j + 2] == a[j..j + 2];
        assert !At(a, "$$", j);
      } else if j + 1 == |a| {
        assert s[j] == a[|a| - 1] && s[j + 1] == b[0];
      } else {
        assert s[j..j + 2] == b[j - |a|..j - |a| + 2];
        assert !At(b, "$$", j - |a|);
      }
    }
  }

  /** Occurrences at or after `d` are the occurrences in `text[d..]`, shifted. */
  lemma AtShift(text: string, sub: string, d: nat, j: int)
    requires d <= j
    requires d <= |text|
    ensures At(text, sub, j) <==> At(text[d..], sub, j - d)
  {
    if j + |sub| <= |text| {
      assert text[j..j + |sub|] == text[d..][j - d..j - d + |sub|];
    }
  }

  /** Searching a text whose first `d` positions hold no `$$` is searching its tail. */
  lemma FindFrom(text: string, d: nat)
    requires d <= |text|
    requires forall j :: 0 <= j < d ==> !At(text, "$$", j)
    ensures Find(text, "$$") == if Find(text[d..], "$$") < 0 then -1 else d + Find(text[d..], "$$")
  {
    var f := Find(text, "$$");
    var g := Find(text[d..], "$$");
    if g >= 0 {
      AtShift(text, "$$", d, d + g);
      if f >= 0 && f < d + g {
        AtShift(text, "$$", d, f);
      }
    } else if f >= 0 {
      AtShift(text, "$$", d, f);
    }
  }

  /** With no `$$` before `d` and none after it either, the tail `text[d..]` resolves to itself. */
  lemma ResolveNone(consts: map<string, string>, text: string, d: nat)
    requires d <= |text| && forall j :: 0 <= j < d ==> !At(text, "$$", j)
    requires Find(text, "$$") < 0
    ensures ResolveTags(consts, text[d..]) == Ok(text[d..])
  {
    FindFrom(text, d);
  }

  /**
   * One round of resolution on a text whose first `$$` is at `g`, followed
   * by `name`, of `n` characters, and then by `tail`, when the name has a value.
   */
  lemma ResolveUnfold(consts: map<string, string>, t: string, g: nat, n: nat)
    requires g == Find(t, "$$") && n == NameRun(t[g + 2..]) && n > 0
    requires t[g + 2..g + 2 + n] in consts
    ensures ResolveTags(consts, t) == Prepend(t[..g] + consts[t[g + 2..g + 2 + n]], ResolveTags(consts, t[g + 2 + n..]))
  {
    assert Find(t, "$$") >= 0 && NameRun(t[Find(t, "$$") + 2..]) != 0;
  }

  /** Resolution fails on a `$$` with no name after it. */
  lemma ResolveNoName(consts: map<string, string>, t: string, g: nat)
    requires g == Find(t, "$$") && NameRun(t[g + 2..]) == 0
    ensures ResolveTags(consts, t) == Err(NoTagName)
  {
  }

  /** Resolution fails on a `$$` followed by a name with no value. */
  lemma ResolveUnknown(consts: map<string, string>, t: string, g: nat, n: nat, name: string)
    requires g == Find(t, "$$") && n == NameRun(t[g + 2..]) && n > 0
    requires name == t[g + 2..g + 2 + n] && name !in consts
    ensures ResolveTags(consts, t) == Err(UnknownConstant(name))
  {
  }

  /**
   * What the loop of `process_tags` keeps: `text` is the line with its first
   * tags resolved into `text[..done]`, which holds no `$$`, and `rest` is
   * what is left of the original line.
   */
  ghost predicate TagLoop(consts: map<string, string>, target: Result<string, PatchError>, text: string, done: nat, rest: string) {
    && done <= |text| && text == text[..done] + rest
    && (forall j :: 0 <= j < done ==> !At(text, "$$", j))
    // stated for every `t` equal to `rest` so that the resolution of `rest` is
    // unfolded only where a proof names it
    && forall t {:trigger ResolveTags(consts, t)} :: t == rest ==> target == Prepend(text[..done], ResolveTags(consts, t))
  }

  /** The loop's entry: nothing is resolved yet. */
  lemma TagLoopStart(consts: map<string, string>, line: string)
    ensures TagLoop(consts, ResolveTags(consts, line), line, 0, line)
  {
    var r := ResolveTags(consts, line);
    assert line[..0] == [];
    if r.Ok? {
      assert [] + r.value == r.value;
    }
  }

  /** The loop's exit: with no `$$` left the line resolves to the current text. */
  lemma TagLoopDone(consts: map<string, string>, target: Result<string, PatchError>, text: string, done: nat, rest: string)
    requires TagLoop(consts, target, text, done, rest) && Find(text, "$$") < 0
    ensures target == Ok(text)
  {
    assert text[done..] == rest;
    ResolveNone(consts, text, done);
  }

  /** The first `$$` of the text lies at or after `done`, in what is left of the original line. */
  lemma TagLoopFind(text: string, done: nat, rest: string, start: nat, n: nat, g: int)
    requires done <= |text| && text == text[..done] + rest
    requires forall j :: 0 <= j < done ==> !At(text, "$$", j)
    requires start == Find(text, "$$") && n == NameRun(text[start + 2..]) && g == start - done
    ensures 0 <= g && rest == text[done..]
    ensures Find(rest, "$$") == g
    ensures NameRun(rest[g + 2..]) == n
  {
    FindFrom(text, done);
    assert text[done..] == rest;
    TailSlices(text, rest, done, g, n, start);
  }

  /** Slices of `rest == text[d..]` around a tag at `g` in it are the slices of `text` around `d + g`. */
  lemma TailSlices(text: string, rest: string, d: nat, g: nat, n: nat, start: nat)
    requires start == d + g && start + 2 + n <= |text| && rest == text[d..]
    ensures rest[..g] == text[d..start]
    ensures rest[g + 2..] == text[start + 2..]
    ensures rest[g + 2..g + 2 + n] == text[start + 2..start + 2 + n]
    ensures rest[g + 2 + n..] == text[start + 2 + n..]
  {
  }

  /** A round of the loop that finds no name after `$$` fails the whole line the same way. */
  lemma TagLoopNoName(consts: map<string, string>, target: Result<string, PatchError>, text: string, done: nat, rest: string, start: nat)
    requires TagLoop(consts, target, text, done, rest)
    requires start == Find(text, "$$") && NameRun(text[start + 2..]) == 0
    ensures target == Err(NoTagName)
  {
    var g := start - done;
    TagLoopFind(text, done, rest, start, 0, g);
    ResolveNoName(consts, rest, g);
  }

  /** A round of the loop that finds a name with no value fails the whole line the same way. */
  lemma TagLoopUnknown(consts: map<string, string>, target: Result<string, PatchError>, text: string, done: nat, rest: string, start: nat, n: nat)
    requires TagLoop(consts, target, text, done, rest)
    requires start == Find(text, "$$") && n == NameRun(text[start + 2..]) && n > 0
    requires text[start + 2..start + 2 + n] !in consts
    ensures target == Err(UnknownConstant(text[start + 2..start + 2 + n]))
  {
    var g := start - done;
    TagLoopFind(text, done, rest, start, n, g);
    TailSlices(text, rest, done, g, n, start);
    ResolveUnknown(consts, rest, g, n, text[start + 2..start + 2 + n]);
  }

  /** What is left of the line resolves to the text up to the tag, the tag's value, and the rest resolved. */
  lemma TagRestUnfold(consts: map<string, string>, text: string, done: nat, rest: string, start: nat, n: nat)
    requires done <= |text| && text == text[..done] + rest
    requires forall j :: 0 <= j < done ==> !At(text, "$$", j)
    requires start == Find(text, "$$") && n == NameRun(text[start + 2..]) && n > 0
    requires text[start + 2..start + 2 + n] in consts
    ensures done <= start
    ensures ResolveTags(consts, rest)
      == Prepend(text[done..start] + consts[text[start + 2..start + 2 + n]], ResolveTags(consts, text[start + 2 + n..]))
    ensures |text[start + 2 + n..]| < |rest|
  {
    var g := start - done;
    TagLoopFind(text, done, rest, start, n, g);
    TailSlices(text, rest, done, g, n, start);
    ResolveUnfold(consts, rest, g, n);
  }

  /** A round of the loop that replaces a tag by its value keeps what the loop keeps. */
  lemma TagLoopStep(consts: map<string, string>, target: Result<string, PatchError>, text: string, done: nat, rest: string, start: nat, n: nat)
    requires NoTagInValues(consts) && TagLoop(consts, target, text, done, rest)
    requires start == Find(text, "$$") && n == NameRun(text[start + 2..]) && n > 0
    requires text[start + 2..start + 2 + n] in consts
    ensures var end := start + 2 + n;
      var v := consts[text[start + 2..end]];
      TagLoop(consts, target, text[..start] + v + text[end..], start + |v|, text[end..])
    ensures |text[start + 2 + n..]| < |rest|
  {
    var end := start + 2 + n;
    var v := consts[text[start + 2..end]];
    TagStepResolves(consts, target, text, done, rest, start, n);
    TagStepShape(text, start, n, v);
    TagLoopEstablish(consts, target, text[..start] + v + text[end..], start + |v|, text[end..]);
  }

  /** After a round the target is the text up to and including the value, before the rest resolved. */
  lemma TagStepResolves(consts: map<string, string>, target: Result<string, PatchError>, text: string, done: nat, rest: string, start: nat, n: nat)
    requires TagLoop(consts, target, text, done, rest)
    requires start == Find(text, "$$") && n == NameRun(text[start + 2..]) && n > 0
    requires text[start + 2..start + 2 + n] in consts
    ensures target == Prepend(text[..start] + consts[text[start + 2..start + 2 + n]], ResolveTags(consts, text[start + 2 + n..]))
    ensures |text[start + 2 + n..]| < |rest|
  {
    var v := consts[text[start + 2..start + 2 + n]];
    TagRestUnfold(consts, text, done, rest, start, n);
    JoinPrefix(text, done, start, v);
    PrependJoin(target, text[..done], text[done..start] + v, text[..start] + v,
      ResolveTags(consts, rest), ResolveTags(consts, text[start + 2 + n..]));
  }

  lemma JoinPrefix(text: string, done: nat, start: nat, v: string)
    requires done <= start <= |text|
    ensures text[..start] + v == text[..done] + (text[done..start] + v)
  {
    assert text[..start] == text[..done] + text[done..start];
  }

  lemma TagLoopEstablish(consts: map<string, string>, target: Result<string, PatchError>, text: string, done: nat, rest: string)
    requires done <= |text| && text == text[..done] + rest
    requires forall j :: 0 <= j < done ==> !At(text, "$$", j)
    requires target == Prepend(text[..done], ResolveTags(consts, rest))
    ensures TagLoop(consts, target, text, done, rest)
  {
  }

  /** The text after a round: its first `start + |v|` characters hold no `$$` and end in the value. */
  lemma TagStepShape(text: string, start: nat, n: nat, v: string)
    requires start == Find(text, "$$") && n == NameRun(text[start + 2..]) && start + 2 + n <= |text|
    requires !Contains(v, "$$")
    ensures var next := text[..start] + v + text[start + 2 + n..];
      && start + |v| <= |next|
      && next == next[..start + |v|] + text[start + 2 + n..]
      && next[..start + |v|] == text[..start] + v
      && forall j :: 0 <= j < start + |v| ==> !At(next, "$$", j)
  {
    var end := start + 2 + n;
    assert end < |text| ==> text[end] != '$' by {
      if end < |text| {
        assert text[end] == text[start + 2..][n];
      }
    }
    NoTagBeforeValue(text, start, end, v);
    var next := text[..start] + v + text[end..];
    assert next[..start + |v|] == text[..start] + v;
  }

  /** Two prefixes put before a result one after the other are their concatenation put before it. */
  lemma PrependJoin(target: Result<string, PatchError>, a: string, b: string, c: string, r: Result<string, PatchError>, t: Result<string, PatchError>)
    requires target == Prepend(a, r) && r == Prepend(b, t) && c == a + b
    ensures target == Prepend(c, t)
  {
    PrependPrepend(a, b, t);
  }

  lemma PrependPrepend(a: string, b: string, r: Result<string, PatchError>)
    ensures Prepend(a, Prepend(b, r)) == Prepend(a + b, r)
  {
    if r.Ok? {
      assert a + (b + r.value) == a + b + r.value;
    }
  }

  /**
   * Replacing `text[start..end]` by a value without `$$` leaves no `$$`
   * before the end of the value, when `start` was the first `$$` and the
   * replaced name ran as far as it could.
   */
  lemma NoTagBeforeValue(text: string, start: nat, end: nat, v: string)
    requires start + 2 <= end <= |text|
    requires forall j :: 0 <= j < start ==> !At(text, "$$", j)
    requires At(text, "$$", start)
    requires end < |text| ==> text[end] != '$'
    requires !Contains(v, "$$")
    ensures forall j :: 0 <= j < start + |v| ==> !At(text[..start] + v + text[end..], "$$", j)
  {
    var s := text[..start] + v + text[end..];
    assert text[start..start + 2][0] == text[start];
    forall j | 0 <= j < start + |v| && j + 2 <= |s| ensures !At(s, "$$", j) {
      assert s[j..j + 2][0] == s[j] && s[j..j + 2][1] == s[j + 1];
      if j + 2 <= start {
        assert s[j..j + 2] == text[j..j + 2];
        assert !At(text, "$$", j);
      } else if j + 1 == start {
        assert !At(text, "$$", j);
        assert text[j..j + 2][0] == text[j] == s[j];
        assert text[j..j + 2][1] == text[start];
      } else if j + 2 <= start + |v| {
        assert s[j..j + 2] == v[j - start..j - start + 2];
        assert !At(v, "$$", j - start);
      } else {
        assert s[j + 1] == text[end];
      }
    }
  }

  // ---- macro expansion (`process_macro` and the handlers) ----

  /** `next_label()` for counter value `n`. */
  function LabelName(n: nat): string {
    "@label(auto_" + IntToStr(n) + ")"
  }

  /** `next_ra()` for counter value `n`. */
  function RaName(n: nat): string {
    "@ra(auto_" + IntToStr(n) + ")"
  }

  /** Names drawn at different counter values differ. */
  lemma LabelNameInjective(m: nat, n: nat)
    ensures LabelName(m) == LabelName(n) <==> m == n
    ensures RaName(m) == RaName(n) <==> m == n
  {
    if LabelName(m) == LabelName(n) {
      assert IntToStr(m) + ")" == LabelName(m)[12..];
      assert IntToStr(n) + ")" == LabelName(n)[12..];
      assert IntToStr(m) == (IntToStr(m) + ")")[..|IntToStr(m) + ")"| - 1];
      assert IntToStr(n) == (IntToStr(n) + ")")[..|IntToStr(n) + ")"| - 1];
      IntToStrInjective(m, n);
    }
    if RaName(m) == RaName(n) {
      assert IntToStr(m) + ")" == RaName(m)[9..];
      assert IntToStr(n) + ")" == RaName(n)[9..];
      assert IntToStr(m) == (IntToStr(m) + ")")[..|IntToStr(m) + ")"| - 1];
      assert IntToStr(n) == (IntToStr(n) + ")")[..|IntToStr(n) + ")"| - 1];
      IntToStrInjective(m, n);
    }
  }

  /** The `count` labels a handler draws when the counter stands at `from`. */
  function LabelNames(from: nat, count: nat): (r: seq<string>)
    ensures |r| == count && forall k :: 0 <= k < count ==> r[k] == LabelName(from + k)
  {
    seq(count, k requires 0 <= k < count => LabelName(from + k))
  }

  /** The `count` return addresses a handler draws when the counter stands at `from`. */
  function RaNames(from: nat, count: nat): (r: seq<string>)
    ensures |r| == count && forall k :: 0 <= k < count ==> r[k] == RaName(from + k)
  {
    seq(count, k requires 0 <= k < count => RaName(from + k))
  }

  /**
   * `Msb`: the block name without `.scs` is the script; the arguments split
   * at their first two colons into language, index and text.
   */
  function RegisterMessage(block: string, args: string, t: MstTables): (r: Result<MstTables, PatchError>)
    requires TablesValid(t)
    ensures r.Ok? ==> TablesValid(r.value)
  {
    if block == "" then Err(NoBlockName)
    else
      var script := RemoveSuffix(block, ".scs");
      match SplitOnce(args, ':')
      case None => Err(BadMessageArgs(args))
      case Some((language, rest)) =>
        match SplitOnce(rest, ':')
        case None => Err(BadMessageArgs(args))
        case Some((index, text)) =>
          match ParseInt(language)
          case None => Err(HandlerRaised(NotAnInt(language)))
          case Some(l) =>
            match ParseInt(index)
            case None => Err(HandlerRaised(NotAnInt(index)))
            case Some(i) => AddLine(t, script, l, i, text)
  }

  /** A message line registered by `Msb` reads back under the script, language and index it names. */
  lemma RegisterMessageStores(block: string, l: int, i: int, text: string, t: MstTables)
    requires TablesValid(t) && block != "" && Get(t, RemoveSuffix(block, ".scs"), l, i).None?
    ensures RegisterMessage(block, IntToStr(l) + ":" + IntToStr(i) + ":" + text, t).Ok?
    ensures Get(RegisterMessage(block, IntToStr(l) + ":" + IntToStr(i) + ":" + text, t).value,
                RemoveSuffix(block, ".scs"), l, i) == Some(text)
  {
    var a := IntToStr(l);
    var b := IntToStr(i);
    var args := a + ":" + b + ":" + text;
    IntToStrPlain(l);
    IntToStrPlain(i);
    assert ':' !in a;
    assert ':' !in b;
    SplitOnceAt(a, b + ":" + text);
    assert args == a + ":" + (b + ":" + text);
    SplitOnceAt(b, text);
    assert b + ":" + text == b + ":" + text;
    IntToStrRoundTrip(l);
    IntToStrRoundTrip(i);
    AddLineExact(t, RemoveSuffix(block, ".scs"), l, i, text);
  }

  lemma SplitOnceAt(a: string, b: string)
    requires ':' !in a
    ensures SplitOnce(a + ":" + b, ':') == Some((a, b))
  {
    var s := a + ":" + b;
    var i := IndexOf(s, ':');
    assert s[|a|] == ':';
    assert forall j :: 0 <= j < |a| ==> s[j] == a[j];
    assert i == |a|;
    assert s[..i] == a;
    assert s[i + 1..] == b;
  }

  /** The block state a handler sees and updates. */
  datatype Expansion = Expansion(text: string, labels: nat, ras: nat, tables: MstTables)

  /**
   * `process_macro`: the first word names the handler, the rest (with its
   * leading blanks removed) is its argument string.
   */
  function ExpandMacro(macros: string -> Option<Macro>, block: string, labels: nat, ras: nat, t: MstTables, text: string)
    : (r: Result<Expansion, PatchError>)
    requires TablesValid(t)
    ensures r.Ok? ==> TablesValid(r.value.tables)
    ensures r.Ok? ==> labels <= r.value.labels && ras <= r.value.ras
  {
    match SplitFirstWord(text)
    case None => Err(NoMacroName)
    case Some((name, args)) =>
      match macros(name)
      case None => Err(UnrecognizedMacro(name))
      case Some(m) =>
        if m.RegisterLine? then
          match RegisterMessage(block, args, t)
          case Err(e) => Err(e)
          case Ok(t') => Ok(Expansion("", labels, ras, t'))
        else
          match Instantiate(m, args, LabelNames(labels, m.labels), RaNames(ras, m.ras))
          case Err(e) => Err(HandlerRaised(e))
          case Ok(s) => Ok(Expansion(s, labels + m.labels, ras + m.ras, t))
  }

  /**
   * A template handler draws its labels and return addresses from the block's
   * counters, so every name it draws is distinct from every name drawn before
   * in the same block.
   */
  lemma ExpandDrawsFreshNames(macros: string -> Option<Macro>, block: string, labels: nat, ras: nat, t: MstTables, text: string)
    requires TablesValid(t)
    requires ExpandMacro(macros, block, labels, ras, t, text).Ok?
    ensures labels <= ExpandMacro(macros, block, labels, ras, t, text).value.labels
    ensures ras <= ExpandMacro(macros, block, labels, ras, t, text).value.ras
    ensures forall m, n :: (0 <= m < labels <= n < ExpandMacro(macros, block, labels, ras, t, text).value.labels
      ==> LabelName(m) != LabelName(n))
    ensures forall m, n :: (0 <= m < ras <= n < ExpandMacro(macros, block, labels, ras, t, text).value.ras
      ==> RaName(m) != RaName(n))
  {
    var e := ExpandMacro(macros, block, labels, ras, t, text).value;
    forall m, n | 0 <= m < labels <= n < e.labels ensures LabelName(m) != LabelName(n) {
      LabelNameInjective(m, n);
    }
    forall m, n | 0 <= m < ras <= n < e.ras ensures RaName(m) != RaName(n) {
      LabelNameInjective(m, n);
    }
  }

  // ---- one call of `process_line` ----

  /** The preprocessor's state: the line buffer, the cursor, the block and its counters, the message tables. */
  datatype Pre = Pre(lines: seq<string>, offset: nat, block: Option<string>, labels: nat, ras: nat, tables: MstTables)

  /** A line the preprocessor expands: `+`, optional blanks, then `/`. */
  predicate IsMacroLine(text: string) {
    StartsWith(text, "+") && var t := LStrip(text[1..]); |t| > 0 && t[0] == '/'
  }

  /** The macro invocation of a macro line: what follows its `/`. */
  function MacroText(text: string): string
    requires IsMacroLine(text)
  {
    LStrip(text[1..])[1..]
  }

  /** The lines an expansion inserts: each right-trimmed, blank ones dropped, tagged `+\t`. */
  function Inserted(ls: seq<string>): (r: seq<string>)
    ensures |r| <= |ls|
  {
    if ls == [] then []
    else
      var l := RStrip(ls[0]);
      (if l == "" then [] else ["+\t" + l]) + Inserted(ls[1..])
  }

  /** Every inserted line carries the `+\t` tag and something after it. */
  lemma {:induction false} InsertedTagged(ls: seq<string>)
    ensures forall k :: 0 <= k < |Inserted(ls)| ==> StartsWith(Inserted(ls)[k], "+\t") && |Inserted(ls)[k]| > 2
  {
    if ls != [] {
      InsertedTagged(ls[1..]);
      var l := RStrip(ls[0]);
      if l != "" {
        assert ("+\t" + l)[..2] == "+\t";
      }
    }
  }

  lemma {:induction false} InsertedSnoc(ls: seq<string>, l: string)
    ensures Inserted(ls + [l]) == Inserted(ls) + (if RStrip(l) == "" then [] else ["+\t" + RStrip(l)])
  {
    if ls != [] {
      assert (ls + [l])[1..] == ls[1..] + [l];
      InsertedSnoc(ls[1..], l);
    } else {
      assert Inserted([l][1..]) == [];
    }
  }

  /** The state the tag step of `process_line` leaves: the block header read, the line's tags resolved. */
  function Header(s: Pre): Pre
    requires s.offset < |s.lines|
  {
    var raw := s.lines[s.offset];
    if StartsWith(raw, "@@") then s.(block := Some(Strip(raw[2..])), labels := 0, ras := 0) else s
  }

  /** The current line after tag resolution; `#` lines keep their tags. */
  function Resolved(consts: map<string, string>, raw: string): Result<string, PatchError> {
    if StartsWith(raw, "#") then Ok(raw) else ResolveTags(consts, raw)
  }

  /** `lines` with the line at `at` replaced by the lines `ins`. */
  function Splice(lines: seq<string>, at: nat, ins: seq<string>): (r: seq<string>)
    requires at < |lines|
    ensures |r| == |lines| - 1 + |ins|
    ensures r[..at] == lines[..at]
    ensures r[at..at + |ins|] == ins
    ensures r[at + |ins|..] == lines[at + 1..]
  {
    lines[..at] + ins + lines[at + 1..]
  }

  /** Removing the line at `at` and then inserting `ins` there is splicing `ins` in for it. */
  lemma SpliceByRemoval(lines: seq<string>, at: nat, ins: seq<string>)
    requires at < |lines|
    ensures var d := lines[..at] + lines[at + 1..];
      at <= |d| && d[..at] + ins + d[at..] == Splice(lines, at, ins)
  {
    var d := lines[..at] + lines[at + 1..];
    assert d[..at] == lines[..at] && d[at..] == lines[at + 1..];
  }

  /** `process_line` once the line at the cursor has had its tags resolved into `text`. */
  function Dispatch(macros: string -> Option<Macro>, h: Pre, text: string): (r: Result<Pre, PatchError>)
    requires h.offset < |h.lines| && TablesValid(h.tables)
    ensures r.Ok? ==> TablesValid(r.value.tables)
  {
    if !IsMacroLine(text) then Ok(h.(lines := h.lines[h.offset := text], offset := h.offset + 1))
    else if h.block.None? then Err(MacroBeforePatchStart)
    else
      var macro := MacroText(text);
      match ExpandMacro(macros, h.block.value, h.labels, h.ras, h.tables, macro)
      case Err(e) => Err(InMacro(macro, e))
      case Ok(e) =>
        Ok(h.(lines := Splice(h.lines, h.offset, Inserted(SplitLines(e.text))),
              labels := e.labels, ras := e.ras, tables := e.tables))
  }

  /** Dispatch overwrites or removes the line at the cursor, so what that line held does not matter. */
  lemma DispatchIgnoresCurrentLine(macros: string -> Option<Macro>, h: Pre, text: string, v: string)
    requires h.offset < |h.lines| && TablesValid(h.tables)
    ensures Dispatch(macros, h.(lines := h.lines[h.offset := v]), text) == Dispatch(macros, h, text)
  {
    var ls := h.lines[h.offset := v];
    assert ls[h.offset := text] == h.lines[h.offset := text];
    assert ls[..h.offset] == h.lines[..h.offset] && ls[h.offset + 1..] == h.lines[h.offset + 1..];
  }

  /** `process_line`, one step of the preprocessor at its cursor. */
  function Step(consts: map<string, string>, macros: string -> Option<Macro>, s: Pre): (r: Result<Pre, PatchError>)
    requires s.offset < |s.lines| && TablesValid(s.tables)
    ensures r.Ok? ==> TablesValid(r.value.tables)
  {
    match Resolved(consts, s.lines[s.offset])
    case Err(e) => Err(e)
    case Ok(text) => Dispatch(macros, Header(s), text)
  }

  /**
   * A line that is not a macro line is kept, with its tags resolved, and the
   * cursor moves past it; nothing else changes but the block on an `@@` line.
   */
  lemma StepKeepsPlainLine(consts: map<string, string>, macros: string -> Option<Macro>, s: Pre)
    requires s.offset < |s.lines| && TablesValid(s.tables)
    requires Resolved(consts, s.lines[s.offset]).Ok?
    requires !IsMacroLine(Resolved(consts, s.lines[s.offset]).value)
    ensures Step(consts, macros, s).Ok?
    ensures Step(consts, macros, s).value.offset == s.offset + 1
    ensures Step(consts, macros, s).value.lines == s.lines[s.offset := Resolved(consts, s.lines[s.offset]).value]
    ensures Step(consts, macros, s).value.tables == s.tables
    ensures !StartsWith(s.lines[s.offset], "@@") ==>
      Step(consts, macros, s).value.(lines := s.lines, offset := s.offset) == s
  {
  }

  /** An `@@` line names the block (the rest of the line, trimmed) and restarts both counters. */
  lemma StepOpensBlock(consts: map<string, string>, macros: string -> Option<Macro>, s: Pre)
    requires s.offset < |s.lines| && TablesValid(s.tables)
    requires StartsWith(s.lines[s.offset], "@@")
    requires Step(consts, macros, s).Ok?
    ensures Step(consts, macros, s).value.block == Some(Strip(s.lines[s.offset][2..]))
    ensures Step(consts, macros, s).value.labels == 0 && Step(consts, macros, s).value.ras == 0
    ensures Step(consts, macros, s).value.offset == s.offset + 1
  {
    var raw := s.lines[s.offset];
    assert raw[0] == '@' by { assert raw[..2][0] == raw[0]; }
    assert Resolved(consts, raw).Ok?;
    var text := Resolved(consts, raw).value;
    assert text != [] && text[0] == '@' by {
      if !StartsWith(raw, "#") {
        LeadingCharKept(consts, raw);
      }
    }
    assert !StartsWith(text, "+") by { assert text[..1][0] == text[0]; }
    StepKeepsPlainLine(consts, macros, s);
  }

  /** A macro line before any `@@` line is an error. */
  lemma StepRejectsEarlyMacro(consts: map<string, string>, macros: string -> Option<Macro>, s: Pre)
    requires s.offset < |s.lines| && TablesValid(s.tables)
    requires s.block.None? && !StartsWith(s.lines[s.offset], "@@")
    requires Resolved(consts, s.lines[s.offset]).Ok? && IsMacroLine(Resolved(consts, s.lines[s.offset]).value)
    ensures Step(consts, macros, s) == Err(MacroBeforePatchStart)
  {
  }

  /**
   * A macro line is replaced by its expansion's lines, in order, and the
   * cursor stays on the first of them, so nested macro lines are expanded by
   * later steps.
   */
  lemma StepExpandsMacro(consts: map<string, string>, macros: string -> Option<Macro>, s: Pre)
    requires s.offset < |s.lines| && TablesValid(s.tables)
    requires Step(consts, macros, s).Ok?
    requires IsMacroLine(Resolved(consts, s.lines[s.offset]).value)
    ensures Header(s).block.Some?
    ensures Step(consts, macros, s).value.offset == s.offset
    ensures Step(consts, macros, s).value.lines ==
      Splice(s.lines, s.offset,
        Inserted(SplitLines(ExpandMacro(macros, Header(s).block.value, Header(s).labels, Header(s).ras, s.tables,
          MacroText(Resolved(consts, s.lines[s.offset]).value)).value.text)))
  {
  }

  /** Lines before the cursor never change, and the cursor never moves back. */
  lemma StepKeepsDoneLines(consts: map<string, string>, macros: string -> Option<Macro>, s: Pre)
    requires s.offset < |s.lines| && TablesValid(s.tables)
    requires Step(consts, macros, s).Ok?
    ensures s.offset <= Step(consts, macros, s).value.offset <= s.offset + 1
    ensures Step(consts, macros, s).value.offset <= |Step(consts, macros, s).value.lines|
    ensures Step(consts, macros, s).value.lines[..s.offset] == s.lines[..s.offset]
  {
    var text := Resolved(consts, s.lines[s.offset]).value;
    var r := Step(consts, macros, s).value;
    if !IsMacroLine(text) {
      assert r.lines == s.lines[s.offset := text];
      assert r.lines[..s.offset] == s.lines[..s.offset];
    } else {
      StepExpandsMacro(consts, macros, s);
    }
  }

  /** Every line behind the cursor is one the preprocessor keeps: none is a macro line. */
  ghost predicate DoneLinesPlain(s: Pre) {
    s.offset <= |s.lines| && forall i :: 0 <= i < s.offset ==> !IsMacroLine(s.lines[i])
  }

  lemma StepKeepsDoneLinesPlain(consts: map<string, string>, macros: string -> Option<Macro>, s: Pre)
    requires s.offset < |s.lines| && TablesValid(s.tables)
    requires DoneLinesPlain(s) && Step(consts, macros, s).Ok?
    ensures DoneLinesPlain(Step(consts, macros, s).value)
  {
    var text := Resolved(consts, s.lines[s.offset]).value;
    var r := Step(consts, macros, s).value;
    if !IsMacroLine(text) {
      StepKeepsPlainLine(consts, macros, s);
      PlainAfterAdvance(s, r, text);
    } else {
      StepKeepsDoneLines(consts, macros, s);
      StepExpandsMacro(consts, macros, s);
      PlainAfterSplice(s, r);
    }
  }

  lemma PlainAfterAdvance(s: Pre, r: Pre, text: string)
    requires DoneLinesPlain(s) && s.offset < |s.lines| && !IsMacroLine(text)
    requires r.offset == s.offset + 1 && r.lines == s.lines[s.offset := text]
    ensures DoneLinesPlain(r)
  {
    assert forall i :: 0 <= i < r.offset ==> r.lines[i] == if i == s.offset then text else s.lines[i];
  }

  lemma PlainAfterSplice(s: Pre, r: Pre)
    requires DoneLinesPlain(s)
    requires r.offset == s.offset <= |r.lines| && r.lines[..s.offset] == s.lines[..s.offset]
    ensures DoneLinesPlain(r)
  {
    assert forall i :: 0 <= i < r.offset ==> r.lines[i] == r.lines[..s.offset][i] == s.lines[i];
  }

  // ---- `run` ----

  /**
   * `run`: steps until the cursor passes the last line. The source loops
   * until then; the model stops with OutOfSteps after `fuel` steps.
   */
  function RunSteps(consts: map<string, string>, macros: string -> Option<Macro>, s: Pre, fuel: nat): (r: Result<Pre, PatchError>)
    requires TablesValid(s.tables)
    ensures r.Ok? ==> TablesValid(r.value.tables)
    decreases fuel
  {
    if s.offset >= |s.lines| then Ok(s)
    else if fuel == 0 then Err(OutOfSteps)
    else
      match Step(consts, macros, s)
      case Err(e) => Err(e)
      case Ok(s') => RunSteps(consts, macros, s', fuel - 1)
  }

  /** One step of `run` from a state whose cursor is on a line. */
  lemma RunStepsUnfold(consts: map<string, string>, macros: string -> Option<Macro>, s: Pre, k: nat)
    requires TablesValid(s.tables) && s.offset < |s.lines| && k > 0
    ensures Step(consts, macros, s).Err? ==> RunSteps(consts, macros, s, k) == Err(Step(consts, macros, s).error)
    ensures Step(consts, macros, s).Ok? ==> RunSteps(consts, macros, s, k) == RunSteps(consts, macros, Step(consts, macros, s).value, k - 1)
  {
  }

  /** The preprocessor's state for a fresh patch text. */
  function Start(text: string, t: MstTables): Pre {
    Pre(SplitLines(text), 0, None, 0, 0, t)
  }

  /** `PatchPreprocessor(patcher, text).run()`: the processed lines joined by newlines, and the new tables. */
  function Preprocessed(consts: map<string, string>, macros: string -> Option<Macro>, t: MstTables, text: string, fuel: nat)
    : Result<(string, MstTables), PatchError>
    requires TablesValid(t)
  {
    match RunSteps(consts, macros, Start(text, t), fuel)
    case Err(e) => Err(e)
    case Ok(s) => Ok((Join("\n", s.lines), s.tables))
  }

  /** When `run` finishes, every line has been looked at and no macro line is left. */
  lemma {:induction false} RunLeavesNoMacro(consts: map<string, string>, macros: string -> Option<Macro>, s: Pre, fuel: nat)
    requires TablesValid(s.tables) && DoneLinesPlain(s)
    requires RunSteps(consts, macros, s, fuel).Ok?
    ensures RunSteps(consts, macros, s, fuel).value.offset >= |RunSteps(consts, macros, s, fuel).value.lines|
    ensures forall i :: 0 <= i < |RunSteps(consts, macros, s, fuel).value.lines| ==>
      !IsMacroLine(RunSteps(consts, macros, s, fuel).value.lines[i])
    decreases fuel
  {
    if s.offset < |s.lines| {
      StepKeepsDoneLinesPlain(consts, macros, s);
      RunLeavesNoMacro(consts, macros, Step(consts, macros, s).value, fuel - 1);
    }
  }

  /** The output of a finished run holds no macro line. */
  lemma PreprocessedHasNoMacro(consts: map<string, string>, macros: string -> Option<Macro>, t: MstTables, text: string, fuel: nat)
    requires TablesValid(t) && RunSteps(consts, macros, Start(text, t), fuel).Ok?
    ensures forall i :: 0 <= i < |RunSteps(consts, macros, Start(text, t), fuel).value.lines| ==>
      !IsMacroLine(RunSteps(consts, macros, Start(text, t), fuel).value.lines[i])
  {
    RunLeavesNoMacro(consts, macros, Start(text, t), fuel);
  }
}
