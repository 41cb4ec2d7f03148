/**
 * The text side of lib/TranslationProcessor.py: the script a translation
 * file feeds, the language an entry is registered under, the markers a
 * translated line may hold, and the patches `remove_mes` and `extend_mes`
 * generate.
 */
module TranslationText {
  import opened Wrappers
  import opened PyText
  import opened PatchTypes

  // ---- script names (`run`) ----

  /** `os.path.basename`: the text after the last `/`. */
  function BaseName(path: string): (r: string)
    ensures '/' !in r && EndsWith(path, r)
    decreases |path|
  {
    var i := IndexOf(path, '/');
    if i < 0 then path
    else
      var r := BaseName(path[i + 1..]);
      EndsWithTail(path, i + 1, r);
      r
  }

  /** A suffix of a tail of `s` is a suffix of `s`. */
  lemma EndsWithTail(s: string, k: nat, r: string)
    requires k <= |s| && EndsWith(s[k..], r)
    ensures EndsWith(s, r)
  {
    assert s[k..][|s| - k - |r|..] == s[|s| - |r|..];
  }

  lemma {:induction false} BaseNameOf(dir: string, file: string)
    requires '/' !in file
    ensures BaseName(dir + "/" + file) == file
    decreases |dir|
  {
    var p := dir + "/" + file;
    var i := IndexOf(p, '/');
    if '/' in dir {
      var j := IndexOf(dir, '/');
      assert p[j] == '/' && '/' !in p[..j] by { assert p[..j] == dir[..j]; }
      assert i == j;
      assert p[i + 1..] == dir[j + 1..] + "/" + file;
      BaseNameOf(dir[j + 1..], file);
    } else {
      assert p[|dir|] == '/' && p[..|dir|] == dir;
      assert i == |dir|;
      assert p[i + 1..] == file;
    }
  }

  /** `platform[:3]` */
  function Abbreviated(platform: string): (r: string)
    ensures StartsWith(platform, r) && |r| == if |platform| < 3 then |platform| else 3
  {
    if |platform| <= 3 then platform else platform[..3]
  }

  /** `any(script.startswith(stem) for stem in versioned)` */
  predicate IsVersioned(script: string, versioned: seq<string>) {
    exists k :: 0 <= k < |versioned| && StartsWith(script, versioned[k])
  }

  /**
   * The script a translation file feeds: the file name without the input
   * extension and, for a versioned script, without the full platform suffix;
   * None for a versioned script that carries neither platform suffix.
   */
  function ScriptOf(info: BuildInfo, path: string): (r: Option<string>)
    ensures var stem := RemoveSuffix(BaseName(path), Extension(info.inFmt));
      && (r.None? <==> IsVersioned(stem, info.versioned)
                       && !EndsWith(stem, "_" + info.platform) && !EndsWith(stem, "_" + Abbreviated(info.platform)))
      && (r.Some? ==> StartsWith(stem, r.value))
      && (!IsVersioned(stem, info.versioned) ==> r == Some(stem))
  {
    var script := RemoveSuffix(BaseName(path), Extension(info.inFmt));
    if IsVersioned(script, info.versioned) then
      if !EndsWith(script, "_" + info.platform) && !EndsWith(script, "_" + Abbreviated(info.platform)) then None
      else Some(RemoveSuffix(script, "_" + info.platform))
    else Some(script)
  }

  /** An unversioned file `dir/<script><ext>` feeds `script`. */
  lemma PlainScriptOf(info: BuildInfo, dir: string, script: string)
    requires '/' !in script && !IsVersioned(script, info.versioned)
    ensures ScriptOf(info, dir + "/" + script + Extension(info.inFmt)) == Some(script)
  {
    assert dir + "/" + script + Extension(info.inFmt) == dir + "/" + (script + Extension(info.inFmt));
    BaseNameOf(dir, script + Extension(info.inFmt));
    assert EndsWith(script + Extension(info.inFmt), Extension(info.inFmt));
  }

  /** A versioned file for this platform, `dir/<script>_<platform><ext>`, feeds `script`. */
  lemma VersionedScriptOf(info: BuildInfo, dir: string, file: string, script: string)
    requires file == script + "_" + info.platform + Extension(info.inFmt)
    requires '/' !in script && '/' !in info.platform
    requires IsVersioned(script + "_" + info.platform, info.versioned)
    ensures ScriptOf(info, dir + "/" + file) == Some(script)
  {
    var ext := Extension(info.inFmt);
    var stem := script + "_" + info.platform;
    assert '/' !in ext by { assert ext == "." + FormatValue(info.inFmt); }
    BaseNameOf(dir, file);
    SuffixRemoved(stem, ext);
    SuffixRemoved3(script, "_", info.platform);
    ScriptOfVersioned(info, dir + "/" + file, stem);
  }

  lemma SuffixRemoved(s: string, suffix: string)
    ensures EndsWith(s + suffix, suffix) && RemoveSuffix(s + suffix, suffix) == s
  {
    assert (s + suffix)[|s|..] == suffix && (s + suffix)[..|s|] == s;
  }

  lemma SuffixRemoved3(s: string, a: string, b: string)
    ensures EndsWith(s + a + b, a + b) && RemoveSuffix(s + a + b, a + b) == s
  {
    assert s + a + b == s + (a + b);
    SuffixRemoved(s, a + b);
  }

  lemma ScriptOfVersioned(info: BuildInfo, path: string, stem: string)
    requires RemoveSuffix(BaseName(path), Extension(info.inFmt)) == stem
    requires IsVersioned(stem, info.versioned) && EndsWith(stem, "_" + info.platform)
    ensures ScriptOf(info, path) == Some(RemoveSuffix(stem, "_" + info.platform))
  {
  }

  /**
   * A versioned name ending in the three-letter platform suffix is kept with
   * that suffix (only the full suffix is removed), and one ending in neither
   * suffix is skipped.
   */
  lemma VersionedSuffixes(info: BuildInfo, path: string)
    requires IsVersioned(RemoveSuffix(BaseName(path), Extension(info.inFmt)), info.versioned)
    ensures var script := RemoveSuffix(BaseName(path), Extension(info.inFmt));
      && (!EndsWith(script, "_" + info.platform) && EndsWith(script, "_" + Abbreviated(info.platform))
          ==> ScriptOf(info, path) == Some(script))
      && (!EndsWith(script, "_" + info.platform) && !EndsWith(script, "_" + Abbreviated(info.platform))
          ==> ScriptOf(info, path).None?)
      && (EndsWith(script, "_" + info.platform) ==> ScriptOf(info, path).value + "_" + info.platform == script)
  {
  }

  // ---- the entry's script and language (`process_entry`, first lines) ----

  /** `re.match(r"_[0-9]{2}$", script)`: the match is anchored at the start, so only a name that is exactly `_NN`. */
  predicate MatchesAsWritten(script: string) {
    |script| == 3 && script[0] == '_' && IsDigit(script[1]) && IsDigit(script[2])
  }

  /** The name ends in `_NN`. */
  predicate HasLanguageSuffix(script: string) {
    |script| >= 3 && script[|script| - 3] == '_' && IsDigit(script[|script| - 2]) && IsDigit(script[|script| - 1])
  }

  /** `script[:-3]` and `int(script[-2:])` */
  function SplitSuffix(script: string): (r: (string, int))
    requires HasLanguageSuffix(script)
    ensures r.0 != script && script == r.0 + script[|script| - 3..] && 0 <= r.1 < 100
  {
    var d := script[|script| - 2..];
    assert |d| == 2 && d[..1][..0] == [];
    assert DigitsValue(d[..1]) == DigitValue(d[0]) <= 9;
    assert DigitsValue(d) == DigitsValue(d[..1]) * 10 + DigitValue(d[1]);
    (script[..|script| - 3], DigitsValue(d))
  }

  /** The selected language as an int; None when every language is selected (the assertion fails). */
  function SelectedIndex(info: BuildInfo): (r: Option<int>)
    ensures r.None? <==> info.selected.All?
    ensures r.Some? ==> r.value == LanguageIndex(info.selected.lang)
  {
    match info.selected
    case All => None
    case Only(l) => Some(LanguageIndex(l))
  }

  /** The script and language of an entry, as the source decides them. */
  function TargetAsWritten(info: BuildInfo, script: string): (r: Option<(string, int)>)
    ensures r.None? <==> info.selected.All?
    ensures r.Some? && r.value.0 == script ==> r.value.1 == LanguageIndex(info.selected.lang)
    ensures r.Some? && r.value.0 != script ==> info.inFmt == Mst && r.value.0 == "" && HasLanguageSuffix(script) && 0 <= r.value.1 < 100
  {
    match SelectedIndex(info)
    case None => None
    case Some(language) =>
      if info.inFmt == Mst && MatchesAsWritten(script) then Some(SplitSuffix(script)) else Some((script, language))
  }

  /** The script and language of an entry, with a `_NN` suffix anywhere at the end of the name taken as the language. */
  function Target(info: BuildInfo, script: string): (r: Option<(string, int)>)
    ensures r.None? <==> info.selected.All?
    ensures r.Some? && r.value.0 == script ==> r.value.1 == LanguageIndex(info.selected.lang)
    ensures r.Some? && r.value.0 != script ==>
      info.inFmt == Mst && HasLanguageSuffix(script) && script == r.value.0 + script[|script| - 3..] && 0 <= r.value.1 < 100
  {
    match SelectedIndex(info)
    case None => None
    case Some(language) =>
      if info.inFmt == Mst && HasLanguageSuffix(script) then Some(SplitSuffix(script)) else Some((script, language))
  }

  /** The name's suffix is removed and its two digits become the language. */
  lemma TargetSplitsSuffix(info: BuildInfo, script: string, d1: char, d2: char)
    requires info.inFmt == Mst && info.selected.Only? && IsDigit(d1) && IsDigit(d2)
    ensures Target(info, script + "_" + [d1, d2]) == Some((script, 10 * DigitValue(d1) + DigitValue(d2)))
  {
    var s := script + "_" + [d1, d2];
    assert s[|s| - 3] == '_' && s[|s| - 2] == d1 && s[|s| - 1] == d2;
    assert HasLanguageSuffix(s);
    assert s[..|s| - 3] == script;
    assert s[|s| - 2..] == [d1, d2];
    assert DigitsValue([d1]) == DigitValue(d1) by {
      assert [d1][..0] == [];
    }
    assert DigitsValue([d1, d2]) == 10 * DigitValue(d1) + DigitValue(d2) by {
      assert [d1, d2][..1] == [d1];
    }
  }

  /** On any other name, or with the other input format, the name and the selected language stay. */
  lemma TargetKeepsName(info: BuildInfo, script: string)
    requires info.selected.Only? && (info.inFmt == Sct || !HasLanguageSuffix(script))
    ensures Target(info, script) == Some((script, LanguageIndex(info.selected.lang)))
  {
  }

  /** Both tests agree on a name that is exactly `_NN`. */
  lemma TargetAgreesOnBareSuffix(info: BuildInfo, script: string)
    requires MatchesAsWritten(script)
    ensures TargetAsWritten(info, script) == Target(info, script)
  {
  }

  /**
   * As written, a name with text before its `_NN` suffix keeps the suffix
   * and the selected language, where the intended test splits it off.
   */
  lemma SuffixIgnoredAsWritten(info: BuildInfo, script: string, d1: char, d2: char)
    requires info.inFmt == Mst && info.selected.Only? && IsDigit(d1) && IsDigit(d2) && script != ""
    ensures TargetAsWritten(info, script + "_" + [d1, d2]) == Some((script + "_" + [d1, d2], LanguageIndex(info.selected.lang)))
    ensures Target(info, script + "_" + [d1, d2]).value.0 == script
  {
    TargetSplitsSuffix(info, script, d1, d2);
  }

  // ---- the markers ----

  const RemoveMarker := "\\lineRemove;"
  const AddMarker := "\\lineAdd;"
  const Placeholder := "<REMOVED LINE PLACEHOLDER>"

  /** The opening bracket of a voiced line as the source file spells it: U+3014 encoded twice. */
  const VoiceMark := "\U{E3}\U{20AC}\U{201D}"

  /** The number of ASCII digits `s` starts with. */
  function DigitRun(s: string): (k: nat)
    ensures k <= |s| && AllDigits(s[..k]) && (k < |s| ==> !IsDigit(s[k]))
  {
    if |s| > 0 && IsDigit(s[0]) then
      var k := 1 + DigitRun(s[1..]);
      assert s[..k] == [s[0]] + s[1..][..k - 1];
      k
    else 0
  }

  /** `re.match(r"([0-9]+:)?<mark>", s)`: the mark, after an optional run of digits and a colon. */
  predicate Voiced(s: string)
    ensures Voiced(s) <==> StartsWith(s, VoiceMark) || exists k :: SpeakerPrefix(s, k)
  {
    assert forall k :: SpeakerPrefix(s, k) ==> k == DigitRun(s) by {
      forall k | SpeakerPrefix(s, k) ensures k == DigitRun(s) {
        DigitRunOf(s[..k], s[k..]);
        assert s[..k] + s[k..] == s;
      }
    }
    var k := DigitRun(s);
    assert k > 0 && k < |s| && s[k] == ':' && StartsWith(s[k + 1..], VoiceMark) ==> SpeakerPrefix(s, k);
    StartsWith(s, VoiceMark) || (k > 0 && k < |s| && s[k] == ':' && StartsWith(s[k + 1..], VoiceMark))
  }

  /** `s` opens with `k` digits, a colon and the mark: the optional group of the pattern, matched. */
  predicate SpeakerPrefix(s: string, k: int) {
    0 < k < |s| && AllDigits(s[..k]) && s[k] == ':' && StartsWith(s[k + 1..], VoiceMark)
  }

  /** A line that opens with the mark, or with a speaker id, a colon and the mark, is voiced. */
  lemma VoicedLines(id: string, rest: string)
    requires |id| > 0 && AllDigits(id)
    ensures Voiced(VoiceMark + rest)
    ensures Voiced(id + ":" + VoiceMark + rest)
  {
    var s := id + ":" + VoiceMark + rest;
    DigitRunOf(id, ":" + VoiceMark + rest);
    assert s[|id|..] == ":" + VoiceMark + rest;
    assert s[|id| + 1..] == VoiceMark + rest;
    assert (VoiceMark + rest)[..|VoiceMark|] == VoiceMark;
  }

  lemma {:induction false} DigitRunOf(d: string, rest: string)
    requires AllDigits(d) && (rest == [] || !IsDigit(rest[0]))
    ensures DigitRun(d + rest) == |d|
  {
    if d != [] {
      assert (d + rest)[1..] == d[1..] + rest;
      DigitRunOf(d[1..], rest);
    }
  }

  /** A line without the mark at its start, and without digits and a colon before it, is not voiced. */
  lemma UnvoicedLine(s: string)
    requires !StartsWith(s, VoiceMark) && (|s| == 0 || !IsDigit(s[0]))
    ensures !Voiced(s)
  {
  }

  // ---- the generated patches ----

  /** `remove_mes`: the Japanese line is skipped, every other language shows it as before. */
  function RemoveLines(script: string, index: int): (r: seq<string>)
    ensures |r| == 10 && r[0] == "@@ " + script + ".scs"
    ensures forall i :: 1 <= i < |r| ==> |r[i]| > 0 && (r[i][0] == '+' <==> i == 2 || i == 9)
  {
    [ "@@ " + script + ".scs",
      "\t*@ref(ra):",
      "+\t\tIf $W($$SW_LANGUAGE) == 1, @label(end)",
      "\t\tMesSetSavePointRL @ref(ra)",
      "\t\tMessWindowOpen",
      "\t\tMessWindowOpenedWait",
      "\t\tMesVoiceWait",
      "\t\tMesSetMesMsb 0, " + IntToStr(index),
      "\t\tMesMain",
      "+\t@label(end):" ]
  }

  function RemoveText(script: string, index: int): (r: string)
    ensures StartsWith(r, "@@ " + script + ".scs\n")
  {
    var ls := RemoveLines(script, index);
    var h := "@@ " + script + ".scs";
    assert Terminated(ls) == h + "\n" + Terminated(ls[1..]);
    assert (h + "\n" + Terminated(ls[1..]))[..|h + "\n"|] == h + "\n";
    Terminated(ls)
  }

  /** A script name without line breaks: the patch text splits back into exactly `remove_mes`'s lines. */
  lemma RemovePatchLines(script: string, index: int)
    requires NoLineBreak(script)
    ensures SplitLines(RemoveText(script, index)) == RemoveLines(script, index)
  {
    RemoveLinesPlain(script, index);
    SplitLinesTerminated(RemoveLines(script, index));
  }

  lemma RemoveLinesPlain(script: string, index: int)
    requires NoLineBreak(script)
    ensures forall k :: 0 <= k < |RemoveLines(script, index)| ==> NoLineBreak(RemoveLines(script, index)[k])
  {
    IntToStrPlain(index);
    NoLineBreakJoin("@@ ", script, ".scs");
    NoLineBreakJoin("\t\tMesSetMesMsb 0, ", IntToStr(index), "");
    assert "\t\tMesSetMesMsb 0, " + IntToStr(index) + "" == "\t\tMesSetMesMsb 0, " + IntToStr(index);
    RemoveFixedShort();
    RemoveFixedGuard();
    RemoveFixedLong();
  }

  // The fixed lines of `remove_mes` hold no line break (three groups keep each proof small).
  lemma RemoveFixedShort()
    ensures NoLineBreak("\t*@ref(ra):") && NoLineBreak("\t\tMessWindowOpen") && NoLineBreak("\t\tMesVoiceWait")
    ensures NoLineBreak("\t\tMesMain") && NoLineBreak("+\t@label(end):")
  {
  }

  lemma RemoveFixedGuard()
    ensures NoLineBreak("+\t\tIf $W($$SW_LANGUAGE) == 1, @label(end)")
  {
  }

  lemma RemoveFixedLong()
    ensures NoLineBreak("\t\tMesSetSavePointRL @ref(ra)") && NoLineBreak("\t\tMessWindowOpenedWait")
  {
  }

  /** Three pieces without line breaks join into a text without one. */
  lemma NoLineBreakJoin(a: string, b: string, c: string)
    requires NoLineBreak(a) && NoLineBreak(b) && NoLineBreak(c)
    ensures NoLineBreak(a + b + c)
  {
    var s := a + b + c;
    forall i | 0 <= i < |s| ensures !IsLineBreak(s[i]) {
      if i < |a| { assert s[i] == a[i]; }
      else if i < |a| + |b| { assert s[i] == b[i - |a|]; }
      else { assert s[i] == c[i - |a| - |b|]; }
    }
  }

  /** The three instructions `extend_mes` uses: set the message, show one by return address, set a voiced message. */
  function Instructions(outFmt: ScriptFormat): (string, string, string) {
    match outFmt
    case Mst => ("MesSetMesMsb", "/MesMsbRA", "Mes2VSetMesMsb")
    case Sct => ("MesSetMesScx", "/MesScxRA", "Mes2VSetMesScx")
  }

  function SavepointGuard(n: int): string {
    "+\t\tIf $W($$COZ_SAVEPOINT) == " + IntToStr(n) + ", @label(_" + IntToStr(n) + ")"
  }

  function SavepointSet(n: int): string {
    "+\t\t$W($$COZ_SAVEPOINT) = " + IntToStr(n) + ";"
  }

  function PieceLabel(n: int): string {
    "+\t@label(_" + IntToStr(n) + "):"
  }

  function ShowByRa(outFmt: ScriptFormat, n: int): string {
    "+\t\t" + Instructions(outFmt).1 + " @ref(ra), 0, " + IntToStr(n)
  }

  function ShowByIp(n: int): string {
    "+\t/MesScx 0, " + IntToStr(n)
  }

  /** The lines `f(n)` of each new index `n` in turn. */
  function Expand(ns: seq<int>, f: int -> seq<string>): seq<string>
    decreases |ns|
  {
    if ns == [] then [] else f(ns[0]) + Expand(ns[1..], f)
  }

  lemma SeqAssoc(a: seq<string>, b: seq<string>, c: seq<string>)
    ensures a + (b + c) == a + b + c
  {
  }

  /** One more new index adds its own lines at the end. */
  lemma {:induction false} ExpandSnoc(ns: seq<int>, n: int, f: int -> seq<string>)
    ensures Expand(ns + [n], f) == Expand(ns, f) + f(n)
    decreases |ns|
  {
    if ns == [] {
      assert [n][1..] == [];
      assert f(n) + [] == f(n);
    } else {
      assert (ns + [n])[0] == ns[0] && (ns + [n])[1..] == ns[1..] + [n];
      ExpandSnoc(ns[1..], n, f);
      SeqAssoc(f(ns[0]), Expand(ns[1..], f), f(n));
    }
  }

  /** Each index of `ns` has `w` lines. */
  predicate Uniform(ns: seq<int>, f: int -> seq<string>, w: nat) {
    forall j :: 0 <= j < |ns| ==> |f(ns[j])| == w
  }

  lemma UniformTail(ns: seq<int>, f: int -> seq<string>, w: nat)
    requires ns != [] && Uniform(ns, f, w)
    ensures Uniform(ns[1..], f, w)
  {
    forall j | 0 <= j < |ns[1..]| ensures |f(ns[1..][j])| == w {
      assert ns[1..][j] == ns[j + 1];
    }
  }

  /** With `w` lines for every index, `w` lines per index in all. */
  lemma {:induction false} ExpandLength(ns: seq<int>, f: int -> seq<string>, w: nat)
    requires Uniform(ns, f, w)
    ensures |Expand(ns, f)| == w * |ns|
    decreases |ns|
  {
    if ns != [] {
      UniformTail(ns, f, w);
      ExpandLength(ns[1..], f, w);
      assert w * |ns| == w + w * |ns[1..]|;
    }
  }

  /** With `w` lines for every index, line `w * i + r` is line `r` of the `i`-th index's lines. */
  lemma {:induction false} ExpandAt(ns: seq<int>, f: int -> seq<string>, w: nat, i: nat, r: nat)
    requires Uniform(ns, f, w)
    requires i < |ns| && r < w
    ensures w * i + r < |Expand(ns, f)| && Expand(ns, f)[w * i + r] == f(ns[i])[r]
    decreases i
  {
    var e, rest := Expand(ns, f), Expand(ns[1..], f);
    assert e == f(ns[0]) + rest;
    if i == 0 {
      assert w * i + r == r;
      assert e[r] == f(ns[0])[r];
    } else {
      UniformTail(ns, f, w);
      ExpandAt(ns[1..], f, w, i - 1, r);
      assert ns[1..][i - 1] == ns[i];
      assert w * i + r == w + (w * (i - 1) + r);
      assert e[w + (w * (i - 1) + r)] == rest[w * (i - 1) + r];
    }
  }

  function GuardLines(n: int): seq<string> {
    [SavepointGuard(n)]
  }

  /** The guard lines, one per new index. */
  function Guards(ns: seq<int>): (r: seq<string>)
    ensures |r| == |ns| && forall i :: 0 <= i < |ns| ==> r[i] == SavepointGuard(ns[i])
  {
    ExpandLength(ns, GuardLines, 1);
    ExpandLines(ns, GuardLines);
    Expand(ns, GuardLines)
  }

  /** Every index with one line: the `i`-th line is the `i`-th index's. */
  lemma ExpandLines(ns: seq<int>, f: int -> seq<string>)
    requires Uniform(ns, f, 1)
    ensures |Expand(ns, f)| == |ns|
    ensures forall i :: 0 <= i < |ns| ==> Expand(ns, f)[i] == f(ns[i])[0]
  {
    ExpandLength(ns, f, 1);
    forall i | 0 <= i < |ns| ensures Expand(ns, f)[i] == f(ns[i])[0] {
      ExpandAt(ns, f, 1, i, 0);
    }
  }

  /** The chain lines of one new index: set the savepoint slot and place the label (other languages than Japanese), then show the piece. */
  function ChainHead(outFmt: ScriptFormat, nonJapanese: bool, n: int): (r: seq<string>)
    ensures |r| == if nonJapanese then 3 else 1
  {
    (if nonJapanese then [SavepointSet(n), PieceLabel(n)] else []) + [ShowByRa(outFmt, n)]
  }

  function ChainFor(outFmt: ScriptFormat, nonJapanese: bool): int -> seq<string> {
    n => ChainHead(outFmt, nonJapanese, n)
  }

  /** Per new index, in order, its chain lines. */
  function Chain(outFmt: ScriptFormat, nonJapanese: bool, ns: seq<int>): (r: seq<string>)
    ensures |r| == (if nonJapanese then 3 else 1) * |ns|
  {
    ExpandLength(ns, ChainFor(outFmt, nonJapanese), if nonJapanese then 3 else 1);
    Expand(ns, ChainFor(outFmt, nonJapanese))
  }

  lemma GuardsSnoc(ns: seq<int>, n: int)
    ensures Guards(ns + [n]) == Guards(ns) + [SavepointGuard(n)]
  {
    ExpandSnoc(ns, n, GuardLines);
  }

  /** One more new index adds its own chain lines at the end of the chain. */
  lemma ChainSnoc(outFmt: ScriptFormat, nonJapanese: bool, ns: seq<int>, n: int)
    ensures Chain(outFmt, nonJapanese, ns + [n]) == Chain(outFmt, nonJapanese, ns) + ChainHead(outFmt, nonJapanese, n)
  {
    ExpandSnoc(ns, n, ChainFor(outFmt, nonJapanese));
  }

  /** The `r`-th chain line of the `i`-th new index sits at `3 * i + r`. */
  lemma ChainAt(outFmt: ScriptFormat, ns: seq<int>, i: nat, r: nat)
    requires i < |ns| && r < 3
    ensures 3 * i + r < |Chain(outFmt, true, ns)|
    ensures Chain(outFmt, true, ns)[3 * i + r] == ChainHead(outFmt, true, ns[i])[r]
  {
    ExpandAt(ns, ChainFor(outFmt, true), 3, i, r);
  }

  /** The lines before the guards under return-address saving. */
  function RaOpening(info: BuildInfo, nonJapanese: bool): seq<string> {
    if nonJapanese then
      ["+\t\t$W($$COZ_SAVEPOINT) = 0;", "\t*@ref(ra):"]
      + (if info.outFmt == Mst then ["+\t\tIf $W($$SW_LANGUAGE) != 1, @label(start)"] else [])
    else []
  }

  /** The original line's own display, under return-address saving. */
  function RaBase(info: BuildInfo, nonJapanese: bool, index: int, voiced: bool): seq<string> {
    var insts := Instructions(info.outFmt);
    (if nonJapanese then ["+\t@label(start):"] else [])
    + [ "\t\tMesSetSavePointRL @ref(ra)",
        "\t\tMessWindowOpen",
        "\t\tMessWindowOpenedWait",
        "\t\tMesVoiceWait",
        "\t\t" + (if !voiced then insts.0 + " 0," else insts.2 + " @ignore, @ignore, @ignore,") + " " + IntToStr(index),
        "\t\tMesMain" ]
    + (if info.outFmt == Mst && nonJapanese then ["+\t\tIf $W($$SW_LANGUAGE) != 1, @label(end)"] else [])
  }

  function RaClosing(info: BuildInfo, nonJapanese: bool): seq<string> {
    if info.outFmt == Mst && nonJapanese then ["+\t@label(end):"] else []
  }

  /** The original line's display under instruction-pointer saving. */
  function IpBase(index: int): seq<string> {
    [ "\t\tMesSetSavePoint",
      "\t\tMessWindowOpen",
      "\t\tMessWindowOpenedWait",
      "\t\tMesVoiceWait",
      "\t\tMesSetMesScx 0, " + IntToStr(index),
      "\t\tMesMain" ]
  }

  function IpLines(n: int): seq<string> {
    [ShowByIp(n)]
  }

  /** Under instruction-pointer saving, one line per new index that shows it. */
  function IpChain(ns: seq<int>): (r: seq<string>)
    ensures |r| == |ns| && forall i :: 0 <= i < |ns| ==> r[i] == ShowByIp(ns[i])
  {
    ExpandLength(ns, IpLines, 1);
    ExpandLines(ns, IpLines);
    Expand(ns, IpLines)
  }

  /** Three more lines add their text, the first two as one piece. */
  lemma TerminatedAppend3(c: seq<string>, x: string, y: string, z: string)
    ensures Terminated(c + [x, y, z]) == Terminated(c) + (x + "\n" + y + "\n") + (z + "\n")
  {
    TerminatedConcat(c, [x, y, z]);
    assert [x, y, z][1..] == [y, z] && [y, z][1..] == [z] && [z][1..] == [];
    assert Terminated([z]) == z + "\n";
  }

  /** One more new index adds its chain lines to the chain's text. */
  lemma ChainTextSnoc(outFmt: ScriptFormat, nonJapanese: bool, ns: seq<int>, n: int)
    ensures nonJapanese ==>
      Terminated(Chain(outFmt, nonJapanese, ns + [n]))
      == Terminated(Chain(outFmt, nonJapanese, ns)) + (SavepointSet(n) + "\n" + PieceLabel(n) + "\n") + (ShowByRa(outFmt, n) + "\n")
    ensures !nonJapanese ==>
      Terminated(Chain(outFmt, nonJapanese, ns + [n])) == Terminated(Chain(outFmt, nonJapanese, ns)) + (ShowByRa(outFmt, n) + "\n")
  {
    var c := Chain(outFmt, nonJapanese, ns);
    ChainSnoc(outFmt, nonJapanese, ns, n);
    if nonJapanese {
      assert ChainHead(outFmt, nonJapanese, n) == [SavepointSet(n), PieceLabel(n), ShowByRa(outFmt, n)];
      TerminatedAppend3(c, SavepointSet(n), PieceLabel(n), ShowByRa(outFmt, n));
    } else {
      assert ChainHead(outFmt, nonJapanese, n) == [ShowByRa(outFmt, n)];
      TerminatedAppend(c, ShowByRa(outFmt, n));
    }
  }

  lemma IpChainSnoc(ns: seq<int>, n: int)
    ensures IpChain(ns + [n]) == IpChain(ns) + [ShowByIp(n)]
  {
    ExpandSnoc(ns, n, IpLines);
  }

  /** The build is not for Japanese alone. */
  predicate NonJapanese(info: BuildInfo) {
    info.selected != Only(Japanese)
  }

  /** `extend_mes`: the lines of the patch that shows an extended line's pieces after it. */
  function ExtendLines(info: BuildInfo, script: string, index: int, voiced: bool, ns: seq<int>): (r: seq<string>)
    ensures |r| > 0 && r[0] == "@@ " + script + ".scs"
    ensures info.saveMethod.Ip? || !NonJapanese(info) ==> |r| == 7 + |ns|
    ensures info.saveMethod.Ra? && NonJapanese(info) ==> |r| == (if info.outFmt == Mst then 13 else 10) + 4 * |ns|
  {
    var nj := NonJapanese(info);
    RaLengths(info, index, voiced);
    ["@@ " + script + ".scs"]
    + match info.saveMethod
      case Ra =>
        RaOpening(info, nj) + (if nj then Guards(ns) else []) + RaBase(info, nj, index, voiced)
        + Chain(info.outFmt, nj, ns) + RaClosing(info, nj)
      case Ip => IpBase(index) + IpChain(ns)
  }

  function ExtendText(info: BuildInfo, script: string, index: int, voiced: bool, ns: seq<int>): (r: string)
    ensures StartsWith(r, "@@ " + script + ".scs\n")
  {
    var ls := ExtendLines(info, script, index, voiced, ns);
    var h := "@@ " + script + ".scs";
    assert Terminated(ls) == h + "\n" + Terminated(ls[1..]);
    assert (h + "\n" + Terminated(ls[1..]))[..|h + "\n"|] == h + "\n";
    Terminated(ls)
  }

  /** `[h] + rest` written out: the first line, then the rest. */
  lemma TerminatedCons(h: string, rest: seq<string>)
    ensures Terminated([h] + rest) == h + "\n" + Terminated(rest)
  {
    assert ([h] + rest)[1..] == rest;
  }

  /** A header line followed by five blocks: the text of each block in turn. */
  lemma TerminatedBlocks(h: string, a: seq<string>, b: seq<string>, c: seq<string>, d: seq<string>, e: seq<string>)
    ensures Terminated([h] + (a + b + c + d + e))
      == h + "\n" + Terminated(a) + Terminated(b) + Terminated(c) + Terminated(d) + Terminated(e)
  {
    TerminatedCons(h, a + b + c + d + e);
    TerminatedConcat(a + b + c + d, e);
    TerminatedConcat(a + b + c, d);
    TerminatedConcat(a + b, c);
    TerminatedConcat(a, b);
    var x, ta, tb, tc, td := h + "\n", Terminated(a), Terminated(b), Terminated(c), Terminated(d);
    AppendAssoc(x, ta + tb + tc + td, Terminated(e));
    AppendAssoc(x, ta + tb + tc, td);
    AppendAssoc(x, ta + tb, tc);
    AppendAssoc(x, ta, tb);
  }

  lemma AppendAssoc(x: string, y: string, z: string)
    ensures x + (y + z) == x + y + z
  {
  }

  /**
   * Under return-address saving, `extend_mes`'s text is its blocks' texts in
   * the order the source appends them: the `@@` line, the opening and the
   * guards (both empty for a Japanese-only build), the line's own display,
   * the chain and the closing label.
   */
  lemma ExtendTextRa(info: BuildInfo, script: string, index: int, voiced: bool, ns: seq<int>)
    requires info.saveMethod.Ra?
    ensures var nj := NonJapanese(info);
      ExtendText(info, script, index, voiced, ns)
      == "@@ " + script + ".scs" + "\n" + Terminated(RaOpening(info, nj)) + Terminated(if nj then Guards(ns) else [])
         + Terminated(RaBase(info, nj, index, voiced)) + Terminated(Chain(info.outFmt, nj, ns)) + Terminated(RaClosing(info, nj))
  {
    var nj := NonJapanese(info);
    TerminatedBlocks("@@ " + script + ".scs", RaOpening(info, nj), if nj then Guards(ns) else [],
                     RaBase(info, nj, index, voiced), Chain(info.outFmt, nj, ns), RaClosing(info, nj));
  }

  /** Under instruction-pointer saving, `extend_mes`'s text is the `@@` line, the line's own display and the chain. */
  lemma ExtendTextIp(info: BuildInfo, script: string, index: int, voiced: bool, ns: seq<int>)
    requires info.saveMethod.Ip?
    ensures ExtendText(info, script, index, voiced, ns)
      == "@@ " + script + ".scs" + "\n" + Terminated(IpBase(index)) + Terminated(IpChain(ns))
  {
    TerminatedBlocks("@@ " + script + ".scs", IpBase(index), IpChain(ns), [], [], []);
    assert IpBase(index) + IpChain(ns) + [] + [] + [] == IpBase(index) + IpChain(ns);
    assert Terminated([]) == "";
  }

  /** For a Japanese-only build the `i`-th line of the chain shows the `i`-th new index. */
  lemma ChainAtJapanese(outFmt: ScriptFormat, ns: seq<int>, i: nat)
    requires i < |ns|
    ensures Chain(outFmt, false, ns)[i] == ShowByRa(outFmt, ns[i])
  {
    ExpandAt(ns, ChainFor(outFmt, false), 1, i, 0);
  }

  /**
   * Under instruction-pointer saving the patch shows the original line and
   * then, one added line each, every new index in order.
   */
  lemma ExtendByIp(info: BuildInfo, script: string, index: int, voiced: bool, ns: seq<int>)
    requires info.saveMethod == Ip
    ensures var ls := ExtendLines(info, script, index, voiced, ns);
      && |ls| == 7 + |ns|
      && ls[0] == "@@ " + script + ".scs"
      && ls[5] == "\t\tMesSetMesScx 0, " + IntToStr(index)
      && forall i :: 0 <= i < |ns| ==> ls[7 + i] == ShowByIp(ns[i])
  {
    var h, b, cs := ["@@ " + script + ".scs"], IpBase(index), IpChain(ns);
    assert |b| == 6 && b[4] == "\t\tMesSetMesScx 0, " + IntToStr(index);
    assert ExtendLines(info, script, index, voiced, ns) == h + (b + cs);
    IpLayout(ExtendLines(info, script, index, voiced, ns), h, b, cs, ns);
  }

  /** A patch made of a one-line header, six lines and one display per new index. */
  lemma IpLayout(ls: seq<string>, h: seq<string>, b: seq<string>, cs: seq<string>, ns: seq<int>)
    requires ls == h + (b + cs) && |h| == 1 && |b| == 6
    requires |cs| == |ns| && forall i :: 0 <= i < |ns| ==> cs[i] == ShowByIp(ns[i])
    ensures |ls| == 7 + |ns| && ls[0] == h[0] && ls[5] == b[4]
    ensures forall i :: 0 <= i < |ns| ==> ls[7 + i] == ShowByIp(ns[i])
  {
    forall i | 0 <= i < |ns| ensures ls[7 + i] == ShowByIp(ns[i]) {
      ReadTail(ls, h, b, cs, 7, i);
    }
  }

  /** Every generated patch opens the block of the script's file. */
  lemma ExtendHeader(info: BuildInfo, script: string, index: int, voiced: bool, ns: seq<int>)
    ensures |ExtendLines(info, script, index, voiced, ns)| > 0
    ensures ExtendLines(info, script, index, voiced, ns)[0] == "@@ " + script + ".scs"
    ensures RemoveLines(script, index)[0] == "@@ " + script + ".scs"
  {
  }

  /** The offsets of the guards and of the chain in `extend_mes`'s patch under return-address saving. */
  function GuardsAt(info: BuildInfo): nat {
    if info.outFmt == Mst then 4 else 3
  }

  function ChainStart(info: BuildInfo, ns: seq<int>): nat {
    GuardsAt(info) + |ns| + if info.outFmt == Mst then 8 else 7
  }

  /** The number of fixed lines around the guards and the chain. */
  lemma RaLengths(info: BuildInfo, index: int, voiced: bool)
    ensures |RaOpening(info, true)| == GuardsAt(info) - 1
    ensures |RaBase(info, true, index, voiced)| == if info.outFmt == Mst then 8 else 7
    ensures |RaClosing(info, true)| == if info.outFmt == Mst then 1 else 0
  {
  }

  /** Under return-address saving, for a build that is not Japanese alone, the blocks of `extend_mes`'s patch. */
  lemma RaLines(info: BuildInfo, script: string, index: int, voiced: bool, ns: seq<int>)
    requires info.saveMethod.Ra? && NonJapanese(info)
    ensures ExtendLines(info, script, index, voiced, ns)
      == ["@@ " + script + ".scs"] + (RaOpening(info, true) + Guards(ns) + RaBase(info, true, index, voiced)
                                      + Chain(info.outFmt, true, ns) + RaClosing(info, true))
  {
  }

  /**
   * Under return-address saving, for a build that is not Japanese alone,
   * each new index `ns[i]` gets one guard that jumps to its label, and after
   * the original line, in order, sets the savepoint slot to it, places its
   * label and shows it.
   */
  lemma ExtendByRa(info: BuildInfo, script: string, index: int, voiced: bool, ns: seq<int>, i: nat)
    requires info.saveMethod.Ra? && NonJapanese(info) && i < |ns|
    ensures var ls := ExtendLines(info, script, index, voiced, ns);
      var g, c := GuardsAt(info), ChainStart(info, ns);
      && |ls| == c + 3 * |ns| + (if info.outFmt == Mst then 1 else 0)
      && ls[g + i] == SavepointGuard(ns[i])
      && ls[c + 3 * i] == SavepointSet(ns[i]) && ls[c + 3 * i + 1] == PieceLabel(ns[i])
      && ls[c + 3 * i + 2] == ShowByRa(info.outFmt, ns[i])
  {
    RaLayout(info, script, index, voiced, ns, i);
    ChainLinesAt(info.outFmt, ns, i);
  }

  /** Where the guard and the chain lines of the `i`-th new index sit. */
  lemma RaLayout(info: BuildInfo, script: string, index: int, voiced: bool, ns: seq<int>, i: nat)
    requires info.saveMethod.Ra? && NonJapanese(info) && i < |ns|
    ensures var ls, gs, cs := ExtendLines(info, script, index, voiced, ns), Guards(ns), Chain(info.outFmt, true, ns);
      var g, c := GuardsAt(info), ChainStart(info, ns);
      && |ls| == c + 3 * |ns| + (if info.outFmt == Mst then 1 else 0)
      && |gs| == |ns| && |cs| == 3 * |ns|
      && ls[g + i] == gs[i]
      && ls[c + 3 * i] == cs[3 * i] && ls[c + 3 * i + 1] == cs[3 * i + 1] && ls[c + 3 * i + 2] == cs[3 * i + 2]
  {
    var ls := ExtendLines(info, script, index, voiced, ns);
    var h, a, c, e := ["@@ " + script + ".scs"], RaOpening(info, true), RaBase(info, true, index, voiced), RaClosing(info, true);
    RaLengths(info, index, voiced);
    RaLines(info, script, index, voiced, ns);
    ReadBlocks(ls, h, a, Guards(ns), c, Chain(info.outFmt, true, ns), e, GuardsAt(info), ChainStart(info, ns), i);
  }

  /** The three chain lines of the `i`-th new index, from `3 * i` on. */
  lemma ChainLinesAt(outFmt: ScriptFormat, ns: seq<int>, i: nat)
    requires i < |ns|
    ensures 3 * i + 2 < |Chain(outFmt, true, ns)|
    ensures Chain(outFmt, true, ns)[3 * i] == SavepointSet(ns[i])
    ensures Chain(outFmt, true, ns)[3 * i + 1] == PieceLabel(ns[i])
    ensures Chain(outFmt, true, ns)[3 * i + 2] == ShowByRa(outFmt, ns[i])
  {
    ChainAt(outFmt, ns, i, 0);
    assert 3 * i + 0 == 3 * i;
    ChainAt(outFmt, ns, i, 1);
    ChainAt(outFmt, ns, i, 2);
    ChainHeadLines(outFmt, ns[i]);
  }

  lemma ChainHeadLines(outFmt: ScriptFormat, n: int)
    ensures var head := ChainHead(outFmt, true, n);
      head[0] == SavepointSet(n) && head[1] == PieceLabel(n) && head[2] == ShowByRa(outFmt, n)
  {
  }

  /**
   * Any text made of a header, a block, one line per index, a block, three
   * lines per index and a block holds the `i`-th index's line at `g + i`
   * and its three lines from `k + 3 * i` on.
   */
  lemma ReadBlocks(ls: seq<string>, h: seq<string>, a: seq<string>, gs: seq<string>, c: seq<string>, cs: seq<string>,
                   e: seq<string>, g: nat, k: nat, i: nat)
    requires ls == h + (a + gs + c + cs + e)
    requires |cs| == 3 * |gs| && g == |h| + |a| && k == g + |gs| + |c| && i < |gs|
    ensures |ls| == k + 3 * |gs| + |e|
    ensures ls[g + i] == gs[i]
    ensures ls[k + 3 * i] == cs[3 * i] && ls[k + 3 * i + 1] == cs[3 * i + 1] && ls[k + 3 * i + 2] == cs[3 * i + 2]
  {
    LayoutAt(h, a, gs, c, cs, e, g, k, i, 3 * i);
    LayoutAt(h, a, gs, c, cs, e, g, k, i, 3 * i + 1);
    LayoutAt(h, a, gs, c, cs, e, g, k, i, 3 * i + 2);
  }

  /** Line `jb` of the second part and line `jd` of the fourth part of a patch built from a header and five parts. */
  lemma LayoutAt(h: seq<string>, a: seq<string>, b: seq<string>, c: seq<string>, d: seq<string>, e: seq<string>,
                 g: nat, k: nat, jb: nat, jd: nat)
    requires g == |h| + |a| && k == g + |b| + |c| && jb < |b| && jd < |d|
    ensures var s := h + (a + b + c + d + e);
      && |s| == k + |d| + |e|
      && s[g + jb] == b[jb]
      && s[k + jd] == d[jd]
  {
    var s := h + (a + b + c + d + e);
    assert s[g + jb] == (a + b + c + d + e)[|a| + jb] == (a + b)[|a| + jb];
    assert s[k + jd] == (a + b + c + d + e)[|a| + |b| + |c| + jd] == (a + b + c + d)[|a| + |b| + |c| + jd];
  }

  /** A Japanese-only build under return-address saving adds no guard and no slot update: only one display per new index. */
  lemma ExtendByRaJapanese(info: BuildInfo, script: string, index: int, voiced: bool, ns: seq<int>, i: nat)
    requires info.saveMethod.Ra? && !NonJapanese(info) && i < |ns|
    ensures var ls := ExtendLines(info, script, index, voiced, ns);
      && |ls| == 7 + |ns|
      && ls[7 + i] == ShowByRa(info.outFmt, ns[i])
  {
    RaLayoutJapanese(info, script, index, voiced, ns, i);
    ChainAtJapanese(info.outFmt, ns, i);
  }

  /** Where the display of the `i`-th new index sits in a Japanese-only build. */
  lemma RaLayoutJapanese(info: BuildInfo, script: string, index: int, voiced: bool, ns: seq<int>, i: nat)
    requires info.saveMethod.Ra? && !NonJapanese(info) && i < |ns|
    ensures var ls, cs := ExtendLines(info, script, index, voiced, ns), Chain(info.outFmt, false, ns);
      && |cs| == |ns| && |ls| == 7 + |ns| && ls[7 + i] == cs[i]
  {
    var b := RaBase(info, false, index, voiced);
    assert |b| == 6;
    assert ExtendLines(info, script, index, voiced, ns) == ["@@ " + script + ".scs"] + (b + Chain(info.outFmt, false, ns));
    ReadTail(ExtendLines(info, script, index, voiced, ns), ["@@ " + script + ".scs"], b, Chain(info.outFmt, false, ns), 7, i);
  }

  /** Line `i` of the last part of a patch built from a header, a block and that part. */
  lemma ReadTail(ls: seq<string>, h: seq<string>, b: seq<string>, cs: seq<string>, k: nat, i: nat)
    requires ls == h + (b + cs) && k == |h| + |b| && i < |cs|
    ensures |ls| == k + |cs| && ls[k + i] == cs[i]
  {
    assert ls[k + i] == (b + cs)[|b| + i];
  }
}
