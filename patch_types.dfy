/**
 * The types shared across the patch compiler (lib/types.py): tagged patch
 * lines and their rendering, patches as lists of lines, the game languages,
 * the script formats and the build settings derived from them.
 */
module PatchTypes {
  import opened Wrappers
  import opened PyText

  /** The script formats; the value of each is its lower-case name. */
  datatype ScriptFormat = Sct | Mst

  function FormatValue(f: ScriptFormat): string {
    match f
    case Sct => "sct"
    case Mst => "mst"
  }

  /** `str(ScriptFormat.X)`: the value with a dot in front, as a file extension. */
  function Extension(f: ScriptFormat): (r: string)
    ensures |r| == 4 && r[0] == '.' && r[1..] == FormatValue(f)
  {
    "." + FormatValue(f)
  }

  lemma ExtensionInjective(f: ScriptFormat, g: ScriptFormat)
    requires Extension(f) == Extension(g)
    ensures f == g
  {
    assert Extension(f)[1] == Extension(g)[1];
  }

  /** How a game version saves progress: by instruction pointer or by return address. */
  datatype SaveMethod = Ip | Ra

  /** The game languages, in declaration order. */
  datatype Language = Japanese | English

  function LanguageValue(l: Language): string {
    match l
    case Japanese => "jpn"
    case English => "eng"
  }

  /** `int(language)`: the position of the member in the declaration. */
  function LanguageIndex(l: Language): (r: nat)
    ensures r < 2
    ensures r == 0 <==> l == Japanese
  {
    match l
    case Japanese => 0
    case English => 1
  }

  /** `Language(value)`: the member whose value is `s`, if any. */
  function LanguageOf(s: string): (r: Option<Language>)
    ensures r.Some? ==> LanguageValue(r.value) == s
    ensures r.None? <==> s != "jpn" && s != "eng"
  {
    if s == "jpn" then Some(Japanese) else if s == "eng" then Some(English) else None
  }

  lemma LanguageRoundTrip(l: Language)
    ensures LanguageOf(LanguageValue(l)) == Some(l)
  {
  }

  /** The language chosen for a build: one language, or every language. */
  datatype Selected = Only(lang: Language) | All

  /** `Language(arg) if arg in Language else arg`, for an argument already limited to jpn/eng/all. */
  function SelectedOf(arg: string): (r: Option<Selected>)
    ensures r == Some(All) <==> arg == "all"
    ensures r.Some? && r.value.Only? ==> LanguageValue(r.value.lang) == arg
    ensures r.None? <==> arg != "all" && LanguageOf(arg).None?
  {
    match LanguageOf(arg)
    case Some(l) => Some(Only(l))
    case None => if arg == "all" then Some(All) else None
  }

  /** The step between consecutive line ids: 100 for MST output, 1 for SCT output. */
  function LineInc(outFmt: ScriptFormat): (r: nat)
    ensures r == 1 || r == 100
    ensures r == 100 <==> outFmt == Mst
  {
    match outFmt
    case Mst => 100
    case Sct => 1
  }

  /** One platform entry of a game's description. */
  datatype PlatformSpec = PlatformSpec(
    name: string, inFmt: ScriptFormat, outFmt: ScriptFormat, saveMethod: SaveMethod)

  /** The build settings the patch compiler reads. */
  datatype BuildInfo = BuildInfo(
    platform: string,
    inFmt: ScriptFormat,
    outFmt: ScriptFormat,
    lineInc: nat,
    saveMethod: SaveMethod,
    selected: Selected,
    versioned: seq<string>)

  predicate ValidBuildInfo(b: BuildInfo) {
    b.lineInc == LineInc(b.outFmt)
  }

  /** The position of the first spec named `platform`, if there is one. */
  function FirstNamed(specs: seq<PlatformSpec>, platform: string): (r: Option<nat>)
    ensures r.None? <==> forall i :: 0 <= i < |specs| ==> specs[i].name != platform
    ensures r.Some? ==> r.value < |specs| && specs[r.value].name == platform
    ensures r.Some? ==> forall i :: 0 <= i < r.value ==> specs[i].name != platform
  {
    if specs == [] then None
    else if specs[0].name == platform then Some(0)
    else match FirstNamed(specs[1..], platform)
      case None => None
      case Some(i) => Some(i + 1)
  }

  datatype TypesError = NoSuchPlatform | NotAString | MultiLine | UnsupportedOperand

  /** `get_platform_spec`: the first spec with the given name; no match fails an assertion. */
  method GetPlatformSpec(specs: seq<PlatformSpec>, platform: string) returns (r: Result<PlatformSpec, TypesError>)
    ensures r.Err? <==> FirstNamed(specs, platform).None?
    ensures r.Err? ==> r.error == NoSuchPlatform
    ensures r.Ok? ==> r.value == specs[FirstNamed(specs, platform).value]
  {
    var i := 0;
    while i < |specs|
      invariant 0 <= i <= |specs|
      invariant forall j :: 0 <= j < i ==> specs[j].name != platform
    {
      if specs[i].name == platform {
        return Ok(specs[i]);
      }
      i := i + 1;
    }
    return Err(NoSuchPlatform);
  }

  /** `BuildInfo.from_validated`: platform settings, the language argument and the step. */
  function FromValidated(specs: seq<PlatformSpec>, platform: string, lang: Selected, versioned: seq<string>)
    : (r: Result<BuildInfo, TypesError>)
    ensures r.Err? <==> FirstNamed(specs, platform).None?
    ensures r.Ok? ==> ValidBuildInfo(r.value) && r.value.platform == platform && r.value.selected == lang
  {
    match FirstNamed(specs, platform)
    case None => Err(NoSuchPlatform)
    case Some(i) =>
      var s := specs[i];
      Ok(BuildInfo(s.name, s.inFmt, s.outFmt, LineInc(s.outFmt), s.saveMethod, lang, versioned))
  }

  /** The tag of a patch line: removed, context, or added. */
  datatype Kind = Removal | Neutral | Addition

  function Marker(k: Kind): string {
    match k
    case Removal => "-"
    case Neutral => ""
    case Addition => "+"
  }

  /** A single line of a script patch with its tag; the text never holds a newline. */
  datatype PatchLine = PatchLine(kind: Kind, text: string)

  /** What `ScSPatchLine(...)` may be called with. */
  datatype LineArg = NoText | PlainText(s: string) | TaggedText(line: PatchLine) | NotText

  /** Constructing a patch line: plain text is neutral, a tagged line keeps its tag. */
  function NewLine(arg: LineArg): (r: Result<PatchLine, TypesError>)
    ensures arg.NotText? <==> r == Err(NotAString)
    ensures arg.NoText? ==> r == Ok(PatchLine(Neutral, ""))
    ensures arg.PlainText? ==> (r.Ok? <==> '\n' !in arg.s)
    ensures arg.PlainText? && r.Ok? ==> r.value.kind == Neutral && r.value.text == arg.s
    ensures arg.TaggedText? ==> (r.Ok? <==> '\n' !in arg.line.text)
    ensures arg.TaggedText? && r.Ok? ==> r.value == arg.line
    ensures r.Err? && !arg.NotText? ==> r.error == MultiLine
    ensures r.Ok? ==> '\n' !in r.value.text
  {
    match arg
    case NotText => Err(NotAString)
    case NoText => Ok(PatchLine(Neutral, ""))
    case PlainText(s) => if '\n' in s then Err(MultiLine) else Ok(PatchLine(Neutral, s))
    case TaggedText(l) => if '\n' in l.text then Err(MultiLine) else Ok(l)
  }

  /** `+line`: the same text as an addition. */
  function Plus(l: PatchLine): (r: PatchLine)
    ensures r.text == l.text && r.kind == Addition
  {
    PatchLine(Addition, l.text)
  }

  /** `-line`: the same text as a removal. */
  function Minus(l: PatchLine): (r: PatchLine)
    ensures r.text == l.text && r.kind == Removal
  {
    PatchLine(Removal, l.text)
  }

  /** A label line ends with `:` once trailing blanks are dropped; it gets one tab less. */
  predicate IsLabelLine(text: string) {
    EndsWith(RStrip(text), ":")
  }

  /** `str(line)`: marker, tab, a second tab unless it is a label line, the text, newline. */
  function RenderLine(l: PatchLine): (r: string)
    ensures StartsWith(r, Marker(l.kind) + "\t") && r[|r| - 1] == '\n'
    ensures IsLabelLine(l.text) ==> r == Marker(l.kind) + "\t" + l.text + "\n"
    ensures !IsLabelLine(l.text) ==> r == Marker(l.kind) + "\t\t" + l.text + "\n"
  {
    Marker(l.kind) + "\t" + (if IsLabelLine(l.text) then "" else "\t") + l.text + "\n"
  }

  /** The tag a rendered line starts with; a context line starts with its tab. */
  function KindOf(c: char): Kind {
    if c == '+' then Addition else if c == '-' then Removal else Neutral
  }

  /** Reads one rendered line back: the inverse of RenderLine. */
  function ParseLine(s: string): (r: Option<PatchLine>) {
    if |s| < 2 || s[|s| - 1] != '\n' then None
    else
      var kind := KindOf(s[0]);
      ParseBody(kind, s[|Marker(kind)|..|s| - 1])
  }

  /** The text after the marker: a tab, then a second tab unless it is a label line. */
  function ParseBody(kind: Kind, rest: string): Option<PatchLine> {
    if rest == [] || rest[0] != '\t' then None
    else
      var body := rest[1..];
      if IsLabelLine(body) then Some(PatchLine(kind, body))
      else if body != [] && body[0] == '\t' then Some(PatchLine(kind, body[1..]))
      else None
  }

  /** A leading tab does not change whether a line is a label line. */
  lemma LabelLineTab(text: string)
    ensures IsLabelLine("\t" + text) <==> IsLabelLine(text)
  {
    RStripAppend("\t", text);
    assert RStrip("\t") == [] by { assert "\t"[..0] == []; }
  }

  lemma ParseBodyOf(kind: Kind, text: string)
    ensures ParseBody(kind, "\t" + (if IsLabelLine(text) then text else "\t" + text)) == Some(PatchLine(kind, text))
  {
    if IsLabelLine(text) {
      assert ("\t" + text)[1..] == text;
    } else {
      var body := "\t" + text;
      assert ("\t" + body)[1..] == body;
      LabelLineTab(text);
      assert body[1..] == text;
    }
  }

  lemma ParseLineOf(kind: Kind, rest: string)
    requires |rest| > 0 && rest[0] == '\t'
    ensures ParseLine(Marker(kind) + rest + "\n") == ParseBody(kind, rest)
  {
    var s := Marker(kind) + rest + "\n";
    assert KindOf(s[0]) == kind;
    assert s[|Marker(kind)|..|s| - 1] == rest;
  }

  /** Rendering loses nothing: the line can be read back from its text. */
  lemma ParseRenderLine(l: PatchLine)
    ensures ParseLine(RenderLine(l)) == Some(l)
  {
    var body := if IsLabelLine(l.text) then l.text else "\t" + l.text;
    assert RenderLine(l) == Marker(l.kind) + ("\t" + body) + "\n";
    ParseLineOf(l.kind, "\t" + body);
    ParseBodyOf(l.kind, l.text);
  }

  /** `str(patch)`: the rendered lines, in order, one after another. */
  function RenderLines(ls: seq<PatchLine>): (r: string)
    ensures ls == [] <==> r == []
  {
    if ls == [] then "" else RenderLine(ls[0]) + RenderLines(ls[1..])
  }

  /** Rendering a concatenation is concatenating the renderings. */
  lemma {:induction false} RenderLinesAppend(a: seq<PatchLine>, b: seq<PatchLine>)
    ensures RenderLines(a + b) == RenderLines(a) + RenderLines(b)
  {
    if a != [] {
      assert (a + b)[0] == a[0];
      assert (a + b)[1..] == a[1..] + b;
      RenderLinesAppend(a[1..], b);
    } else {
      assert a + b == b;
    }
  }

  /** Reads a rendered patch back, one newline-terminated line at a time. */
  function ParseLines(s: string): Option<seq<PatchLine>>
    decreases |s|
  {
    if s == [] then Some([])
    else
      var i := IndexOf(s, '\n');
      if i < 0 then None
      else match ParseLine(s[..i + 1])
        case None => None
        case Some(l) =>
          match ParseLines(s[i + 1..])
          case None => None
          case Some(ls) => Some([l] + ls)
  }

  /** The first `c` of `a + [c] + rest` is the one after `a` when `a` holds none. */
  lemma IndexOfAfter(a: string, c: char, rest: string)
    requires c !in a
    ensures IndexOf(a + [c] + rest, c) == |a|
  {
    var s := a + [c] + rest;
    assert s[|a|] == c && s[..|a|] == a;
  }

  /** A rendered line is its newline-free body followed by one newline. */
  lemma RenderLineBody(l: PatchLine)
    requires '\n' !in l.text
    ensures var r := RenderLine(l); '\n' !in r[..|r| - 1] && r == r[..|r| - 1] + "\n"
  {
    var r := RenderLine(l);
    var m := Marker(l.kind);
    var tabs := if IsLabelLine(l.text) then "\t" else "\t\t";
    assert r[..|r| - 1] == m + tabs + l.text;
    assert '\n' !in m && '\n' !in tabs;
  }

  lemma ParseLinesCons(b: string, rest: string, l: PatchLine, ls: seq<PatchLine>)
    requires '\n' !in b && ParseLine(b + "\n") == Some(l) && ParseLines(rest) == Some(ls)
    ensures ParseLines(b + "\n" + rest) == Some([l] + ls)
  {
    var s := b + "\n" + rest;
    IndexOfAfter(b, '\n', rest);
    assert s[..|b| + 1] == b + "\n";
    assert s[|b| + 1..] == rest;
  }

  /** A patch whose texts hold no newline can be read back from its rendering. */
  lemma {:induction false} ParseRenderLines(ls: seq<PatchLine>)
    requires forall k :: 0 <= k < |ls| ==> '\n' !in ls[k].text
    ensures ParseLines(RenderLines(ls)) == Some(ls)
  {
    if ls != [] {
      var first := RenderLine(ls[0]);
      RenderLineBody(ls[0]);
      var b := first[..|first| - 1];
      ParseRenderLine(ls[0]);
      ParseRenderLines(ls[1..]);
      ParseLinesCons(b, RenderLines(ls[1..]), ls[0], ls[1..]);
      assert ls == [ls[0]] + ls[1..];
    }
  }

  /** The right-hand side of `patch + other`. */
  datatype Operand = Text(s: string) | Line(line: PatchLine) | Lines(p: Patch) | Other

  /** A script patch: the list of its lines, appended to in place. */
  class Patch {
    var lines: seq<PatchLine>

    /** `ScSPatch(other)`: a copy of another patch's lines, or no lines. */
    constructor (other: Option<Patch>)
      ensures other.None? ==> lines == []
      ensures other.Some? ==> lines == other.value.lines
    {
      lines := if other.Some? then other.value.lines else [];
    }

    /** `str(patch)` */
    function Render(): (r: string)
      reads this
      ensures r == [] <==> lines == []
    {
      RenderLines(lines)
    }

    /**
     * `add_or_concat`: the lines the operand contributes are appended to this
     * patch (in place) or to a fresh copy (returned), or the call fails and
     * nothing changes.
     */
    method AddOrConcat(other: Operand, inplace: bool) returns (r: Result<Option<Patch>, TypesError>)
      modifies this
      ensures other.Other? ==> r == Err(UnsupportedOperand)
      ensures r.Err? <==> other.Other? || (other.Text? && '\n' in other.s)
      ensures other.Text? ==> (r.Err? <==> '\n' in other.s)
      ensures r.Err? ==> lines == old(lines)
      ensures other.Lines? ==> r.Ok?
      ensures r.Ok? && inplace ==> r.value.None? && lines == old(lines) + Contributed(other, old(OperandLines(other)))
      ensures r.Ok? && !inplace ==> r.value.Some? && fresh(r.value.value) && lines == old(lines)
      ensures r.Ok? && !inplace ==> r.value.value.lines == old(lines) + Contributed(other, old(OperandLines(other)))
    {
      if other.Other? {
        return Err(UnsupportedOperand);
      }
      var added: seq<PatchLine>;
      match other {
        case Lines(p) => added := p.lines;
        case Line(l) => added := [l];
        case Text(s) =>
          if '\n' in s {
            return Err(MultiLine);
          }
          added := [PatchLine(Neutral, s)];
      }
      if inplace {
        lines := lines + added;
        return Ok(None);
      } else {
        var copy := new Patch(Some(this));
        copy.lines := copy.lines + added;
        return Ok(Some(copy));
      }
    }

    /**
     * `patch += other` as written: `__iadd__` appends but returns None, and
     * Python rebinds the left-hand variable to what it returns.
     */
    method AugmentedAdd(other: Operand) returns (r: Result<Option<Patch>, TypesError>)
      modifies this
      ensures r.Err? <==> other.Other? || (other.Text? && '\n' in other.s)
      ensures other.Text? ==> (r.Err? <==> '\n' in other.s)
      ensures r.Ok? ==> r.value.None?
      ensures r.Ok? ==> lines == old(lines) + Contributed(other, old(OperandLines(other)))
      ensures r.Err? ==> lines == old(lines)
    {
      var res := AddOrConcat(other, true);
      if res.Err? {
        return Err(res.error);
      }
      return Ok(None);
    }

    /** `patch += other` as intended: the variable keeps naming the extended patch. */
    method AugmentedAddIntended(other: Operand) returns (r: Result<Option<Patch>, TypesError>)
      modifies this
      ensures r.Err? <==> other.Other? || (other.Text? && '\n' in other.s)
      ensures other.Text? ==> (r.Err? <==> '\n' in other.s)
      ensures r.Ok? ==> r.value == Some(this)
      ensures r.Ok? ==> lines == old(lines) + Contributed(other, old(OperandLines(other)))
      ensures r.Err? ==> lines == old(lines)
    {
      var res := AddOrConcat(other, true);
      if res.Err? {
        return Err(res.error);
      }
      return Ok(Some(this));
    }
  }

  /** The lines of a patch operand, read in the current state. */
  function OperandLines(other: Operand): seq<PatchLine>
    reads if other.Lines? then {other.p} else {}
  {
    if other.Lines? then other.p.lines else []
  }

  /** The lines an operand contributes: a patch's lines, a tagged line, or plain text as a neutral line. */
  function Contributed(other: Operand, patchLines: seq<PatchLine>): seq<PatchLine> {
    match other
    case Lines(_) => patchLines
    case Line(l) => [l]
    case Text(s) => [PatchLine(Neutral, s)]
    case Other => []
  }

  /** The rendering of `patch + other` is the rendering of `patch` followed by that of the addition. */
  lemma RenderAfterConcat(before: seq<PatchLine>, other: Operand, patchLines: seq<PatchLine>)
    ensures RenderLines(before + Contributed(other, patchLines))
         == RenderLines(before) + RenderLines(Contributed(other, patchLines))
  {
    RenderLinesAppend(before, Contributed(other, patchLines));
  }

  /** With the corrected `+=`, a second `+=` extends the same patch again. */
  method AugmentedAddTwice(p: Patch, a: string, b: string) returns (r: Result<Option<Patch>, TypesError>)
    requires '\n' !in a && '\n' !in b
    modifies p
    ensures r.Ok? && r.value == Some(p)
    ensures p.lines == old(p.lines) + [PatchLine(Neutral, a), PatchLine(Neutral, b)]
  {
    var first := p.AugmentedAddIntended(Text(a));
    r := first.value.value.AugmentedAddIntended(Text(b));
  }

  /** As written, after one `+=` the variable holds None, so a second `+=` has no patch to extend. */
  method AugmentedAddTwiceAsWritten(p: Patch, a: string) returns (variable: Option<Patch>)
    requires '\n' !in a
    modifies p
    ensures variable.None?
  {
    var first := p.AugmentedAdd(Text(a));
    variable := first.value;
  }
}
