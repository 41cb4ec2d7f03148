/**
 * The macro handlers of the patch preprocessor (lib/ScriptPatcher.py:83-91,
 * 175-1127) as data. Each handler registered with `@macro()` is an f-string
 * template: the model records how it reads its argument string, how many
 * fresh labels and return addresses it draws from the block's counters, and
 * the template itself piece by piece. `Msb` is the one handler with a side
 * effect (it registers a message line) and is modelled by the preprocessor.
 */
module MacroTable {
  import opened Wrappers
  import opened PyText

  /** How a handler reads its argument string. */
  datatype Params =
    | Ignored         // the handler never looks at its arguments
    | Whole           // `args.strip()`
    | Fields(n: nat)  // `[x.strip() for x in args.split(",")]` unpacked into `n` names

  /** One piece of a handler's f-string. */
  datatype Piece =
    | Lit(s: string)  // literal text
    | Arg(i: nat)     // argument `i`, stripped
    | IdOf(i: nat)    // `arg.split(":", 1)[0]`: argument `i` up to its first colon
    | TextOf(i: nat)  // the second half of `id, text = arg.split(":", 1)`
    | Ticks(i: nat)   // `int(arg) * 3 // 50`: milliseconds to frames, rounded down
    | Label(k: nat)   // the result of the handler's `k`-th call to `next_label()`
    | Ra(k: nat)      // the result of the handler's `k`-th call to `next_ra()`

  datatype Macro =
    | Template(params: Params, labels: nat, ras: nat, body: seq<Piece>)
    | RegisterLine  // `Msb`: registers a message line and expands to nothing

  /** Why a handler raises: a wrong number of arguments, `int()` failing, a missing colon. */
  datatype MacroError = WrongArgCount(expected: nat, got: nat) | NotAnInt(text: string) | NoColon(text: string)

  function Arity(p: Params): nat {
    match p
    case Ignored => 0
    case Whole => 1
    case Fields(n) => n
  }

  /**
   * The argument values a handler unpacks. Unpacking `args.split(",")` into
   * `n` names raises unless there are exactly `n` pieces.
   */
  function ParseArgs(p: Params, args: string): (r: Result<seq<string>, MacroError>)
    ensures r.Ok? ==> |r.value| == Arity(p)
    ensures p.Fields? ==> (r.Ok? <==> |SplitChar(args, ',')| == p.n)
    ensures r.Ok? ==> forall i :: 0 <= i < |r.value| ==> r.value[i] == Strip(r.value[i])
  {
    match p
    case Ignored => Ok([])
    case Whole => StripTwice(args); Ok([Strip(args)])
    case Fields(n) =>
      var parts := SplitChar(args, ',');
      if |parts| != n then Err(WrongArgCount(n, |parts|))
      else
        var fields := seq(n, i requires 0 <= i < n => Strip(parts[i]));
        assert forall i :: 0 <= i < n ==> fields[i] == Strip(fields[i]) by {
          forall i | 0 <= i < n ensures fields[i] == Strip(fields[i]) {
            StripTwice(parts[i]);
          }
        }
        Ok(fields)
  }

  /** Stripping is idempotent. */
  lemma StripTwice(s: string)
    ensures Strip(Strip(s)) == Strip(s)
  {
    var u := LStrip(s);
    var t := RStrip(u);
    LStripShape(s);
    RStripShape(u);
    assert t != [] ==> t[0] == u[0];
    assert LStrip(t) == t;
  }

  /** Field `i`; the templates below only use indices below their arity. */
  function Field(fields: seq<string>, i: nat): string {
    if i < |fields| then fields[i] else ""
  }

  /** `int(time) * 3 // 50`: Dafny's `/` rounds down for a positive divisor, as Python's `//` does. */
  function FramesOf(ms: int): (r: int)
    ensures r * 50 <= ms * 3 < r * 50 + 50
  {
    ms * 3 / 50
  }

  /** The text a piece contributes once the handler has its fields and fresh names. */
  function PieceText(p: Piece, fields: seq<string>, labelNames: seq<string>, raNames: seq<string>): string {
    match p
    case Lit(s) => s
    case Arg(i) => Field(fields, i)
    case IdOf(i) => BeforeFirst(Field(fields, i), ':')
    case TextOf(i) =>
      (match SplitOnce(Field(fields, i), ':') case Some((_, text)) => text case None => "")
    case Ticks(i) =>
      (match ParseInt(Field(fields, i)) case Some(v) => IntToStr(FramesOf(v)) case None => "")
    case Label(k) => if k < |labelNames| then labelNames[k] else ""
    case Ra(k) => if k < |raNames| then raNames[k] else ""
  }

  /** The f-string, filled in. */
  function Render(body: seq<Piece>, fields: seq<string>, labelNames: seq<string>, raNames: seq<string>): string
    decreases |body|
  {
    if body == [] then "" else PieceText(body[0], fields, labelNames, raNames) + Render(body[1..], fields, labelNames, raNames)
  }

  /** The first `Ticks` field that `int()` rejects, in template order. */
  function BadTicks(body: seq<Piece>, fields: seq<string>): (r: Option<MacroError>)
    ensures r.None? <==> forall k :: 0 <= k < |body| && body[k].Ticks? ==> ParseInt(Field(fields, body[k].i)).Some?
    decreases |body|
  {
    if body == [] then None
    else if body[0].Ticks? && ParseInt(Field(fields, body[0].i)).None? then Some(NotAnInt(Field(fields, body[0].i)))
    else BadTicks(body[1..], fields)
  }

  /** The first `TextOf` field without a colon, in template order. */
  function BadColon(body: seq<Piece>, fields: seq<string>): (r: Option<MacroError>)
    ensures r.None? <==> forall k :: 0 <= k < |body| && body[k].TextOf? ==> ':' in Field(fields, body[k].i)
    decreases |body|
  {
    if body == [] then None
    else if body[0].TextOf? && ':' !in Field(fields, body[0].i) then Some(NoColon(Field(fields, body[0].i)))
    else BadColon(body[1..], fields)
  }

  /**
   * What a template handler returns, given the names its `next_label()` and
   * `next_ra()` calls produced. The arguments are unpacked first, then every
   * `int()` conversion runs, then every colon split (the order the CenterLog
   * handlers perform them in).
   */
  function Instantiate(m: Macro, args: string, labelNames: seq<string>, raNames: seq<string>): (r: Result<string, MacroError>)
    requires m.Template?
    ensures r.Err? <==>
      || ParseArgs(m.params, args).Err?
      || BadTicks(m.body, ParseArgs(m.params, args).value).Some?
      || BadColon(m.body, ParseArgs(m.params, args).value).Some?
  {
    var fields :- ParseArgs(m.params, args);
    match BadTicks(m.body, fields)
    case Some(e) => Err(e)
    case None =>
      match BadColon(m.body, fields)
      case Some(e) => Err(e)
      case None => Ok(Render(m.body, fields, labelNames, raNames))
  }

  /** `CallFar`, lib/ScriptPatcher.py:186-192 */
  const CallFar := Template(Fields(2), 0, 1, [
    Lit("\n"),
    Lit("\tCallFarRL "), Arg(0), Lit(", "), Arg(1), Lit(", "), Ra(0), Lit("\n"),
    Lit("*"), Ra(0), Lit(":\n")])

  /** `NvlMode`, lib/ScriptPatcher.py:195-199 */
  const NvlMode := Template(Ignored, 0, 0, [
    Lit("\n"),
    Lit("\t/CallFar 6, 245\n"),
    Lit("\t$W(4362) = 136;\n")])

  /** `AdvMode`, lib/ScriptPatcher.py:202-206 */
  const AdvMode := Template(Ignored, 0, 0, [
    Lit("\n"),
    Lit("\t/CallFar 6, 246\n"),
    Lit("\t$W(4362) = 0;\n")])

  /** `SemitransparentNvlMode`, lib/ScriptPatcher.py:209-213 */
  const SemitransparentNvlMode := Template(Ignored, 0, 0, [
    Lit("\n"),
    Lit("\t/CallFar 6, 245\n"),
    Lit("\t$W(4362) = 128;\n")])

  /** `MesCls`, lib/ScriptPatcher.py:216-219 */
  const MesCls := Template(Ignored, 0, 0, [
    Lit("\n"),
    Lit("\tMesCls_08 0\n")])

  /** `MesMsbRA`, lib/ScriptPatcher.py:222-231 */
  const MesMsbRA := Template(Fields(3), 0, 0, [
    Lit("\n"),
    Lit("\tMesSetSavePointRL "), Arg(0), Lit("\n"),
    Lit("\tMessWindowOpen\n"),
    Lit("\tMessWindowOpenedWait\n"),
    Lit("\tMesVoiceWait\n"),
    Lit("\tMesSetMesMsb "), Arg(1), Lit(", "), Arg(2), Lit("\n"),
    Lit("\tMesMain\n")])

  /** `MesScxRA`, lib/ScriptPatcher.py:234-243 */
  const MesScxRA := Template(Fields(3), 0, 0, [
    Lit("\n"),
    Lit("\tMesSetSavePointRL "), Arg(0), Lit("\n"),
    Lit("\tMessWindowOpen\n"),
    Lit("\tMessWindowOpenedWait\n"),
    Lit("\tMesVoiceWait\n"),
    Lit("\tMesSetMesScx "), Arg(1), Lit(", "), Arg(2), Lit("\n"),
    Lit("\tMesMain\n")])

  /** `MesMsb`, lib/ScriptPatcher.py:246-252 */
  const MesMsb := Template(Fields(2), 0, 1, [
    Lit("\n"),
    Lit("*"), Ra(0), Lit(":\n"),
    Lit("\t/MesMsbRA "), Ra(0), Lit(", "), Arg(0), Lit(", "), Arg(1), Lit("\n")])

  /** `MesScx`, lib/ScriptPatcher.py:255-264 */
  const MesScx := Template(Fields(2), 0, 0, [
    Lit("\n"),
    Lit("\tMesSetSavePoint\n"),
    Lit("\tMessWindowOpen\n"),
    Lit("\tMessWindowOpenedWait\n"),
    Lit("\tMesVoiceWait\n"),
    Lit("\tMesSetMesScx "), Arg(0), Lit(", "), Arg(1), Lit("\n"),
    Lit("\tMesMain\n")])

  /** `Mes2VMsbRA`, lib/ScriptPatcher.py:267-276 */
  const Mes2VMsbRA := Template(Fields(5), 0, 0, [
    Lit("\n"),
    Lit("\tMesSetSavePointRL "), Arg(0), Lit("\n"),
    Lit("\tMessWindowOpen\n"),
    Lit("\tMessWindowOpenedWait\n"),
    Lit("\tMesVoiceWait\n"),
    Lit("\tMes2VSetMesMsb "), Arg(1), Lit(", "), Arg(2), Lit(", "), Arg(3), Lit(", "), Arg(4), Lit("\n"),
    Lit("\tMesMain\n")])

  /** `Mes2VMsb`, lib/ScriptPatcher.py:279-285 */
  const Mes2VMsb := Template(Fields(4), 0, 1, [
    Lit("\n"),
    Lit("*"), Ra(0), Lit(":\n"),
    Lit("\t/Mes2VMsbRA "), Ra(0), Lit(", "), Arg(0), Lit(", "), Arg(1), Lit(", "), Arg(2), Lit(", "), Arg(3), Lit("\n")])

  /** `MesSync`, lib/ScriptPatcher.py:288-295 */
  const MesSync := Template(Ignored, 0, 0, [
    Lit("\n"),
    Lit("\tMesSync_00\n"),
    Lit("\tMesSync_01\n"),
    Lit("\tMesSync_02\n"),
    Lit("\tMesSync_03\n"),
    Lit("\tMesSync_04\n")])

  /** `MesSMsbRA`, lib/ScriptPatcher.py:298-304 */
  const MesSMsbRA := Template(Fields(4), 0, 0, [
    Lit("\n"),
    Lit("\tMesSSetSavePointRL "), Arg(0), Lit(", "), Arg(1), Lit("\n"),
    Lit("\tMesVoiceWait\n"),
    Lit("\tMesSSetMesMsb "), Arg(2), Lit(", "), Arg(3), Lit("\n")])

  /** `MesSMsb`, lib/ScriptPatcher.py:307-313 */
  const MesSMsb := Template(Fields(3), 0, 1, [
    Lit("\n"),
    Lit("*"), Ra(0), Lit(":\n"),
    Lit("\t/MesSMsbRA "), Ra(0), Lit(", "), Arg(0), Lit(", "), Arg(1), Lit(", "), Arg(2), Lit("\n")])

  /** `MesS2VMsbRA`, lib/ScriptPatcher.py:316-322 */
  const MesS2VMsbRA := Template(Fields(6), 0, 0, [
    Lit("\n"),
    Lit("\tMesSSetSavePointRL "), Arg(0), Lit(", "), Arg(1), Lit("\n"),
    Lit("\tMesVoiceWait\n"),
    Lit("\tMesS2VSetMesMsb "), Arg(2), Lit(", "), Arg(3), Lit(", "), Arg(4), Lit(", "), Arg(5), Lit("\n")])

  /** `MesS2VMsb`, lib/ScriptPatcher.py:325-331 */
  const MesS2VMsb := Template(Fields(5), 0, 1, [
    Lit("\n"),
    Lit("*"), Ra(0), Lit(":\n"),
    Lit("\t/MesS2VMsbRA "), Ra(0), Lit(", "), Arg(0), Lit(", "), Arg(1), Lit(", "), Arg(2), Lit(", "), Arg(3), Lit(", "), Arg(4), Lit("\n")])

  /** `InitMesSync1`, lib/ScriptPatcher.py:334-341 */
  const InitMesSync1 := Template(Ignored, 0, 0, [
    Lit("\n"),
    Lit("\tMessWindowFastClose 1\n"),
    Lit("\t$W(4373) = 1;\n"),
    Lit("\t$W(4372) = 136;\n"),
    Lit("\tMessWindowOpenEx 1\n"),
    Lit("\tMessWindowOpenedWait\n")])

  /** `ResetMesSync1`, lib/ScriptPatcher.py:344-347 */
  const ResetMesSync1 := Template(Ignored, 0, 0, [
    Lit("\n"),
    Lit("\tMessWindowFastClose 1\n")])

  /** `CloseMesSync1`, lib/ScriptPatcher.py:350-354 */
  const CloseMesSync1 := Template(Ignored, 0, 0, [
    Lit("\n"),
    Lit("\tMessWindowCloseEx 1\n"),
    Lit("\tMessWindowClosedWait\n")])

  /** `Mes`, lib/ScriptPatcher.py:357-363 */
  const Mes := Template(Fields(2), 0, 0, [
    Lit("\n"),
    Lit("\t/Msb 00:"), Arg(1), Lit("\n"),
    Lit("\t/MesMsb "), Arg(0), Lit(", "), IdOf(1), Lit("\n")])

  /** `Mes2V`, lib/ScriptPatcher.py:366-372 */
  const Mes2V := Template(Fields(4), 0, 0, [
    Lit("\n"),
    Lit("\t/Msb 00:"), Arg(3), Lit("\n"),
    Lit("\t/Mes2VMsb "), Arg(0), Lit(", "), Arg(1), Lit(", "), Arg(2), Lit(", "), IdOf(3), Lit("\n")])

  /** `SetRevMes`, lib/ScriptPatcher.py:375-381 */
  const SetRevMes := Template(Fields(1), 0, 0, [
    Lit("\n"),
    Lit("\t/Msb 00:"), Arg(0), Lit("\n"),
    Lit("\tSetRevMesMsb "), IdOf(0), Lit("\n")])

  /** `SetRevMesV`, lib/ScriptPatcher.py:384-390 */
  const SetRevMesV := Template(Fields(3), 0, 0, [
    Lit("\n"),
    Lit("\t/Msb 00:"), Arg(2), Lit("\n"),
    Lit("\tSetRevMesVMsb "), Arg(0), Lit(", "), Arg(1), Lit(", "), IdOf(2), Lit("\n")])

  /** `CenterLog1`, lib/ScriptPatcher.py:393-400 */
  const CenterLog1 := Template(Fields(2), 0, 0, [
    Lit("\n"),
    Lit("\t/Mes 0, "), IdOf(0), Lit(":\\lf:$$cl1;\\lc;"), TextOf(0), Lit("\\a:"), Ticks(1), Lit(";\n"),
    Lit("\t/MesCls\n")])

  /** `CenterLog2`, lib/ScriptPatcher.py:403-412 */
  const CenterLog2 := Template(Fields(3), 0, 0, [
    Lit("\n"),
    Lit("\t/Mes 0, "), IdOf(0), Lit(":\\lf:$$cl2;\\lc;"), TextOf(0), Lit("\\a:"), Ticks(2), Lit(";\n"),
    Lit("\t/Mes 0, "), IdOf(1), Lit(":\\lc;"), TextOf(1), Lit("\\a:"), Ticks(2), Lit(";\n"),
    Lit("\t/MesCls\n")])

  /** `CenterLog3`, lib/ScriptPatcher.py:415-426 */
  const CenterLog3 := Template(Fields(4), 0, 0, [
    Lit("\n"),
    Lit("\t/Mes 0, "), IdOf(0), Lit(":\\lf:$$cl3;\\lc;"), TextOf(0), Lit("\\a:"), Ticks(3), Lit(";\n"),
    Lit("\t/Mes 0, "), IdOf(1), Lit(":\\lc;"), TextOf(1), Lit("\\a:"), Ticks(3), Lit(";\n"),
    Lit("\t/Mes 0, "), IdOf(2), Lit(":\\lc;"), TextOf(2), Lit("\\a:"), Ticks(3), Lit(";\n"),
    Lit("\t/MesCls\n")])

  /** `DeleteAll`, lib/ScriptPatcher.py:429-437 */
  const DeleteAll := Template(Ignored, 0, 0, [
    Lit("\n"),
    Lit("\t$W(10 * 1 + 4401) = 255;\n"),
    Lit("\t$W(1 * 1 + 2786) = 0;\n"),
    Lit("\t$T(47) = 65280;\n"),
    Lit("\t/CallFar 6, 100\n"),
    Lit("\t$T(47) = 255;\n"),
    Lit("\t/CallFar 6, 4\n")])

  /** `MessWindowCloseWait`, lib/ScriptPatcher.py:440-444 */
  const MessWindowCloseWait := Template(Ignored, 0, 0, [
    Lit("\n"),
    Lit("\tMessWindowCloseEx 0\n"),
    Lit("\tMessWindowClosedWait\n")])

  /** `Wait`, lib/ScriptPatcher.py:447-451 */
  const Wait := Template(Fields(1), 0, 0, [
    Lit("\n"),
    Lit("\tMwait ("), Arg(0), Lit(") * 3 / 50, 0\n")])

  /** `MesWaitKey`, lib/ScriptPatcher.py:454-457 */
  const MesWaitKey := Template(Ignored, 0, 0, [
    Lit("\n"),
    Lit("\t/CallFar 7, 153\n")])

  /** `ReleaseBg`, lib/ScriptPatcher.py:460-465 */
  const ReleaseBg := Template(Fields(1), 0, 0, [
    Lit("\n"),
    Lit("\t$T(47) = 1 << ("), Arg(0), Lit(");\n"),
    Lit("\t/CallFar 6, 4\n")])

  /** `LoadBgAlpha`, lib/ScriptPatcher.py:468-481 */
  const LoadBgAlpha := Template(Fields(6), 1, 0, [
    Lit("\n"),
    Lit("\t/ReleaseBg "), Arg(0), Lit("\n"),
    Lit("\tBGload 1 << ("), Arg(0), Lit("), "), Arg(1), Lit("\n"),
    Lit("\t$W(("), Arg(0), Lit(") * 40 + 4500) = ("), Arg(3), Lit(") * -1;\n"),
    Lit("\t$W(("), Arg(0), Lit(") * 40 + 4501) = ("), Arg(4), Lit(") * -1;\n"),
    Lit("\t$W(("), Arg(0), Lit(") * 40 + 4508) = ("), Arg(2), Lit(");\n"),
    Lit("\t$T(54) = ("), Arg(1), Lit(");\n"),
    Lit("\t/CallFar 7, 39\n"),
    Lit("\t$W(("), Arg(0), Lit(") * 40 + 4513) = "), Arg(5), Lit(" * 255 / 1000;\n"),
    Lit("\tSetFlag 2400 + ("), Arg(0), Lit(")\n")])

  /** `LoadBg`, lib/ScriptPatcher.py:484-488 */
  const LoadBg := Template(Fields(5), 0, 0, [
    Lit("\n"),
    Lit("\t/LoadBgAlpha "), Arg(0), Lit(", "), Arg(1), Lit(", "), Arg(2), Lit(", "), Arg(3), Lit(", "), Arg(4), Lit(", 0\n")])

  /** `LoadBgOnTop`, lib/ScriptPatcher.py:491-496 */
  const LoadBgOnTop := Template(Fields(6), 0, 0, [
    Lit("\n"),
    Lit("\t$W(("), Arg(0), Lit(") * 40 + 4508) = ("), Arg(3), Lit(");\n"),
    Lit("\t/LoadBg "), Arg(1), Lit(", "), Arg(2), Lit(", ("), Arg(3), Lit(")+1, "), Arg(4), Lit(", "), Arg(5), Lit("\n")])

  /** `AsyncFadeBg`, lib/ScriptPatcher.py:499-509 */
  const AsyncFadeBg := Template(Fields(4), 0, 0, [
    Lit("\n"),
    Lit("\t$T(47) = ("), Arg(0), Lit(");\n"),
    Lit("\t$T(48) = ("), Arg(3), Lit(") * 255 / 1000;\n"),
    Lit("\t$T(49) = ("), Arg(2), Lit(") * 3 / 50;\n"),
    Lit("\t$T(50) = ("), Arg(1), Lit(") * 40 + 4513;\n"),
    Lit("\t$T(51) = ("), Arg(1), Lit(") * 10 + 2408;\n"),
    Lit("\tSetFlag 10 + ("), Arg(0), Lit(")\n"),
    Lit("\tCreateThread 6, 6, 1698\n")])

  /** `FadeBg`, lib/ScriptPatcher.py:512-528 */
  const FadeBg := Template(Fields(3), 2, 0, [
    Lit("\n"),
    Lit("\tIf ("), Arg(1), Lit(") * 3 / 50 <= 0, "), Label(1), Lit("\n"),
    Lit("\t$T(63) = ("), Arg(2), Lit(") * 255 / 1000 - $W(("), Arg(0), Lit(") * 40 + 4513);\n"),
    Lit("\t$T(64) = 0;\n"),
    Label(0), Lit(":\n"),
    Lit("\t$T(64) += 1;\n"),
    Lit("\tCalcMove ("), Arg(0), Lit(") * 10 + 2408, $T(63), $T(64), ("), Arg(1), Lit(") * 3 / 50\n"),
    Lit("\tMwait 1, 0\n"),
    Lit("\tIf $T(64) <= ("), Arg(1), Lit(") * 3 / 50, "), Label(0), Lit("\n"),
    Label(1), Lit(":\n"),
    Lit("\t$W(("), Arg(0), Lit(") * 40 + 4513) = ("), Arg(2), Lit(") * 255 / 1000;\n"),
    Lit("\t$W(("), Arg(0), Lit(") * 10 + 2408) = 0;\n")])

  /** `AsyncMoveBg`, lib/ScriptPatcher.py:531-544 */
  const AsyncMoveBg := Template(Fields(5), 0, 0, [
    Lit("\n"),
    Lit("\t$T(47) = ("), Arg(0), Lit(");\n"),
    Lit("\t$T(48) = $W(("), Arg(1), Lit(") * 40 + 4500) + ("), Arg(3), Lit(") * -1;\n"),
    Lit("\t$T(49) = $W(("), Arg(1), Lit(") * 40 + 4501) + ("), Arg(4), Lit(") * -1;\n"),
    Lit("\t$T(50) = ("), Arg(2), Lit(") * 3 / 50;\n"),
    Lit("\t$T(51) = ("), Arg(1), Lit(") * 40 + 4500;\n"),
    Lit("\t$T(52) = ("), Arg(1), Lit(") * 40 + 4501;\n"),
    Lit("\t$T(53) = ("), Arg(1), Lit(") * 10 + 2400;\n"),
    Lit("\t$T(54) = ("), Arg(1), Lit(") * 10 + 2401;\n"),
    Lit("\tSetFlag 10 + ("), Arg(0), Lit(")\n"),
    Lit("\tCreateThread 6, 6, 1704\n")])

  /** `MoveBg`, lib/ScriptPatcher.py:547-567 */
  const MoveBg := Template(Fields(4), 2, 0, [
    Lit("\n"),
    Lit("\tIf ("), Arg(1), Lit(") <= 0, "), Label(1), Lit("\n"),
    Lit("\t$T(62) = ("), Arg(2), Lit(") * -1 - $W(("), Arg(0), Lit(") * 40 + 4500);\n"),
    Lit("\t$T(63) = ("), Arg(3), Lit(") * -1 - $W(("), Arg(0), Lit(") * 40 + 4501);\n"),
    Lit("\t$T(64) = 0;\n"),
    Label(0), Lit(":\n"),
    Lit("\t$T(64) += 1;\n"),
    Lit("\tCalcMove ("), Arg(0), Lit(") * 10 + 2400, $T(62), $T(64), ("), Arg(1), Lit(") * 3 / 50\n"),
    Lit("\tCalcMove ("), Arg(0), Lit(") * 10 + 2401, $T(63), $T(64), ("), Arg(1), Lit(") * 3 / 50\n"),
    Lit("\tMwait 1, 0\n"),
    Lit("\tIf $T(64) <= ("), Arg(1), Lit(") * 3 / 50, "), Label(0), Lit("\n"),
    Label(1), Lit(":\n"),
    Lit("\t$W(("), Arg(0), Lit(") * 40 + 4500) = ("), Arg(2), Lit(") * -1;\n"),
    Lit("\t$W(("), Arg(0), Lit(") * 40 + 4501) = ("), Arg(3), Lit(") * -1;\n"),
    Lit("\t$W(("), Arg(0), Lit(") * 10 + 2400) = 0;\n"),
    Lit("\t$W(("), Arg(0), Lit(") * 10 + 2401) = 0;\n")])

  /** `MoveBgNowait`, lib/ScriptPatcher.py:570-578 */
  const MoveBgNowait := Template(Fields(4), 0, 0, [
    Lit("\n"),
    Lit("\t$T(47) = ("), Arg(0), Lit(");\n"),
    Lit("\t$W(1300 + ("), Arg(0), Lit(")) = $W(("), Arg(0), Lit(") * 40 + 4500) + ("), Arg(2), Lit(") * -1;\n"),
    Lit("\t$W(1318 + ("), Arg(0), Lit(")) = $W(("), Arg(0), Lit(") * 40 + 4501) + ("), Arg(3), Lit(") * -1;\n"),
    Lit("\t$W(1374 + ("), Arg(0), Lit(")) = ("), Arg(1), Lit(") * 3 / 50;\n"),
    Lit("\t/CallFarRL 6, 1547\n")])

  /** `SwapBg`, lib/ScriptPatcher.py:581-588 */
  const SwapBg := Template(Fields(2), 0, 0, [
    Lit("\n"),
    Lit("\tBGswap 1 << ("), Arg(0), Lit("), 1 << ("), Arg(1), Lit(")\n"),
    Lit("\t$W(("), Arg(0), Lit(") * 40 + 4508) = $W(("), Arg(1), Lit(") * 40 + 4508);\n"),
    Lit("\t$T(47) = 1 << ("), Arg(1), Lit(");\n"),
    Lit("\t/CallFar 6, 4\n")])

  /** `TransitionBg`, lib/ScriptPatcher.py:591-612 */
  const TransitionBg := Template(Fields(3), 0, 0, [
    Lit("\n"),
    Lit("\tLoadPic 100 + 15, 5, "), Arg(2), Lit("\n"),
    Lit("\t$W(6370 + 15) = ("), Arg(2), Lit(");\n"),
    Lit("\t$W(("), Arg(0), Lit(") * 40 + 4513) = 255;\n"),
    Lit("\t$T(76) = 0 * (255 + 32) / 100;\n"),
    Lit("\t$T(77) = 100 * (255 + 32) / 100;\n"),
    Lit("\t$W(("), Arg(0), Lit(") * 40 + 4514) = 15;\n"),
    Lit("\t$W(("), Arg(0), Lit(") * 40 + 4515) = 32;\n"),
    Lit("\t$W(("), Arg(0), Lit(") * 40 + 4511) = 16;\n"),
    Lit("\t$W(("), Arg(0), Lit(") * 40 + 4510) = $T(76);\n"),
    Lit("\n"),
    Lit("\t$T(47) = 8;\n"),
    Lit("\t$T(48) = $T(77);\n"),
    Lit("\t$T(49) = ("), Arg(1), Lit(") * 3 / 50;\n"),
    Lit("\t$T(50) = ("), Arg(0), Lit(") * 40 + 4510;\n"),
    Lit("\tSetFlag 18\n"),
    Lit("\tCreateThread 6, 6, 1701\n"),
    Lit("\tFlagOnWait 19 + 8\n"),
    Lit("\n")])

  /** `CrossfadeBg`, lib/ScriptPatcher.py:615-620 */
  const CrossfadeBg := Template(Fields(3), 0, 0, [
    Lit("\n"),
    Lit("\t/FadeBg "), Arg(1), Lit(", "), Arg(2), Lit(", 1000\n"),
    Lit("\t/SwapBg "), Arg(0), Lit(", "), Arg(1), Lit("\n")])

  /** `AsyncShakeBg`, lib/ScriptPatcher.py:623-636 */
  const AsyncShakeBg := Template(Fields(8), 0, 0, [
    Lit("\n"),
    Lit("\t$T(47) = ("), Arg(0), Lit(");\n"),
    Lit("\t$T(48) = ("), Arg(1), Lit(");\n"),
    Lit("\t$T(49) = ("), Arg(3), Lit(");\n"),
    Lit("\t$T(50) = ("), Arg(4), Lit(");\n"),
    Lit("\t$T(51) = ("), Arg(5), Lit(");\n"),
    Lit("\t$T(52) = ("), Arg(6), Lit(");\n"),
    Lit("\t$T(53) = ("), Arg(7), Lit(");\n"),
    Lit("\t$T(54) = ("), Arg(2), Lit(");\n"),
    Lit("\tSetFlag 10 + ("), Arg(0), Lit(")\n"),
    Lit("\tCreateThread 6, 7, 88\n")])

  /** `ClearAll`, lib/ScriptPatcher.py:639-694 */
  const ClearAll := Template(Whole, 0, 0, [
    Lit("\n"),
    Lit("\t/StopSe "), Arg(0), Lit("\n"),
    Lit("\t/StopSe2 "), Arg(0), Lit("\n"),
    Lit("\t/StopSe3 "), Arg(0), Lit("\n"),
    Lit("\t/StopBgm "), Arg(0), Lit("\n"),
    Lit("\t/CallFar 7, 6\n"),
    Lit("\t/MessWindowCloseWait\n"),
    Lit("\t$W(1022) = ("), Arg(0), Lit(") * 3 / 50;\n"),
    Lit("\t/CallFar 6, 812\n"),
    Lit("\t/EndMovie\n"),
    Lit("\t$W(0 * 20 + 6002) = 0;\n"),
    Lit("\t$W(0 * 20 + 6004) = 49152;\n"),
    Lit("\t$W(0 * 20 + 6008) = 0;\n"),
    Lit("\t$W(0 * 20 + 6006) = 0;\n"),
    Lit("\t$W(0 * 20 + 6003) = 255;\n"),
    Lit("\t$W(0 * 20 + 6005) = 65535;\n"),
    Lit("\t$W(0 * 20 + 6007) = 2000;\n"),
    Lit("\t$W(0 * 20 + 6009) = 3000;\n"),
    Lit("\t$W(0 * 20 + 6010) = 1;\n"),
    Lit("\t$W(0 * 20 + 6011) = 13;\n"),
    Lit("\t$W(0 * 20 + 6012) = 3000;\n"),
    Lit("\t$W(0 * 20 + 6000) = 16777215;\n"),
    Lit("\t$W(0 * 20 + 6001) = 16777215;\n"),
    Lit("\t$W(0 * 20 + 6017) = 65535;\n"),
    Lit("\t$W(0 * 20 + 6018) = 65535;\n"),
    Lit("\t$W(0 * 20 + 6019) = 0;\n"),
    Lit("\t$W(1 * 20 + 6002) = 0;\n"),
    Lit("\t$W(1 * 20 + 6004) = 49152;\n"),
    Lit("\t$W(1 * 20 + 6008) = 0;\n"),
    Lit("\t$W(1 * 20 + 6006) = 0;\n"),
    Lit("\t$W(1 * 20 + 6003) = 255;\n"),
    Lit("\t$W(1 * 20 + 6005) = 65535;\n"),
    Lit("\t$W(1 * 20 + 6007) = 2000;\n"),
    Lit("\t$W(1 * 20 + 6009) = 3000;\n"),
    Lit("\t$W(1 * 20 + 6010) = 1;\n"),
    Lit("\t$W(1 * 20 + 6011) = 13;\n"),
    Lit("\t$W(1 * 20 + 6012) = 3000;\n"),
    Lit("\t$W(1 * 20 + 6000) = 16777215;\n"),
    Lit("\t$W(1 * 20 + 6001) = 16777215;\n"),
    Lit("\t$W(1 * 20 + 6017) = 65535;\n"),
    Lit("\t$W(1 * 20 + 6018) = 65535;\n"),
    Lit("\t$W(1 * 20 + 6019) = 0;\n"),
    Lit("\tThreadControl 7, 0\n"),
    Lit("\tResetFlag 449\n"),
    Lit("\tFlagOnWait 453\n"),
    Lit("\t$W(1260) = 0;\n"),
    Lit("\t$W(1260) = 0;\n"),
    Lit("\tThreadControl 6, 0\n"),
    Lit("\t/CallFar 6, 47\n"),
    Lit("\t/CallFar 6, 49\n"),
    Lit("\t/CallFar 6, 845\n"),
    Lit("\t/CallFar 7, 1\n"),
    Lit("\t/CallFar 7, 7\n")])

  /** `IntermissionIn`, lib/ScriptPatcher.py:697-714 */
  const IntermissionIn := Template(Ignored, 2, 0, [
    Lit("\n"),
    Lit("\t$W(4400 + 10 * 1 + 0) = 0;\n"),
    Lit("\t$W(4400 + 10 * 1 + 1) = 0;\n"),
    Lit("\t$W(4400 + 10 * 1 + 2) = 99;\n"),
    Lit("\t$W(4400 + 10 * 1 + 3) = 0;\n"),
    Lit("\t$W(4400 + 10 * 1 + 4) = 0;\n"),
    Lit("\t$W(4400 + 10 * 1 + 5) = 0;\n"),
    Lit("\t$W(4400 + 10 * 1 + 6) = 0;\n"),
    Lit("\t$W(2786 + 1 * 1 + 0) = 0;\n"),
    Lit("\t$W(4400 + 10 * 1 + 0) = 0;\n"),
    Lit("\t$W(4400 + 10 * 1 + 1) = 0;\n"),
    Lit("\t$W(4400 + 10 * 1 + 2) = 90;\n"),
    Lit("\t/PlayMovieMask 49, 91, 1000\n"),
    Lit("\t/WaitMovie\n")])

  /** `IntermissionIn2`, lib/ScriptPatcher.py:717-733 */
  const IntermissionIn2 := Template(Ignored, 2, 0, [
    Lit("\n"),
    Lit("\t/Wait 500\n"),
    Lit("\t/PlayMovieMask 50, 91, 1000\n"),
    Lit("\t/Wait 300\n"),
    Lit("\t$W(4400 + 10 * 1 + 0) = 0;\n"),
    Lit("\t$W(4400 + 10 * 1 + 1) = 0;\n"),
    Lit("\t$W(4400 + 10 * 1 + 2) = 99;\n"),
    Lit("\t$W(4400 + 10 * 1 + 3) = 0;\n"),
    Lit("\t$W(4400 + 10 * 1 + 4) = 0;\n"),
    Lit("\t$W(4400 + 10 * 1 + 5) = 0;\n"),
    Lit("\t$W(4400 + 10 * 1 + 6) = 0;\n"),
    Lit("\t$W(2786 + 1 * 1 + 0) = 0;\n"),
    Lit("\t/WaitMovie\n")])

  /** `PlayMovie`, lib/ScriptPatcher.py:736-745 */
  const PlayMovie := Template(Fields(3), 0, 0, [
    Lit("\n"),
    Lit("\tSetFlag 2488\n"),
    Lit("\t$W(6338) = 0;\n"),
    Lit("\t$W(6330) = ("), Arg(1), Lit(");\n"),
    Lit("\tPlayMovie "), Arg(0), Lit(", 0\n"),
    Lit("\tFlagOnWait 1236\n"),
    Lit("\t$W(6338) = ("), Arg(2), Lit(") * 255 / 1000;\n")])

  /** `PlayMovieLoop`, lib/ScriptPatcher.py:748-757 */
  const PlayMovieLoop := Template(Fields(3), 0, 0, [
    Lit("\n"),
    Lit("\tSetFlag 2488\n"),
    Lit("\t$W(6338) = 0;\n"),
    Lit("\t$W(6330) = ("), Arg(1), Lit(");\n"),
    Lit("\tPlayMovieLoop "), Arg(0), Lit(", 0\n"),
    Lit("\tFlagOnWait 1236\n"),
    Lit("\t$W(6338) = ("), Arg(2), Lit(") * 255 / 1000;\n")])

  /** `PlayMovieMask`, lib/ScriptPatcher.py:760-769 */
  const PlayMovieMask := Template(Fields(3), 0, 0, [
    Lit("\n"),
    Lit("\tSetFlag 2488\n"),
    Lit("\t$W(6338) = 0;\n"),
    Lit("\t$W(6330) = ("), Arg(1), Lit(");\n"),
    Lit("\tPlayMovieMask "), Arg(0), Lit(", 0\n"),
    Lit("\tFlagOnWait 1236\n"),
    Lit("\t$W(6338) = ("), Arg(2), Lit(") * 255 / 1000;\n")])

  /** `WaitMovie`, lib/ScriptPatcher.py:772-786 */
  const WaitMovie := Template(Ignored, 2, 0, [
    Lit("\n"),
    Lit("\tFlagOffJump 1851, "), Label(1), Lit("\n"),
    Label(0), Lit(":\n"),
    Lit("\tWait 1\n"),
    Lit("\tKeyOnJump2 5, 1, "), Label(1), Lit("\n"),
    Lit("\tKeyOnJump2 6, 1, "), Label(1), Lit("\n"),
    Lit("\tFlagOnJump 1234, "), Label(1), Lit("\n"),
    Lit("\tFlagOffJump 1851, "), Label(1), Lit("\n"),
    Lit("\tJump "), Label(0), Lit("\n"),
    Label(1), Lit(":\n"),
    Lit("\t/EndMovie\n")])

  /** `EndMovie`, lib/ScriptPatcher.py:789-795 */
  const EndMovie := Template(Ignored, 0, 0, [
    Lit("\n"),
    Lit("\tEndMovie\n"),
    Lit("\t$W(6338) = 0;\n"),
    Lit("\t$W(6330) = 65535;\n"),
    Lit("\tResetFlag 2488\n")])

  /** `AsyncFadeMovie`, lib/ScriptPatcher.py:798-807 */
  const AsyncFadeMovie := Template(Fields(3), 0, 0, [
    Lit("\n"),
    Lit("\t$T(47) = ("), Arg(0), Lit(");\n"),
    Lit("\t$T(48) = ("), Arg(2), Lit(") * 255 / 1000;\n"),
    Lit("\t$T(49) = ("), Arg(1), Lit(") * 3 / 50;\n"),
    Lit("\t$T(50) = 6338;\n"),
    Lit("\tSetFlag 10 + ("), Arg(0), Lit(")\n"),
    Lit("\tCreateThread 6, 6, 1701\n")])

  /** `FadeMovie`, lib/ScriptPatcher.py:810-825 */
  const FadeMovie := Template(Fields(2), 2, 0, [
    Lit("\n"),
    Lit("\tIf ("), Arg(0), Lit(") <= 0, "), Label(1), Lit("\n"),
    Lit("\t$T(63) = ("), Arg(1), Lit(") * 255 / 1000 - $W(6338);\n"),
    Lit("\t$T(64) = 0;\n"),
    Label(0), Lit(":\n"),
    Lit("\t$T(64) += 1;\n"),
    Lit("\tCalcMove 6338, $T(63), $T(64), ("), Arg(0), Lit(") * 3 / 50\n"),
    Lit("\tMwait 1, 0\n"),
    Lit("\tIf $T(64) <= ("), Arg(0), Lit(") * 3 / 50, "), Label(0), Lit("\n"),
    Label(1), Lit(":\n"),
    Lit("\t$W(6338) = ("), Arg(1), Lit(") * 255 / 1000;\n")])

  /** `WaitVoice`, lib/ScriptPatcher.py:828-839 */
  const WaitVoice := Template(Ignored, 2, 0, [
    Lit("\n"),
    Label(0), Lit(":\n"),
    Lit("\tFlagOnJump 1234, "), Label(1), Lit("\n"),
    Lit("\tGetSystemStatus 1\n"),
    Lit("\tIf $T(7), "), Label(1), Lit("\n"),
    Lit("\tWait 1\n"),
    Lit("\tJump "), Label(0), Lit("\n"),
    Label(1), Lit(":\n")])

  /** `PlaySe`, lib/ScriptPatcher.py:842-853 */
  const PlaySe := Template(Fields(4), 1, 0, [
    Lit("\n"),
    Lit("\tFlagOnJump 2824, "), Label(0), Lit("\n"),
    Lit("\t/CallFar 6, 55\n"),
    Lit("\t/SetSeVolume "), Arg(2), Lit("\n"),
    Lit("\t$W(2191) = ("), Arg(1), Lit(") * 3 / 50;\n"),
    Lit("\tSEplay "), Arg(0), Lit(", "), Arg(3), Lit("\n"),
    Lit("\t/CallFar 6, 1049\n"),
    Label(0), Lit(":\n")])

  /** `WaitSe`, lib/ScriptPatcher.py:856-867 */
  const WaitSe := Template(Ignored, 2, 0, [
    Lit("\n"),
    Label(0), Lit(":\n"),
    Lit("\tFlagOnJump 1234, "), Label(1), Lit("\n"),
    Lit("\tGetSystemStatus 3\n"),
    Lit("\tIf $T(7), "), Label(1), Lit("\n"),
    Lit("\tWait 1\n"),
    Lit("\tJump "), Label(0), Lit("\n"),
    Label(1), Lit(":\n")])

  /** `SetSeVolume`, lib/ScriptPatcher.py:870-874 */
  const SetSeVolume := Template(Fields(1), 0, 0, [
    Lit("\n"),
    Lit("\t$W(4315) = ("), Arg(0), Lit(") / 10;\n")])

  /** `StopSe`, lib/ScriptPatcher.py:877-882 */
  const StopSe := Template(Fields(1), 0, 0, [
    Lit("\n"),
    Lit("\t$W(2191) = ("), Arg(0), Lit(") * 3 / 50;\n"),
    Lit("\tSEstop\n")])

  /** `PlaySe2`, lib/ScriptPatcher.py:885-896 */
  const PlaySe2 := Template(Fields(4), 1, 0, [
    Lit("\n"),
    Lit("\tFlagOnJump 2824, "), Label(0), Lit("\n"),
    Lit("\t/CallFar 6, 56\n"),
    Lit("\t/SetSe2Volume "), Arg(2), Lit("\n"),
    Lit("\t$W(2191) = ("), Arg(1), Lit(") * 3 / 50;\n"),
    Lit("\tSEplay2 "), Arg(0), Lit(", "), Arg(3), Lit("\n"),
    Lit("\t/CallFar 6, 1054\n"),
    Label(0), Lit(":\n")])

  /** `WaitSe2`, lib/ScriptPatcher.py:899-910 */
  const WaitSe2 := Template(Ignored, 2, 0, [
    Lit("\n"),
    Label(0), Lit(":\n"),
    Lit("\tFlagOnJump 1234, "), Label(1), Lit("\n"),
    Lit("\tGetSystemStatus 4\n"),
    Lit("\tIf $T(7), "), Label(1), Lit("\n"),
    Lit("\tWait 1\n"),
    Lit("\tJump "), Label(0), Lit("\n"),
    Label(1), Lit(":\n")])

  /** `SetSe2Volume`, lib/ScriptPatcher.py:913-917 */
  const SetSe2Volume := Template(Fields(1), 0, 0, [
    Lit("\n"),
    Lit("\t$W(4316) = ("), Arg(0), Lit(") / 10;\n")])

  /** `StopSe2`, lib/ScriptPatcher.py:920-925 */
  const StopSe2 := Template(Fields(1), 0, 0, [
    Lit("\n"),
    Lit("\t$W(2191) = ("), Arg(0), Lit(") * 3 / 50;\n"),
    Lit("\tSEstop2\n")])

  /** `PlaySe3`, lib/ScriptPatcher.py:928-939 */
  const PlaySe3 := Template(Fields(4), 1, 0, [
    Lit("\n"),
    Lit("\tFlagOnJump 2824, "), Label(0), Lit("\n"),
    Lit("\t/CallFar 6, 57\n"),
    Lit("\t/SetSe3Volume "), Arg(2), Lit("\n"),
    Lit("\t$W(2191) = ("), Arg(1), Lit(") * 3 / 50;\n"),
    Lit("\tSEplay3 "), Arg(0), Lit(", "), Arg(3), Lit("\n"),
    Lit("\t/CallFar 6, 1068\n"),
    Label(0), Lit(":\n")])

  /** `WaitSe3`, lib/ScriptPatcher.py:942-953 */
  const WaitSe3 := Template(Ignored, 2, 0, [
    Lit("\n"),
    Label(0), Lit(":\n"),
    Lit("\tFlagOnJump 1234, "), Label(1), Lit("\n"),
    Lit("\tGetSystemStatus 5\n"),
    Lit("\tIf $T(7), "), Label(1), Lit("\n"),
    Lit("\tWait 1\n"),
    Lit("\tJump "), Label(0), Lit("\n"),
    Label(1), Lit(":\n")])

  /** `SetSe3Volume`, lib/ScriptPatcher.py:956-960 */
  const SetSe3Volume := Template(Fields(1), 0, 0, [
    Lit("\n"),
    Lit("\t$W(4317) = ("), Arg(0), Lit(") / 10;\n")])

  /** `StopSe3`, lib/ScriptPatcher.py:963-968 */
  const StopSe3 := Template(Fields(1), 0, 0, [
    Lit("\n"),
    Lit("\t$W(2191) = ("), Arg(0), Lit(") * 3 / 50;\n"),
    Lit("\tSEstop3\n")])

  /** `StopBgm`, lib/ScriptPatcher.py:971-976 */
  const StopBgm := Template(Fields(1), 0, 0, [
    Lit("\n"),
    Lit("\t$W(2190) = ("), Arg(0), Lit(") * 3 / 50;\n"),
    Lit("\tBGMstop\n")])

  /** `ReleaseCha`, lib/ScriptPatcher.py:979-984 */
  const ReleaseCha := Template(Fields(1), 0, 0, [
    Lit("\n"),
    Lit("\t$T(47) = 256 << ("), Arg(0), Lit(") | 256 << ("), Arg(0), Lit(") + 4;\n"),
    Lit("\t/CallFar 6, 100\n")])

  /** `LoadCha`, lib/ScriptPatcher.py:987-1007 */
  const LoadCha := Template(Fields(4), 2, 0, [
    Lit("\n"),
    Lit("\t$W(("), Arg(0), Lit(") * 40 + 5110) = ("), Arg(2), Lit(");\n"),
    Lit("\t$T(47) = 256 << ("), Arg(0), Lit(") + 4;\n"),
    Lit("\t/CallFar 6, 100\n"),
    Lit("\tIf ("), Arg(1), Lit(") & 65535 < 692, "), Label(0), Lit("\n"),
    Lit("\tIf 707 < ("), Arg(1), Lit(") & 65535, "), Label(0), Lit("\n"),
    Lit("\tFlagOnJump 4008, "), Label(0), Lit("\n"),
    Lit("\tCHAloadAtlas 1 << ("), Arg(0), Lit(") + 4, ("), Arg(1), Lit(") + 2\n"),
    Lit("\tCharaLayerLoad\n"),
    Lit("\tJump "), Label(1), Lit("\n"),
    Label(0), Lit(":\n"),
    Lit("\tCHAloadAtlas 1 << ("), Arg(0), Lit(") + 4, "), Arg(1), Lit("\n"),
    Lit("\tCharaLayerLoad\n"),
    Label(1), Lit(":\n"),
    Lit("\t$W((("), Arg(0), Lit(") + 4) * 40 + 5100) = 640 + ("), Arg(3), Lit(");\n"),
    Lit("\t$W((("), Arg(0), Lit(") + 4) * 40 + 5101) = 420;\n")])

  /** `LoadChaAlpha`, lib/ScriptPatcher.py:1010-1015 */
  const LoadChaAlpha := Template(Fields(5), 0, 0, [
    Lit("\n"),
    Lit("\t/LoadCha "), Arg(0), Lit(", "), Arg(1), Lit(", "), Arg(2), Lit(", "), Arg(3), Lit("\n"),
    Lit("\t$W((("), Arg(0), Lit(") + 4) * 40 + 5107) = ("), Arg(4), Lit(") * 255 / 1000;\n")])

  /** `AsyncFadeCha`, lib/ScriptPatcher.py:1018-1028 */
  const AsyncFadeCha := Template(Fields(4), 0, 0, [
    Lit("\n"),
    Lit("\t$T(47) = ("), Arg(0), Lit(");\n"),
    Lit("\t$T(48) = ("), Arg(3), Lit(") * 255 / 1000;\n"),
    Lit("\t$T(49) = ("), Arg(2), Lit(") * 3 / 50;\n"),
    Lit("\t$T(50) = ("), Arg(1), Lit(") * 40 + 5107;\n"),
    Lit("\t$T(51) = ("), Arg(1), Lit(") * 10 + 2507;\n"),
    Lit("\tSetFlag 10 + ("), Arg(0), Lit(")\n"),
    Lit("\tCreateThread 6, 6, 1698\n")])

  /** `FadeCha`, lib/ScriptPatcher.py:1031-1047 */
  const FadeCha := Template(Fields(3), 2, 0, [
    Lit("\n"),
    Lit("\tIf ("), Arg(1), Lit(") <= 0, "), Label(1), Lit("\n"),
    Lit("\t$T(63) = ("), Arg(2), Lit(") * 255 / 1000 - $W(("), Arg(0), Lit(") * 40 + 5107);\n"),
    Lit("\t$T(64) = 0;\n"),
    Label(0), Lit(":\n"),
    Lit("\t$T(64) += 1;\n"),
    Lit("\tCalcMove ("), Arg(0), Lit(") * 10 + 2507, $T(63), $T(64), ("), Arg(1), Lit(") * 3 / 50\n"),
    Lit("\tMwait 1, 0\n"),
    Lit("\tIf $T(64) <= ("), Arg(1), Lit(") * 3 / 50, "), Label(0), Lit("\n"),
    Label(1), Lit(":\n"),
    Lit("\t$W(("), Arg(0), Lit(") * 40 + 5107) = ("), Arg(2), Lit(") * 255 / 1000;\n"),
    Lit("\t$W(("), Arg(0), Lit(") * 10 + 2507) = 0;\n")])

  /** `InCha`, lib/ScriptPatcher.py:1050-1057 */
  const InCha := Template(Fields(2), 0, 0, [
    Lit("\n"),
    Lit("\t$W(1022) = ("), Arg(1), Lit(") * 3 / 50;\n"),
    Lit("\tSetFlag 0\n"),
    Lit("\t$W(51) = 4096 << ("), Arg(0), Lit(");\n"),
    Lit("\t/CallFar 6, 343\n")])

  /** `OutCha`, lib/ScriptPatcher.py:1060-1067 */
  const OutCha := Template(Fields(2), 0, 0, [
    Lit("\n"),
    Lit("\tResetFlag 0\n"),
    Lit("\t$W(51) = 256 << ("), Arg(0), Lit(");\n"),
    Lit("\t$W(1022) = ("), Arg(1), Lit(") * 3 / 50;\n"),
    Lit("\t/CallFar 6, 351\n")])

  /** `AsyncMoveCha`, lib/ScriptPatcher.py:1070-1083 */
  const AsyncMoveCha := Template(Fields(5), 0, 0, [
    Lit("\n"),
    Lit("\t$T(47) = ("), Arg(0), Lit(");\n"),
    Lit("\t$T(48) = $W(("), Arg(1), Lit(") * 40 + 5100) + ("), Arg(3), Lit(");\n"),
    Lit("\t$T(49) = $W(("), Arg(1), Lit(") * 40 + 5101) + ("), Arg(4), Lit(");\n"),
    Lit("\t$T(50) = ("), Arg(2), Lit(") * 3 / 50;\n"),
    Lit("\t$T(51) = ("), Arg(1), Lit(") * 40 + 5100;\n"),
    Lit("\t$T(52) = ("), Arg(1), Lit(") * 40 + 5101;\n"),
    Lit("\t$T(53) = ("), Arg(1), Lit(") * 10 + 2500;\n"),
    Lit("\t$T(54) = ("), Arg(1), Lit(") * 10 + 2501;\n"),
    Lit("\tSetFlag 10 + ("), Arg(0), Lit(")\n"),
    Lit("\tCreateThread 6, 6, 1704\n")])

  /** `MoveCha`, lib/ScriptPatcher.py:1086-1104 */
  const MoveCha := Template(Fields(4), 2, 0, [
    Lit("\n"),
    Lit("\tIf ("), Arg(1), Lit(") <= 0, "), Label(1), Lit("\n"),
    Lit("\t$T(64) = 0;\n"),
    Label(0), Lit(":\n"),
    Lit("\t$T(64) += 1;\n"),
    Lit("\tCalcMove ("), Arg(0), Lit(") * 10 + 2500, ("), Arg(2), Lit("), $T(64), ("), Arg(1), Lit(") * 3 / 50\n"),
    Lit("\tCalcMove ("), Arg(0), Lit(") * 10 + 2501, ("), Arg(3), Lit("), $T(64), ("), Arg(1), Lit(") * 3 / 50\n"),
    Lit("\tMwait 1, 0\n"),
    Lit("\tIf $T(64) <= ("), Arg(1), Lit(") * 3 / 50, "), Label(0), Lit("\n"),
    Label(1), Lit(":\n"),
    Lit("\t$W(("), Arg(0), Lit(") * 40 + 5100) = $W(("), Arg(0), Lit(") * 40 + 5100) + ("), Arg(2), Lit(");\n"),
    Lit("\t$W(("), Arg(0), Lit(") * 40 + 5101) = $W(("), Arg(0), Lit(") * 40 + 5101) + ("), Arg(3), Lit(");\n"),
    Lit("\t$W(("), Arg(0), Lit(") * 10 + 2500) = 0;\n"),
    Lit("\t$W(("), Arg(0), Lit(") * 10 + 2501) = 0;\n")])

  /** `AsyncShakeCha`, lib/ScriptPatcher.py:1107-1120 */
  const AsyncShakeCha := Template(Fields(8), 0, 0, [
    Lit("\n"),
    Lit("\t$T(47) = ("), Arg(0), Lit(");\n"),
    Lit("\t$T(48) = ("), Arg(1), Lit(");\n"),
    Lit("\t$T(49) = ("), Arg(3), Lit(");\n"),
    Lit("\t$T(50) = ("), Arg(4), Lit(");\n"),
    Lit("\t$T(51) = ("), Arg(5), Lit(");\n"),
    Lit("\t$T(52) = ("), Arg(6), Lit(");\n"),
    Lit("\t$T(53) = ("), Arg(7), Lit(");\n"),
    Lit("\t$T(54) = ("), Arg(2), Lit(");\n"),
    Lit("\tSetFlag 10 + ("), Arg(0), Lit(")\n"),
    Lit("\tCreateThread 6, 7, 95\n")])

  /** `Await`, lib/ScriptPatcher.py:1123-1127 */
  const Await := Template(Whole, 0, 0, [
    Lit("\n"),
    Lit("\tFlagOnWait 19 + ("), Arg(0), Lit(")\n")])

  /**
   * `MACRO_TABLE.get(name)`: the handler registered under `name` by `@macro()`,
   * if any. Each test compares the length first only to keep proofs about a
   * lookup small.
   */
  function Lookup(name: string): (r: Option<Macro>)
    ensures r == Some(RegisterLine) <==> name == "Msb"
  {
    if |name| == 3 && name == "Msb" then Some(RegisterLine)
    else if |name| == 7 && name == "CallFar" then Some(CallFar)
    else if |name| == 7 && name == "NvlMode" then Some(NvlMode)
    else if |name| == 7 && name == "AdvMode" then Some(AdvMode)
    else if |name| == 22 && name == "SemitransparentNvlMode" then Some(SemitransparentNvlMode)
    else if |name| == 6 && name == "MesCls" then Some(MesCls)
    else if |name| == 8 && name == "MesMsbRA" then Some(MesMsbRA)
    else if |name| == 8 && name == "MesScxRA" then Some(MesScxRA)
    else if |name| == 6 && name == "MesMsb" then Some(MesMsb)
    else if |name| == 6 && name == "MesScx" then Some(MesScx)
    else if |name| == 10 && name == "Mes2VMsbRA" then Some(Mes2VMsbRA)
    else if |name| == 8 && name == "Mes2VMsb" then Some(Mes2VMsb)
    else if |name| == 7 && name == "MesSync" then Some(MesSync)
    else if |name| == 9 && name == "MesSMsbRA" then Some(MesSMsbRA)
    else if |name| == 7 && name == "MesSMsb" then Some(MesSMsb)
    else if |name| == 11 && name == "MesS2VMsbRA" then Some(MesS2VMsbRA)
    else if |name| == 9 && name == "MesS2VMsb" then Some(MesS2VMsb)
    else if |name| == 12 && name == "InitMesSync1" then Some(InitMesSync1)
    else if |name| == 13 && name == "ResetMesSync1" then Some(ResetMesSync1)
    else if |name| == 13 && name == "CloseMesSync1" then Some(CloseMesSync1)
    else if |name| == 3 && name == "Mes" then Some(Mes)
    else if |name| == 5 && name == "Mes2V" then Some(Mes2V)
    else if |name| == 9 && name == "SetRevMes" then Some(SetRevMes)
    else if |name| == 10 && name == "SetRevMesV" then Some(SetRevMesV)
    else if |name| == 10 && name == "CenterLog1" then Some(CenterLog1)
    else if |name| == 10 && name == "CenterLog2" then Some(CenterLog2)
    else if |name| == 10 && name == "CenterLog3" then Some(CenterLog3)
    else if |name| == 9 && name == "DeleteAll" then Some(DeleteAll)
    else if |name| == 19 && name == "MessWindowCloseWait" then Some(MessWindowCloseWait)
    else if |name| == 4 && name == "Wait" then Some(Wait)
    else if |name| == 10 && name == "MesWaitKey" then Some(MesWaitKey)
    else if |name| == 9 && name == "ReleaseBg" then Some(ReleaseBg)
    else if |name| == 11 && name == "LoadBgAlpha" then Some(LoadBgAlpha)
    else if |name| == 6 && name == "LoadBg" then Some(LoadBg)
    else if |name| == 11 && name == "LoadBgOnTop" then Some(LoadBgOnTop)
    else if |name| == 11 && name == "AsyncFadeBg" then Some(AsyncFadeBg)
    else if |name| == 6 && name == "FadeBg" then Some(FadeBg)
    else if |name| == 11 && name == "AsyncMoveBg" then Some(AsyncMoveBg)
    else if |name| == 6 && name == "MoveBg" then Some(MoveBg)
    else if |name| == 12 && name == "MoveBgNowait" then Some(MoveBgNowait)
    else if |name| == 6 && name == "SwapBg" then Some(SwapBg)
    else if |name| == 12 && name == "TransitionBg" then Some(TransitionBg)
    else if |name| == 11 && name == "CrossfadeBg" then Some(CrossfadeBg)
    else if |name| == 12 && name == "AsyncShakeBg" then Some(AsyncShakeBg)
    else if |name| == 8 && name == "ClearAll" then Some(ClearAll)
    else if |name| == 14 && name == "IntermissionIn" then Some(IntermissionIn)
    else if |name| == 15 && name == "IntermissionIn2" then Some(IntermissionIn2)
    else if |name| == 9 && name == "PlayMovie" then Some(PlayMovie)
    else if |name| == 13 && name == "PlayMovieLoop" then Some(PlayMovieLoop)
    else if |name| == 13 && name == "PlayMovieMask" then Some(PlayMovieMask)
    else if |name| == 9 && name == "WaitMovie" then Some(WaitMovie)
    else if |name| == 8 && name == "EndMovie" then Some(EndMovie)
    else if |name| == 14 && name == "AsyncFadeMovie" then Some(AsyncFadeMovie)
    else if |name| == 9 && name == "FadeMovie" then Some(FadeMovie)
    else if |name| == 9 && name == "WaitVoice" then Some(WaitVoice)
    else if |name| == 6 && name == "PlaySe" then Some(PlaySe)
    else if |name| == 6 && name == "WaitSe" then Some(WaitSe)
    else if |name| == 11 && name == "SetSeVolume" then Some(SetSeVolume)
    else if |name| == 6 && name == "StopSe" then Some(StopSe)
    else if |name| == 7 && name == "PlaySe2" then Some(PlaySe2)
    else if |name| == 7 && name == "WaitSe2" then Some(WaitSe2)
    else if |name| == 12 && name == "SetSe2Volume" then Some(SetSe2Volume)
    else if |name| == 7 && name == "StopSe2" then Some(StopSe2)
    else if |name| == 7 && name == "PlaySe3" then Some(PlaySe3)
    else if |name| == 7 && name == "WaitSe3" then Some(WaitSe3)
    else if |name| == 12 && name == "SetSe3Volume" then Some(SetSe3Volume)
    else if |name| == 7 && name == "StopSe3" then Some(StopSe3)
    else if |name| == 7 && name == "StopBgm" then Some(StopBgm)
    else if |name| == 10 && name == "ReleaseCha" then Some(ReleaseCha)
    else if |name| == 7 && name == "LoadCha" then Some(LoadCha)
    else if |name| == 12 && name == "LoadChaAlpha" then Some(LoadChaAlpha)
    else if |name| == 12 && name == "AsyncFadeCha" then Some(AsyncFadeCha)
    else if |name| == 7 && name == "FadeCha" then Some(FadeCha)
    else if |name| == 5 && name == "InCha" then Some(InCha)
    else if |name| == 6 && name == "OutCha" then Some(OutCha)
    else if |name| == 12 && name == "AsyncMoveCha" then Some(AsyncMoveCha)
    else if |name| == 7 && name == "MoveCha" then Some(MoveCha)
    else if |name| == 13 && name == "AsyncShakeCha" then Some(AsyncShakeCha)
    else if |name| == 5 && name == "Await" then Some(Await)
    else None
  }

  /** `MoveBgNowait` ends by invoking `/CallFarRL`, a name no handler is registered under. */
  lemma MoveBgNowaitCallsUnregistered()
    ensures Lookup("MoveBgNowait") == Some(MoveBgNowait)
    ensures Lit("\t/CallFarRL 6, 1547\n") in MoveBgNowait.body
    ensures Lookup("CallFarRL") == None
  {
  }
  /**
   * `MoveBgNowait` with its last line invoking the `CallFar` macro, as the
   * far calls of every other handler do.
   */
  const MoveBgNowaitFixed := Template(Fields(4), 0, 0, MoveBgNowait.body[..23] + [Lit("\t/CallFar 6, 1547\n")])

  /** The handler table the preprocessor runs with: `MACRO_TABLE` with `MoveBgNowait` corrected. */
  function Handler(name: string): (r: Option<Macro>)
    ensures name != "MoveBgNowait" ==> r == Lookup(name)
  {
    if |name| == 12 && name == "MoveBgNowait" then Some(MoveBgNowaitFixed) else Lookup(name)
  }

  /** The corrected `MoveBgNowait` differs only in its far call, which now names a registered handler. */
  lemma MoveBgNowaitFixedCallsRegistered()
    ensures Handler("MoveBgNowait") == Some(MoveBgNowaitFixed)
    ensures |MoveBgNowaitFixed.body| == |MoveBgNowait.body| == 24
    ensures MoveBgNowaitFixed.body[..23] == MoveBgNowait.body[..23]
    ensures MoveBgNowaitFixed.body[23] == Lit("\t/CallFar 6, 1547\n")
    ensures MoveBgNowait.body[23] == Lit("\t/CallFarRL 6, 1547\n")
    ensures Handler("CallFar") == Some(CallFar)
  {
  }
}

