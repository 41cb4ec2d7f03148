/**
 * Concrete expansions through the handler table: what becomes of the far
 * call at the end of `MoveBgNowait` with the table as written and with the
 * corrected table.
 */
module MacroFacts {
  import opened Wrappers
  import opened PyText
  import opened MacroTable
  import opened Preprocess

  lemma InsertedTail()
    ensures Inserted(["\t/CallFarRL 6, 1547"]) == ["+\t\t/CallFarRL 6, 1547"]
  {
    var l := "\t/CallFarRL 6, 1547";
    assert !IsSpace(l[|l| - 1]);
    assert RStrip(l) == l;
    assert Inserted([l][1..]) == [];
    assert "+\t" + l == "+\t\t/CallFarRL 6, 1547";
  }

  /** An inserted line made from a tab and a `/` invocation is itself a macro line, with the same invocation. */
  lemma TailIsMacroLine(w: string)
    requires w == [] || !IsSpace(w[0])
    ensures IsMacroLine("+\t\t/" + w) && MacroText("+\t\t/" + w) == w
  {
    var s := "+\t\t/" + w;
    var t := "/" + w;
    assert s[1..] == ['\t'] + (['\t'] + t);
    BlankLStrip('\t', ['\t'] + t);
    BlankLStrip('\t', t);
    assert LStrip(t) == t;
    assert t[1..] == w;
  }

  /** A leading blank is dropped by `LStrip`. */
  lemma BlankLStrip(c: char, s: string)
    requires IsSpace(c)
    ensures LStrip([c] + s) == LStrip(s)
  {
    assert ([c] + s)[1..] == s;
  }

  /** A word, one blank and an argument text that does not start with a blank split into that word and that text. */
  lemma SplitWordBlank(w: string, a: string)
    requires w != [] && forall i :: 0 <= i < |w| ==> !IsSpace(w[i])
    requires a == [] || !IsSpace(a[0])
    ensures SplitFirstWord(w + " " + a) == Some((w, a))
  {
    var s := w + " " + a;
    assert s[0] == w[0];
    assert LStrip(s) == s;
    var k := WordEnd(s);
    assert s[|w|] == ' ';
    assert forall i :: 0 <= i < |w| ==> s[i] == w[i];
    assert k == |w|;
    assert s[..k] == w;
    assert s[k..] == " " + a;
    assert LStrip(" " + a) == a by {
      assert (" " + a)[1..] == a;
    }
  }

  lemma SplitCallFarRL()
    ensures SplitFirstWord("CallFarRL 6, 1547") == Some(("CallFarRL", "6, 1547"))
  {
    assert "CallFarRL 6, 1547" == "CallFarRL" + " " + "6, 1547";
    SplitWordBlank("CallFarRL", "6, 1547");
  }

  /** With the table as written the far call at the end of `MoveBgNowait` names no handler. */
  lemma CallFarRLUnrecognized(block: string, labels: nat, ras: nat, t: MstTables)
    requires TablesValid(t)
    ensures ExpandMacro(Lookup, block, labels, ras, t, "CallFarRL 6, 1547") == Err(UnrecognizedMacro("CallFarRL"))
  {
    SplitCallFarRL();
    MoveBgNowaitCallsUnregistered();
  }
}
