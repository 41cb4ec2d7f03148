/**
 * The text formats of the line tables (lib/utils.py): plain line lists,
 * `.cls` name lists and `.mst` message tables, whose lines read
 * `index:text`. File access itself is not modelled: every function here
 * works on the decoded file contents.
 */
module MstFiles {
  import opened Wrappers
  import opened PyText
  import opened OrderedDict
  import opened Sorting

  /** What reading a file as `utf-8-sig` does beyond decoding: a leading byte-order mark is dropped. */
  function LoadText(contents: string): (r: string)
    ensures StartsWith(contents, "\U{FEFF}") ==> r == contents[1..]
    ensures !StartsWith(contents, "\U{FEFF}") ==> r == contents
  {
    if |contents| > 0 && contents[0] == '\U{FEFF}' then contents[1..] else contents
  }

  /** `load_lines`: the lines of a file, split as `str.splitlines` does. */
  function LoadLines(contents: string): seq<string> {
    SplitLines(LoadText(contents))
  }

  /** `save_lines`: every line followed by a newline. */
  function SaveLines(lines: seq<string>): (r: string)
    ensures r == [] <==> lines == []
    ensures (forall k :: 0 <= k < |lines| ==> NoLineBreak(lines[k])) && (lines == [] || lines[0] == [] || lines[0][0] != '\U{FEFF}')
      ==> LoadLines(r) == lines
  {
    if (forall k :: 0 <= k < |lines| ==> NoLineBreak(lines[k])) then
      SplitLinesTerminated(lines);
      Terminated(lines)
    else
      Terminated(lines)
  }

  /** `load_cls`: line i of the file under key i, keys in line order. */
  function LoadCls(contents: string): (r: Dict<int, string>)
    ensures Valid(r)
    ensures |r.keys| == |LoadLines(contents)|
    ensures forall i :: 0 <= i < |r.keys| ==> r.keys[i] == i && r.vals[i] == LoadLines(contents)[i]
  {
    var names := LoadLines(contents);
    var r := Dict(seq(|names|, i => i), map i | 0 <= i < |names| :: names[i]);
    assert forall i :: 0 <= i < |names| ==> r.keys[i] == i;
    assert forall k :: k in r.vals ==> r.keys[k] == k;
    r
  }

  /** The keys of a message table in ascending order. */
  function SortedIndices(d: Dict<int, string>): (r: seq<int>)
    requires Valid(d)
    ensures multiset(r) == multiset(d.keys)
    ensures forall i :: 0 <= i < |r| ==> r[i] in d.vals
    ensures forall k :: k in d.vals ==> k in r
    ensures forall i, j :: 0 <= i < j < |r| ==> r[i] < r[j]
  {
    var r := SortBy(d.keys, (a: int, b: int) => a <= b);
    SortBySorted(d.keys, (a: int, b: int) => a <= b);
    DistinctSameElements(d.keys, r);
    assert forall k :: k in r <==> k in d.keys by {
      forall k ensures k in r <==> k in d.keys { assert k in r <==> k in multiset(d.keys); }
    }
    r
  }

  lemma DistinctSameElements(a: seq<int>, b: seq<int>)
    requires Distinct(a) && multiset(a) == multiset(b)
    ensures Distinct(b)
  {
    forall i, j | 0 <= i < j < |b| ensures b[i] != b[j] {
      if b[i] == b[j] {
        assert multiset(b)[b[i]] >= 2 by {
          assert b == b[..i] + [b[i]] + b[i + 1..];
          assert b[j] in b[i + 1..];
        }
        DistinctCount(a, b[i]);
      }
    }
  }

  lemma DistinctCount(a: seq<int>, x: int)
    requires Distinct(a)
    ensures multiset(a)[x] <= 1
  {
    if a != [] {
      assert a == [a[0]] + a[1..];
      DistinctCount(a[1..], x);
    }
  }

  /** The line of a message table for one entry: `index:text`. */
  function EntryLine(index: int, text: string): string {
    IntToStr(index) + ":" + text
  }

  /** The lines `save_mst` writes for the given keys, in the order given. */
  function EntryLines(ks: seq<int>, vals: map<int, string>): (r: seq<string>)
    requires forall i :: 0 <= i < |ks| ==> ks[i] in vals
    ensures |r| == |ks|
    ensures forall i :: 0 <= i < |ks| ==> r[i] == EntryLine(ks[i], vals[ks[i]])
  {
    seq(|ks|, i requires 0 <= i < |ks| => EntryLine(ks[i], vals[ks[i]]))
  }

  /** `save_mst`: one `index:text` line per entry, by ascending index, each newline-terminated. */
  function SaveMst(d: Dict<int, string>): (r: string)
    requires Valid(d)
    ensures r == [] <==> d.keys == []
  {
    var ks := SortedIndices(d);
    assert |ks| == |multiset(ks)| == |multiset(d.keys)| == |d.keys|;
    SaveLines(EntryLines(ks, d.vals))
  }

  datatype MstError = MissingColon(line: string) | BadIndex(prefix: string) | DuplicateIndex(index: int)

  /** One line of a message table: the index before the first colon and the text after it. */
  function ParseEntry(line: string): (r: Result<(int, string), MstError>)
    ensures r.Err? <==> ':' !in line || ParseInt(BeforeFirst(line, ':')).None?
    ensures ':' !in line ==> r == Err(MissingColon(line))
  {
    match SplitOnce(line, ':')
    case None => Err(MissingColon(line))
    case Some((prefix, text)) =>
      SplitOnceBefore(line, ':');
      match ParseInt(prefix)
      case None => Err(BadIndex(prefix))
      case Some(index) => Ok((index, text))
  }

  /** The part before the split is the text before the first separator. */
  lemma SplitOnceBefore(s: string, c: char)
    requires c in s
    ensures SplitOnce(s, c).value.0 == BeforeFirst(s, c)
  {
    var p := SplitOnce(s, c).value;
    var b := BeforeFirst(s, c);
    assert s == p.0 + [c] + p.1;
    assert StartsWith(s, b);
  }

  /** A line that `save_mst` writes parses back to its entry. */
  lemma ParseEntryLine(index: int, text: string)
    ensures ParseEntry(EntryLine(index, text)) == Ok((index, text))
  {
    var s := EntryLine(index, text);
    var digits := IntToStr(index);
    IntToStrPlain(index);
    assert ':' !in digits;
    assert s[|digits|] == ':';
    var p := SplitOnce(s, ':').value;
    assert p.0 + [':'] + p.1 == digits + [':'] + text;
    assert p.0 == digits;
    assert p.1 == text by {
      assert s[|digits| + 1..] == text;
      assert (p.0 + [':'] + p.1)[|digits| + 1..] == p.1;
    }
    IntToStrRoundTrip(index);
  }

  /** The outcome of parsing each line of a message table, in line order. */
  function Parsed(lines: seq<string>): (r: seq<Result<(int, string), MstError>>)
    ensures |r| == |lines|
    ensures forall i :: 0 <= i < |lines| ==> r[i] == ParseEntry(lines[i])
  {
    seq(|lines|, i requires 0 <= i < |lines| => ParseEntry(lines[i]))
  }

  /** Every line parsed and no two lines share an index. */
  predicate WellFormed(es: seq<Result<(int, string), MstError>>) {
    (forall i :: 0 <= i < |es| ==> es[i].Ok?)
    && (forall i, j :: 0 <= i < j < |es| ==> es[i].value.0 != es[j].value.0)
  }

  /**
   * The table built from parsed lines, first to last: the first line that did
   * not parse, or whose index is already taken, is the error.
   */
  function Collect(es: seq<Result<(int, string), MstError>>): (r: Result<Dict<int, string>, MstError>)
    ensures r.Ok? ==> Valid(r.value) && |r.value.keys| == |es|
    ensures r.Ok? ==> forall i :: 0 <= i < |es| ==> es[i].Ok? && r.value.keys[i] == es[i].value.0
    ensures r.Ok? ==> forall i :: 0 <= i < |es| ==> r.value.vals[r.value.keys[i]] == es[i].value.1
  {
    if es == [] then Ok(Empty())
    else
      var init := es[..|es| - 1];
      match Collect(init)
      case Err(e) => Err(e)
      case Ok(d) =>
        match es[|es| - 1]
        case Err(e) => Err(e)
        case Ok((index, text)) =>
          if index in d.vals then Err(DuplicateIndex(index))
          else
            CollectStep(es, d, index, text);
            Ok(Set(d, index, text))
  }

  /** Adding the entry of the last line to the table of the lines before it. */
  lemma CollectStep(es: seq<Result<(int, string), MstError>>, d: Dict<int, string>, index: int, text: string)
    requires es != [] && es[|es| - 1] == Ok((index, text)) && index !in d.vals
    requires Valid(d) && |d.keys| == |es| - 1
    requires forall i :: 0 <= i < |es| - 1 ==> es[i].Ok? && d.keys[i] == es[i].value.0
    requires forall i :: 0 <= i < |es| - 1 ==> d.vals[d.keys[i]] == es[i].value.1
    ensures Valid(Set(d, index, text)) && |Set(d, index, text).keys| == |es|
    ensures forall i :: 0 <= i < |es| ==> es[i].Ok? && Set(d, index, text).keys[i] == es[i].value.0
    ensures forall i :: 0 <= i < |es| ==> Set(d, index, text).vals[Set(d, index, text).keys[i]] == es[i].value.1
  {
    var r := Set(d, index, text);
    assert forall i :: 0 <= i < |es| - 1 ==> r.keys[i] == d.keys[i] && d.keys[i] != index;
  }

  /** Building the table succeeds exactly when every line parsed and no index repeats. */
  lemma {:induction false} CollectOk(es: seq<Result<(int, string), MstError>>)
    ensures Collect(es).Ok? <==> WellFormed(es)
  {
    if es != [] {
      var init := es[..|es| - 1];
      var last := es[|es| - 1];
      CollectOk(init);
      assert forall i :: 0 <= i < |init| ==> es[i] == init[i];
      if Collect(init).Ok? && last.Ok? {
        var d := Collect(init).value;
        if last.value.0 in d.vals {
          var i :| 0 <= i < |d.keys| && d.keys[i] == last.value.0;
          assert es[i].value.0 == es[|es| - 1].value.0;
        } else {
          assert forall i :: 0 <= i < |init| ==> d.keys[i] in d.vals;
        }
      } else if Collect(init).Err? && WellFormed(es) {
        assert WellFormed(init);
      }
    }
  }

  lemma CollectSnoc(es: seq<Result<(int, string), MstError>>, n: nat)
    requires n < |es| && Collect(es[..n]).Ok?
    ensures es[n].Err? ==> Collect(es[..n + 1]) == Err(es[n].error)
    ensures es[n].Ok? && es[n].value.0 in Collect(es[..n]).value.vals
      ==> Collect(es[..n + 1]) == Err(DuplicateIndex(es[n].value.0))
    ensures es[n].Ok? && es[n].value.0 !in Collect(es[..n]).value.vals
      ==> Collect(es[..n + 1]) == Ok(Set(Collect(es[..n]).value, es[n].value.0, es[n].value.1))
  {
    assert es[..n + 1][..n] == es[..n];
  }

  /** Once building the table has failed, later lines change nothing: the first error is reported. */
  lemma {:induction false} CollectFirstError(es: seq<Result<(int, string), MstError>>, n: nat, m: nat)
    requires n <= m <= |es| && Collect(es[..n]).Err?
    ensures Collect(es[..m]) == Collect(es[..n])
    decreases m
  {
    if m > n {
      CollectFirstError(es, n, m - 1);
      assert es[..m][..m - 1] == es[..m - 1];
    }
  }

  /** An error after the first n lines is the error of the whole table. */
  lemma FirstErrorIsFinal(es: seq<Result<(int, string), MstError>>, n: nat)
    requires n <= |es| && Collect(es[..n]).Err?
    ensures Collect(es) == Collect(es[..n])
  {
    CollectFirstError(es, n, |es|);
    assert es[..|es|] == es;
  }

  /** The table `load_mst` builds from the lines of a file. */
  function ParseEntries(lines: seq<string>): (r: Result<Dict<int, string>, MstError>)
    ensures r.Ok? <==> WellFormed(Parsed(lines))
    ensures r.Ok? ==> Valid(r.value) && |r.value.keys| == |lines|
    ensures r.Ok? ==> forall i :: 0 <= i < |lines| ==>
      ParseEntry(lines[i]) == Ok((r.value.keys[i], r.value.vals[r.value.keys[i]]))
  {
    CollectOk(Parsed(lines));
    Collect(Parsed(lines))
  }

  /** A repeated index makes loading fail, whatever the texts. */
  lemma DuplicateRejected(lines: seq<string>, i: nat, j: nat)
    requires i < j < |lines| && ParseEntry(lines[i]).Ok? && ParseEntry(lines[j]).Ok?
    requires ParseEntry(lines[i]).value.0 == ParseEntry(lines[j]).value.0
    ensures ParseEntries(lines).Err?
  {
    assert Parsed(lines)[i] == ParseEntry(lines[i]) && Parsed(lines)[j] == ParseEntry(lines[j]);
  }

  /** `load_mst`: reads a message table, rejecting a line without a colon, a bad index and a repeated index. */
  method LoadMst(contents: string) returns (r: Result<Dict<int, string>, MstError>)
    ensures r == ParseEntries(LoadLines(contents))
  {
    var lines := LoadLines(contents);
    r := ReadEntries(lines);
  }

  /** The loop of `load_mst` over the lines of the file. */
  method ReadEntries(lines: seq<string>) returns (r: Result<Dict<int, string>, MstError>)
    ensures r == ParseEntries(lines)
  {
    ghost var es := Parsed(lines);
    var entries: Dict<int, string> := Empty();
    var i := 0;
    while i < |lines|
      invariant 0 <= i <= |lines|
      invariant Collect(es[..i]) == Ok(entries)
    {
      var parsed := ParseEntry(lines[i]);
      assert es[i] == parsed;
      if parsed.Err? {
        assert Collect(es[..i + 1]) == Err(parsed.error) by { CollectSnoc(es, i); }
        FirstErrorIsFinal(es, i + 1);
        return Err(parsed.error);
      }
      var (index, text) := parsed.value;
      if index in entries.vals {
        assert Collect(es[..i + 1]) == Err(DuplicateIndex(index)) by { CollectSnoc(es, i); }
        FirstErrorIsFinal(es, i + 1);
        return Err(DuplicateIndex(index));
      }
      assert Collect(es[..i + 1]) == Ok(Set(entries, index, text)) by { CollectSnoc(es, i); }
      entries := Set(entries, index, text);
      i := i + 1;
    }
    assert es[..i] == es;
    return Ok(entries);
  }

  /** The parsed lines of a table that holds exactly the given keys, in order. */
  function OkEntries(ks: seq<int>, vals: map<int, string>): (r: seq<Result<(int, string), MstError>>)
    requires forall i :: 0 <= i < |ks| ==> ks[i] in vals
    ensures |r| == |ks| && forall i :: 0 <= i < |ks| ==> r[i] == Ok((ks[i], vals[ks[i]]))
  {
    seq(|ks|, i requires 0 <= i < |ks| => Ok((ks[i], vals[ks[i]])))
  }

  /** Lines with distinct indices build the table of exactly those entries, in line order. */
  lemma CollectOkEntries(ks: seq<int>, vals: map<int, string>)
    requires Distinct(ks) && forall i :: 0 <= i < |ks| ==> ks[i] in vals
    ensures Collect(OkEntries(ks, vals)).Ok?
    ensures Collect(OkEntries(ks, vals)).value.keys == ks
    ensures forall i :: 0 <= i < |ks| ==> Collect(OkEntries(ks, vals)).value.vals[ks[i]] == vals[ks[i]]
  {
    CollectOk(OkEntries(ks, vals));
  }

  /** Loading the lines `save_mst` writes: they come back one per entry, in ascending order. */
  lemma SaveMstLines(d: Dict<int, string>)
    requires Valid(d)
    requires forall k :: k in d.vals ==> NoLineBreak(d.vals[k])
    ensures LoadLines(SaveMst(d)) == EntryLines(SortedIndices(d), d.vals)
  {
    LinesOfTable(SortedIndices(d), d.vals);
  }

  lemma ParsedEntryLines(ks: seq<int>, vals: map<int, string>)
    requires forall i :: 0 <= i < |ks| ==> ks[i] in vals
    ensures Parsed(EntryLines(ks, vals)) == OkEntries(ks, vals)
  {
    var lines := EntryLines(ks, vals);
    forall i | 0 <= i < |lines| ensures Parsed(lines)[i] == OkEntries(ks, vals)[i] {
      ParseEntryLine(ks[i], vals[ks[i]]);
    }
  }

  /** Lines written for distinct keys load back as exactly those entries, in the same order. */
  lemma ParseEntryLines(ks: seq<int>, vals: map<int, string>)
    requires Distinct(ks) && forall i :: 0 <= i < |ks| ==> ks[i] in vals
    ensures ParseEntries(EntryLines(ks, vals)).Ok?
    ensures ParseEntries(EntryLines(ks, vals)).value.keys == ks
    ensures forall i :: 0 <= i < |ks| ==> ParseEntries(EntryLines(ks, vals)).value.vals[ks[i]] == vals[ks[i]]
  {
    ParsedEntryLines(ks, vals);
    CollectOkEntries(ks, vals);
  }

  /** The lines written for a whole table, in ascending order, load back as that table. */
  lemma ParseTableLines(d: Dict<int, string>)
    requires Valid(d)
    ensures ParseEntries(EntryLines(SortedIndices(d), d.vals)).Ok?
    ensures ParseEntries(EntryLines(SortedIndices(d), d.vals)).value.vals == d.vals
    ensures ParseEntries(EntryLines(SortedIndices(d), d.vals)).value.keys == SortedIndices(d)
  {
    var ks := SortedIndices(d);
    ParseEntryLines(ks, d.vals);
    SameEntries(ParseEntries(EntryLines(ks, d.vals)).value, d, ks);
  }

  /** Two tables over the same keys that agree on every key hold the same entries. */
  lemma SameEntries(r: Dict<int, string>, d: Dict<int, string>, ks: seq<int>)
    requires Valid(r) && Valid(d) && r.keys == ks
    requires forall k :: k in d.vals ==> k in ks
    requires forall i :: 0 <= i < |ks| ==> ks[i] in d.vals && r.vals[ks[i]] == d.vals[ks[i]]
    ensures r.vals == d.vals
  {
    forall k | k in d.vals ensures k in r.vals && r.vals[k] == d.vals[k] {
      var i :| 0 <= i < |ks| && ks[i] == k;
    }
    forall k | k in r.vals ensures k in d.vals {
      assert k in r.keys;
    }
  }

  /**
   * Saving a table and loading it back gives the same entries, keyed in
   * ascending order, when no text holds a line break.
   */
  lemma MstRoundTrip(d: Dict<int, string>)
    requires Valid(d)
    requires forall k :: k in d.vals ==> NoLineBreak(d.vals[k])
    ensures ParseEntries(LoadLines(SaveMst(d))).Ok?
    ensures ParseEntries(LoadLines(SaveMst(d))).value.vals == d.vals
    ensures ParseEntries(LoadLines(SaveMst(d))).value.keys == SortedIndices(d)
  {
    SaveMstLines(d);
    ParseTableLines(d);
  }

  /** The lines `save_mst` writes hold no line break, and the first starts with a digit or a sign. */
  lemma LinesOfTable(ks: seq<int>, vals: map<int, string>)
    requires forall i :: 0 <= i < |ks| ==> ks[i] in vals
    requires forall k :: k in vals ==> NoLineBreak(vals[k])
    ensures var lines := EntryLines(ks, vals);
      (forall i :: 0 <= i < |lines| ==> NoLineBreak(lines[i])) && (lines == [] || lines[0] == [] || lines[0][0] != '\U{FEFF}')
  {
    var lines := EntryLines(ks, vals);
    forall i | 0 <= i < |lines| ensures NoLineBreak(lines[i]) {
      IntToStrPlain(ks[i]);
      assert lines[i] == IntToStr(ks[i]) + ":" + vals[ks[i]];
    }
    if lines != [] {
      assert lines[0][0] == IntToStr(ks[0])[0];
    }
  }
}
