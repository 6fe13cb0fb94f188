/** The Debian Policy (and Developer's Reference) plain-text document:
    its section index, found by scanning for headings underlined with
    `***`, `===` or `---`, and the extraction of one section by number.
    Downloading and reading the file are left to the caller: the model
    starts from the file's lines. */
module Policy {
  import opened Text

  const SepSection := "***"
  const SepSubsection := "==="
  const SepSubsubsection := "---"

  /** The stored document: every line with trailing whitespace removed. */
  function Document(raw: seq<string>): (lines: seq<string>)
    ensures |lines| == |raw|
    ensures forall i :: 0 <= i < |raw| ==> StartsWith(raw[i], lines[i])
    ensures forall i :: 0 <= i < |raw| && |lines[i]| > 0 ==> !IsSpace(lines[i][|lines[i]| - 1])
    ensures forall i :: 0 <= i < |raw| ==> |lines[i]| <= |raw[i]| && AllSpace(raw[i][|lines[i]|..])
  {
    seq(|raw|, i requires 0 <= i < |raw| => RStrip(raw[i]))
  }

  predicate IsSeparator(line: string) {
    StartsWith(line, SepSection) || StartsWith(line, SepSubsection) || StartsWith(line, SepSubsubsection)
  }

  /** The first space-separated token of a line. */
  function HeadingToken(line: string): string {
    Split(line, ' ')[0]
  }

  /** Line `i` underlines a numbered heading on line `i - 1`. */
  predicate IsIndexLine(lines: seq<string>, i: int) {
    1 <= i < |lines| && IsSeparator(lines[i]) && EndsWith(HeadingToken(lines[i - 1]), ".")
  }

  /** The section number a heading line carries, trailing dots removed. */
  function IndexOf(line: string): string {
    RStripChar(HeadingToken(line), '.')
  }

  /** Section numbers found on lines before `n`. */
  function IndexesUpTo(lines: seq<string>, n: nat): seq<string>
    requires n <= |lines|
  {
    if n <= 1 then []
    else IndexesUpTo(lines, n - 1) + (if IsIndexLine(lines, n - 1) then [IndexOf(lines[n - 2])] else [])
  }

  function Indexes(lines: seq<string>): seq<string> {
    IndexesUpTo(lines, |lines|)
  }

  /** The underline positions of the headings, in document order. */
  ghost function PositionsUpTo(lines: seq<string>, n: nat): seq<nat>
    requires n <= |lines|
  {
    if n <= 1 then []
    else PositionsUpTo(lines, n - 1) + (if IsIndexLine(lines, n - 1) then [n - 1] else [])
  }

  /** The index lists exactly the numbered headings, in document order:
      entry `j` comes from the `j`-th underline, underlines are strictly
      increasing, and every underlined numbered heading is listed. */
  lemma {:induction false} IndexesInDocumentOrder(lines: seq<string>, n: nat)
    requires n <= |lines|
    ensures var idx, pos := IndexesUpTo(lines, n), PositionsUpTo(lines, n);
      && |pos| == |idx|
      && (forall j :: 0 <= j < |pos| ==> pos[j] < n && IsIndexLine(lines, pos[j]) && idx[j] == IndexOf(lines[pos[j] - 1]))
      && (forall j, k :: 0 <= j < k < |pos| ==> pos[j] < pos[k])
      && (forall i :: 0 <= i < n && IsIndexLine(lines, i) ==> i in pos)
  {
    if n > 1 {
      IndexesInDocumentOrder(lines, n - 1);
    }
  }

  /** The underline that section numbers of a given depth use; a number
      with more than three components has none. */
  function Separator(index: string): (r: Result<string>)
    ensures r.Ok? <==> 1 <= |Split(index, '.')| <= 3
    ensures r.Err? ==> r.error == KeyError
    ensures |Split(index, '.')| == 1 ==> r == Ok(SepSection)
    ensures |Split(index, '.')| == 2 ==> r == Ok(SepSubsection)
    ensures |Split(index, '.')| == 3 ==> r == Ok(SepSubsubsection)
  {
    var n := |Split(index, '.')|;
    if n == 1 then Ok(SepSection)
    else if n == 2 then Ok(SepSubsection)
    else if n == 3 then Ok(SepSubsubsection)
    else Err(KeyError)
  }

  predicate IsHeadingOf(line: string, index: string) {
    StartsWith(line, index + ". ")
  }

  /** Line `i` is the underline of the heading of section `index`. */
  predicate IsStart(lines: seq<string>, sep: string, index: string, i: int) {
    1 <= i < |lines| && StartsWith(lines[i], sep) && IsHeadingOf(lines[i - 1], index)
  }

  /** The scan of `__getitem__` from line `i` on, with the previous line,
      the in-section flag and the lines collected so far. */
  function Scan(lines: seq<string>, sep: string, index: string, i: nat, prev: string, inRange: bool, ret: seq<string>): seq<string>
    requires i <= |lines|
    requires inRange ==> |ret| >= 1
    decreases |lines| - i
  {
    if i == |lines| then ret
    else
      var cur := lines[i];
      if StartsWith(cur, sep) && IsHeadingOf(prev, index) then
        Scan(lines, sep, index, i + 1, cur, true, ret + [prev, cur])
      else if StartsWith(cur, sep) && inRange then
        ret[..|ret| - 1]
      else if inRange then
        Scan(lines, sep, index, i + 1, cur, inRange, ret + [cur])
      else
        Scan(lines, sep, index, i + 1, cur, inRange, ret)
  }

  function SectionLines(lines: seq<string>, index: string): Result<seq<string>> {
    match Separator(index)
    case Err(e) => Err(e)
    case Ok(sep) => Ok(Scan(lines, sep, index, 0, "", false, []))
  }

  /** `policy[index]` for a section number given as text. */
  function Section(lines: seq<string>, index: string): Result<string> {
    match SectionLines(lines, index)
    case Err(e) => Err(e)
    case Ok(ls) => Ok(Join("\n", ls))
  }

  lemma {:induction false} ScanNothing(lines: seq<string>, sep: string, index: string, i: nat)
    requires i <= |lines|
    requires forall k :: i <= k < |lines| ==> !IsStart(lines, sep, index, k)
    ensures Scan(lines, sep, index, i, if i == 0 then "" else lines[i - 1], false, []) == []
    decreases |lines| - i
  {
    if i < |lines| {
      var prev := if i == 0 then "" else lines[i - 1];
      assert !(StartsWith(lines[i], sep) && IsHeadingOf(prev, index)) by {
        if i == 0 {
          assert !StartsWith("", index + ". ");
        } else {
          assert !IsStart(lines, sep, index, i);
        }
      }
      ScanNothing(lines, sep, index, i + 1);
    }
  }

  /** A section whose heading does not occur is empty. */
  lemma AbsentSectionIsEmpty(lines: seq<string>, index: string, sep: string)
    requires Separator(index) == Ok(sep)
    requires forall k :: 0 <= k < |lines| ==> !IsStart(lines, sep, index, k)
    ensures Section(lines, index) == Ok("")
  {
    ScanNothing(lines, sep, index, 0);
  }

  lemma {:induction false} ScanSkip(lines: seq<string>, sep: string, index: string, i: nat, i0: nat)
    requires i <= i0 < |lines| && 1 <= i0
    requires forall k :: i <= k < i0 ==> !IsStart(lines, sep, index, k)
    ensures Scan(lines, sep, index, i, if i == 0 then "" else lines[i - 1], false, [])
         == Scan(lines, sep, index, i0, lines[i0 - 1], false, [])
    decreases i0 - i
  {
    if i < i0 {
      var prev := if i == 0 then "" else lines[i - 1];
      assert !(StartsWith(lines[i], sep) && IsHeadingOf(prev, index)) by {
        if i == 0 {
          assert !StartsWith("", index + ". ");
        } else {
          assert !IsStart(lines, sep, index, i);
        }
      }
      ScanSkip(lines, sep, index, i + 1, i0);
    }
  }

  lemma {:induction false} ScanBody(lines: seq<string>, sep: string, index: string, i0: nat, k: nat, j: nat)
    requires 1 <= i0 < k <= j <= |lines|
    requires forall m :: i0 < m < j ==> !StartsWith(lines[m], sep)
    requires j < |lines| ==> StartsWith(lines[j], sep) && !IsHeadingOf(lines[j - 1], index)
    ensures Scan(lines, sep, index, k, lines[k - 1], true, lines[i0 - 1..k])
         == if j < |lines| then lines[i0 - 1..j - 1] else lines[i0 - 1..]
    decreases j - k
  {
    if k < j {
      assert lines[i0 - 1..k] + [lines[k]] == lines[i0 - 1..k + 1];
      ScanBody(lines, sep, index, i0, k + 1, j);
    } else if j < |lines| {
      assert lines[i0 - 1..j][..j - i0] == lines[i0 - 1..j - 1];
    } else {
      assert lines[i0 - 1..k] == lines[i0 - 1..];
    }
  }

  /** A found section is its heading line, its underline and the lines
      after them, up to but not including the heading of the next section
      of the same depth; or up to the end of the document when none
      follows. */
  lemma FoundSection(lines: seq<string>, index: string, sep: string, i0: nat, j: nat)
    requires Separator(index) == Ok(sep)
    requires IsStart(lines, sep, index, i0)
    requires forall k :: 0 <= k < i0 ==> !IsStart(lines, sep, index, k)
    requires i0 < j <= |lines|
    requires forall m :: i0 < m < j ==> !StartsWith(lines[m], sep)
    requires j < |lines| ==> StartsWith(lines[j], sep) && !IsHeadingOf(lines[j - 1], index)
    ensures SectionLines(lines, index) == Ok(if j < |lines| then lines[i0 - 1..j - 1] else lines[i0 - 1..])
    ensures j >= i0 + 2 || j == |lines| ==>
              SectionLines(lines, index).value[..2] == [lines[i0 - 1], lines[i0]]
  {
    ScanSkip(lines, sep, index, 0, i0);
    var first: seq<string> := [];
    assert first + [lines[i0 - 1], lines[i0]] == lines[i0 - 1..i0 + 1];
    assert Scan(lines, sep, index, i0, lines[i0 - 1], false, [])
        == Scan(lines, sep, index, i0 + 1, lines[i0], true, lines[i0 - 1..i0 + 1]);
    ScanBody(lines, sep, index, i0, i0 + 1, j);
  }

  /** The document text and its index, with the cursor of `iter()`. */
  class DebianPolicy {
    const lines: seq<string>
    const indexes: seq<string>
    var cursor: Option<nat>

    ghost predicate Valid()
      reads this
    {
      indexes == Indexes(lines)
    }

    constructor (raw: seq<string>)
      ensures Valid()
      ensures lines == Document(raw) && cursor == None
    {
      var ls := Document(raw);
      lines := ls;
      var idx := ScanIndexes(ls);
      indexes := idx;
      cursor := None;
    }

    /** The heading scan run once when the document is loaded. */
    static method ScanIndexes(lines: seq<string>) returns (ret: seq<string>)
      ensures ret == Indexes(lines)
    {
      ret := [];
      if |lines| == 0 {
        return;
      }
      var i := 1;
      while i < |lines|
        invariant 1 <= i <= |lines|
        invariant ret == IndexesUpTo(lines, i)
      {
        var cursor, previous := lines[i], lines[i - 1];
        if IsSeparator(cursor) {
          var index := HeadingToken(previous);
          if EndsWith(index, ".") {
            ret := ret + [RStripChar(index, '.')];
          }
        }
        i := i + 1;
      }
    }

    /** `len(policy)`: the number of indexed sections. */
    function Length(): (n: nat)
      reads this
      requires Valid()
      ensures n == |Indexes(lines)|
    {
      |indexes|
    }

    /** `str(policy)`: the stored lines joined by newlines, so that
        splitting it at newlines gives the lines back. */
    function ToString(): (s: string)
      ensures |lines| == 0 ==> s == ""
      ensures |lines| >= 1 && (forall i :: 0 <= i < |lines| ==> '\n' !in lines[i]) ==> Split(s, '\n') == lines
    {
      var s := Join("\n", lines);
      if |lines| >= 1 && forall i :: 0 <= i < |lines| ==> '\n' !in lines[i] then
        SplitJoin(lines, '\n');
        s
      else
        s
    }

    /** `policy[index]` for a section number as text. */
    method GetItem(index: string) returns (r: Result<string>)
      ensures r == Section(lines, index)
    {
      var sepR := Separator(index);
      if sepR.Err? {
        return Err(sepR.error);
      }
      var sep := sepR.value;
      var ret: seq<string> := [];
      var prev: string := "";
      var inRange := false;
      var i := 0;
      while i < |lines|
        invariant 0 <= i <= |lines|
        invariant inRange ==> |ret| >= 1
        invariant Scan(lines, sep, index, 0, "", false, []) == Scan(lines, sep, index, i, prev, inRange, ret)
      {
        var cursor := lines[i];
        if StartsWith(cursor, sep) && StartsWith(prev, index + ". ") {
          ret := ret + [prev, cursor];
          inRange := true;
        } else if StartsWith(cursor, sep) && inRange {
          ret := ret[..|ret| - 1];
          inRange := false;
          break;
        } else if inRange {
          ret := ret + [cursor];
        }
        prev := cursor;
        i := i + 1;
      }
      r := Ok(Join("\n", ret));
    }

    /** `policy[i]` for an integer: the section at position `i` of the
        index, counting from the end for negative `i`. */
    method GetItemAt(i: int) returns (r: Result<string>)
      requires Valid()
      ensures -|indexes| <= i < |indexes| ==>
                r == Section(lines, indexes[if i < 0 then i + |indexes| else i])
      ensures !(-|indexes| <= i < |indexes|) ==> r == Err(IndexError)
    {
      if !(-|indexes| <= i < |indexes|) {
        return Err(IndexError);
      }
      var section := indexes[if i < 0 then i + |indexes| else i];
      r := GetItem(section);
    }

    /** `iter(policy)`: rewinds the cursor. */
    method Iter()
      modifies this
      ensures cursor == Some(0)
    {
      cursor := Some(0);
    }

    /** `next(it)`: the next indexed section, or `None` for
        `StopIteration`; before `iter()` there is no cursor. */
    method Next() returns (r: Result<Option<string>>)
      requires Valid()
      modifies this
      ensures old(cursor).None? ==> r == Err(AttributeError) && cursor == old(cursor)
      ensures old(cursor).Some? && old(cursor).value < |indexes| ==>
                cursor == Some(old(cursor).value + 1)
                && r == match Section(lines, indexes[old(cursor).value])
                        case Ok(s) => Ok(Some(s))
                        case Err(e) => Err(e)
      ensures old(cursor).Some? && old(cursor).value >= |indexes| ==>
                r == Ok(None) && cursor == old(cursor)
    {
      if cursor.None? {
        return Err(AttributeError);
      }
      var c := cursor.value;
      if c < |indexes| {
        var section := indexes[c];
        cursor := Some(c + 1);
        var s := GetItem(section);
        r := match s case Ok(v) => Ok(Some(v)) case Err(e) => Err(e);
      } else {
        r := Ok(None);
      }
    }

    /** `[text for text in policy]`: iterating visits every indexed
        section once, in index order, and stops after `len(policy)`. */
    method AllSections() returns (r: Result<seq<string>>)
      requires Valid()
      modifies this
      ensures r.Ok? ==> |r.value| == |indexes|
      ensures r.Ok? ==> forall k :: 0 <= k < |indexes| ==> Section(lines, indexes[k]) == Ok(r.value[k])
      ensures r.Err? ==> exists k :: 0 <= k < |indexes| && Section(lines, indexes[k]).Err?
    {
      Iter();
      var acc: seq<string> := [];
      while true
        invariant Valid()
        invariant cursor.Some? && cursor.value == |acc| <= |indexes|
        invariant forall k :: 0 <= k < |acc| ==> Section(lines, indexes[k]) == Ok(acc[k])
        decreases |indexes| - |acc|
      {
        var n := Next();
        match n {
          case Err(e) =>
            return Err(e);
          case Ok(None) =>
            return Ok(acc);
          case Ok(Some(s)) =>
            acc := acc + [s];
        }
      }
    }
  }
}
