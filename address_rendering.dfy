/**
 * `LocationHelper.getAddressString`: renders the first three lines of a
 * geocoded address into one string.
 *
 * The method keeps the source's loop over a string accumulator; the
 * function `Render` is its specification, and the lemmas below say what
 * `Render` produces: the present lines joined by ", ", except that empty
 * lines are not dropped (only those before the first non-empty line vanish).
 */
module AddressRendering {
  import opened Wrappers

  /** An `android.location.Address`: its numbered lines (an index with no
      entry reads as `null`) and the coordinates the geocoder found, which
      are taken to be always set. */
  datatype Address = Address(lines: map<nat, string>, latitude: real, longitude: real)

  const SEPARATOR: string := ", "

  /** Number of lines read: indexes 0, 1 and 2. */
  const LINES_READ: nat := 3

  /** `address.getAddressLine(i)`. */
  function AddressLine(a: Address, i: nat): Option<string> {
    if i in a.lines then Some(a.lines[i]) else None
  }

  /** Lines 0 .. n-1 of an address, in order, absent ones as `None`. */
  function ReadLines(a: Address, n: nat): (ls: seq<Option<string>>)
    ensures |ls| == n
    ensures forall i :: 0 <= i < n ==> ls[i] == AddressLine(a, i)
  {
    if n == 0 then [] else ReadLines(a, n - 1) + [AddressLine(a, n - 1)]
  }

  /** One turn of the loop: skip an absent line; before a present line
      write the separator only when something was already written. */
  function AppendLine(acc: string, line: Option<string>): string {
    match line
    case None => acc
    case Some(s) => if |acc| > 0 then acc + SEPARATOR + s else acc + s
  }

  /** What the loop has built after reading `ls`. */
  function RenderLines(ls: seq<Option<string>>): string {
    if ls == [] then "" else AppendLine(RenderLines(ls[..|ls| - 1]), ls[|ls| - 1])
  }

  /** The string `getAddressString` returns. */
  function Render(address: Option<Address>): string {
    match address
    case None => ""
    case Some(a) => RenderLines(ReadLines(a, LINES_READ))
  }

  /** `getAddressString`, written as the source's loop. */
  method GetAddressString(address: Option<Address>) returns (s: string)
    ensures s == Render(address)
  {
    if address.None? {
      return "";
    }
    var a := address.value;
    var sb := "";
    for i := 0 to LINES_READ
      invariant sb == RenderLines(ReadLines(a, i))
    {
      var line := AddressLine(a, i);
      if line.Some? {
        if |sb| > 0 {
          sb := sb + SEPARATOR;
        }
        sb := sb + line.value;
      }
      assert ReadLines(a, i + 1)[..i] == ReadLines(a, i);
    }
    s := sb;
  }

  // --- Reference definitions -------------------------------------------------

  /** The present lines of `ls`, in order. */
  function Present(ls: seq<Option<string>>): (ps: seq<string>)
    ensures |ps| <= |ls|
  {
    if ls == [] then []
    else Present(ls[..|ls| - 1]) + (match ls[|ls| - 1] case Some(s) => [s] case None => [])
  }

  /** The usual join: parts separated by ", ", nothing before or after. */
  function Join(parts: seq<string>): string {
    if |parts| == 0 then ""
    else if |parts| == 1 then parts[0]
    else Join(parts[..|parts| - 1]) + SEPARATOR + parts[|parts| - 1]
  }

  /** `parts` without its leading empty strings. */
  function DropLeadingEmpty(parts: seq<string>): (r: seq<string>)
    ensures r == [] || r[0] != ""
  {
    if parts == [] then []
    else if parts[0] == "" then DropLeadingEmpty(parts[1..])
    else parts
  }

  // --- Lemmas ----------------------------------------------------------------

  lemma {:induction false} JoinStartsWithFirst(parts: seq<string>)
    requires |parts| > 0
    ensures |Join(parts)| >= |parts[0]|
  {
    if |parts| > 1 {
      JoinStartsWithFirst(parts[..|parts| - 1]);
    }
  }

  lemma {:induction false} DropLeadingEmptySnoc(parts: seq<string>, s: string)
    ensures DropLeadingEmpty(parts + [s]) ==
      if DropLeadingEmpty(parts) == [] then (if s == "" then [] else [s])
      else DropLeadingEmpty(parts) + [s]
  {
    if parts == [] {
      assert parts + [s] == [s];
      assert [s][1..] == [];
    } else if parts[0] == "" {
      assert (parts + [s])[1..] == parts[1..] + [s];
      DropLeadingEmptySnoc(parts[1..], s);
    }
  }

  /** Every part is the empty string. */
  predicate AllEmpty(parts: seq<string>) {
    forall i :: 0 <= i < |parts| ==> parts[i] == ""
  }

  lemma {:induction false} DropLeadingEmptyIsEmpty(parts: seq<string>)
    ensures DropLeadingEmpty(parts) == [] <==> AllEmpty(parts)
  {
    if parts != [] && parts[0] == "" {
      DropLeadingEmptyIsEmpty(parts[1..]);
      assert forall i :: 1 <= i < |parts| ==> parts[i] == parts[1..][i - 1];
    }
  }

  /** What the loop builds, in closed form: the present lines joined by
      ", " once the leading empty ones are removed. Empty lines after the
      first non-empty one are kept, each with its separator. */
  lemma {:induction false} RenderLinesIsJoin(ls: seq<Option<string>>)
    ensures RenderLines(ls) == Join(DropLeadingEmpty(Present(ls)))
  {
    if ls != [] {
      var init, last := ls[..|ls| - 1], ls[|ls| - 1];
      RenderLinesIsJoin(init);
      var d := DropLeadingEmpty(Present(init));
      RenderLinesSnoc(init, last);
      assert ls == init + [last];
      match last
      case None =>
        assert Present(ls) == Present(init);
      case Some(s) =>
        assert Present(ls) == Present(init) + [s];
        DropLeadingEmptySnoc(Present(init), s);
        if d != [] {
          JoinStartsWithFirst(d);
          assert (d + [s])[..|d|] == d;
        }
    }
  }

  lemma RenderLinesSnoc(init: seq<Option<string>>, line: Option<string>)
    ensures RenderLines(init + [line]) == AppendLine(RenderLines(init), line)
  {
    assert (init + [line])[..|init|] == init;
  }

  /** A missing address renders as the empty string. */
  lemma NullAddressIsEmpty()
    ensures Render(None) == ""
  {
  }

  /** Only lines 0, 1 and 2 are read: addresses that agree on them render alike. */
  lemma OnlyFirstThreeLinesRead(a: Address, b: Address)
    requires forall i :: 0 <= i < LINES_READ ==> AddressLine(a, i) == AddressLine(b, i)
    ensures Render(Some(a)) == Render(Some(b))
  {
    assert ReadLines(a, LINES_READ) == ReadLines(b, LINES_READ);
  }

  /** When every present line among the first three is non-empty, the result
      is exactly those lines, in order, joined by ", ". */
  lemma RenderJoinsPresentLines(a: Address)
    requires forall i :: 0 <= i < LINES_READ && i in a.lines ==> a.lines[i] != ""
    ensures Render(Some(a)) == Join(Present(ReadLines(a, LINES_READ)))
  {
    var ls := ReadLines(a, LINES_READ);
    RenderLinesIsJoin(ls);
    PresentNonEmpty(ls);
    var p := Present(ls);
    assert p == [] || p[0] != "";
  }

  lemma {:induction false} PresentNonEmpty(ls: seq<Option<string>>)
    requires forall i :: 0 <= i < |ls| && ls[i].Some? ==> ls[i].value != ""
    ensures forall j :: 0 <= j < |Present(ls)| ==> Present(ls)[j] != ""
  {
    if ls != [] {
      PresentNonEmpty(ls[..|ls| - 1]);
    }
  }

  /** The result is empty exactly when no line among the first three is a
      non-empty string. */
  lemma RenderEmptyIff(a: Address)
    ensures Render(Some(a)) == "" <==> AllEmpty(Present(ReadLines(a, LINES_READ)))
  {
    var p := Present(ReadLines(a, LINES_READ));
    RenderLinesIsJoin(ReadLines(a, LINES_READ));
    DropLeadingEmptyIsEmpty(p);
    var d := DropLeadingEmpty(p);
    assert Render(Some(a)) == Join(d);
    if d != [] {
      JoinStartsWithFirst(d);
      assert |d[0]| > 0;
      assert Join(d) != "";
    }
  }

  /** `Render` as the loop's three turns over lines 0, 1 and 2. */
  lemma RenderThreeTurns(a: Address)
    ensures Render(Some(a)) ==
      AppendLine(AppendLine(AppendLine("", AddressLine(a, 0)), AddressLine(a, 1)), AddressLine(a, 2))
  {
    assert ReadLines(a, 1) == [] + [AddressLine(a, 0)];
    RenderLinesSnoc([], AddressLine(a, 0));
    RenderLinesSnoc(ReadLines(a, 1), AddressLine(a, 1));
    RenderLinesSnoc(ReadLines(a, 2), AddressLine(a, 2));
  }

  /** An absent middle line is skipped. */
  lemma MissingLineSkipped()
    ensures Render(Some(Address(map[0 := "A", 2 := "C"], 0.0, 0.0))) == "A, C"
  {
    var a := Address(map[0 := "A", 2 := "C"], 0.0, 0.0);
    RenderThreeTurns(a);
    assert AddressLine(a, 0) == Some("A");
    assert AddressLine(a, 1) == None;
    assert AddressLine(a, 2) == Some("C");
    assert "" + "A" == "A";
    assert "A" + SEPARATOR + "C" == "A, C";
  }

  /** An empty middle line is not skipped: it still gets its separator. */
  lemma EmptyLineKept()
    ensures Render(Some(Address(map[0 := "A", 1 := "", 2 := "C"], 0.0, 0.0))) == "A, , C"
  {
    var a := Address(map[0 := "A", 1 := "", 2 := "C"], 0.0, 0.0);
    RenderThreeTurns(a);
    assert AddressLine(a, 0) == Some("A");
    assert AddressLine(a, 1) == Some("");
    assert AddressLine(a, 2) == Some("C");
    assert "" + "A" == "A";
    assert "A" + SEPARATOR + "" == "A, ";
    assert "A, " + SEPARATOR + "C" == "A, , C";
  }

  /** An empty first line leaves nothing written, so no separator follows it. */
  lemma EmptyFirstLineAddsNoSeparator()
    ensures Render(Some(Address(map[0 := "", 1 := "B"], 0.0, 0.0))) == "B"
  {
    var a := Address(map[0 := "", 1 := "B"], 0.0, 0.0);
    RenderThreeTurns(a);
    assert AddressLine(a, 0) == Some("");
    assert AddressLine(a, 1) == Some("B");
    assert AddressLine(a, 2) == None;
    assert "" + "" == "";
    assert "" + "B" == "B";
  }
}
