/**
  The train card of the search results: prices with their digits grouped in
  threes, the travel time, and the names of the wagon types.
 */
module TrainCard {
  import opened Text
  import opened ApiData
  import Api
  import TransformData
  import SeatSelection

  // ---------------------------------------------------------------------
  // formatPrice
  // ---------------------------------------------------------------------

  /** The spacing of a run of digits that follows the first digit: a space
      goes before each digit whose distance from the end, itself included,
      is a multiple of three. */
  function Spaced(t: string): (r: string)
    ensures |r| >= |t|
  {
    if |t| == 0 then []
    else (if |t| % 3 == 0 then " " else "") + [t[0]] + Spaced(t[1..])
  }

  /** The regular-expression replacement of `formatPrice` on a run of
      digits: a space at every inner position followed by a positive
      multiple of three digits, never before the first digit. */
  function Grouped(s: string): (r: string)
    ensures |s| > 0 ==> |r| > 0 && r[0] == s[0]
  {
    if |s| == 0 then [] else [s[0]] + Spaced(s[1..])
  }

  /** `formatPrice`. A leading minus sign sits at a word boundary, so the
      replacement only ever spaces the digits: read without its spaces the
      result is the number's decimal text, and the digits fall in groups of
      three counted from the right. */
  function FormatPrice(n: int): (r: string)
    ensures RemoveSpaces(r) == IntToString(n)
    ensures n >= 0 ==> r == GroupFromRight(NatToString(n))
    ensures n < 0 ==> r == "-" + GroupFromRight(NatToString(-n))
  {
    if n >= 0 then
      GroupedReadsBack(NatToString(n));
      Grouped(NatToString(n))
    else
      GroupedReadsBack(NatToString(-n));
      MinusReadsBack(Grouped(NatToString(-n)));
      "-" + Grouped(NatToString(-n))
  }

  /** The grouping built from the right: the last three digits, preceded by
      a space and the grouping of the rest. */
  function GroupFromRight(s: string): (r: string)
    ensures |s| > 0 ==> |r| > 0
    decreases |s|
  {
    if |s| <= 3 then s
    else GroupFromRight(s[..|s| - 3]) + " " + s[|s| - 3..]
  }

  lemma {:induction false} SpacedShort(t: string)
    requires |t| < 3
    ensures Spaced(t) == t
  {
    if |t| > 0 {
      SpacedShort(t[1..]);
      assert [t[0]] + t[1..] == t;
    }
  }

  lemma SpacedThree(b: string)
    requires |b| == 3
    ensures Spaced(b) == " " + b
  {
    SpacedShort(b[1..]);
    assert [b[0]] + b[1..] == b;
  }

  /** Spacing a run is spacing its parts when the tail has a length that is
      a multiple of three. */
  lemma {:induction false} SpacedAppend(a: string, b: string)
    requires |b| % 3 == 0
    ensures Spaced(a + b) == Spaced(a) + Spaced(b)
  {
    if |a| == 0 {
      assert a + b == b;
    } else {
      assert (a + b)[1..] == a[1..] + b;
      assert (a + b)[0] == a[0];
      SameRemainder(|a|, |b|);
      SpacedAppend(a[1..], b);
    }
  }

  lemma SameRemainder(x: nat, y: nat)
    requires y % 3 == 0
    ensures (x + y) % 3 == x % 3
  {
    assert y == 3 * (y / 3);
  }

  /** The left-to-right spacing and the right-to-left grouping agree. */
  lemma {:induction false} GroupingAgrees(s: string)
    ensures Grouped(s) == GroupFromRight(s)
    decreases |s|
  {
    if 0 < |s| <= 3 {
      SpacedShort(s[1..]);
      assert [s[0]] + s[1..] == s;
    } else if |s| > 3 {
      GroupingAgrees(s[..|s| - 3]);
      GroupingStep(s);
    }
  }

  /** Spacing all digits is spacing all but the last three, then a space and
      those three. */
  lemma GroupingStep(s: string)
    requires |s| > 3
    ensures Grouped(s) == Grouped(s[..|s| - 3]) + " " + s[|s| - 3..]
  {
    var a := s[..|s| - 3];
    var b := s[|s| - 3..];
    assert s[1..] == a[1..] + b;
    SpacedAppend(a[1..], b);
    SpacedThree(b);
    assert a[0] == s[0];
  }

  /** Taking the spaces out of a grouping gives back the digits. */
  lemma {:induction false} UngroupDigits(s: string)
    requires AllDigits(s)
    ensures RemoveSpaces(GroupFromRight(s)) == s
    decreases |s|
  {
    if |s| <= 3 {
      RemoveSpacesDigits(s);
    } else {
      var a := s[..|s| - 3];
      var b := s[|s| - 3..];
      assert a + b == s;
      assert AllDigits(a) && AllDigits(b);
      UngroupDigits(a);
      UngroupStep(GroupFromRight(a), a, b);
    }
  }

  lemma {:induction false} UngroupStep(g: string, a: string, b: string)
    requires RemoveSpaces(g) == a && AllDigits(b)
    ensures RemoveSpaces(g + " " + b) == a + b
  {
    var h := g + " ";
    assert RemoveSpaces(" ") == [];
    RemoveSpacesAppend(g, " ");
    assert RemoveSpaces(h) == a;
    RemoveSpacesDigits(b);
    RemoveSpacesAppend(h, b);
  }

  /** A run of digits spaced from the left is the grouping from the right,
      and reads back without its spaces. */
  lemma GroupedReadsBack(d: string)
    requires AllDigits(d)
    ensures Grouped(d) == GroupFromRight(d)
    ensures RemoveSpaces(Grouped(d)) == d
  {
    GroupingAgrees(d);
    UngroupDigits(d);
  }

  lemma MinusReadsBack(g: string)
    ensures RemoveSpaces("-" + g) == "-" + RemoveSpaces(g)
  {
    RemoveSpacesAppend("-", g);
    assert RemoveSpaces("-") == "-";
  }

  /** 12500 is shown as "12 500". */
  lemma PriceExample()
    ensures FormatPrice(12500) == "12 500"
  {
    DecimalText();
    GroupedExample();
  }

  lemma DecimalText()
    ensures NatToString(12500) == "12500"
  {
    assert NatToString(12) == "12";
    assert NatToString(125) == "125";
    assert NatToString(1250) == "1250";
  }

  lemma GroupedExample()
    ensures Grouped("12500") == "12 500"
  {
    var t := "12500"[1..];
    assert t == "2500" && t[1..] == "500";
    SpacedThree("500");
    assert Spaced(t) == [t[0]] + Spaced(t[1..]);
  }

  // ---------------------------------------------------------------------
  // formatDuration
  // ---------------------------------------------------------------------

  /** The card's travel time reads back as the minutes it was made from:
      hours and minutes are decimal numbers, the minutes below 60. */
  lemma DurationReadsBack(m: int)
    requires m >= 0
    ensures exists h: string, mm: string ::
      (AllDigits(h) && AllDigits(mm) &&
       TransformData.FormatDuration(m) == h + " ч " + mm + " мин" &&
       60 * DecimalValue(h) + DecimalValue(mm) == m && DecimalValue(mm) < 60)
  {
    var h := NatToString(m / 60);
    var mm := NatToString(m % 60);
    assert TransformData.FormatDuration(m) == h + " ч " + mm + " мин";
  }

  // ---------------------------------------------------------------------
  // getWagonTypeName
  // ---------------------------------------------------------------------

  /** As written, the card names wagons with the same table as the seat grid,
      which knows only `sitting`, `platzkart`, `coupe` and `lux`; the search
      results type their wagons with the API classes, so the card shows the
      class id itself. */
  lemma ClassIdsShownRaw(c: WagonClass)
    ensures SeatSelection.WagonTypeName(ClassName(c)) == ClassName(c)
  {
  }

  /** The name the card is evidently meant to show: the API classes get the
      labels the search page's own type filter gives them, any other type
      goes through the seat grid's table. */
  function WagonName(kind: string): (name: string)
    ensures forall c :: kind == ClassName(c) ==> name == Api.WagonLabel(c)
    ensures kind !in {"first", "second", "third", "fourth"} ==> name == SeatSelection.WagonTypeName(kind)
  {
    if kind == "first" then Api.WagonLabel(First)
    else if kind == "second" then Api.WagonLabel(Second)
    else if kind == "third" then Api.WagonLabel(Third)
    else if kind == "fourth" then Api.WagonLabel(Fourth)
    else SeatSelection.WagonTypeName(kind)
  }

  /** Every wagon of the search results gets a Russian name, never its id. */
  lemma ClassesNamed(c: WagonClass)
    ensures WagonName(ClassName(c)) != ClassName(c)
    ensures WagonName(ClassName(c)) == Api.WagonLabel(c)
  {
  }
}
