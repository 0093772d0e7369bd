/** Concrete scenarios of the badge hook: a three-card list whose other cards
    store "5" and 3, the suppressed zero sum, and the two numeric tests
    disagreeing. The string conversions stay abstract; each scenario assumes
    only what the JavaScript engine does on the strings it uses. */
module Scenarios {
  import opened Wrappers
  import opened JsValues
  import opened PowerUp

  /** Fields `[f1]`, list `[A, B, C]` viewed on A, B stores "5" and C stores 3:
      A shows one sum badge, 8. */
  lemma {:induction false} FirstCardShowsEight(cx: Coercions)
    requires cx.parseFloat("5") == Some(5.0)
    ensures var f1 := Field("f1", "Estimate");
            Badges(Some([f1]), None, [Card("A"), Card("B"), Card("C")], "A",
                   map["B" := map["f1" := Str("5")], "C" := map["f1" := Num(3.0)]], cx)
            == [SumBadge(f1, 8.0)]
  {
    var f1 := Field("f1", "Estimate");
    var cardValues := map["B" := map["f1" := Str("5")], "C" := map["f1" := Num(3.0)]];
    var read := [Card("B"), Card("C")];
    assert read[1..] == [Card("C")];
    assert read[1..][1..] == [];
    assert Contribution(CardValues(cardValues, Card("B")), "f1", cx) == 5.0 by {
      assert Lookup(CardValues(cardValues, Card("B")), "f1") == Str("5");
    }
    assert Contribution(CardValues(cardValues, Card("C")), "f1", cx) == 3.0 by {
      assert Lookup(CardValues(cardValues, Card("C")), "f1") == Num(3.0);
    }
    assert SumFrom(read[1..], cardValues, "f1", cx) == 3.0 by {
      assert read[1..][0] == Card("C");
      assert SumFrom(read[1..][1..], cardValues, "f1", cx) == 0.0;
    }
    assert read[0] == Card("B");
    assert SumFrom(read, cardValues, "f1", cx) == 8.0;
    TotalsUniqueIds([f1], read, cardValues, cx, f1);
    assert [f1][1..] == [];
    assert ValueBadges([f1], map[], cx) == [];
    assert ReadCards([Card("A"), Card("B"), Card("C")]) == read;
    assert SumBadges([f1], Totals([f1], read, cardValues, cx)) == [SumBadge(f1, 8.0)];
  }

  /** Fields `[f1]`, list `[A, B]` viewed on A, B stores "abc": the total is 0,
      so no sum badge is shown. */
  lemma {:induction false} NonNumericValueShowsNoSum(cx: Coercions)
    requires cx.parseFloat("abc") == None
    ensures var f1 := Field("f1", "Estimate");
            Badges(Some([f1]), None, [Card("A"), Card("B")], "A", map["B" := map["f1" := Str("abc")]], cx) == []
  {
    var f1 := Field("f1", "Estimate");
    var cardValues := map["B" := map["f1" := Str("abc")]];
    var read := [Card("B")];
    assert read[1..] == [];
    assert SumFrom(read, cardValues, "f1", cx) == 0.0;
    TotalsUniqueIds([f1], read, cardValues, cx, f1);
    assert [f1][1..] == [];
    assert ValueBadges([f1], map[], cx) == [];
    assert ReadCards([Card("A"), Card("B")]) == read;
    assert SumBadges([f1], Totals([f1], read, cardValues, cx)) == [];
  }

  /** "5px" is summed (parseFloat reads the prefix 5) but gets no value badge
      (Number("5px") is NaN); "" gets a value badge (Number("") is 0) but adds
      nothing (parseFloat("") is NaN). */
  lemma NumericTestsDiffer(cx: Coercions, f: Field)
    requires cx.toNumber("5px") == None && cx.parseFloat("5px") == Some(5.0)
    requires cx.toNumber("") == Some(0.0) && cx.parseFloat("") == None
    ensures ValueBadges([f], map[f.id := Str("5px")], cx) == []
    ensures Contribution(map[f.id := Str("5px")], f.id, cx) == 5.0
    ensures ValueBadges([f], map[f.id := Str("")], cx) == [ValueBadge(f, Str(""))]
    ensures Contribution(map[f.id := Str("")], f.id, cx) == 0.0
  {
  }
}
