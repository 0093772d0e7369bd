/** The card-badge hook of the "Sum Up Fields" power-up (`cardBadges` in
    js/powerup.js).

    With the host calls replaced by their results, the hook receives
    - the board's field definitions (`undefined` when none were ever saved),
    - the current card's stored value map (`undefined` when none),
    - the cards of the current card's list, in list order,
    - the id of the current card,
    - the stored value map of every card, by card id (a missing entry reads
      as `{}`),
    and returns the badges to draw on the current card: one value badge per
    field that holds a numeric value on this card, then, on the first card of
    the list only, one sum badge per field whose total over the OTHER cards of
    the list is positive.

    `Badges` is the specification; `CardBadges` is the loop-by-loop twin that
    builds the badge list and the running totals in place and is proved equal
    to it. */
module PowerUp {
  import opened Wrappers
  import opened JsValues

  type FieldId = string
  type CardId = string

  /** A field definition; `created` is not read by the hook. */
  datatype Field = Field(id: FieldId, name: string)

  /** A card of the list; only its id is read. */
  datatype Card = Card(id: CardId)

  /** A card's stored values, by field id. */
  type ValueMap = map<FieldId, JsValue>

  /** A badge without its presentation (text, colour, popup callback):
      a blue badge showing a field's raw value on this card, or a green
      badge showing a field's total over the rest of the list. */
  datatype Badge = ValueBadge(field: Field, raw: JsValue) | SumBadge(field: Field, total: real)

  // ---------------------------------------------------------------------
  // Host results and their defaults
  // ---------------------------------------------------------------------

  /** `fields = []`: the default applies only to `undefined`. */
  function FieldsOf(stored: Option<seq<Field>>): seq<Field>
  {
    match stored
    case None => []
    case Some(fields) => fields
  }

  /** `values = {}` */
  function ValuesOf(stored: Option<ValueMap>): ValueMap
  {
    match stored
    case None => map[]
    case Some(values) => values
  }

  /** `vals = {}`: the value map of a card that has none stored is empty. */
  function CardValues(cardValues: map<CardId, ValueMap>, c: Card): ValueMap
  {
    if c.id in cardValues then cardValues[c.id] else map[]
  }

  function FieldIds(fields: seq<Field>): set<FieldId>
  {
    set f | f in fields :: f.id
  }

  predicate UniqueIds(fields: seq<Field>)
  {
    forall i, j :: 0 <= i < j < |fields| ==> fields[i].id != fields[j].id
  }

  // ---------------------------------------------------------------------
  // Blue value badges
  // ---------------------------------------------------------------------

  /** The test guarding a value badge: present, not null, and `!isNaN(raw)`. */
  predicate HasValueBadge(raw: JsValue, cx: Coercions)
  {
    raw != Undefined && raw != Null && !IsNaN(raw, cx)
  }

  /** The value badges of the current card, one per qualifying field, in
      field order. */
  function ValueBadges(fields: seq<Field>, values: ValueMap, cx: Coercions): seq<Badge>
  {
    if fields == [] then []
    else
      var raw := Lookup(values, fields[0].id);
      (if HasValueBadge(raw, cx) then [ValueBadge(fields[0], raw)] else [])
        + ValueBadges(fields[1..], values, cx)
  }

  /** A value badge `(f, raw)` is shown exactly when `f` is one of the fields,
      `raw` is its value on this card and `raw` passes the guard; nothing but
      value badges is produced. */
  lemma {:induction false} ValueBadgesMembership(fields: seq<Field>, values: ValueMap, cx: Coercions)
    ensures forall b :: b in ValueBadges(fields, values, cx) ==> b.ValueBadge?
    ensures forall f, raw :: ValueBadge(f, raw) in ValueBadges(fields, values, cx) <==>
      f in fields && raw == Lookup(values, f.id) && HasValueBadge(raw, cx)
  {
    if fields != [] {
      ValueBadgesMembership(fields[1..], values, cx);
      assert fields == [fields[0]] + fields[1..];
    }
  }

  /** Field order: appending a field appends its badge, if any, at the end. */
  lemma {:induction false} ValueBadgesSnoc(fields: seq<Field>, f: Field, values: ValueMap, cx: Coercions)
    ensures ValueBadges(fields + [f], values, cx)
         == ValueBadges(fields, values, cx)
            + (if HasValueBadge(Lookup(values, f.id), cx) then [ValueBadge(f, Lookup(values, f.id))] else [])
  {
    if fields == [] {
      assert fields + [f] == [f];
      assert [f][1..] == [];
    } else {
      assert (fields + [f])[0] == fields[0];
      assert (fields + [f])[1..] == fields[1..] + [f];
      ValueBadgesSnoc(fields[1..], f, values, cx);
    }
  }

  // ---------------------------------------------------------------------
  // Totals over the rest of the list
  // ---------------------------------------------------------------------

  /** What one card adds to a field: `parseFloat(vals[id])` when that is a
      number, nothing otherwise. */
  function Contribution(vals: ValueMap, id: FieldId, cx: Coercions): real
  {
    match ParseFloat(Lookup(vals, id), cx)
    case Some(v) => v
    case None => 0.0
  }

  /** The sum of the contributions of `cards` to field `id`. */
  function SumFrom(cards: seq<Card>, cardValues: map<CardId, ValueMap>, id: FieldId, cx: Coercions): real
  {
    if cards == [] then 0.0
    else Contribution(CardValues(cardValues, cards[0]), id, cx) + SumFrom(cards[1..], cardValues, id, cx)
  }

  /** `x` added once for every entry of `fields` whose id is `id`. */
  function PerEntry(fields: seq<Field>, id: FieldId, x: real): real
  {
    if fields == [] then 0.0
    else PerEntry(fields[..|fields| - 1], id, x) + (if fields[|fields| - 1].id == id then x else 0.0)
  }

  /** `list.cards.slice(1)`: every card but the first. */
  function ReadCards(cards: seq<Card>): (r: seq<Card>)
    ensures |cards| > 0 ==> cards == cards[..1] + r
    ensures |cards| == 0 ==> r == []
  {
    if cards == [] then [] else cards[1..]
  }

  /** `Object.fromEntries(fields.map((f) => [f.id, 0]))` */
  function ZeroTotals(fields: seq<Field>): (totals: map<FieldId, real>)
    ensures forall f :: f in fields ==> f.id in totals && totals[f.id] == 0.0
    ensures forall id :: id in totals ==> id in FieldIds(fields)
  {
    map id | id in FieldIds(fields) :: 0.0
  }

  /** The totals once every read card has been added. The inner loop adds a
      card's value once per ENTRY of `fields`, so an id that two entries
      share is counted twice; when the ids are unique a total is just the
      sum, see `TotalsUniqueIds`. */
  function Totals(fields: seq<Field>, readCards: seq<Card>, cardValues: map<CardId, ValueMap>, cx: Coercions)
    : (totals: map<FieldId, real>)
    ensures forall f :: f in fields ==> f.id in totals
    ensures forall id :: id in totals ==> id in FieldIds(fields)
  {
    map id | id in FieldIds(fields) :: PerEntry(fields, id, SumFrom(readCards, cardValues, id, cx))
  }

  // ---------------------------------------------------------------------
  // Green sum badges
  // ---------------------------------------------------------------------

  /** The test guarding a sum badge: `totals[f.id] > 0` (an absent key reads
      as `undefined`, which is not greater than 0). */
  predicate HasSumBadge(totals: map<FieldId, real>, id: FieldId)
  {
    id in totals && totals[id] > 0.0
  }

  /** The sum badges: one per field whose total is strictly positive, in
      field order. */
  function SumBadges(fields: seq<Field>, totals: map<FieldId, real>): seq<Badge>
  {
    if fields == [] then []
    else
      (if HasSumBadge(totals, fields[0].id) then [SumBadge(fields[0], totals[fields[0].id])] else [])
        + SumBadges(fields[1..], totals)
  }

  /** A sum badge `(f, t)` is shown exactly when `f` is one of the fields and
      `t` is its total and `t > 0`; nothing but sum badges is produced. */
  lemma {:induction false} SumBadgesMembership(fields: seq<Field>, totals: map<FieldId, real>)
    ensures forall b :: b in SumBadges(fields, totals) ==> b.SumBadge?
    ensures forall f, t :: SumBadge(f, t) in SumBadges(fields, totals) <==>
      f in fields && f.id in totals && t == totals[f.id] && t > 0.0
  {
    if fields != [] {
      SumBadgesMembership(fields[1..], totals);
      assert fields == [fields[0]] + fields[1..];
    }
  }

  /** The `> 0` guard: when no total is positive there is no sum badge. */
  lemma NoPositiveTotalNoSumBadge(fields: seq<Field>, totals: map<FieldId, real>)
    requires forall id :: id in totals ==> totals[id] <= 0.0
    ensures SumBadges(fields, totals) == []
  {
  }

  /** Field order: appending a field appends its badge, if any, at the end. */
  lemma {:induction false} SumBadgesSnoc(fields: seq<Field>, f: Field, totals: map<FieldId, real>)
    ensures SumBadges(fields + [f], totals)
         == SumBadges(fields, totals) + (if HasSumBadge(totals, f.id) then [SumBadge(f, totals[f.id])] else [])
  {
    if fields == [] {
      assert fields + [f] == [f];
      assert [f][1..] == [];
    } else {
      assert (fields + [f])[0] == fields[0];
      assert (fields + [f])[1..] == fields[1..] + [f];
      SumBadgesSnoc(fields[1..], f, totals);
    }
  }

  // ---------------------------------------------------------------------
  // The hook
  // ---------------------------------------------------------------------

  /** `list.cards.length && list.cards[0].id === ctx.card` */
  predicate ShowsSums(cards: seq<Card>, current: CardId)
  {
    |cards| > 0 && cards[0].id == current
  }

  /** The badges of the current card. */
  function Badges(storedFields: Option<seq<Field>>, storedValues: Option<ValueMap>, cards: seq<Card>,
                  current: CardId, cardValues: map<CardId, ValueMap>, cx: Coercions): seq<Badge>
  {
    var fields := FieldsOf(storedFields);
    ValueBadges(fields, ValuesOf(storedValues), cx)
      + if ShowsSums(cards, current) then SumBadges(fields, Totals(fields, ReadCards(cards), cardValues, cx)) else []
  }

  /** Without fields (none stored, or an empty list) there is no badge. */
  lemma NoFieldsNoBadges(storedFields: Option<seq<Field>>, storedValues: Option<ValueMap>, cards: seq<Card>,
                         current: CardId, cardValues: map<CardId, ValueMap>, cx: Coercions)
    requires FieldsOf(storedFields) == []
    ensures Badges(storedFields, storedValues, cards, current, cardValues, cx) == []
  {
  }

  /** Value badges come first, sum badges last. */
  lemma ValueBadgesBeforeSumBadges(storedFields: Option<seq<Field>>, storedValues: Option<ValueMap>,
                                   cards: seq<Card>, current: CardId, cardValues: map<CardId, ValueMap>,
                                   cx: Coercions)
    ensures var r := Badges(storedFields, storedValues, cards, current, cardValues, cx);
            forall i, j :: 0 <= i < j < |r| && r[i].SumBadge? ==> r[j].SumBadge?
  {
    var fields := FieldsOf(storedFields);
    var blue := ValueBadges(fields, ValuesOf(storedValues), cx);
    var totals := Totals(fields, ReadCards(cards), cardValues, cx);
    var green := if ShowsSums(cards, current) then SumBadges(fields, totals) else [];
    ValueBadgesMembership(fields, ValuesOf(storedValues), cx);
    SumBadgesMembership(fields, totals);
    assert forall i :: 0 <= i < |blue| ==> blue[i] in blue;
    assert forall i :: 0 <= i < |green| ==> green[i] in green;
  }

  /** The value badges of the hook are those of the current card's fields. */
  lemma BadgesValueBadge(storedFields: Option<seq<Field>>, storedValues: Option<ValueMap>,
                         cards: seq<Card>, current: CardId, cardValues: map<CardId, ValueMap>,
                         cx: Coercions, f: Field, raw: JsValue)
    ensures ValueBadge(f, raw) in Badges(storedFields, storedValues, cards, current, cardValues, cx)
        <==> f in FieldsOf(storedFields) && raw == Lookup(ValuesOf(storedValues), f.id) && HasValueBadge(raw, cx)
  {
    var fields := FieldsOf(storedFields);
    var totals := Totals(fields, ReadCards(cards), cardValues, cx);
    ValueBadgesMembership(fields, ValuesOf(storedValues), cx);
    SumBadgesMembership(fields, totals);
  }

  /** The sum badges of the hook: only on the first card of a non-empty list,
      one for each field whose total over the other cards is positive. */
  lemma BadgesSumBadge(storedFields: Option<seq<Field>>, storedValues: Option<ValueMap>,
                       cards: seq<Card>, current: CardId, cardValues: map<CardId, ValueMap>,
                       cx: Coercions, f: Field, t: real)
    ensures SumBadge(f, t) in Badges(storedFields, storedValues, cards, current, cardValues, cx)
        <==> ShowsSums(cards, current) && f in FieldsOf(storedFields)
             && t == Totals(FieldsOf(storedFields), ReadCards(cards), cardValues, cx)[f.id] && t > 0.0
  {
    var fields := FieldsOf(storedFields);
    var totals := Totals(fields, ReadCards(cards), cardValues, cx);
    ValueBadgesMembership(fields, ValuesOf(storedValues), cx);
    SumBadgesMembership(fields, totals);
  }

  // ---------------------------------------------------------------------
  // Properties of the totals
  // ---------------------------------------------------------------------

  lemma {:induction false} SumFromAppend(a: seq<Card>, b: seq<Card>, cardValues: map<CardId, ValueMap>,
                                         id: FieldId, cx: Coercions)
    ensures SumFrom(a + b, cardValues, id, cx) == SumFrom(a, cardValues, id, cx) + SumFrom(b, cardValues, id, cx)
  {
    if a == [] {
      assert a + b == b;
    } else {
      assert (a + b)[0] == a[0];
      assert (a + b)[1..] == a[1..] + b;
      SumFromAppend(a[1..], b, cardValues, id, cx);
    }
  }

  /** The per-card reads may complete in any order: a total does not depend
      on the order in which the cards are added. */
  lemma {:induction false} SumFromPermutation(a: seq<Card>, b: seq<Card>, cardValues: map<CardId, ValueMap>,
                                              id: FieldId, cx: Coercions)
    requires multiset(a) == multiset(b)
    ensures SumFrom(a, cardValues, id, cx) == SumFrom(b, cardValues, id, cx)
    decreases |a|
  {
    if a == [] {
      assert |b| == |multiset(b)| == 0;
    } else {
      var c := a[0];
      assert c in multiset(b) by { assert c in multiset(a); }
      var i :| 0 <= i < |b| && b[i] == c;
      var rest := b[..i] + b[i + 1..];
      MultisetRemove(a, b, i);
      SumFromPermutation(a[1..], rest, cardValues, id, cx);
      SumFromRemove(b, i, cardValues, id, cx);
    }
  }

  lemma MultisetRemove(a: seq<Card>, b: seq<Card>, i: nat)
    requires multiset(a) == multiset(b) && a != [] && i < |b| && b[i] == a[0]
    ensures multiset(a[1..]) == multiset(b[..i] + b[i + 1..])
  {
    assert a == [a[0]] + a[1..];
    assert multiset(a) == multiset{a[0]} + multiset(a[1..]);
    assert multiset(a[1..]) == multiset(a) - multiset{a[0]};
    assert b == b[..i] + [b[i]] + b[i + 1..];
    assert multiset(b) == multiset(b[..i]) + multiset{b[i]} + multiset(b[i + 1..]);
    assert multiset(b[..i] + b[i + 1..]) == multiset(b[..i]) + multiset(b[i + 1..]);
    assert multiset(b[..i] + b[i + 1..]) == multiset(b) - multiset{b[i]};
  }

  lemma SumFromRemove(b: seq<Card>, i: nat, cardValues: map<CardId, ValueMap>, id: FieldId, cx: Coercions)
    requires i < |b|
    ensures SumFrom(b, cardValues, id, cx)
         == Contribution(CardValues(cardValues, b[i]), id, cx) + SumFrom(b[..i] + b[i + 1..], cardValues, id, cx)
  {
    var before, after := b[..i], b[i + 1..];
    assert b == before + [b[i]] + after;
    SumFromAppend(before + [b[i]], after, cardValues, id, cx);
    SumFromAppend(before, [b[i]], cardValues, id, cx);
    SumFromAppend(before, after, cardValues, id, cx);
    assert [b[i]][1..] == [];
  }

  /** Only the cards that are summed are read: value maps of other cards do
      not matter. */
  lemma {:induction false} SumFromReadsOnlyItsCards(cards: seq<Card>, cardValues: map<CardId, ValueMap>,
                                                    otherValues: map<CardId, ValueMap>, id: FieldId, cx: Coercions)
    requires forall c :: c in cards ==> CardValues(cardValues, c) == CardValues(otherValues, c)
    ensures SumFrom(cards, cardValues, id, cx) == SumFrom(cards, otherValues, id, cx)
  {
    if cards != [] {
      assert cards[0] in cards;
      SumFromReadsOnlyItsCards(cards[1..], cardValues, otherValues, id, cx);
    }
  }

  /** A card with no stored value map contributes nothing to any field,
      wherever it sits among the summed cards. */
  lemma UnstoredCardContributesNothing(before: seq<Card>, c: Card, after: seq<Card>,
                                       cardValues: map<CardId, ValueMap>, id: FieldId, cx: Coercions)
    requires c.id !in cardValues
    ensures SumFrom(before + [c] + after, cardValues, id, cx) == SumFrom(before + after, cardValues, id, cx)
  {
    SumFromAppend(before + [c], after, cardValues, id, cx);
    SumFromAppend(before, [c], cardValues, id, cx);
    SumFromAppend(before, after, cardValues, id, cx);
    assert [c][1..] == [];
  }

  lemma {:induction false} PerEntryAbsent(fields: seq<Field>, id: FieldId, x: real)
    requires id !in FieldIds(fields)
    ensures PerEntry(fields, id, x) == 0.0
  {
    if fields != [] {
      var init := fields[..|fields| - 1];
      assert fields == init + [fields[|fields| - 1]];
      assert fields[|fields| - 1] in fields;
      PerEntryAbsent(init, id, x);
    }
  }

  lemma {:induction false} PerEntryOfZero(fields: seq<Field>, id: FieldId)
    ensures PerEntry(fields, id, 0.0) == 0.0
  {
    if fields != [] {
      PerEntryOfZero(fields[..|fields| - 1], id);
    }
  }

  /** Before any card is read every total is 0. */
  lemma NothingReadZeroTotals(fields: seq<Field>, cardValues: map<CardId, ValueMap>, cx: Coercions)
    ensures Totals(fields, [], cardValues, cx) == ZeroTotals(fields)
  {
    var totals := Totals(fields, [], cardValues, cx);
    forall id | id in totals
      ensures totals[id] == 0.0
    {
      PerEntryOfZero(fields, id);
    }
  }

  lemma {:induction false} PerEntryAdd(fields: seq<Field>, id: FieldId, x: real, y: real)
    ensures PerEntry(fields, id, x) + PerEntry(fields, id, y) == PerEntry(fields, id, x + y)
  {
    if fields != [] {
      PerEntryAdd(fields[..|fields| - 1], id, x, y);
    }
  }

  lemma {:induction false} PerEntryUnique(fields: seq<Field>, f: Field, x: real)
    requires UniqueIds(fields) && f in fields
    ensures PerEntry(fields, f.id, x) == x
  {
    var init, last := fields[..|fields| - 1], fields[|fields| - 1];
    assert fields == init + [last];
    if f.id == last.id {
      assert f.id !in FieldIds(init);
      PerEntryAbsent(init, f.id, x);
    } else {
      assert f in init;
      PerEntryUnique(init, f, x);
    }
  }

  /** With unique field ids, a field's total is exactly the sum of the
      parsed values of the read cards. */
  lemma TotalsUniqueIds(fields: seq<Field>, readCards: seq<Card>, cardValues: map<CardId, ValueMap>,
                        cx: Coercions, f: Field)
    requires UniqueIds(fields) && f in fields
    ensures Totals(fields, readCards, cardValues, cx)[f.id] == SumFrom(readCards, cardValues, f.id, cx)
  {
    PerEntryUnique(fields, f, SumFrom(readCards, cardValues, f.id, cx));
  }

  /** The totals do not depend on the order in which the reads complete. */
  lemma ReadOrderIrrelevant(fields: seq<Field>, order: seq<Card>, otherOrder: seq<Card>,
                            cardValues: map<CardId, ValueMap>, cx: Coercions)
    requires multiset(order) == multiset(otherOrder)
    ensures Totals(fields, order, cardValues, cx) == Totals(fields, otherOrder, cardValues, cx)
  {
    var totals, otherTotals := Totals(fields, order, cardValues, cx), Totals(fields, otherOrder, cardValues, cx);
    forall id | id in totals
      ensures id in otherTotals && totals[id] == otherTotals[id]
    {
      SumFromPermutation(order, otherOrder, cardValues, id, cx);
    }
    assert totals.Keys == otherTotals.Keys;
  }

  lemma TotalsReadOnlyTheirCards(fields: seq<Field>, readCards: seq<Card>, cardValues: map<CardId, ValueMap>,
                                 otherValues: map<CardId, ValueMap>, cx: Coercions)
    requires forall c :: c in readCards ==> CardValues(cardValues, c) == CardValues(otherValues, c)
    ensures Totals(fields, readCards, cardValues, cx) == Totals(fields, readCards, otherValues, cx)
  {
    var totals, otherTotals := Totals(fields, readCards, cardValues, cx), Totals(fields, readCards, otherValues, cx);
    forall id | id in totals
      ensures id in otherTotals && totals[id] == otherTotals[id]
    {
      SumFromReadsOnlyItsCards(readCards, cardValues, otherValues, id, cx);
    }
    assert totals.Keys == otherTotals.Keys;
  }

  // ---------------------------------------------------------------------
  // Properties of the hook
  // ---------------------------------------------------------------------

  /** The first card's own values are never read: changing the stored values
      of any card outside `list.cards.slice(1)` leaves the badges unchanged. */
  lemma FirstCardNeverContributes(storedFields: Option<seq<Field>>, storedValues: Option<ValueMap>,
                                  cards: seq<Card>, current: CardId, cardValues: map<CardId, ValueMap>,
                                  otherValues: map<CardId, ValueMap>, cx: Coercions)
    requires forall c :: c in ReadCards(cards) ==> CardValues(cardValues, c) == CardValues(otherValues, c)
    ensures Badges(storedFields, storedValues, cards, current, cardValues, cx)
         == Badges(storedFields, storedValues, cards, current, otherValues, cx)
  {
    TotalsReadOnlyTheirCards(FieldsOf(storedFields), ReadCards(cards), cardValues, otherValues, cx);
  }

  /** With unique field ids: a field gets a sum badge exactly when the current
      card is the first of a non-empty list and the sum of the field over the
      other cards of the list is strictly positive; the badge shows that sum. */
  lemma SumBadgeIffPositiveSum(storedFields: Option<seq<Field>>, storedValues: Option<ValueMap>,
                               cards: seq<Card>, current: CardId, cardValues: map<CardId, ValueMap>,
                               cx: Coercions, f: Field, t: real)
    requires UniqueIds(FieldsOf(storedFields)) && f in FieldsOf(storedFields)
    ensures SumBadge(f, t) in Badges(storedFields, storedValues, cards, current, cardValues, cx)
        <==> ShowsSums(cards, current) && t == SumFrom(cards[1..], cardValues, f.id, cx) && t > 0.0
  {
    TotalsUniqueIds(FieldsOf(storedFields), ReadCards(cards), cardValues, cx, f);
    BadgesSumBadge(storedFields, storedValues, cards, current, cardValues, cx, f, t);
  }

  /** A list of one card has nothing to add up: no sum badge is shown. */
  lemma LoneCardShowsNoSum(storedFields: Option<seq<Field>>, storedValues: Option<ValueMap>,
                           card: Card, cardValues: map<CardId, ValueMap>, cx: Coercions)
    ensures Badges(storedFields, storedValues, [card], card.id, cardValues, cx)
         == ValueBadges(FieldsOf(storedFields), ValuesOf(storedValues), cx)
  {
    var fields := FieldsOf(storedFields);
    assert ReadCards([card]) == [];
    var totals := Totals(fields, [], cardValues, cx);
    NothingReadZeroTotals(fields, cardValues, cx);
    NoPositiveTotalNoSumBadge(fields, totals);
  }

  /** On any card but the first of a non-empty list the hook returns exactly
      the value badges. */
  lemma NotFirstCardOnlyValueBadges(storedFields: Option<seq<Field>>, storedValues: Option<ValueMap>,
                                    cards: seq<Card>, current: CardId, cardValues: map<CardId, ValueMap>,
                                    cx: Coercions)
    requires !ShowsSums(cards, current)
    ensures Badges(storedFields, storedValues, cards, current, cardValues, cx)
         == ValueBadges(FieldsOf(storedFields), ValuesOf(storedValues), cx)
  {
  }

  // ---------------------------------------------------------------------
  // The hook, step by step
  // ---------------------------------------------------------------------

  /** The callback run when one card's value map arrives: for every field
      entry, add the parsed value to the running total when it is a number. */
  method AddCardValues(totals: map<FieldId, real>, fields: seq<Field>, vals: ValueMap, cx: Coercions)
    returns (updated: map<FieldId, real>)
    requires forall f :: f in fields ==> f.id in totals
    ensures updated.Keys == totals.Keys
    ensures forall id :: id in updated ==>
      updated[id] == totals[id] + PerEntry(fields, id, Contribution(vals, id, cx))
  {
    updated := totals;
    for j := 0 to |fields|
      invariant updated.Keys == totals.Keys
      invariant forall id :: id in updated ==>
        updated[id] == totals[id] + PerEntry(fields[..j], id, Contribution(vals, id, cx))
    {
      var f := fields[j];
      var v := ParseFloat(Lookup(vals, f.id), cx);
      if v.Some? {
        updated := updated[f.id := updated[f.id] + v.value];
      }
      assert fields[..j + 1][..j] == fields[..j];
    }
    assert fields[..|fields|] == fields;
  }

  /** Adding one more card's values, once per field entry, to the totals over
      the cards read so far gives the totals over those cards and this one. */
  lemma TotalsAddCard(fields: seq<Field>, done: seq<Card>, c: Card, cardValues: map<CardId, ValueMap>,
                      cx: Coercions, before: map<FieldId, real>, after: map<FieldId, real>)
    requires before == Totals(fields, done, cardValues, cx)
    requires after.Keys == before.Keys
    requires forall id :: id in after ==>
      after[id] == before[id] + PerEntry(fields, id, Contribution(CardValues(cardValues, c), id, cx))
    ensures after == Totals(fields, done + [c], cardValues, cx)
  {
    var next := Totals(fields, done + [c], cardValues, cx);
    forall id | id in after
      ensures after[id] == next[id]
    {
      SumFromAppend(done, [c], cardValues, id, cx);
      assert [c][1..] == [];
      PerEntryAdd(fields, id, SumFrom(done, cardValues, id, cx), Contribution(CardValues(cardValues, c), id, cx));
    }
    assert after.Keys == next.Keys;
  }

  /** `totals` starts at 0 for every field; then, as each read of
      `list.cards.slice(1)` completes (in `completionOrder`), that card's
      values are added; `Promise.all` waits for the last one. */
  method AddAllCards(fields: seq<Field>, completionOrder: seq<Card>, cardValues: map<CardId, ValueMap>,
                     cx: Coercions)
    returns (totals: map<FieldId, real>)
    ensures totals == Totals(fields, completionOrder, cardValues, cx)
  {
    totals := ZeroTotals(fields);
    NothingReadZeroTotals(fields, cardValues, cx);
    assert completionOrder[..0] == [];
    for k := 0 to |completionOrder|
      invariant totals == Totals(fields, completionOrder[..k], cardValues, cx)
    {
      var c := completionOrder[k];
      ghost var before := totals;
      totals := AddCardValues(totals, fields, CardValues(cardValues, c), cx);
      TotalsAddCard(fields, completionOrder[..k], c, cardValues, cx, before, totals);
      assert completionOrder[..k + 1] == completionOrder[..k] + [c];
    }
    assert completionOrder[..|completionOrder|] == completionOrder;
  }

  /** `fields.forEach(...)` pushing a value badge for each field whose raw
      value on this card passes the guard. */
  method PushValueBadges(badges: seq<Badge>, fields: seq<Field>, values: ValueMap, cx: Coercions)
    returns (pushed: seq<Badge>)
    ensures pushed == badges + ValueBadges(fields, values, cx)
  {
    pushed := badges;
    for i := 0 to |fields|
      invariant pushed == badges + ValueBadges(fields[..i], values, cx)
    {
      var f := fields[i];
      var raw := Lookup(values, f.id);
      ValueBadgesSnoc(fields[..i], f, values, cx);
      assert fields[..i + 1] == fields[..i] + [f];
      if raw != Undefined && raw != Null && !IsNaN(raw, cx) {
        pushed := pushed + [ValueBadge(f, raw)];
      }
    }
    assert fields[..|fields|] == fields;
  }

  /** `fields.forEach(...)` pushing a sum badge for each field whose total is
      strictly positive. */
  method PushSumBadges(badges: seq<Badge>, fields: seq<Field>, totals: map<FieldId, real>)
    returns (pushed: seq<Badge>)
    requires forall f :: f in fields ==> f.id in totals
    ensures pushed == badges + SumBadges(fields, totals)
  {
    pushed := badges;
    for i := 0 to |fields|
      invariant pushed == badges + SumBadges(fields[..i], totals)
    {
      var f := fields[i];
      SumBadgesSnoc(fields[..i], f, totals);
      assert fields[..i + 1] == fields[..i] + [f];
      if totals[f.id] > 0.0 {
        pushed := pushed + [SumBadge(f, totals[f.id])];
      }
    }
    assert fields[..|fields|] == fields;
  }

  /** `cardBadges`, with the host calls replaced by their results.
      `completionOrder` is the order in which the reads of the other cards'
      value maps complete; it is a reordering of `list.cards.slice(1)`. */
  method CardBadges(storedFields: Option<seq<Field>>, storedValues: Option<ValueMap>, cards: seq<Card>,
                    current: CardId, cardValues: map<CardId, ValueMap>, completionOrder: seq<Card>,
                    cx: Coercions)
    returns (badges: seq<Badge>)
    requires ShowsSums(cards, current) ==> multiset(completionOrder) == multiset(cards[1..])
    ensures badges == Badges(storedFields, storedValues, cards, current, cardValues, cx)
  {
    var fields := FieldsOf(storedFields);
    var values := ValuesOf(storedValues);
    badges := PushValueBadges([], fields, values, cx);
    assert [] + ValueBadges(fields, values, cx) == ValueBadges(fields, values, cx);
    if |cards| > 0 && cards[0].id == current {
      var totals := AddAllCards(fields, completionOrder, cardValues, cx);
      ReadOrderIrrelevant(fields, completionOrder, ReadCards(cards), cardValues, cx);
      badges := PushSumBadges(badges, fields, totals);
    }
  }
}
