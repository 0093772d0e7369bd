# Sum Up Fields: the card-badge hook, modelled in Dafny

The "Sum Up Fields" power-up lets the members of a board define numeric
fields, store a value of each field on each card, and see two kinds of
badges on a card:

- a **value badge** (blue) for every field that holds a numeric value on the
  card itself;
- on the **first card of a list** only, a **sum badge** (green, "∑") for every
  field whose total over the *other* cards of the list is strictly positive.

This project models the hook that computes those badges, `cardBadges` in
`js/powerup.js`. The host calls it makes (`t.get`, `t.list`, `t.getContext`)
become inputs: the stored field definitions, the current card's stored
values, the cards of the list in the host's order, the current card's id,
and the stored values of every card by card id.

Files:

- `wrappers.dfy` — `Option`; `None` stands for `undefined` from the host and
  for `NaN` from a numeric conversion.
- `js_values.dfy` — the stored JavaScript values (`undefined`, `null`,
  booleans, numbers, strings) and the two numeric tests the hook uses:
  `isNaN(v)` (conversion of the whole value) and `parseFloat(v)` (longest
  numeric prefix). How the engine converts a string is left abstract: a
  `Coercions` value carries `Number(s)` and `parseFloat(s)` as functions.
- `power_up.dfy` — the hook. `Badges` is the specification as a pure
  function, with its properties stated as lemmas; `SumFrom` is the sum of
  the parsed values of a sequence of cards; `Totals` the totals map. `CardBadges` is the step-by-step twin: it pushes
  value badges in one loop, builds `totals` from zero and adds each card's
  values as its read completes (`AddAllCards`, `AddCardValues`), then pushes
  sum badges in a second loop. It is proved equal to `Badges` for every
  order in which the reads may complete.
- `scenarios.dfy` — concrete lists: a list `[A, B, C]` with B = "5" and
  C = 3 giving one sum badge of 8 on A, a non-numeric value giving no sum
  badge, and a value on which the two numeric tests disagree.

Behaviour of the code worth stating explicitly (the model follows the code):

- The "first card" is `list.cards[0]` in the order the host lists the cards;
  the hook does not sort by position itself.
- A sum badge is suppressed for every total that is not strictly positive,
  negative totals included, not only for a total of 0.
- A card that has no stored value map reads as `{}` and adds nothing. A read
  that *fails* is not swallowed by the code: `Promise.all` rejects and the
  hook returns no badges at all. Host failures are not part of this model.
- Field ids are not assumed unique. The code adds a card's value once per
  *entry* of the field list, so two entries that share an id both add to
  that id's total. `Totals` models this; `TotalsUniqueIds` shows that with
  unique ids a total is exactly the sum.

## Model

| member | source | states |
|---|---|---|
| `PowerUp.ValueBadgesMembership` | js/powerup.js:46-59 | a value badge `(f, raw)` is produced exactly when `f` is one of the fields and `raw`, its value on this card, is present, not `null` and not `NaN` under `Number()`; nothing but value badges is produced |
| `PowerUp.ValueBadgesSnoc` | js/powerup.js:46-59 | value badges follow field order: adding a field at the end adds its badge, if any, at the end |
| `PowerUp.PushValueBadges` | js/powerup.js:46-59 | the `forEach`/`push` loop appends exactly the value badges of all fields to what was there |
| `PowerUp.ReadCards` | js/powerup.js:67 | `slice(1)` is the list without its first card: the list is its first card followed by the result; an empty list reads nothing |
| `PowerUp.ZeroTotals` | js/powerup.js:64 | every field id gets a total, every total is 0, and there is no other key |
| `PowerUp.NothingReadZeroTotals` | js/powerup.js:64 | before any card is added, the totals are exactly the zero map |
| `PowerUp.Totals` | js/powerup.js:62-76 | the totals have an entry for every field id and no other |
| `PowerUp.AddCardValues` | js/powerup.js:68-72 | one card's callback: each total grows by the card's parsed value once per field entry with that id, by nothing when `parseFloat` gives `NaN`; the set of keys is unchanged |
| `PowerUp.TotalsAddCard` | js/powerup.js:68-72 | adding one more card's values, once per field entry, to the totals over the cards read so far gives the totals over those cards and that one |
| `PowerUp.AddAllCards` | js/powerup.js:64-76 | starting from zero and adding the cards in any completion order gives `Totals` over that order |
| `PowerUp.SumFromAppend` | js/powerup.js:67-76 | the sum over two runs of cards is the sum of their sums |
| `PowerUp.SumFromPermutation` | js/powerup.js:67-76 | a sum is the same for any reordering of the cards |
| `PowerUp.ReadOrderIrrelevant` | js/powerup.js:67-76 | the totals do not depend on the order in which the per-card reads complete |
| `PowerUp.SumFromReadsOnlyItsCards` | js/powerup.js:67-71 | a sum depends only on the stored values of the cards summed |
| `PowerUp.TotalsReadOnlyTheirCards` | js/powerup.js:67-71 | the totals depend only on the stored values of the cards read |
| `PowerUp.UnstoredCardContributesNothing` | js/powerup.js:68-71 | a card with no stored value map (`vals = {}`) adds nothing, wherever it sits |
| `PowerUp.TotalsUniqueIds` | js/powerup.js:64-76 | with unique field ids, a field's total is exactly the sum of the parsed values of the cards read |
| `PowerUp.SumBadgesMembership` | js/powerup.js:77-84 | a sum badge `(f, t)` is produced exactly when `f` is one of the fields, `t` is its total and `t > 0`; nothing but sum badges is produced |
| `PowerUp.SumBadgesSnoc` | js/powerup.js:77-84 | sum badges follow field order |
| `PowerUp.NoPositiveTotalNoSumBadge` | js/powerup.js:78 | when no total is positive there is no sum badge |
| `PowerUp.PushSumBadges` | js/powerup.js:76-85 | the second `forEach`/`push` loop appends exactly the sum badges to the value badges already pushed |
| `PowerUp.NoFieldsNoBadges` | js/powerup.js:41-46 | with no fields, whether none were stored (`fields = []`) or the stored field list is empty, there is no badge |
| `PowerUp.ValueBadgesBeforeSumBadges` | js/powerup.js:45-86 | in the returned list every value badge comes before every sum badge |
| `PowerUp.BadgesValueBadge` | js/powerup.js:41-59 | the hook shows a value badge `(f, raw)` exactly when `f` is a stored field and `raw`, its value on the current card (`values = {}` when none is stored), passes the guard |
| `PowerUp.BadgesSumBadge` | js/powerup.js:62-89 | the hook shows a sum badge `(f, t)` exactly when the current card heads a non-empty list, `f` is a stored field, `t` is its total over the other cards and `t > 0`; otherwise only the value badges are returned |
| `PowerUp.CardBadges` | js/powerup.js:36-91 | the hook, loops and running totals included, returns exactly `Badges`, whatever order the reads of the other cards complete in |
| `PowerUp.FirstCardNeverContributes` | js/powerup.js:62-68 | changing the stored values of any card outside `list.cards.slice(1)`, the first card included, leaves the badges unchanged |
| `PowerUp.SumBadgeIffPositiveSum` | js/powerup.js:62-86 | with unique field ids, a field has a sum badge showing `t` exactly when the current card heads a non-empty list and `t` is the field's sum over the other cards and `t > 0` |
| `PowerUp.LoneCardShowsNoSum` | js/powerup.js:62-89 | a list of one card shows only the value badges |
| `PowerUp.NotFirstCardOnlyValueBadges` | js/powerup.js:61-89 | on a card that is not the first of a non-empty list the hook returns exactly the value badges |
| `Scenarios.FirstCardShowsEight` | js/powerup.js:62-86 | list `[A, B, C]` viewed on A with B = "5" and C = 3 shows exactly one sum badge, 8 |
| `Scenarios.NonNumericValueShowsNoSum` | js/powerup.js:77-84 | list `[A, B]` viewed on A with B = "abc" shows no badge |
| `Scenarios.NumericTestsDiffer` | js/powerup.js:48-71 | "5px" adds 5 to a sum but gets no value badge; "" gets a value badge but adds nothing |

## Left out

- `boardButtons` and `TrelloPowerUp.initialize` (js/powerup.js:17-30, 96-99): a constant button descriptor and the hook registration; no logic.
- The host calls `t.get`, `t.list`, `t.getContext` and `t.popup`: their results are inputs of the model. A failed or rejected host read is not modelled.
- Promise sequencing: the per-card reads complete in an order chosen by the host; `CardBadges` takes that order as an input (`completionOrder`, a reordering of the cards after the first) and the result is proved not to depend on it.
- Badge presentation: the badge text (including how a number is rendered), colours, icons, the edit-values popup callback and its height.
- How the JavaScript engine converts strings to numbers: `Number(s)` and `parseFloat(s)` are uninterpreted functions supplied in a `Coercions` value.
- Stored arrays and objects as field values, and `null` (rather than `undefined`) returned for the field list or a value map: the code would throw or treat them differently; they are not modelled.
- Floating point: numbers and sums are exact reals, so IEEE rounding, infinities and `NaN` as a stored number are not modelled.
- PowerUp.ReadOrderIrrelevant: holds for exact reals; with IEEE doubles the last digits of a total can depend on the order in which the reads complete, since floating-point addition is not associative.
