/**
 * The rehab cost aggregator: the total of the selected catalogue items, each
 * priced by override, by its two-tier base prices, or by its flat price
 * scaled by the quality multiplier.
 */
module Rehab {
  import opened Optional

  datatype Quality = A | B | C

  /** The `Record<"A" | "B" | "C", number>` of quality multipliers. */
  datatype Multipliers = Multipliers(a: real, b: real, c: real)

  function MultiplierOf(m: Multipliers, q: Quality): real {
    match q
    case A => m.a
    case B => m.b
    case C => m.c
  }

  /** The calculator's defaults: quality B, multipliers A 1.3, B 1, C 0.8. */
  const DefaultQuality: Quality := B
  const DefaultMultipliers: Multipliers := Multipliers(1.3, 1.0, 0.8)

  /** The uplift of tier A over the tier-B base price; fixed, whatever the multipliers say. */
  const TierAUplift: real := 1.3

  datatype UnitType = Fixed | Quantity

  /** Base prices for the two named tiers; either may be absent. */
  datatype BasePrices = BasePrices(c: Option<real>, b: Option<real>)

  datatype RehabItem = RehabItem(
    id: string,
    category: Option<string>,
    displayLabel: string,  // the source's `label` (a keyword in Dafny)
    unitType: UnitType,
    unitPrice: Option<real>,
    basePrices: Option<BasePrices>,
    defaultQuantity: Option<real>)

  datatype RehabSelection = RehabSelection(
    id: string,
    quantity: Option<real>,
    selected: bool,
    overrideUnitPrice: Option<real>)

  /** `qualityMultipliers.C || 1`: a zero C multiplier is replaced by 1 before dividing by it. */
  function NonZeroC(m: Multipliers): (r: real)
    ensures r != 0.0
  {
    if m.c == 0.0 then 1.0 else m.c
  }

  /** The price the base-price map gives a tier, if it gives one. */
  function TierPrice(prices: BasePrices, q: Quality, m: Multipliers): Option<real> {
    match q
    case A =>
      if prices.b.Some? then Some(prices.b.value * TierAUplift)
      else if prices.c.Some? then Some(prices.c.value * m.a)
      else None
    case B =>
      if prices.b.Some? then Some(prices.b.value)
      else if prices.c.Some? then Some(prices.c.value / NonZeroC(m))
      else None
    case C =>
      if prices.c.Some? then Some(prices.c.value)
      else if prices.b.Some? then Some(prices.b.value * m.c)
      else None
  }

  /** The unit price: override, else the tier price from the base-price map, else the flat price times the multiplier. */
  function ResolveUnitPrice(item: RehabItem, override: Option<real>, q: Quality, m: Multipliers): (r: real)
    ensures override.Some? ==> r == override.value
    ensures override.None? && item.basePrices.Some? && TierPrice(item.basePrices.value, q, m).Some? ==>
              r == TierPrice(item.basePrices.value, q, m).value
    ensures override.None? && (item.basePrices.None? || TierPrice(item.basePrices.value, q, m).None?) ==>
              r == Or0(item.unitPrice) * MultiplierOf(m, q)
  {
    if override.Some? then override.value
    else if item.basePrices.Some? && TierPrice(item.basePrices.value, q, m).Some? then
      TierPrice(item.basePrices.value, q, m).value
    else Or0(item.unitPrice) * MultiplierOf(m, q)
  }

  /** `new Map(selections.map(s => [s.id, s]))`: later selections overwrite earlier ones with the same id. */
  function SelectionMap(selections: seq<RehabSelection>): map<string, RehabSelection>
    decreases |selections|
  {
    if selections == [] then map[]
    else
      var last := selections[|selections| - 1];
      SelectionMap(selections[..|selections| - 1])[last.id := last]
  }

  /** `sel.quantity ?? item.defaultQuantity ?? 1`. */
  function QuantityOf(sel: RehabSelection, item: RehabItem): real {
    sel.quantity.GetOr(item.defaultQuantity.GetOr(1.0))
  }

  /** What one item adds to the total: unit price times quantity when selected, else 0. */
  function Contribution(item: RehabItem, selections: map<string, RehabSelection>, q: Quality, m: Multipliers): real {
    if item.id !in selections || !selections[item.id].selected then 0.0
    else
      var sel := selections[item.id];
      ResolveUnitPrice(item, sel.overrideUnitPrice, q, m) * QuantityOf(sel, item)
  }

  /** The `reduce` over the items, folded from the left. */
  function TotalOver(items: seq<RehabItem>, selections: map<string, RehabSelection>, q: Quality, m: Multipliers): real
    decreases |items|
  {
    if items == [] then 0.0
    else TotalOver(items[..|items| - 1], selections, q, m) + Contribution(items[|items| - 1], selections, q, m)
  }

  /**
   * `calculateRehabTotal`: every item of the catalogue adds its contribution
   * exactly once, so a catalogue with nothing selected costs nothing.
   */
  function CalculateRehabTotal(items: seq<RehabItem>, selections: seq<RehabSelection>, q: Quality, m: Multipliers): (total: real)
    ensures var sm := SelectionMap(selections);
            forall k :: 0 <= k < |items| ==>
              total == TotalOver(items[..k], sm, q, m) + Contribution(items[k], sm, q, m) + TotalOver(items[k + 1..], sm, q, m)
    ensures var sm := SelectionMap(selections);
            (forall i :: 0 <= i < |items| ==> items[i].id !in sm || !sm[items[i].id].selected) ==> total == 0.0
  {
    var sm := SelectionMap(selections);
    TotalCountsEachItem(items, sm, q, m);
    TotalOver(items, sm, q, m)
  }

  lemma TotalCountsEachItem(items: seq<RehabItem>, sm: map<string, RehabSelection>, q: Quality, m: Multipliers)
    ensures forall k :: 0 <= k < |items| ==>
              TotalOver(items, sm, q, m)
              == TotalOver(items[..k], sm, q, m) + Contribution(items[k], sm, q, m) + TotalOver(items[k + 1..], sm, q, m)
    ensures (forall i :: 0 <= i < |items| ==> items[i].id !in sm || !sm[items[i].id].selected) ==> TotalOver(items, sm, q, m) == 0.0
  {
    forall k | 0 <= k < |items| {
      TotalAtItem(items, k, sm, q, m);
    }
    if forall i :: 0 <= i < |items| ==> items[i].id !in sm || !sm[items[i].id].selected {
      NothingSelectedTotalsZero(items, sm, q, m);
    }
  }

  lemma TotalAtItem(items: seq<RehabItem>, k: nat, sm: map<string, RehabSelection>, q: Quality, m: Multipliers)
    requires k < |items|
    ensures TotalOver(items, sm, q, m)
            == TotalOver(items[..k], sm, q, m) + Contribution(items[k], sm, q, m) + TotalOver(items[k + 1..], sm, q, m)
  {
    assert items[..k] + [items[k]] + items[k + 1..] == items;
    TotalWithItem(items[..k], items[k], items[k + 1..], sm, q, m);
  }

  /** An item with no selection, or an unselected one, adds nothing, whatever its quantity or override. */
  lemma UnselectedContributesNothing(item: RehabItem, selections: map<string, RehabSelection>, q: Quality, m: Multipliers)
    requires item.id !in selections || !selections[item.id].selected
    ensures Contribution(item, selections, q, m) == 0.0
  {
  }

  /** A selected item adds its resolved unit price times its quantity. */
  lemma SelectedContribution(item: RehabItem, selections: map<string, RehabSelection>, q: Quality, m: Multipliers)
    requires item.id in selections && selections[item.id].selected
    ensures var sel := selections[item.id];
            Contribution(item, selections, q, m)
            == ResolveUnitPrice(item, sel.overrideUnitPrice, q, m) * QuantityOf(sel, item)
  {
  }

  /** The fold distributes over concatenation of the catalogue. */
  lemma {:induction false} TotalOverAppend(a: seq<RehabItem>, b: seq<RehabItem>, selections: map<string, RehabSelection>, q: Quality, m: Multipliers)
    ensures TotalOver(a + b, selections, q, m) == TotalOver(a, selections, q, m) + TotalOver(b, selections, q, m)
    decreases |b|
  {
    if b == [] {
      assert a + b == a;
    } else {
      assert (a + b)[..|a + b| - 1] == a + b[..|b| - 1];
      TotalOverAppend(a, b[..|b| - 1], selections, q, m);
    }
  }

  /** The total is the sum of the contributions: an item's contribution is added exactly once wherever it stands. */
  lemma TotalWithItem(before: seq<RehabItem>, item: RehabItem, after: seq<RehabItem>, selections: map<string, RehabSelection>, q: Quality, m: Multipliers)
    ensures TotalOver(before + [item] + after, selections, q, m)
            == TotalOver(before, selections, q, m) + Contribution(item, selections, q, m) + TotalOver(after, selections, q, m)
  {
    TotalOverAppend(before + [item], after, selections, q, m);
    assert (before + [item])[..|before|] == before;
  }

  /** With no item selected, the total is 0. */
  lemma {:induction false} NothingSelectedTotalsZero(items: seq<RehabItem>, selections: map<string, RehabSelection>, q: Quality, m: Multipliers)
    requires forall i :: 0 <= i < |items| ==> items[i].id !in selections || !selections[items[i].id].selected
    ensures TotalOver(items, selections, q, m) == 0.0
    decreases |items|
  {
    if items != [] {
      NothingSelectedTotalsZero(items[..|items| - 1], selections, q, m);
    }
  }

  /** An id is in the selection map exactly when some selection carries it. */
  lemma {:induction false} SelectionMapKeys(selections: seq<RehabSelection>, id: string)
    ensures id in SelectionMap(selections) <==> exists j :: 0 <= j < |selections| && selections[j].id == id
    decreases |selections|
  {
    if selections != [] {
      var front := selections[..|selections| - 1];
      SelectionMapKeys(front, id);
      if id in SelectionMap(front) {
        var j :| 0 <= j < |front| && front[j].id == id;
        assert selections[j].id == id;
      }
      if exists j :: 0 <= j < |selections| && selections[j].id == id {
        var j :| 0 <= j < |selections| && selections[j].id == id;
        if j < |front| {
          assert front[j].id == id;
        }
      }
    }
  }

  /** When several selections share an id, the last of them is the one the map holds. */
  lemma {:induction false} SelectionMapLastWins(selections: seq<RehabSelection>, j: nat)
    requires j < |selections|
    requires forall k :: j < k < |selections| ==> selections[k].id != selections[j].id
    ensures selections[j].id in SelectionMap(selections)
    ensures SelectionMap(selections)[selections[j].id] == selections[j]
    decreases |selections|
  {
    var front := selections[..|selections| - 1];
    if j < |front| {
      SelectionMapLastWins(front, j);
    }
  }

  /** An override wins over tier and flat pricing. */
  lemma OverrideWins(item: RehabItem, override: real, q: Quality, m: Multipliers)
    ensures ResolveUnitPrice(item, Some(override), q, m) == override
  {
  }

  /** Tier A with a B base price is that price times 1.3, whatever the multiplier table. */
  lemma TierAFromB(item: RehabItem, m1: Multipliers, m2: Multipliers)
    requires item.basePrices.Some? && item.basePrices.value.b.Some?
    ensures ResolveUnitPrice(item, None, A, m1) == item.basePrices.value.b.value * 1.3
    ensures ResolveUnitPrice(item, None, A, m1) == ResolveUnitPrice(item, None, A, m2)
  {
  }

  /** Tier B takes the B base price and tier C the C base price when present. */
  lemma TierOwnBasePrice(item: RehabItem, m: Multipliers)
    requires item.basePrices.Some?
    ensures item.basePrices.value.b.Some? ==> ResolveUnitPrice(item, None, B, m) == item.basePrices.value.b.value
    ensures item.basePrices.value.c.Some? ==> ResolveUnitPrice(item, None, C, m) == item.basePrices.value.c.value
  {
  }

  /** The cross-tier fallbacks when only the other base price is present. */
  lemma CrossTierFallbacks(item: RehabItem, m: Multipliers)
    requires item.basePrices.Some?
    ensures var p := item.basePrices.value;
            p.b.None? && p.c.Some? ==>
              && ResolveUnitPrice(item, None, B, m) * NonZeroC(m) == p.c.value
              && ResolveUnitPrice(item, None, A, m) == p.c.value * m.a
    ensures var p := item.basePrices.value;
            p.c.None? && p.b.Some? ==> ResolveUnitPrice(item, None, C, m) == p.b.value * m.c
  {
  }

  /** Without a base-price map, the unit price is the flat price (0 when absent) times the tier's multiplier. */
  lemma FlatPricing(item: RehabItem, q: Quality, m: Multipliers)
    requires item.basePrices.None?
    ensures ResolveUnitPrice(item, None, q, m) == Or0(item.unitPrice) * MultiplierOf(m, q)
  {
  }

  /** The catalogue of the aggregator's tests: paint at a flat 3000, flooring at a flat 5000, cabinets at B 8000 / C 5000. */
  function Paint(): RehabItem { RehabItem("paint", None, "Paint", Fixed, Some(3000.0), None, Some(1.0)) }
  function Floor(): RehabItem { RehabItem("floor", None, "Flooring", Quantity, Some(5000.0), None, Some(1.0)) }
  function Cabinets(): RehabItem { RehabItem("cab", None, "Cabinets", Fixed, None, Some(BasePrices(Some(5000.0), Some(8000.0))), None) }

  /** Quantities multiply the unit price: one paint and two floors at the default quality total 13000. */
  lemma TotalWithQuantities()
    ensures CalculateRehabTotal([Paint(), Floor()],
                                [RehabSelection("paint", Some(1.0), true, None), RehabSelection("floor", Some(2.0), true, None)],
                                DefaultQuality, DefaultMultipliers) == 3000.0 + 2.0 * 5000.0
  {
    var sels := [RehabSelection("paint", Some(1.0), true, None), RehabSelection("floor", Some(2.0), true, None)];
    var sm := SelectionMap(sels);
    assert sels[..1] == [sels[0]];
    assert SelectionMap(sels[..1]) == map["paint" := sels[0]];
    assert sm == map["paint" := sels[0], "floor" := sels[1]];
    var items := [Paint(), Floor()];
    assert items[..1] == [Paint()];
    assert TotalOver([Paint()], sm, DefaultQuality, DefaultMultipliers) == 3000.0;
  }

  /** An unselected item adds nothing and an override replaces the catalogue price: the total is 6000. */
  lemma TotalWithOverrideAndUnselected()
    ensures CalculateRehabTotal([Paint(), Floor()],
                                [RehabSelection("paint", Some(1.0), false, None), RehabSelection("floor", Some(1.0), true, Some(6000.0))],
                                DefaultQuality, DefaultMultipliers) == 6000.0
  {
    var sels := [RehabSelection("paint", Some(1.0), false, None), RehabSelection("floor", Some(1.0), true, Some(6000.0))];
    var sm := SelectionMap(sels);
    assert sels[..1] == [sels[0]];
    assert SelectionMap(sels[..1]) == map["paint" := sels[0]];
    assert sm == map["paint" := sels[0], "floor" := sels[1]];
    var items := [Paint(), Floor()];
    assert items[..1] == [Paint()];
    assert TotalOver([Paint()], sm, DefaultQuality, DefaultMultipliers) == 0.0;
  }

  /** Tier A prices the cabinets at the B base price with the 30% uplift: 10400. */
  lemma TotalAtTierA()
    ensures CalculateRehabTotal([Cabinets()], [RehabSelection("cab", Some(1.0), true, None)], A, DefaultMultipliers)
            == 8000.0 * 1.3
  {
    var sels := [RehabSelection("cab", Some(1.0), true, None)];
    assert SelectionMap(sels) == map["cab" := sels[0]];
    assert [Cabinets()][..0] == [];
  }
}
