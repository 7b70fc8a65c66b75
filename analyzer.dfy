/**
 * The analyzer page's pure helpers: the strategy dispatcher, the per-tier
 * rehab price derivation with its price bands, and the input validator.
 */
module Analyzer {
  import opened Optional
  import opened Finance
  import opened Types
  import opened Rehab
  import BuyHoldCalculator
  import BrrrrCalculator
  import FlipCalculator

  /** The investment strategy being analysed. */
  datatype Strategy = BuyHold | Brrrr | Flip

  /** The result of whichever calculator ran. */
  datatype CalcResult =
    | BuyHoldOutcome(buyHold: BuyHoldResult)
    | BrrrrOutcome(brrrr: BrrrrResult)
    | FlipOutcome(flip: FlipResult)

  /**
   * `computeResult`: BRRRR and flip go to their calculators, everything else
   * to buy-and-hold; the inputs of the other strategies are ignored.
   */
  method ComputeResult(strategy: Strategy, buyHoldInputs: BuyHoldInputs, brrrrInputs: BrrrrInputs,
                       flipInputs: FlipInputs, monthlyRate: RateConversion) returns (r: CalcResult)
    requires strategy == Brrrr ==> BrrrrCalculator.Computable(brrrrInputs, monthlyRate)
    requires strategy == BuyHold ==> BuyHoldCalculator.Computable(buyHoldInputs, monthlyRate)
    ensures r.BrrrrOutcome? <==> strategy == Brrrr
    ensures r.FlipOutcome? <==> strategy == Flip
    ensures r.BuyHoldOutcome? <==> strategy == BuyHold
    ensures strategy == Brrrr ==> r.brrrr == BrrrrCalculator.Brrrr(brrrrInputs, monthlyRate)
    ensures strategy == Flip ==> r.flip == FlipCalculator.Flip(flipInputs, monthlyRate)
    ensures strategy == BuyHold ==> r.buyHold == BuyHoldCalculator.BuyHold(buyHoldInputs, monthlyRate)
  {
    if strategy == Brrrr {
      var result := BrrrrCalculator.CalculateBrrrr(brrrrInputs, monthlyRate);
      return BrrrrOutcome(result);
    }
    if strategy == Flip {
      var result := FlipCalculator.CalculateFlip(flipInputs, monthlyRate);
      return FlipOutcome(result);
    }
    var result := BuyHoldCalculator.CalculateBuyHold(buyHoldInputs, monthlyRate);
    r := BuyHoldOutcome(result);
  }

  /**
   * The page's own copy of the tier pricing, without an override: tier A
   * from B with the fixed uplift (else from C), tier B from B (else C over
   * the C multiplier), tier C from C (else B times the C multiplier), and
   * otherwise the flat unit price times the tier's multiplier.
   */
  function DeriveUnitPriceForQuality(item: RehabItem, q: Quality, m: Multipliers): real {
    var flat := Or0(item.unitPrice) * MultiplierOf(m, q);
    if item.basePrices.None? then flat
    else
      var p := item.basePrices.value;
      match q
      case A => if p.b.Some? then p.b.value * TierAUplift else if p.c.Some? then p.c.value * m.a else flat
      case B => if p.b.Some? then p.b.value else if p.c.Some? then p.c.value / NonZeroC(m) else flat
      case C => if p.c.Some? then p.c.value else if p.b.Some? then p.b.value * m.c else flat
  }

  /** The page prices an item exactly as the rehab calculator does when there is no override. */
  lemma DeriveMatchesRehab(item: RehabItem, q: Quality, m: Multipliers)
    ensures DeriveUnitPriceForQuality(item, q, m) == ResolveUnitPrice(item, None, q, m)
  {
  }

  /** The selection's override when it has one, else the tier-derived price. */
  function ResolveItemUnitPrice(item: RehabItem, selection: RehabSelection, q: Quality, m: Multipliers): (r: real)
    ensures selection.overrideUnitPrice.Some? ==> r == selection.overrideUnitPrice.value
    ensures selection.overrideUnitPrice.None? ==> r == DeriveUnitPriceForQuality(item, q, m)
  {
    if selection.overrideUnitPrice.Some? then selection.overrideUnitPrice.value
    else DeriveUnitPriceForQuality(item, q, m)
  }

  /** The page's item price is the rehab calculator's price for the selection's override. */
  lemma ResolveItemMatchesRehab(item: RehabItem, selection: RehabSelection, q: Quality, m: Multipliers)
    ensures ResolveItemUnitPrice(item, selection, q, m) == ResolveUnitPrice(item, selection.overrideUnitPrice, q, m)
  {
    DeriveMatchesRehab(item, q, m);
  }

  /** The three tier prices of an item and the one in force. */
  datatype PriceBands = PriceBands(a: real, b: real, c: real, active: real)

  function BandOf(bands: PriceBands, q: Quality): real {
    match q
    case A => bands.a
    case B => bands.b
    case C => bands.c
  }

  function GetPriceBands(item: RehabItem, selection: RehabSelection, q: Quality, m: Multipliers): (bands: PriceBands)
    ensures forall t: Quality :: BandOf(bands, t) == DeriveUnitPriceForQuality(item, t, m)
    ensures selection.overrideUnitPrice.Some? ==> bands.active == selection.overrideUnitPrice.value
    ensures selection.overrideUnitPrice.None? ==> bands.active == BandOf(bands, q)
  {
    var a := DeriveUnitPriceForQuality(item, A, m);
    var b := DeriveUnitPriceForQuality(item, B, m);
    var c := DeriveUnitPriceForQuality(item, C, m);
    var activeBase := if q == A then a else if q == B then b else c;
    PriceBands(a, b, c, selection.overrideUnitPrice.GetOr(activeBase))
  }

  /** The bands depend on the item and the multipliers only: neither the selection nor the chosen quality moves them. */
  lemma BandsIgnoreSelection(item: RehabItem, s1: RehabSelection, s2: RehabSelection, q1: Quality, q2: Quality, m: Multipliers)
    ensures var b1 := GetPriceBands(item, s1, q1, m);
            var b2 := GetPriceBands(item, s2, q2, m);
            b1.a == b2.a && b1.b == b2.b && b1.c == b2.c
  {
  }

  /** The active band is the price the item is charged at: the rehab calculator's price for that selection and quality. */
  lemma ActiveBandIsChargedPrice(item: RehabItem, selection: RehabSelection, q: Quality, m: Multipliers)
    ensures GetPriceBands(item, selection, q, m).active == ResolveItemUnitPrice(item, selection, q, m)
    ensures GetPriceBands(item, selection, q, m).active == ResolveUnitPrice(item, selection.overrideUnitPrice, q, m)
  {
    ResolveItemMatchesRehab(item, selection, q, m);
  }

  /** The validator's warnings, in the order it checks them. */
  datatype Warning = PurchasePriceNotPositive | ArvNotPositive | LoanTermNotPositive | RentNotPositive

  function Message(w: Warning): string {
    match w
    case PurchasePriceNotPositive => "Purchase price should be greater than zero."
    case ArvNotPositive => "ARV should be greater than zero."
    case LoanTermNotPositive => "Loan term should be greater than zero months."
    case RentNotPositive => "Monthly rent should be greater than zero for rental strategies."
  }

  /** The text of each warning, position by position. */
  function Messages(ws: seq<Warning>): (texts: seq<string>)
    ensures |texts| == |ws|
    ensures forall i :: 0 <= i < |ws| ==> texts[i] == Message(ws[i])
  {
    if ws == [] then [] else Messages(ws[..|ws| - 1]) + [Message(ws[|ws| - 1])]
  }

  /** The position of a warning in the validator's order. */
  function Rank(w: Warning): nat {
    match w
    case PurchasePriceNotPositive => 0
    case ArvNotPositive => 1
    case LoanTermNotPositive => 2
    case RentNotPositive => 3
  }

  /** The inputs of the strategy being validated. */
  function BaseOf(strategy: Strategy, buyHold: BuyHoldInputs, brrrr: BrrrrInputs, flip: FlipInputs): BaseInputs {
    match strategy
    case Brrrr => brrrr.base
    case Flip => flip.base
    case BuyHold => buyHold.base
  }

  /** A top-level loan term: only the buy-and-hold inputs have one (BRRRR's is inside its long-term loan). */
  function TopLevelLoanTerm(strategy: Strategy, buyHold: BuyHoldInputs): Option<int> {
    if strategy == BuyHold then Some(buyHold.loan.loanTermMonths) else None
  }

  /** A monthly rent: the rental strategies have one, the flip has none. */
  function MonthlyRentOf(strategy: Strategy, buyHold: BuyHoldInputs, brrrr: BrrrrInputs): Option<real> {
    match strategy
    case BuyHold => Some(buyHold.rent.monthlyRent)
    case Brrrr => Some(brrrr.rent.monthlyRent)
    case Flip => None
  }

  /** When each warning is due. */
  predicate Due(w: Warning, strategy: Strategy, buyHold: BuyHoldInputs, brrrr: BrrrrInputs, flip: FlipInputs) {
    var base := BaseOf(strategy, buyHold, brrrr, flip);
    match w
    case PurchasePriceNotPositive => base.purchasePrice <= 0.0
    case ArvNotPositive => base.arv <= 0.0
    case LoanTermNotPositive => strategy == BuyHold && buyHold.loan.loanTermMonths <= 0
    case RentNotPositive => strategy != Flip && MonthlyRentOf(strategy, buyHold, brrrr).value <= 0.0
  }

  /** A check's result: its warning joins the list when the check fails. */
  function Push(ws: seq<Warning>, fails: bool, w: Warning): seq<Warning> {
    if fails then ws + [w] else ws
  }

  /** The warnings, one check after another. */
  function WarningsFor(strategy: Strategy, buyHold: BuyHoldInputs, brrrr: BrrrrInputs, flip: FlipInputs): seq<Warning> {
    var base := BaseOf(strategy, buyHold, brrrr, flip);
    var loanTerm := TopLevelLoanTerm(strategy, buyHold);
    var rent := MonthlyRentOf(strategy, buyHold, brrrr);
    var afterPrice := Push([], base.purchasePrice <= 0.0, PurchasePriceNotPositive);
    var afterArv := Push(afterPrice, base.arv <= 0.0, ArvNotPositive);
    var afterTerm := Push(afterArv, loanTerm.Some? && loanTerm.value <= 0, LoanTermNotPositive);
    Push(afterTerm, strategy != Flip && rent.Some? && rent.value <= 0.0, RentNotPositive)
  }

  /** `getValidationWarnings`: pushes each warning's message when its check fails. */
  method GetValidationWarnings(strategy: Strategy, buyHold: BuyHoldInputs, brrrr: BrrrrInputs, flip: FlipInputs)
    returns (warnings: seq<string>)
    ensures warnings == Messages(WarningsFor(strategy, buyHold, brrrr, flip))
  {
    var base := BaseOf(strategy, buyHold, brrrr, flip);
    var loanTerm := TopLevelLoanTerm(strategy, buyHold);
    var rent := MonthlyRentOf(strategy, buyHold, brrrr);
    ghost var found: seq<Warning> := [];
    warnings := [];
    warnings, found := Report(warnings, found, base.purchasePrice <= 0.0, PurchasePriceNotPositive);
    warnings, found := Report(warnings, found, base.arv <= 0.0, ArvNotPositive);
    warnings, found := Report(warnings, found, loanTerm.Some? && loanTerm.value <= 0, LoanTermNotPositive);
    warnings, found := Report(warnings, found, strategy != Flip && rent.Some? && rent.value <= 0.0, RentNotPositive);
  }

  /** One check of the validator: push the warning's message when the check fails. */
  method Report(warnings: seq<string>, ghost found: seq<Warning>, fails: bool, w: Warning)
    returns (warnings': seq<string>, ghost found': seq<Warning>)
    requires warnings == Messages(found)
    ensures found' == Push(found, fails, w)
    ensures warnings' == Messages(found')
  {
    warnings', found' := warnings, found;
    if fails {
      MessagesAppend(found, w);
      warnings', found' := warnings + [Message(w)], found + [w];
    }
  }

  /** Helper for the method above: one more warning adds its message at the end. */
  lemma MessagesAppend(ws: seq<Warning>, w: Warning)
    ensures Messages(ws + [w]) == Messages(ws) + [Message(w)]
  {
    assert (ws + [w])[..|ws|] == ws;
  }

  /** Each warning is reported exactly when it is due. */
  lemma WarnsExactlyWhenDue(strategy: Strategy, buyHold: BuyHoldInputs, brrrr: BrrrrInputs, flip: FlipInputs, w: Warning)
    ensures w in WarningsFor(strategy, buyHold, brrrr, flip) <==> Due(w, strategy, buyHold, brrrr, flip)
  {
  }

  /** Warnings come out in the validator's order, each at most once. */
  lemma WarningsInOrder(strategy: Strategy, buyHold: BuyHoldInputs, brrrr: BrrrrInputs, flip: FlipInputs, i: nat, j: nat)
    requires i < j < |WarningsFor(strategy, buyHold, brrrr, flip)|
    ensures Rank(WarningsFor(strategy, buyHold, brrrr, flip)[i]) < Rank(WarningsFor(strategy, buyHold, brrrr, flip)[j])
  {
  }

  /** Inputs with no warning due give no warnings. */
  lemma ValidInputsGiveNoWarnings(strategy: Strategy, buyHold: BuyHoldInputs, brrrr: BrrrrInputs, flip: FlipInputs)
    ensures WarningsFor(strategy, buyHold, brrrr, flip) == []
            <==> forall w: Warning :: !Due(w, strategy, buyHold, brrrr, flip)
  {
    if WarningsFor(strategy, buyHold, brrrr, flip) != [] {
      var w := WarningsFor(strategy, buyHold, brrrr, flip)[0];
      WarnsExactlyWhenDue(strategy, buyHold, brrrr, flip, w);
    } else {
      forall w: Warning
        ensures !Due(w, strategy, buyHold, brrrr, flip)
      {
        WarnsExactlyWhenDue(strategy, buyHold, brrrr, flip, w);
      }
    }
  }

  /** The loan-term check never fires for BRRRR, whose loan term sits inside its long-term loan, nor for the flip. */
  lemma LoanTermWarningIsBuyHoldOnly(strategy: Strategy, buyHold: BuyHoldInputs, brrrr: BrrrrInputs, flip: FlipInputs)
    requires strategy != BuyHold
    ensures LoanTermNotPositive !in WarningsFor(strategy, buyHold, brrrr, flip)
  {
  }

  /** Distinct warnings have distinct messages, so the messages report the warnings faithfully. */
  lemma MessagesAreDistinct(w1: Warning, w2: Warning)
    requires w1 != w2
    ensures Message(w1) != Message(w2)
  {
  }
}
