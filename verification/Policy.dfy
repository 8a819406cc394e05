/** The policy engine: a signal becomes an order intent or a recorded refusal. */
module Policy {
  import opened Results
  import opened Decimals
  import opened Orders
  import opened Portfolio

  datatype RiskLimits = RiskLimits(maxPosition: real, maxDailyLoss: real, minOrderNotional: real)
  {
    predicate Valid() {
      maxPosition > 0.0 && maxDailyLoss > 0.0 && minOrderNotional > 0.0
    }
  }

  datatype CheckName =
    KillSwitch | DailyLoss | ActionableSignal | PositionLimit | AvailableCash | AvailableInventory | MinNotional

  datatype RiskCheck = RiskCheck(name: CheckName, passed: bool)

  datatype Outcome = Submit | HoldBack

  datatype PolicyDecision = PolicyDecision(outcome: Outcome, checks: seq<RiskCheck>, intent: Option<OrderIntent>)

  /** Everything one decision is a function of. */
  datatype Request = Request(
    signal: Signal, account: AccountState, markPrice: real, killSwitch: bool, now: int, cycleId: string)
  {
    predicate Valid() {
      signal.Valid() && account.Valid() && markPrice > 0.0
    }
  }

  /** Down to the venue's smallest increment. */
  function Quantize(quantity: real): real {
    RoundDown(quantity, LOT)
  }

  function SizeFor(notional: real, markPrice: real): real
    requires markPrice > 0.0
  {
    Quantize(notional / markPrice)
  }

  function ShareOf(whole: real, strength: real): real {
    whole * strength
  }

  function Headroom(limits: RiskLimits, req: Request): real {
    limits.maxPosition - req.account.position.NotionalAt(req.markPrice)
  }

  function BuyQuantity(limits: RiskLimits, req: Request): real
    requires req.Valid()
  {
    var wanted := Min(ShareOf(limits.maxPosition, req.signal.strength), Headroom(limits, req));
    SizeFor(Min(wanted, req.account.cash), req.markPrice)
  }

  function SellQuantity(req: Request): real {
    Quantize(ShareOf(req.account.position.quantity, req.signal.strength))
  }

  predicate LargeEnough(limits: RiskLimits, quantity: real, markPrice: real) {
    quantity > 0.0 && quantity * markPrice >= limits.minOrderNotional
  }

  function CommonChecks(limits: RiskLimits, req: Request): seq<RiskCheck> {
    [ RiskCheck(KillSwitch, !req.killSwitch),
      RiskCheck(DailyLoss, req.account.DailyPnlAt(req.markPrice) > -limits.maxDailyLoss),
      RiskCheck(ActionableSignal, req.signal.action != Hold) ]
  }

  function BuyChecks(limits: RiskLimits, req: Request): seq<RiskCheck>
    requires req.Valid()
  {
    [ RiskCheck(PositionLimit, Headroom(limits, req) > 0.0),
      RiskCheck(AvailableCash, req.account.cash > 0.0),
      RiskCheck(MinNotional, LargeEnough(limits, BuyQuantity(limits, req), req.markPrice)) ]
  }

  function SellChecks(limits: RiskLimits, req: Request): seq<RiskCheck> {
    [ RiskCheck(AvailableInventory, req.account.position.quantity > 0.0),
      RiskCheck(MinNotional, LargeEnough(limits, SellQuantity(req), req.markPrice)) ]
  }

  /** Every check that stands between this request and an order, in order. */
  function Gauntlet(limits: RiskLimits, req: Request): seq<RiskCheck>
    requires req.Valid()
  {
    CommonChecks(limits, req) +
    match req.signal.action
    case GoLong => BuyChecks(limits, req)
    case GoFlat => SellChecks(limits, req)
    case Hold => []
  }

  function ClientOrderId(cycleId: string, side: Side): string {
    cycleId + if side == Buy then "-buy" else "-sell"
  }

  function IntentFor(req: Request, side: Side, quantity: real): OrderIntent {
    OrderIntent(ClientOrderId(req.cycleId, side), req.signal.symbol, side, quantity, req.markPrice, req.now)
  }

  function Wanted(limits: RiskLimits, req: Request): OrderIntent
    requires req.Valid()
  {
    if req.signal.action == GoLong then IntentFor(req, Buy, BuyQuantity(limits, req))
    else IntentFor(req, Sell, SellQuantity(req))
  }

  predicate AllPassed(checks: seq<RiskCheck>) {
    forall i :: 0 <= i < |checks| ==> checks[i].passed
  }

  /** Index of the first check at or after `from` that failed, or the length. */
  function FirstFailure(checks: seq<RiskCheck>, from: nat): (n: nat)
    requires from <= |checks|
    ensures from <= n <= |checks|
    ensures forall i :: from <= i < n ==> checks[i].passed
    ensures n < |checks| ==> !checks[n].passed
    decreases |checks| - from
  {
    if from == |checks| || !checks[from].passed then from else FirstFailure(checks, from + 1)
  }

  /** The checks up to and including the first failure. */
  function UpToFirstFailure(checks: seq<RiskCheck>): seq<RiskCheck> {
    var n := FirstFailure(checks, 0);
    if n < |checks| then checks[..n + 1] else checks
  }

  function Refusal(checks: seq<RiskCheck>): PolicyDecision {
    PolicyDecision(HoldBack, checks, None)
  }

  function Ruling(checks: seq<RiskCheck>, intent: OrderIntent): PolicyDecision {
    if AllPassed(checks) then PolicyDecision(Submit, checks, Some(intent))
    else Refusal(UpToFirstFailure(checks))
  }

  function Verdict(limits: RiskLimits, req: Request): PolicyDecision
    requires req.Valid()
  {
    Ruling(Gauntlet(limits, req), Wanted(limits, req))
  }

  /** The list that one decision's checks are appended to in place. */
  class CheckLog {
    var entries: seq<RiskCheck>

    constructor ()
      ensures entries == []
    {
      entries := [];
    }

    method Append(name: CheckName, passed: bool)
      modifies this
      ensures entries == old(entries) + [RiskCheck(name, passed)]
    {
      entries := entries + [RiskCheck(name, passed)];
    }
  }

  class PolicyEngine {
    const limits: RiskLimits

    constructor (limits: RiskLimits)
      requires limits.Valid()
      ensures this.limits == limits
    {
      this.limits := limits;
    }

    method Decide(req: Request) returns (decision: PolicyDecision)
      requires req.Valid()
      ensures decision == Verdict(limits, req)
    {
      var checks := new CheckLog();
      ghost var rest := Gauntlet(limits, req)[3..];
      assert Gauntlet(limits, req) == CommonChecks(limits, req) + rest;
      if req.killSwitch {
        checks.Append(KillSwitch, false);
        assert Gauntlet(limits, req) == [] + [RiskCheck(KillSwitch, false)] + (CommonChecks(limits, req)[1..] + rest);
        FirstFailureCuts([], RiskCheck(KillSwitch, false), CommonChecks(limits, req)[1..] + rest, Wanted(limits, req));
        return Refusal(checks.entries);
      }
      checks.Append(KillSwitch, true);

      var breached := req.account.DailyPnlAt(req.markPrice) <= -limits.maxDailyLoss;
      ghost var before := checks.entries;
      checks.Append(DailyLoss, !breached);
      if breached {
        assert Gauntlet(limits, req) == before + [RiskCheck(DailyLoss, false)] + (CommonChecks(limits, req)[2..] + rest);
        FirstFailureCuts(before, RiskCheck(DailyLoss, false), CommonChecks(limits, req)[2..] + rest, Wanted(limits, req));
        return Refusal(checks.entries);
      }

      var actionable := req.signal.action != Hold;
      before := checks.entries;
      checks.Append(ActionableSignal, actionable);
      if !actionable {
        assert Gauntlet(limits, req) == before + [RiskCheck(ActionableSignal, false)] + [];
        FirstFailureCuts(before, RiskCheck(ActionableSignal, false), [], Wanted(limits, req));
        return Refusal(checks.entries);
      }

      assert checks.entries == CommonChecks(limits, req);
      if req.signal.action == GoLong {
        decision := DecideBuy(req, checks);
      } else {
        decision := DecideSell(req, checks);
      }
    }

    method DecideBuy(req: Request, checks: CheckLog) returns (decision: PolicyDecision)
      requires req.Valid() && AllPassed(checks.entries)
      modifies checks
      ensures decision == Ruling(old(checks.entries) + BuyChecks(limits, req), IntentFor(req, Buy, BuyQuantity(limits, req)))
      ensures checks.entries == decision.checks
    {
      ghost var start, all := checks.entries, BuyChecks(limits, req);
      ghost var intent := IntentFor(req, Buy, BuyQuantity(limits, req));
      var heldNotional := req.account.position.NotionalAt(req.markPrice);
      var headroom := limits.maxPosition - heldNotional;
      checks.Append(PositionLimit, headroom > 0.0);
      if headroom <= 0.0 {
        assert start + all == start + [all[0]] + all[1..];
        FirstFailureCuts(start, all[0], all[1..], intent);
        return Refusal(checks.entries);
      }
      var desired := ShareOf(limits.maxPosition, req.signal.strength);
      var notional := Min(desired, headroom);

      var affordable := req.account.cash > 0.0;
      checks.Append(AvailableCash, affordable);
      if !affordable {
        assert start + all == (start + [all[0]]) + [all[1]] + all[2..];
        FirstFailureCuts(start + [all[0]], all[1], all[2..], intent);
        return Refusal(checks.entries);
      }
      notional := Min(notional, req.account.cash);

      var quantity := SizeFor(notional, req.markPrice);
      assert quantity == BuyQuantity(limits, req);
      assert start + all == checks.entries + [all[2]];
      decision := Finalise(req, Buy, quantity, checks);
    }

    method DecideSell(req: Request, checks: CheckLog) returns (decision: PolicyDecision)
      requires req.Valid() && AllPassed(checks.entries)
      modifies checks
      ensures decision == Ruling(old(checks.entries) + SellChecks(limits, req), IntentFor(req, Sell, SellQuantity(req)))
      ensures checks.entries == decision.checks
    {
      ghost var start, all := checks.entries, SellChecks(limits, req);
      ghost var intent := IntentFor(req, Sell, SellQuantity(req));
      var held := req.account.position.quantity;
      checks.Append(AvailableInventory, held > 0.0);
      if held <= 0.0 {
        assert start + all == start + [all[0]] + all[1..];
        FirstFailureCuts(start, all[0], all[1..], intent);
        return Refusal(checks.entries);
      }
      var quantity := Quantize(ShareOf(held, req.signal.strength));
      assert quantity == SellQuantity(req);
      assert start + all == checks.entries + [all[1]];
      decision := Finalise(req, Sell, quantity, checks);
    }

    method Finalise(req: Request, side: Side, quantity: real, checks: CheckLog) returns (decision: PolicyDecision)
      requires AllPassed(checks.entries)
      modifies checks
      ensures decision == Ruling(old(checks.entries) + [RiskCheck(MinNotional, LargeEnough(limits, quantity, req.markPrice))],
                                 IntentFor(req, side, quantity))
      ensures checks.entries == decision.checks
    {
      ghost var start := checks.entries;
      var notional := quantity * req.markPrice;
      var largeEnough := quantity > 0.0 && notional >= limits.minOrderNotional;
      checks.Append(MinNotional, largeEnough);
      if !largeEnough {
        assert start + [RiskCheck(MinNotional, false)] + [] == start + [RiskCheck(MinNotional, false)];
        FirstFailureCuts(start, RiskCheck(MinNotional, false), [], IntentFor(req, side, quantity));
        return Refusal(checks.entries);
      }
      return PolicyDecision(Submit, checks.entries, Some(IntentFor(req, side, quantity)));
    }
  }

  lemma FirstFailureCuts(passed: seq<RiskCheck>, failed: RiskCheck, rest: seq<RiskCheck>, intent: OrderIntent)
    requires AllPassed(passed) && !failed.passed
    ensures Ruling(passed + [failed] + rest, intent) == Refusal(passed + [failed])
  {
    var all := passed + [failed] + rest;
    assert all[|passed|] == failed;
    assert forall i :: 0 <= i < |passed| ==> all[i] == passed[i];
    assert FirstFailure(all, 0) == |passed|;
    assert all[..|passed| + 1] == passed + [failed];
  }

  const BUY_SEQUENCE := [KillSwitch, DailyLoss, ActionableSignal, PositionLimit, AvailableCash, MinNotional]
  const SELL_SEQUENCE := [KillSwitch, DailyLoss, ActionableSignal, AvailableInventory, MinNotional]

  function Names(checks: seq<RiskCheck>): seq<CheckName> {
    seq(|checks|, i requires 0 <= i < |checks| => checks[i].name)
  }

  lemma GauntletNames(limits: RiskLimits, req: Request)
    requires req.Valid()
    ensures |Gauntlet(limits, req)| >= 3
    ensures Names(Gauntlet(limits, req)) <= (if req.signal.action == GoLong then BUY_SEQUENCE else SELL_SEQUENCE)
    ensures req.signal.action == Hold ==> !AllPassed(Gauntlet(limits, req))
  {
    if req.signal.action == Hold {
      assert !Gauntlet(limits, req)[2].passed;
    }
  }

  lemma RulingIsPrefix(checks: seq<RiskCheck>, intent: OrderIntent)
    requires |checks| > 0
    ensures var d := Ruling(checks, intent);
            && 0 < |d.checks| && d.checks <= checks
            && (d.outcome == Submit <==> AllPassed(d.checks))
            && (d.outcome == Submit <==> AllPassed(checks))
            && (d.outcome == Submit ==> d.checks == checks)
            && (d.outcome == Submit <==> d.intent == Some(intent))
            && (d.outcome == HoldBack ==>
                  && d.intent == None
                  && AllPassed(d.checks[..|d.checks| - 1])
                  && !d.checks[|d.checks| - 1].passed)
  {
    var n := FirstFailure(checks, 0);
    if n == |checks| {
      assert AllPassed(checks);
    } else {
      assert !checks[n].passed;
    }
  }

  /** Every decision is auditable: it is a submission exactly when every recorded
      check passed; a refusal records exactly one failure, the last one; and the
      recorded checks follow the fixed buy or sell sequence without repeats. */
  lemma AuditTrail(limits: RiskLimits, req: Request)
    requires req.Valid()
    ensures var d := Verdict(limits, req);
            && 0 < |d.checks|
            && (d.outcome == Submit <==> AllPassed(d.checks))
            && (d.outcome == Submit <==> d.intent.Some?)
            && (d.outcome == HoldBack ==>
                  AllPassed(d.checks[..|d.checks| - 1]) && !d.checks[|d.checks| - 1].passed)
            && Names(d.checks) <= (if req.signal.action == GoLong then BUY_SEQUENCE else SELL_SEQUENCE)
            && (forall i, j :: 0 <= i < j < |d.checks| ==> d.checks[i].name != d.checks[j].name)
  {
    hide Gauntlet, Wanted, Ruling, AllPassed;
    GauntletNames(limits, req);
    RulingIsPrefix(Gauntlet(limits, req), Wanted(limits, req));
    PrefixKeepsNames(Verdict(limits, req).checks, Gauntlet(limits, req),
                     if req.signal.action == GoLong then BUY_SEQUENCE else SELL_SEQUENCE);
  }

  lemma PrefixKeepsNames(some: seq<RiskCheck>, all: seq<RiskCheck>, sequence: seq<CheckName>)
    requires some <= all && Names(all) <= sequence
    requires sequence == BUY_SEQUENCE || sequence == SELL_SEQUENCE
    ensures Names(some) <= sequence
    ensures forall i, j :: 0 <= i < j < |some| ==> some[i].name != some[j].name
  {
    forall i | 0 <= i < |some|
      ensures some[i].name == sequence[i]
    {
      assert some[i] == all[i] && all[i].name == Names(all)[i];
    }
  }

  /** What stands behind a submitted order. */
  lemma SubmittedMeansPassed(limits: RiskLimits, req: Request)
    requires req.Valid() && Verdict(limits, req).outcome == Submit
    ensures Verdict(limits, req).intent == Some(Wanted(limits, req))
    ensures !req.killSwitch && req.account.DailyPnlAt(req.markPrice) > -limits.maxDailyLoss
    ensures req.signal.action != Hold
    ensures req.signal.action == GoLong ==>
              && Headroom(limits, req) > 0.0 && req.account.cash > 0.0
              && LargeEnough(limits, BuyQuantity(limits, req), req.markPrice)
    ensures req.signal.action == GoFlat ==>
              && req.account.position.quantity > 0.0
              && LargeEnough(limits, SellQuantity(req), req.markPrice)
  {
    var all := Gauntlet(limits, req);
    GauntletNames(limits, req);
    RulingIsPrefix(all, Wanted(limits, req));
    assert all[0].passed && all[1].passed && all[2].passed;
    if req.signal.action == GoLong {
      assert all[3] == BuyChecks(limits, req)[0] && all[4] == BuyChecks(limits, req)[1] && all[5] == BuyChecks(limits, req)[2];
    } else {
      assert all[3] == SellChecks(limits, req)[0] && all[4] == SellChecks(limits, req)[1];
    }
  }

  /** A tripped kill switch or daily loss limit always refuses. */
  lemma TrippedMeansRefused(limits: RiskLimits, req: Request)
    requires req.Valid()
    requires req.killSwitch || req.account.DailyPnlAt(req.markPrice) <= -limits.maxDailyLoss
    ensures Verdict(limits, req).outcome == HoldBack && Verdict(limits, req).intent == None
  {
    GauntletNames(limits, req);
    RulingIsPrefix(Gauntlet(limits, req), Wanted(limits, req));
    assert !Gauntlet(limits, req)[0].passed || !Gauntlet(limits, req)[1].passed;
  }

  lemma QuotientOrder(x: real, notional: real, markPrice: real)
    requires markPrice > 0.0
    ensures x <= notional / markPrice <==> x * markPrice <= notional
  {
    assert (notional / markPrice) * markPrice == notional;
    ScaleOrder(x, notional / markPrice, markPrice);
  }

  lemma SizeIsLargest(notional: real, markPrice: real)
    requires notional >= 0.0 && markPrice > 0.0
    ensures OnGrid(SizeFor(notional, markPrice), LOT)
    ensures SizeFor(notional, markPrice) * markPrice <= notional
    ensures forall y :: OnGrid(y, LOT) && y * markPrice <= notional ==> y <= SizeFor(notional, markPrice)
  {
    QuotientOrder(0.0, notional, markPrice);
    RoundDownIsGreatest(notional / markPrice, LOT);
    QuotientOrder(SizeFor(notional, markPrice), notional, markPrice);
    forall y | OnGrid(y, LOT) && y * markPrice <= notional
      ensures y <= SizeFor(notional, markPrice)
    {
      QuotientOrder(y, notional, markPrice);
    }
  }

  /** `y` is an order size in whole 1e-8 that the strength's share of the limit, what is
      left of the limit and the cash all have room for at the mark. */
  predicate BuyWithin(limits: RiskLimits, req: Request, y: real) {
    && OnGrid(y, 100_000_000.0)
    && y * req.markPrice <= limits.maxPosition * req.signal.strength
    && y * req.markPrice <= limits.maxPosition - req.account.position.quantity * req.markPrice
    && y * req.markPrice <= req.account.cash
  }

  /** And not below the smallest order. */
  predicate BuyFits(limits: RiskLimits, req: Request, y: real) {
    BuyWithin(limits, req, y) && limits.minOrderNotional <= y * req.markPrice
  }

  /** `y` is an order size in whole 1e-8 within the strength's share of the holding. */
  predicate SellWithin(req: Request, y: real) {
    OnGrid(y, 100_000_000.0) && y <= req.account.position.quantity * req.signal.strength
  }

  predicate SellFits(limits: RiskLimits, req: Request, y: real) {
    SellWithin(req, y) && limits.minOrderNotional <= y * req.markPrice
  }

  lemma BoundsInTerms(limits: RiskLimits, req: Request)
    ensures ShareOf(limits.maxPosition, req.signal.strength) == limits.maxPosition * req.signal.strength
    ensures ShareOf(req.account.position.quantity, req.signal.strength) == req.account.position.quantity * req.signal.strength
    ensures Headroom(limits, req) == limits.maxPosition - req.account.position.quantity * req.markPrice
  {
  }

  lemma BuyQuantityIsLargest(limits: RiskLimits, req: Request)
    requires limits.Valid() && req.Valid() && Headroom(limits, req) >= 0.0 && req.account.cash >= 0.0
    ensures BuyWithin(limits, req, BuyQuantity(limits, req))
    ensures forall y :: BuyWithin(limits, req, y) ==> y <= BuyQuantity(limits, req)
  {
    hide Headroom, OnGrid, SizeFor, ShareOf;
    ProductOfNonNegatives(limits.maxPosition, req.signal.strength);
    BoundsInTerms(limits, req);
    var notional := Min(Min(ShareOf(limits.maxPosition, req.signal.strength), Headroom(limits, req)), req.account.cash);
    SizeIsLargest(notional, req.markPrice);
  }

  lemma SellQuantityIsLargest(req: Request)
    requires req.Valid()
    ensures SellWithin(req, SellQuantity(req)) && SellQuantity(req) <= req.account.position.quantity
    ensures forall y :: SellWithin(req, y) ==> y <= SellQuantity(req)
  {
    hide OnGrid;
    var held, strength := req.account.position.quantity, req.signal.strength;
    ProductOfNonNegatives(held, strength);
    ProductOfNonNegatives(held, 1.0 - strength);
    assert held * (1.0 - strength) == held - held * strength;
    RoundDownIsGreatest(ShareOf(held, strength), LOT);
  }

  lemma LargerStillLarge(y: real, q: real, markPrice: real, least: real)
    requires markPrice > 0.0 && least > 0.0 && y <= q && least <= y * markPrice
    ensures q > 0.0 && least <= q * markPrice
  {
    ScaleOrder(y, q, markPrice);
    ScaleOrder(q, 0.0, markPrice);
  }

  /** Cash and holding at the mark. */
  function WorthNow(req: Request): real {
    req.account.cash + req.account.position.quantity * req.markPrice
  }

  /** An order is submitted exactly when nothing has tripped and some order size fits
      every bound: no order that could be placed is refused, and none that could not
      is placed. */
  lemma SubmittedExactlyWhen(limits: RiskLimits, req: Request)
    requires limits.Valid() && req.Valid()
    ensures Verdict(limits, req).outcome == Submit <==>
              && !req.killSwitch
              && WorthNow(req) - req.account.dayOpeningEquity > -limits.maxDailyLoss
              && match req.signal.action
                 case GoLong => exists y :: BuyFits(limits, req, y)
                 case GoFlat => exists y :: SellFits(limits, req, y)
                 case Hold => false
  {
    hide Verdict, BuyFits, SellFits, LargeEnough, Headroom;
    GauntletPasses(limits, req);
    SomeBuyFits(limits, req);
    SomeSellFits(limits, req);
  }

  lemma FittingBuyIsSmaller(limits: RiskLimits, req: Request, y: real)
    requires limits.Valid() && req.Valid() && BuyFits(limits, req, y)
    requires Headroom(limits, req) > 0.0 && req.account.cash > 0.0
    ensures LargeEnough(limits, BuyQuantity(limits, req), req.markPrice)
  {
    hide BuyWithin, Headroom, BuyQuantity;
    BuyQuantityIsLargest(limits, req);
    LargerStillLarge(y, BuyQuantity(limits, req), req.markPrice, limits.minOrderNotional);
  }

  lemma LargestBuyFits(limits: RiskLimits, req: Request)
    requires limits.Valid() && req.Valid() && Headroom(limits, req) > 0.0 && req.account.cash > 0.0
    requires LargeEnough(limits, BuyQuantity(limits, req), req.markPrice)
    ensures BuyFits(limits, req, BuyQuantity(limits, req))
  {
    hide BuyWithin, Headroom, BuyQuantity;
    BuyQuantityIsLargest(limits, req);
  }

  lemma FittingBuyNeedsRoom(limits: RiskLimits, req: Request, y: real)
    requires limits.Valid() && BuyFits(limits, req, y)
    ensures Headroom(limits, req) > 0.0 && req.account.cash > 0.0
  {
    hide OnGrid, Headroom, ShareOf;
    BoundsInTerms(limits, req);
  }

  lemma SomeBuyFits(limits: RiskLimits, req: Request)
    requires limits.Valid() && req.Valid()
    ensures (exists y :: BuyFits(limits, req, y)) <==>
              && Headroom(limits, req) > 0.0 && req.account.cash > 0.0
              && LargeEnough(limits, BuyQuantity(limits, req), req.markPrice)
  {
    hide BuyFits, LargeEnough, Headroom, BuyQuantity;
    if exists y :: BuyFits(limits, req, y) {
      var y :| BuyFits(limits, req, y);
      FittingBuyNeedsRoom(limits, req, y);
      FittingBuyIsSmaller(limits, req, y);
    }
    if Headroom(limits, req) > 0.0 && req.account.cash > 0.0 && LargeEnough(limits, BuyQuantity(limits, req), req.markPrice) {
      LargestBuyFits(limits, req);
    }
  }

  lemma FittingSellIsSmaller(limits: RiskLimits, req: Request, y: real)
    requires limits.Valid() && req.Valid() && SellFits(limits, req, y)
    ensures req.account.position.quantity > 0.0 && LargeEnough(limits, SellQuantity(req), req.markPrice)
  {
    hide SellWithin, SellQuantity;
    SellQuantityIsLargest(req);
    LargerStillLarge(y, SellQuantity(req), req.markPrice, limits.minOrderNotional);
  }

  lemma LargestSellFits(limits: RiskLimits, req: Request)
    requires limits.Valid() && req.Valid() && LargeEnough(limits, SellQuantity(req), req.markPrice)
    ensures SellFits(limits, req, SellQuantity(req))
  {
    hide SellWithin, SellQuantity;
    SellQuantityIsLargest(req);
  }

  lemma SomeSellFits(limits: RiskLimits, req: Request)
    requires limits.Valid() && req.Valid()
    ensures (exists y :: SellFits(limits, req, y)) <==>
              && req.account.position.quantity > 0.0
              && LargeEnough(limits, SellQuantity(req), req.markPrice)
  {
    hide SellFits, LargeEnough, SellQuantity;
    if exists y :: SellFits(limits, req, y) {
      var y :| SellFits(limits, req, y);
      FittingSellIsSmaller(limits, req, y);
    }
    if LargeEnough(limits, SellQuantity(req), req.markPrice) {
      LargestSellFits(limits, req);
    }
  }

  lemma GauntletPasses(limits: RiskLimits, req: Request)
    requires req.Valid()
    ensures Verdict(limits, req).outcome == Submit <==>
              && !req.killSwitch
              && req.account.DailyPnlAt(req.markPrice) > -limits.maxDailyLoss
              && match req.signal.action
                 case GoLong =>
                   && Headroom(limits, req) > 0.0 && req.account.cash > 0.0
                   && LargeEnough(limits, BuyQuantity(limits, req), req.markPrice)
                 case GoFlat =>
                   && req.account.position.quantity > 0.0
                   && LargeEnough(limits, SellQuantity(req), req.markPrice)
                 case Hold => false
  {
    hide LargeEnough, BuyQuantity, SellQuantity, Headroom;
    var all := Gauntlet(limits, req);
    GauntletNames(limits, req);
    RulingIsPrefix(all, Wanted(limits, req));
    if Verdict(limits, req).outcome == Submit {
      SubmittedMeansPassed(limits, req);
    }
  }

  /** A submitted buy is the greatest order size whose notional at the mark fits
      the strength's share of the limit, the remaining headroom and the cash. */
  lemma BuyIsLargestAllowed(limits: RiskLimits, req: Request)
    requires limits.Valid() && req.Valid()
    requires Verdict(limits, req).outcome == Submit && req.signal.action == GoLong
    ensures var q := Verdict(limits, req).intent.value.quantity;
            && BuyFits(limits, req, q) && q > 0.0
            && (req.account.position.quantity + q) * req.markPrice <= limits.maxPosition
    ensures forall y :: BuyWithin(limits, req, y) ==> y <= Verdict(limits, req).intent.value.quantity
  {
    hide Verdict, BuyQuantity, OnGrid, ShareOf, Headroom;
    SubmittedMeansPassed(limits, req);
    BuyQuantityIsLargest(limits, req);
    LargestBuyFits(limits, req);
    var q := BuyQuantity(limits, req);
    assert (req.account.position.quantity + q) * req.markPrice ==
           req.account.position.quantity * req.markPrice + q * req.markPrice;
  }

  /** A submitted sell is the greatest order size within the strength's share of
      the holding, hence never more than is held. */
  lemma SellIsWithinHolding(limits: RiskLimits, req: Request)
    requires limits.Valid() && req.Valid()
    requires Verdict(limits, req).outcome == Submit && req.signal.action == GoFlat
    ensures var q := Verdict(limits, req).intent.value.quantity;
            SellFits(limits, req, q) && 0.0 < q <= req.account.position.quantity
    ensures forall y :: SellWithin(req, y) ==> y <= Verdict(limits, req).intent.value.quantity
  {
    hide Verdict, SellQuantity, SellWithin;
    SubmittedMeansPassed(limits, req);
    SellQuantityIsLargest(req);
    LargestSellFits(limits, req);
  }

  // ---------- What the recorded checks mean ----------

  /** What it takes to pass a check, in terms of the request alone. */
  ghost predicate Passes(name: CheckName, limits: RiskLimits, req: Request) {
    match name
    case KillSwitch => !req.killSwitch
    case DailyLoss => WorthNow(req) - req.account.dayOpeningEquity > -limits.maxDailyLoss
    case ActionableSignal => req.signal.action == GoLong || req.signal.action == GoFlat
    case PositionLimit => req.account.position.quantity * req.markPrice < limits.maxPosition
    case AvailableCash => req.account.cash > 0.0
    case AvailableInventory => req.account.position.quantity > 0.0
    case MinNotional =>
      if req.signal.action == GoLong then exists y :: BuyFits(limits, req, y) else exists y :: SellFits(limits, req, y)
  }

  lemma CommonChecksMean(limits: RiskLimits, req: Request, i: nat)
    requires req.Valid() && i < 3
    ensures i < |Gauntlet(limits, req)|
    ensures Gauntlet(limits, req)[i].name == BUY_SEQUENCE[i] == SELL_SEQUENCE[i]
    ensures Gauntlet(limits, req)[i].passed <==> Passes(BUY_SEQUENCE[i], limits, req)
  {
    hide BuyChecks, SellChecks;
  }

  lemma BuyChecksMean(limits: RiskLimits, req: Request, i: nat)
    requires limits.Valid() && req.Valid() && req.signal.action == GoLong && i < 3
    requires i == 2 ==> BuyChecks(limits, req)[0].passed && BuyChecks(limits, req)[1].passed
    ensures Gauntlet(limits, req)[3 + i] == BuyChecks(limits, req)[i]
    ensures BuyChecks(limits, req)[i].name == BUY_SEQUENCE[3 + i]
    ensures BuyChecks(limits, req)[i].passed <==> Passes(BUY_SEQUENCE[3 + i], limits, req)
  {
    hide BuyFits, LargeEnough, BuyQuantity, Headroom;
    BoundsInTerms(limits, req);
    SomeBuyFits(limits, req);
  }

  lemma SellChecksMean(limits: RiskLimits, req: Request, i: nat)
    requires limits.Valid() && req.Valid() && req.signal.action == GoFlat && i < 2
    requires i == 1 ==> SellChecks(limits, req)[0].passed
    ensures Gauntlet(limits, req)[3 + i] == SellChecks(limits, req)[i]
    ensures SellChecks(limits, req)[i].name == SELL_SEQUENCE[3 + i]
    ensures SellChecks(limits, req)[i].passed <==> Passes(SELL_SEQUENCE[3 + i], limits, req)
  {
    hide SellFits, LargeEnough, SellQuantity;
    SomeSellFits(limits, req);
  }

  lemma GauntletLength(limits: RiskLimits, req: Request)
    requires req.Valid()
    ensures |Gauntlet(limits, req)| ==
            match req.signal.action case GoLong => 6 case GoFlat => 5 case Hold => 3
  {
  }

  lemma GauntletMeans(limits: RiskLimits, req: Request, i: nat)
    requires limits.Valid() && req.Valid() && i < |Gauntlet(limits, req)|
    requires AllPassed(Gauntlet(limits, req)[..i])
    ensures Gauntlet(limits, req)[i].passed <==> Passes(Gauntlet(limits, req)[i].name, limits, req)
  {
    hide BuyChecks, SellChecks, Passes;
    var all := Gauntlet(limits, req);
    GauntletLength(limits, req);
    assert forall j :: 0 <= j < i ==> all[..i][j] == all[j];
    if i < 3 {
      CommonChecksMean(limits, req, i);
    } else if req.signal.action == GoLong {
      BuyChecksMean(limits, req, 0);
      BuyChecksMean(limits, req, 1);
      BuyChecksMean(limits, req, i - 3);
    } else {
      SellChecksMean(limits, req, 0);
      SellChecksMean(limits, req, i - 3);
    }
  }

  lemma RecordedMeans(limits: RiskLimits, req: Request, i: nat)
    requires limits.Valid() && req.Valid() && i < |Verdict(limits, req).checks|
    ensures var check := Verdict(limits, req).checks[i];
            check.passed <==> Passes(check.name, limits, req)
  {
    hide Gauntlet, Wanted, Ruling, Passes, AllPassed;
    var d := Verdict(limits, req);
    GauntletLength(limits, req);
    RulingIsPrefix(Gauntlet(limits, req), Wanted(limits, req));
    EarlierPassed(d.checks, i);
    assert Gauntlet(limits, req)[..i] == d.checks[..i];
    GauntletMeans(limits, req, i);
  }

  /** Every recorded check tells the truth about the request, and a refusal names the
      first thing on the buy or sell sequence that stood in the way. */
  lemma ChecksTellTheTruth(limits: RiskLimits, req: Request)
    requires limits.Valid() && req.Valid()
    ensures var d := Verdict(limits, req);
            forall i :: 0 <= i < |d.checks| ==> (d.checks[i].passed <==> Passes(d.checks[i].name, limits, req))
    ensures var d := Verdict(limits, req);
            var sequence := if req.signal.action == GoLong then BUY_SEQUENCE else SELL_SEQUENCE;
            d.outcome == HoldBack ==>
              && 0 < |d.checks| <= |sequence|
              && d.checks[|d.checks| - 1].name == sequence[|d.checks| - 1]
              && !Passes(sequence[|d.checks| - 1], limits, req)
              && forall i :: 0 <= i < |d.checks| - 1 ==> Passes(sequence[i], limits, req)
  {
    hide Verdict, Passes;
    var d := Verdict(limits, req);
    AuditTrail(limits, req);
    forall i | 0 <= i < |d.checks|
      ensures d.checks[i].passed <==> Passes(d.checks[i].name, limits, req)
      ensures d.checks[i].name == Names(d.checks)[i]
    {
      RecordedMeans(limits, req, i);
    }
    if d.outcome == HoldBack {
      RefusedLast(d.checks);
    }
  }

  lemma RefusedLast(checks: seq<RiskCheck>)
    requires |checks| > 0 && AllPassed(checks[..|checks| - 1])
    ensures forall i :: 0 <= i < |checks| - 1 ==> checks[i].passed
  {
    assert forall i :: 0 <= i < |checks| - 1 ==> checks[..|checks| - 1][i] == checks[i];
  }

  lemma EarlierPassed(checks: seq<RiskCheck>, i: nat)
    requires i < |checks| && (AllPassed(checks) || AllPassed(checks[..|checks| - 1]))
    ensures AllPassed(checks[..i])
  {
    assert forall j :: 0 <= j < |checks| - 1 ==> checks[..|checks| - 1][j] == checks[j];
  }
}
