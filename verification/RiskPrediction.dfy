/** What an approval promises: about the position the order will produce, and about its margin. */
module RiskPrediction {
  import opened Contracts
  import opened Numbers
  import opened LivePosition
  import opened RiskEngines

  // ----- the position -----

  datatype Fill = Fill(quantity: int, price: real)

  function Filled(fills: seq<Fill>): int {
    if fills == [] then 0 else Filled(fills[..|fills| - 1]) + fills[|fills| - 1].quantity
  }

  predicate Positive(fills: seq<Fill>) {
    forall fill :: fill in fills ==> fill.quantity > 0 && fill.price > 0.0
  }

  /** The position after an order's partial fills, in order. */
  ghost function AfterFills(position: Position, side: Side, fills: seq<Fill>): (r: Position)
    requires Valid(position) && Tradable(side) && Positive(fills)
    ensures Valid(r)
    ensures Signed(r) == Signed(position) + Sign(side) * Filled(fills)
  {
    if fills == [] then position
    else
      var before := AfterFills(position, side, fills[..|fills| - 1]);
      var last := fills[|fills| - 1];
      FillMovesPosition(before, side, last.quantity, last.price);
      AfterFill(before, side, last.quantity, last.price).value
  }

  /** A risk position shows this live position. */
  predicate Shows(current: RiskPosition, position: Position) {
    position.qty == current.qty && position.side == (if current.qty == 0 then None else Some(current.side))
  }

  /**
    Risk looks at this live position: the one under the command's key, or else the only one there is, or
    else a flat one.
   */
  ghost predicate Observes(command: RiskCommand, positions: Positions, position: Position) {
    if positions.Some? && command.instrumentKey in positions.value then
      Shows(positions.value[command.instrumentKey], position)
    else if positions.Some? && |positions.value| == 1 then
      forall key :: key in positions.value ==> Shows(positions.value[key], position)
    else position.qty == 0
  }

  /** The lookup finds the position that risk observes. */
  lemma ObservedIsCurrent(command: RiskCommand, positions: Positions, position: Position)
    requires Observes(command, positions, position)
    ensures match CurrentPosition(command.instrumentKey, positions)
            case Some(current) => Shows(current, position)
            case None => position.qty == 0
    ensures CurrentQty(command.instrumentKey, positions) == position.qty
  {
    if positions.Some? && command.instrumentKey !in positions.value && |positions.value| == 1 {
      var sole := SoleValue(positions.value);
      var key :| key in positions.value && positions.value[key] == sole;
    }
  }

  /**
    Risk's prediction refines the position engine: however an order is split into fills, and whatever
    their prices, the live position ends with exactly the predicted side and size.
   */
  lemma PredictionIsExact(command: RiskCommand, positions: Positions, position: Position, fills: seq<Fill>)
    requires Valid(position) && Observes(command, positions, position)
    requires Tradable(command.side) && command.qty > 0
    requires Positive(fills) && Filled(fills) == command.qty
    ensures var expected := CalculateExpectedPosition(command, positions);
            var actual := AfterFills(position, command.side, fills);
            expected.side == actual.side && expected.qty == actual.qty
  {
    var expected := CalculateExpectedPosition(command, positions);
    ExpectedIsSigned(command, positions, position);
    SignedDetermines(AfterFills(position, command.side, fills), expected.side, expected.qty);
  }

  /** The prediction, read as a signed quantity, is the position plus the signed order. */
  lemma ExpectedIsSigned(command: RiskCommand, positions: Positions, position: Position)
    requires Valid(position) && Observes(command, positions, position)
    requires Tradable(command.side) && command.qty > 0
    ensures var expected := CalculateExpectedPosition(command, positions);
            if expected.side.None?
            then expected.qty == 0 && Signed(position) + Sign(command.side) * command.qty == 0
            else && Tradable(expected.side.value) && expected.qty > 0
                 && Sign(expected.side.value) * expected.qty == Signed(position) + Sign(command.side) * command.qty
  {
    ObservedIsCurrent(command, positions, position);
    if command.side == BUY {
      assert Sign(command.side) * command.qty == command.qty;
    } else {
      assert Sign(command.side) * command.qty == -command.qty;
    }
  }

  lemma SignedDetermines(position: Position, side: Option<Side>, qty: int)
    requires Valid(position)
    requires side.None? ==> qty == 0 && Signed(position) == 0
    requires side.Some? ==> Tradable(side.value) && qty > 0 && Signed(position) == Sign(side.value) * qty
    ensures position.side == side && position.qty == qty
  {
  }

  lemma {:induction false} PartOfFills(fills: seq<Fill>, k: nat)
    requires Positive(fills) && k <= |fills|
    ensures Positive(fills[..k]) && 0 <= Filled(fills[..k]) <= Filled(fills)
    decreases |fills|
  {
    if k == |fills| {
      assert fills[..k] == fills;
      if fills != [] {
        PartOfFills(fills[..k - 1], k - 1);
      }
    } else {
      assert fills[..|fills| - 1][..k] == fills[..k];
      assert fills[|fills| - 1] in fills;
      PartOfFills(fills[..|fills| - 1], k);
    }
  }

  /**
    An approved order keeps the instrument limit at every moment: from a position within the limit,
    no partial fill of the approved quantity ever exceeds it, be the order cut down by capacity or
    by margin, and be it routed through zero.
   */
  lemma ApprovedOrderKeepsLimit(
    config: RiskConfig, margin: MarginCalculator, killed: bool, dailyLoss: real, command: RiskCommand,
    account: RiskAccount,
    positions: Positions, sensor: Option<SensorSnapshot>, allowReduction: bool,
    position: Position, fills: seq<Fill>, k: nat)
    requires Valid(position) && Observes(command, positions, position) && position.qty <= config.maxPosition
    requires Tradable(command.side)
    requires var r := Evaluate(config, margin, killed, dailyLoss, command, account, positions, sensor, allowReduction);
             r.isApproved && Positive(fills) && Filled(fills) <= r.approvedQty
    requires k <= |fills|
    ensures AfterFills(position, command.side, fills[..k]).qty <= config.maxPosition
  {
    ApprovedWithinCapacity(config, margin, killed, dailyLoss, command, account, positions, sensor, allowReduction);
    FillsKeepLimit(config, command, positions, allowReduction, position, fills, k);
  }

  lemma FillsKeepLimit(
    config: RiskConfig, command: RiskCommand, positions: Positions, allowReduction: bool,
    position: Position, fills: seq<Fill>, k: nat)
    requires Valid(position) && Observes(command, positions, position) && position.qty <= config.maxPosition
    requires Tradable(command.side) && command.qty > 0
    requires CapacityLimited(config, command, positions, allowReduction).Some?
    requires Positive(fills) && Filled(fills) <= CapacityLimited(config, command, positions, allowReduction).value
    requires k <= |fills|
    ensures AfterFills(position, command.side, fills[..k]).qty <= config.maxPosition
  {
    PartOfFills(fills, k);
    CapacityKeepsLimit(config, command, positions, allowReduction, position, Filled(fills[..k]));
    SizeIsMagnitude(AfterFills(position, command.side, fills[..k]));
  }

  lemma SizeIsMagnitude(position: Position)
    requires Valid(position)
    ensures position.qty == if Signed(position) >= 0 then Signed(position) else -Signed(position)
  {
  }

  lemma ApprovedWithinCapacity(
    config: RiskConfig, margin: MarginCalculator, killed: bool, dailyLoss: real, command: RiskCommand,
    account: RiskAccount,
    positions: Positions, sensor: Option<SensorSnapshot>, allowReduction: bool)
    requires Evaluate(config, margin, killed, dailyLoss, command, account, positions, sensor, allowReduction).isApproved
    ensures var r := Evaluate(config, margin, killed, dailyLoss, command, account, positions, sensor, allowReduction);
            var limited := CapacityLimited(config, command, positions, allowReduction);
            command.qty > 0 && limited.Some? && r.approvedQty <= limited.value
  {
  }

  lemma CapacityKeepsLimit(
    config: RiskConfig, command: RiskCommand, positions: Positions, allowReduction: bool, position: Position,
    filled: int)
    requires Valid(position) && Observes(command, positions, position) && position.qty <= config.maxPosition
    requires Tradable(command.side) && command.qty > 0
    requires CapacityLimited(config, command, positions, allowReduction).Some?
    requires 0 <= filled <= CapacityLimited(config, command, positions, allowReduction).value
    ensures -config.maxPosition <= Signed(position) + Sign(command.side) * filled <= config.maxPosition
  {
    ObservedIsCurrent(command, positions, position);
    if command.side == BUY {
      assert Sign(command.side) * filled == filled;
    } else {
      assert Sign(command.side) * filled == -filled;
    }
  }

  function Magnitude(n: int): int {
    if n >= 0 then n else -n
  }

  /** The signed position after `qty` units of the order. */
  function After(position: Position, command: RiskCommand, qty: int): int {
    Signed(position) + Sign(command.side) * qty
  }

  /** The order is on the other side of an open position. */
  predicate Opposes(command: RiskCommand, position: Position) {
    position.qty > 0 && position.side != Some(command.side)
  }

  /**
    What the instrument limit leaves of an order beside this position: all of it if the position after it is
    within the limit, and otherwise, if reductions are allowed, what is left beside the size of the position.
   */
  function Room(config: RiskConfig, command: RiskCommand, position: Position, allowReduction: bool): Option<int> {
    var room := config.maxPosition - Magnitude(Signed(position));
    if Magnitude(After(position, command, command.qty)) <= config.maxPosition then Some(command.qty)
    else if allowReduction && 0 < room < command.qty then Some(room)
    else None
  }

  /** The engine leaves exactly that, whatever the sides. */
  lemma CapacityIsExact(
    config: RiskConfig, command: RiskCommand, positions: Positions, allowReduction: bool, position: Position)
    requires Valid(position) && Observes(command, positions, position)
    requires Tradable(command.side) && command.qty > 0
    ensures CapacityLimited(config, command, positions, allowReduction)
            == Room(config, command, position, allowReduction)
  {
    ObservedIsCurrent(command, positions, position);
    ExpectedIsSigned(command, positions, position);
    SizeIsMagnitude(position);
    var expected := CalculateExpectedPosition(command, positions);
    if expected.side == Some(BUY) {
      assert Sign(BUY) * expected.qty == expected.qty;
    } else {
      assert Sign(SELL) * expected.qty == -expected.qty;
    }
  }

  /** `qty` is as much of the order as the limit admits. */
  ghost predicate LargestWithin(config: RiskConfig, command: RiskCommand, position: Position, qty: int) {
    && Magnitude(After(position, command, qty)) <= config.maxPosition
    && (forall more :: qty < more <= command.qty ==> Magnitude(After(position, command, more)) > config.maxPosition)
  }

  /** The reduction leaves as much as the limit admits if and only if the order does not oppose the position. */
  lemma ReductionIsLargestExactly(
    config: RiskConfig, command: RiskCommand, positions: Positions, position: Position)
    requires Valid(position) && Observes(command, positions, position) && position.qty <= config.maxPosition
    requires Tradable(command.side) && command.qty > 0
    requires var limited := CapacityLimited(config, command, positions, true);
             limited.Some? && limited.value < command.qty
    ensures LargestWithin(config, command, position, CapacityLimited(config, command, positions, true).value)
            <==> !Opposes(command, position)
  {
    CapacityIsExact(config, command, positions, true, position);
    SizeIsMagnitude(position);
    var qty := CapacityLimited(config, command, positions, true).value;
    SignedAfter(position, command, qty);
    SignedAfter(position, command, qty + 1);
    forall more | qty < more <= command.qty
      ensures Opposes(command, position) || Magnitude(After(position, command, more)) > config.maxPosition
    {
      SignedAfter(position, command, more);
    }
    if Opposes(command, position) {
      assert Magnitude(After(position, command, qty + 1)) <= config.maxPosition;
    }
  }

  lemma SignedAfter(position: Position, command: RiskCommand, qty: int)
    requires Valid(position) && Tradable(command.side) && 0 <= qty
    ensures Magnitude(After(position, command, qty))
            == if Opposes(command, position) then Magnitude(position.qty - qty) else position.qty + qty
  {
    if command.side == BUY {
      assert Sign(command.side) * qty == qty;
    } else {
      assert Sign(command.side) * qty == -qty;
    }
  }

  // ----- the bounds of an approval -----

  /** Every approval, whatever the margin engine computes. */
  lemma ApprovalIsBounded(
    config: RiskConfig, margin: MarginCalculator, killed: bool, dailyLoss: real, command: RiskCommand,
    account: RiskAccount, positions: Positions, sensor: Option<SensorSnapshot>, allowReduction: bool)
    requires Evaluate(config, margin, killed, dailyLoss, command, account, positions, sensor, allowReduction).isApproved
    ensures var r := Evaluate(config, margin, killed, dailyLoss, command, account, positions, sensor, allowReduction);
            && !killed
            && 0 < r.approvedQty <= r.originalQty == command.qty <= config.maxOrderQty
            && (r.decision == REDUCE <==> r.approvedQty < r.originalQty)
            && (r.decision == ALLOW <==> r.approvedQty == r.originalQty)
            && (r.decision == REDUCE ==> allowReduction && r.reducedCommand == Some(command.(qty := r.approvedQty)))
            && r.requiredMargin == margin(command.(qty := r.approvedQty))
            && r.estimatedRatio == MarginRatio(account, r.requiredMargin) <= config.maxMarginRatio
            && r.signature == Some("SIG-RISK-APPROVED-" + command.trackId + "-" + command.clientOrderId)
  {
    assert command.(qty := command.qty) == command;
  }

  /** What was lost today, with the account's own loss if it has one, is below the limit; a profit does not help. */
  predicate LossIsWithin(config: RiskConfig, dailyLoss: real, account: RiskAccount) {
    dailyLoss < config.maxDailyLoss && dailyLoss - account.realizedPnl < config.maxDailyLoss
  }

  // ----- margin -----

  /** A unit costs no more margin in any smaller order than in one of `large` units. */
  ghost predicate CheapestAt(margin: MarginCalculator, command: RiskCommand, large: int) {
    forall small :: 0 < small < large ==>
      Cost(margin, command, small) * large as real <= Cost(margin, command, large) * small as real
  }

  function Cost(margin: MarginCalculator, command: RiskCommand, qty: int): real {
    margin(command.(qty := qty))
  }

  lemma TimesDivided(free: real, required: real, large: int)
    requires large > 0 && required > 0.0
    ensures free / (required / large as real) == free * large as real / required
  {
    var unit := required / large as real;
    assert unit * large as real == required;
    assert unit > 0.0;
    var q := free / unit;
    assert q * unit == free;
    assert q * required == free * large as real by {
      assert q * required == q * (unit * large as real) == q * unit * large as real;
    }
  }

  /** `qty` units are affordable exactly if their share of the whole order's margin is free. */
  lemma AffordableMeans(required: real, large: int, free: real, small: int)
    requires large > 0 && required > 0.0 && small > 0
    ensures Affordable(required, large, free) >= small <==> required * small as real <= free * large as real
  {
    TimesDivided(free, required, large);
    var q := free * large as real / required;
    assert q * required == free * large as real;
    if q >= small as real {
      assert (q - small as real) * required >= 0.0;
    } else {
      assert (small as real - q) * required > 0.0;
    }
    TruncatedAtLeast(q, small);
  }

  lemma TruncatedAtLeast(x: real, n: int)
    requires n > 0
    ensures Truncated(x) >= n <==> x >= n as real
  {
  }

  lemma ScaledAbove(a: real, b: real, scale: real)
    requires scale > 0.0 && a * scale > b * scale
    ensures a > b
  {
    assert a <= b ==> (b - a) * scale >= 0.0;
  }

  lemma ScaledLess(a: real, b: real, scale: real)
    requires scale > 0.0 && a * scale <= b * scale
    ensures a <= b
  {
    assert (b - a) * scale >= 0.0;
  }

  lemma SmallerOrderFits(cost: real, required: real, free: real, small: int, large: int)
    requires large > 0
    requires cost * large as real <= required * small as real <= free * large as real
    ensures cost <= free
  {
    ScaledLess(cost, free, large as real);
  }

  /**
    If a unit costs no more in a smaller order than in the one that capacity leaves, every approval fits
    the free margin, also after a reduction whose margin the engine computes but does not compare again.
   */
  lemma ApprovalFitsFreeMargin(
    config: RiskConfig, margin: MarginCalculator, killed: bool, dailyLoss: real, command: RiskCommand,
    account: RiskAccount, positions: Positions, sensor: Option<SensorSnapshot>, allowReduction: bool, large: int)
    requires CapacityLimited(config, command, positions, allowReduction) == Some(large)
    requires allowReduction && Cost(margin, command, large) > 0.0 ==> CheapestAt(margin, command, large)
    requires Evaluate(config, margin, killed, dailyLoss, command, account, positions, sensor, allowReduction).isApproved
    ensures Evaluate(config, margin, killed, dailyLoss, command, account, positions, sensor, allowReduction)
            .requiredMargin <= account.freeMargin
  {
    var required := Cost(margin, command, large);
    if required > account.freeMargin {
      var small := Affordable(required, large, account.freeMargin);
      assert command.(qty := large).(qty := small) == command.(qty := small);
      assert required > 0.0;
      AffordableMeans(required, large, account.freeMargin, small);
      SmallerOrderFits(Cost(margin, command, small), required, account.freeMargin, small, large);
    }
  }

  /** The free margin that pays for exactly `small` of `large` units at `required`. */
  lemma ExactlyAffordable(required: real, large: int, small: int) returns (free: real)
    requires 0 < small < large && required > 0.0
    ensures 0.0 < free < required && free * large as real == required * small as real
    ensures Affordable(required, large, free) == small
  {
    free := required * small as real / large as real;
    assert free * large as real == required * small as real;
    assert free < required by {
      assert (required - free) * large as real == required * (large - small) as real > 0.0;
    }
    assert free > 0.0 by {
      assert required * small as real > 0.0;
    }
    AffordableMeans(required, large, free, small);
    AffordableMeans(required, large, free, small + 1);
    assert required * (small + 1) as real == required * small as real + required;
  }

  /** An account that can pay for exactly `small` units at the price of `large`, and for no more than their own cost. */
  lemma OverrunningAccount(config: RiskConfig, required: real, cost: real, large: int, small: int)
    returns (account: RiskAccount)
    requires ValidConfig(config) && 0 < small < large && required > 0.0
    requires cost * large as real > required * small as real
    ensures account.realizedPnl == 0.0 && account.freeMargin < required && account.freeMargin < cost
    ensures Affordable(required, large, account.freeMargin) == small
    ensures MarginRatio(account, cost) == config.maxMarginRatio
  {
    var free := ExactlyAffordable(required, large, small);
    ScaledAbove(cost, free, large as real);
    account := RiskAccount(cost / config.maxMarginRatio, 0.0, 0.0, free);
    RatioIsExact(cost, config.maxMarginRatio);
  }

  lemma RatioIsExact(cost: real, ratio: real)
    requires cost > 0.0 && ratio > 0.0
    ensures cost / ratio > 0.0 && cost / (cost / ratio) == ratio
  {
    var balance := cost / ratio;
    assert balance * ratio == cost;
    assert balance > 0.0;
  }

  /**
    And only then: wherever a unit costs more in a smaller order than in the one that capacity leaves, there
    is an account for which the engine approves that smaller order although it needs more margin than is free.
   */
  lemma RisingUnitMarginOverruns(
    config: RiskConfig, margin: MarginCalculator, command: RiskCommand, positions: Positions, large: int, small: int)
    returns (account: RiskAccount)
    requires ValidConfig(config) && 0 < command.qty <= config.maxOrderQty
    requires CapacityLimited(config, command, positions, true) == Some(large)
    requires 0 < small < large && Cost(margin, command, large) > 0.0
    requires Cost(margin, command, small) * large as real > Cost(margin, command, large) * small as real
    ensures var r := Evaluate(config, margin, false, 0.0, command, account, positions, None, true);
            r.isApproved && r.approvedQty == small && r.requiredMargin > account.freeMargin
  {
    account := OverrunningAccount(config, Cost(margin, command, large), Cost(margin, command, small), large, small);
    ReductionIsApproved(config, margin, command, account, large, small);
    ReachesMarginChecks(config, margin, command, account, positions, large);
  }

  lemma ReachesMarginChecks(
    config: RiskConfig, margin: MarginCalculator, command: RiskCommand, account: RiskAccount, positions: Positions,
    large: int)
    requires ValidConfig(config) && 0 < command.qty <= config.maxOrderQty
    requires LossIsWithin(config, 0.0, account)
    requires CapacityLimited(config, command, positions, true) == Some(large)
    ensures Evaluate(config, margin, false, 0.0, command, account, positions, None, true)
            == MarginChecks(config, margin, command.(qty := large), command.qty, account, None, true)
  {
  }

  /** An order that the free margin does not pay for is approved for what it does pay for, at whatever that costs. */
  lemma ReductionIsApproved(
    config: RiskConfig, margin: MarginCalculator, command: RiskCommand, account: RiskAccount, large: int, small: int)
    requires 0 < small < large
    requires Cost(margin, command, large) > account.freeMargin
    requires Affordable(Cost(margin, command, large), large, account.freeMargin) == small
    requires MarginRatio(account, Cost(margin, command, small)) <= config.maxMarginRatio
    ensures var r := MarginChecks(config, margin, command.(qty := large), command.qty, account, None, true);
            r.isApproved && r.approvedQty == small && r.requiredMargin == Cost(margin, command, small)
  {
    assert command.(qty := large).(qty := small) == command.(qty := small);
  }

  /** Every approval of this order, in whatever account and circumstances, fits the free margin. */
  ghost predicate ApprovalsFit(
    config: RiskConfig, margin: MarginCalculator, command: RiskCommand, positions: Positions, allowReduction: bool)
  {
    forall killed, dailyLoss, account, sensor ::
      var r := Evaluate(config, margin, killed, dailyLoss, command, account, positions, sensor, allowReduction);
      r.isApproved ==> r.requiredMargin <= account.freeMargin
  }

  /** Reduction can bring this order from `large` units, which cost something, to a size that costs more per unit. */
  ghost predicate CanOverrun(
    config: RiskConfig, margin: MarginCalculator, command: RiskCommand, positions: Positions, allowReduction: bool)
  {
    && allowReduction && 0 < command.qty <= config.maxOrderQty
    && var limited := CapacityLimited(config, command, positions, true);
       limited.Some? && Cost(margin, command, limited.value) > 0.0 && !CheapestAt(margin, command, limited.value)
  }

  /**
    When approvals fit the free margin, exactly, for every order and whatever positions it meets. They fit in
    every account unless the order is of admissible quantity and may be reduced, the units that the
    instrument limit leaves of it cost something, and some smaller order costs more per unit than they do.
   */
  lemma ApprovalsFitExactly(
    config: RiskConfig, margin: MarginCalculator, command: RiskCommand, positions: Positions, allowReduction: bool)
    requires ValidConfig(config)
    ensures ApprovalsFit(config, margin, command, positions, allowReduction) <==>
              !CanOverrun(config, margin, command, positions, allowReduction)
  {
    var limited := CapacityLimited(config, command, positions, allowReduction);
    if CanOverrun(config, margin, command, positions, allowReduction) {
      var large := limited.value;
      var small :| 0 < small < large &&
        Cost(margin, command, small) * large as real > Cost(margin, command, large) * small as real;
      var account := RisingUnitMarginOverruns(config, margin, command, positions, large, small);
      assert !ApprovalsFit(config, margin, command, positions, allowReduction);
    } else {
      forall killed, dailyLoss, account, sensor |
        Evaluate(config, margin, killed, dailyLoss, command, account, positions, sensor, allowReduction).isApproved
        ensures Evaluate(config, margin, killed, dailyLoss, command, account, positions, sensor, allowReduction)
                .requiredMargin <= account.freeMargin
      {
        ApprovalFitsFreeMargin(config, margin, killed, dailyLoss, command, account, positions, sensor,
                               allowReduction, limited.value);
      }
    }
  }

  // ----- margin, from the side of the account -----

  /** A margin that this account's limit on the ratio admits, but its free margin does not cover. */
  predicate RatioExceedsFree(config: RiskConfig, account: RiskAccount) {
    && account.freeMargin > 0.0
    && (if account.totalBalance > 0.0
        then account.freeMargin < config.maxMarginRatio * account.totalBalance - account.usedMargin
        else config.maxMarginRatio == 1.0)
  }

  /** Whatever the margin function is: an account whose free margin covers its limit on the ratio is never overrun. */
  lemma CoveredAccountFits(
    config: RiskConfig, margin: MarginCalculator, killed: bool, dailyLoss: real, command: RiskCommand,
    account: RiskAccount, positions: Positions, sensor: Option<SensorSnapshot>, allowReduction: bool)
    requires ValidConfig(config) && !RatioExceedsFree(config, account)
    requires Evaluate(config, margin, killed, dailyLoss, command, account, positions, sensor, allowReduction).isApproved
    ensures Evaluate(config, margin, killed, dailyLoss, command, account, positions, sensor, allowReduction)
            .requiredMargin <= account.freeMargin
  {
    var r := Evaluate(config, margin, killed, dailyLoss, command, account, positions, sensor, allowReduction);
    ApprovalIsBounded(config, margin, killed, dailyLoss, command, account, positions, sensor, allowReduction);
    RatioBoundsMargin(config, account, r.requiredMargin);
    if account.freeMargin <= 0.0 {
      var large := CapacityLimited(config, command, positions, allowReduction).value;
      NothingAffordable(Cost(margin, command, large), large, account.freeMargin);
    }
  }

  /** Margin in use and required together stay within their share of the balance. */
  predicate WithinRatio(config: RiskConfig, account: RiskAccount, required: real) {
    if account.totalBalance > 0.0
    then account.usedMargin + required <= config.maxMarginRatio * account.totalBalance
    else config.maxMarginRatio == 1.0
  }

  lemma RatioBoundsMargin(config: RiskConfig, account: RiskAccount, required: real)
    requires ValidConfig(config)
    ensures MarginRatio(account, required) <= config.maxMarginRatio <==> WithinRatio(config, account, required)
  {
    if account.totalBalance > 0.0 {
      var ratio := MarginRatio(account, required);
      assert ratio * account.totalBalance == account.usedMargin + required;
      assert ratio <= config.maxMarginRatio ==> (config.maxMarginRatio - ratio) * account.totalBalance >= 0.0;
      assert ratio > config.maxMarginRatio ==> (ratio - config.maxMarginRatio) * account.totalBalance > 0.0;
    }
  }

  lemma NothingAffordable(required: real, large: int, free: real)
    requires large > 0 && free <= 0.0
    ensures Affordable(required, large, free) <= 0
  {
    if required > 0.0 {
      AffordableMeans(required, large, free, 1);
      assert free * large as real <= 0.0;
    } else {
      NoUnitPrice(required, large);
    }
  }

  lemma NoUnitPrice(required: real, large: int)
    requires large > 0 && required <= 0.0
    ensures required / large as real <= 0.0
  {
    var unit := required / large as real;
    assert unit * large as real == required;
  }

  /** A single unit costs `cost`; any other order costs what `large` units would at `free` each. */
  function Surcharge(large: int, free: real, cost: real): MarginCalculator {
    (command: RiskCommand) => if command.qty == 1 then cost else free * large as real
  }

  /** A margin as large as this account's limit on the ratio admits. */
  function LargestTolerated(config: RiskConfig, account: RiskAccount): real {
    if account.totalBalance > 0.0
    then config.maxMarginRatio * account.totalBalance - account.usedMargin
    else account.freeMargin + 1.0
  }

  lemma ToleratedExceedsFree(config: RiskConfig, account: RiskAccount)
    requires ValidConfig(config) && RatioExceedsFree(config, account)
    ensures LargestTolerated(config, account) > account.freeMargin
    ensures MarginRatio(account, LargestTolerated(config, account)) <= config.maxMarginRatio
  {
    RatioBoundsMargin(config, account, LargestTolerated(config, account));
  }

  /**
    And only such an account: wherever the limit on the ratio admits more than is free, there is a margin function
    for which a reducible order of more than one unit is approved beyond the free margin.
   */
  lemma UncoveredAccountOverruns(
    config: RiskConfig, command: RiskCommand, account: RiskAccount, positions: Positions, large: int)
    returns (margin: MarginCalculator)
    requires ValidConfig(config) && RatioExceedsFree(config, account)
    requires 0 < command.qty <= config.maxOrderQty && LossIsWithin(config, 0.0, account)
    requires CapacityLimited(config, command, positions, true) == Some(large) && large > 1
    ensures var r := Evaluate(config, margin, false, 0.0, command, account, positions, None, true);
            r.isApproved && r.requiredMargin > account.freeMargin
  {
    margin := Surcharge(large, account.freeMargin, LargestTolerated(config, account));
    ToleratedExceedsFree(config, account);
    SurchargeCosts(command, account.freeMargin, LargestTolerated(config, account), large);
    ReductionIsApproved(config, margin, command, account, large, 1);
    ReachesMarginChecks(config, margin, command, account, positions, large);
  }

  lemma SurchargeCosts(command: RiskCommand, free: real, cost: real, large: int)
    requires large > 1 && free > 0.0
    ensures var margin := Surcharge(large, free, cost);
            && Cost(margin, command, 1) == cost && Cost(margin, command, large) > free
            && Affordable(Cost(margin, command, large), large, free) == 1
  {
    OneUnitAffordable(large, free);
  }

  /** Whatever the margin function, no approval of this order overruns this account. A daily loss is not negative. */
  ghost predicate NeverOverrun(config: RiskConfig, command: RiskCommand, account: RiskAccount, positions: Positions) {
    forall margin: MarginCalculator, killed, dailyLoss, sensor, allowReduction ::
      var r := Evaluate(config, margin, killed, dailyLoss, command, account, positions, sensor, allowReduction);
      dailyLoss >= 0.0 && r.isApproved ==> r.requiredMargin <= account.freeMargin
  }

  /** The engine gets as far as comparing the margins of this order, and can reduce it. */
  predicate Reducible(config: RiskConfig, command: RiskCommand, account: RiskAccount, positions: Positions) {
    && 0 < command.qty <= config.maxOrderQty && LossIsWithin(config, 0.0, account)
    && var limited := CapacityLimited(config, command, positions, true);
       limited.Some? && limited.value > 1
  }

  /**
    When approvals fit the free margin, exactly, seen from the account: no margin function overruns it if and only
    if its free margin covers its limit on the ratio, or there is nothing to reduce.
   */
  lemma AccountFitsExactly(config: RiskConfig, command: RiskCommand, account: RiskAccount, positions: Positions)
    requires ValidConfig(config)
    ensures NeverOverrun(config, command, account, positions) <==>
              !(RatioExceedsFree(config, account) && Reducible(config, command, account, positions))
  {
    if RatioExceedsFree(config, account) && Reducible(config, command, account, positions) {
      var large := CapacityLimited(config, command, positions, true).value;
      var margin := UncoveredAccountOverruns(config, command, account, positions, large);
      assert !NeverOverrun(config, command, account, positions);
    } else {
      forall margin: MarginCalculator, killed, dailyLoss, sensor, allowReduction |
        dailyLoss >= 0.0 &&
        Evaluate(config, margin, killed, dailyLoss, command, account, positions, sensor, allowReduction).isApproved
        ensures Evaluate(config, margin, killed, dailyLoss, command, account, positions, sensor, allowReduction)
                .requiredMargin <= account.freeMargin
      {
        if RatioExceedsFree(config, account) {
          IrreducibleFits(config, margin, killed, dailyLoss, command, account, positions, sensor, allowReduction);
        } else {
          CoveredAccountFits(config, margin, killed, dailyLoss, command, account, positions, sensor, allowReduction);
        }
      }
    }
  }

  lemma IrreducibleFits(
    config: RiskConfig, margin: MarginCalculator, killed: bool, dailyLoss: real, command: RiskCommand,
    account: RiskAccount, positions: Positions, sensor: Option<SensorSnapshot>, allowReduction: bool)
    requires !Reducible(config, command, account, positions) && dailyLoss >= 0.0
    requires Evaluate(config, margin, killed, dailyLoss, command, account, positions, sensor, allowReduction).isApproved
    ensures Evaluate(config, margin, killed, dailyLoss, command, account, positions, sensor, allowReduction)
            .requiredMargin <= account.freeMargin
  {
    var limited := CapacityLimited(config, command, positions, allowReduction);
    assert allowReduction || CapacityLimited(config, command, positions, true) == limited;
  }

  lemma OneUnitAffordable(large: int, free: real)
    requires large > 1 && free > 0.0
    ensures free * large as real > free && Affordable(free * large as real, large, free) == 1
  {
    var required := free * large as real;
    assert required - free == free * (large - 1) as real > 0.0;
    AffordableMeans(required, large, free, 1);
    AffordableMeans(required, large, free, 2);
    assert required * 2 as real == required + required;
  }

  ghost predicate LinearMargin(margin: MarginCalculator, command: RiskCommand, unit: real) {
    unit > 0.0 && forall qty :: qty > 0 ==> Cost(margin, command, qty) == unit * qty as real
  }

  /** With a linear margin, the two reductions leave the smaller of what capacity and what margin allow. */
  function Allowance(
    config: RiskConfig, command: RiskCommand, account: RiskAccount, positions: Positions, unit: real): int
    requires unit > 0.0
  {
    match CapacityLimited(config, command, positions, true)
    case None => 0
    case Some(capacity) => Min(capacity, (account.freeMargin / unit).Floor)
  }

  /** An evaluation approves exactly under a condition, and then this quantity at this margin. */
  ghost predicate ApprovesExactly(r: Evaluation, condition: bool, qty: int, required: real) {
    && (r.isApproved <==> condition)
    && (r.isApproved ==> r.approvedQty == qty && r.requiredMargin == required)
  }

  predicate PassesSwitches(
    config: RiskConfig, killed: bool, dailyLoss: real, command: RiskCommand, account: RiskAccount)
  {
    !killed && 0 < command.qty <= config.maxOrderQty && LossIsWithin(config, dailyLoss, account)
  }

  /** The sensor asks for a margin diet, and the order is no hedge. */
  predicate OnDiet(command: RiskCommand, sensor: Option<SensorSnapshot>) {
    sensor.Some? && sensor.value.isMarginDietRequired && command.tagId != "RISK_HEDGE"
  }

  /** The limits on margin, for a command of `qty` units at `required`. */
  predicate MarginAllows(
    config: RiskConfig, command: RiskCommand, account: RiskAccount, sensor: Option<SensorSnapshot>,
    qty: int, required: real)
  {
    qty > 0 && MarginRatio(account, required) <= config.maxMarginRatio && !OnDiet(command, sensor)
  }

  function LinearCostOf(unit: real, qty: int): real {
    unit * qty as real
  }

  /**
    With a linear margin and reduction allowed, an order is approved exactly if it passes the
    switches and its allowance is positive and within the limits on margin; and then for exactly
    its allowance.
   */
  lemma LinearReductionIsExact(
    config: RiskConfig, margin: MarginCalculator, killed: bool, dailyLoss: real, command: RiskCommand,
    account: RiskAccount, positions: Positions, sensor: Option<SensorSnapshot>, unit: real)
    requires LinearMargin(margin, command, unit)
    ensures var r := Evaluate(config, margin, killed, dailyLoss, command, account, positions, sensor, true);
            var allowance := Allowance(config, command, account, positions, unit);
            var required := LinearCostOf(unit, allowance);
            ApprovesExactly(
              r,
              PassesSwitches(config, killed, dailyLoss, command, account) &&
              MarginAllows(config, command, account, sensor, allowance, required),
              allowance, required)
  {
    var r := Evaluate(config, margin, killed, dailyLoss, command, account, positions, sensor, true);
    var limited := CapacityLimited(config, command, positions, true);
    if PassesSwitches(config, killed, dailyLoss, command, account) && limited.Some? {
      assert r == MarginChecks(config, margin, command.(qty := limited.value), command.qty, account, sensor, true);
      LinearMarginChecks(config, margin, command, limited.value, account, sensor, unit);
    } else {
      assert !r.isApproved;
    }
  }

  /** The checks of a command against its margin, when `capacity` units fit the position. */
  lemma LinearMarginChecks(
    config: RiskConfig, margin: MarginCalculator, command: RiskCommand, capacity: int,
    account: RiskAccount, sensor: Option<SensorSnapshot>, unit: real)
    requires LinearMargin(margin, command, unit) && capacity > 0
    ensures var r := MarginChecks(config, margin, command.(qty := capacity), command.qty, account, sensor, true);
            var allowance := Min(capacity, (account.freeMargin / unit).Floor);
            var required := LinearCostOf(unit, allowance);
            ApprovesExactly(r, MarginAllows(config, command, account, sensor, allowance, required), allowance, required)
  {
    var floor := (account.freeMargin / unit).Floor;
    LinearCost(capacity, account.freeMargin, unit);
    assert Cost(margin, command, capacity) == unit * capacity as real;
    if unit * capacity as real > account.freeMargin && floor > 0 {
      assert command.(qty := capacity).(qty := floor) == command.(qty := floor);
      assert Cost(margin, command, floor) == unit * floor as real;
    }
  }

  lemma LinearCost(capacity: int, free: real, unit: real)
    requires capacity > 0 && unit > 0.0
    ensures var floor := (free / unit).Floor;
            && (unit * capacity as real <= free <==> capacity <= floor)
            && Affordable(unit * capacity as real, capacity, free) == Truncated(free / unit)
            && (floor > 0 ==> Truncated(free / unit) == floor)
            && (floor <= 0 ==> Truncated(free / unit) <= 0)
  {
    var q := free / unit;
    assert q * unit == free;
    if capacity as real <= q {
      assert (q - capacity as real) * unit >= 0.0;
    } else {
      assert (capacity as real - q) * unit > 0.0;
    }
    assert unit * capacity as real / capacity as real == unit;
  }

  // ----- every evaluation -----

  /** `qty` is the whole number of units that `free` pays for, at the price of `required` for `large` units. */
  predicate PaysForExactly(required: real, large: int, free: real, qty: int) {
    required * qty as real <= free * large as real < required * (qty + 1) as real
  }

  lemma AffordableIsExact(required: real, large: int, free: real, qty: int)
    requires 0 < qty < large && required > free
    ensures Affordable(required, large, free) == qty <==> PaysForExactly(required, large, free, qty)
  {
    if required > 0.0 {
      AffordableMeans(required, large, free, qty);
      AffordableMeans(required, large, free, qty + 1);
    } else {
      NothingAffordable(required, large, free);
      assert (required - free) * large as real > 0.0;
      assert (-required) * (large - qty) as real >= 0.0;
      assert required * qty as real > free * large as real;
    }
  }

  /** The two reductions leave `qty` units of the order. */
  predicate Sized(
    config: RiskConfig, margin: MarginCalculator, command: RiskCommand, account: RiskAccount, position: Position,
    allowReduction: bool, qty: int)
  {
    var room := Room(config, command, position, allowReduction);
    && room.Some?
    && var required := Cost(margin, command, room.value);
       if required <= account.freeMargin then qty == room.value
       else allowReduction && 0 < qty < room.value && PaysForExactly(required, room.value, account.freeMargin, qty)
  }

  ghost predicate SizedAtAll(
    config: RiskConfig, margin: MarginCalculator, command: RiskCommand, account: RiskAccount, position: Position,
    allowReduction: bool)
  {
    exists qty :: Sized(config, margin, command, account, position, allowReduction, qty)
  }

  /** After the switches and the limit, an order is checked at the size that the margin leaves, or is not paid for. */
  lemma MarginChecksAreExact(
    config: RiskConfig, margin: MarginCalculator, command: RiskCommand, account: RiskAccount, position: Position,
    sensor: Option<SensorSnapshot>, allowReduction: bool, large: int, qty: int)
    requires ValidConfig(config) && Room(config, command, position, allowReduction) == Some(large) && large > 0
    ensures var r := MarginChecks(config, margin, command.(qty := large), command.qty, account, sensor, allowReduction);
            && (Sized(config, margin, command, account, position, allowReduction, qty) ==>
                  && (r.isApproved <==> WithinRatio(config, account, Cost(margin, command, qty)) &&
                                        !OnDiet(command, sensor))
                  && (r.isApproved ==> r.approvedQty == qty)
                  && (!r.isApproved ==> r.rejection == Some(
                        if WithinRatio(config, account, Cost(margin, command, qty))
                        then MARGIN_DIET_ACTIVE else EXCEEDED_MAX_MARGIN_RATIO)))
  {
    var required := Cost(margin, command, large);
    assert command.(qty := large).(qty := qty) == command.(qty := qty);
    RatioBoundsMargin(config, account, Cost(margin, command, qty));
    if required > account.freeMargin && 0 < qty < large {
      AffordableIsExact(required, large, account.freeMargin, qty);
    }
  }

  lemma UnsizedIsNotPaidFor(
    config: RiskConfig, margin: MarginCalculator, command: RiskCommand, account: RiskAccount, position: Position,
    sensor: Option<SensorSnapshot>, allowReduction: bool, large: int)
    requires Room(config, command, position, allowReduction) == Some(large) && large > 0
    requires !SizedAtAll(config, margin, command, account, position, allowReduction)
    ensures var r := MarginChecks(config, margin, command.(qty := large), command.qty, account, sensor, allowReduction);
            !r.isApproved && r.rejection == Some(INSUFFICIENT_FREE_MARGIN)
  {
    var required := Cost(margin, command, large);
    assert !Sized(config, margin, command, account, position, allowReduction, large);
    var affordable := Affordable(required, large, account.freeMargin);
    if allowReduction && 0 < affordable < large {
      AffordableIsExact(required, large, account.freeMargin, affordable);
      assert Sized(config, margin, command, account, position, allowReduction, affordable);
    }
  }

  /** What the checks come to once the order has a size, or has none. */
  ghost predicate Decided(
    config: RiskConfig, margin: MarginCalculator, command: RiskCommand, account: RiskAccount, position: Position,
    sensor: Option<SensorSnapshot>, allowReduction: bool, r: Evaluation)
  {
    && (forall qty :: Sized(config, margin, command, account, position, allowReduction, qty) ==>
          && (r.isApproved <==>
                WithinRatio(config, account, Cost(margin, command, qty)) && !OnDiet(command, sensor))
          && (r.isApproved ==> r.approvedQty == qty)
          && (!r.isApproved ==>
                r.rejection == Some(if WithinRatio(config, account, Cost(margin, command, qty))
                                    then MARGIN_DIET_ACTIVE else EXCEEDED_MAX_MARGIN_RATIO)))
    && (!SizedAtAll(config, margin, command, account, position, allowReduction) ==>
          !r.isApproved && r.rejection == Some(INSUFFICIENT_FREE_MARGIN))
  }

  /**
    Every evaluation, exactly, from the position that risk observes and the figures of the account. An order is denied
    by the first of its obstacles: the kill switch, its quantity, the daily loss, the instrument limit, the free
    margin; and otherwise it has a size, at which it is approved if the ratio and the margin diet admit it.
   */
  lemma EvaluationIsExact(
    config: RiskConfig, margin: MarginCalculator, killed: bool, dailyLoss: real, command: RiskCommand,
    account: RiskAccount, positions: Positions, sensor: Option<SensorSnapshot>, allowReduction: bool,
    position: Position)
    requires ValidConfig(config) && Valid(position) && Observes(command, positions, position)
    requires Tradable(command.side)
    ensures var r := Evaluate(config, margin, killed, dailyLoss, command, account, positions, sensor, allowReduction);
            && (killed ==> r.rejection == Some(REJECTED_BY_KILL_SWITCH))
            && (!killed && command.qty <= 0 ==> r.rejection == Some(INVALID_ORDER_QTY))
            && (!killed && command.qty > config.maxOrderQty ==> r.rejection == Some(EXCEEDED_MAX_ORDER_QTY))
            && (!killed && 0 < command.qty <= config.maxOrderQty ==>
                  if !LossIsWithin(config, dailyLoss, account)
                  then r.rejection == Some(EXCEEDED_MAX_DAILY_LOSS)
                  else if Room(config, command, position, allowReduction).None?
                  then r.rejection == Some(EXCEEDED_INSTRUMENT_LIMIT)
                  else Decided(config, margin, command, account, position, sensor, allowReduction, r))
  {
    if PassesSwitches(config, killed, dailyLoss, command, account) {
      CapacityIsExact(config, command, positions, allowReduction, position);
      var room := Room(config, command, position, allowReduction);
      assert room == CapacityLimited(config, command, positions, allowReduction);
      if room.Some? {
        RoomIsDecided(config, margin, command, account, position, sensor, allowReduction, room.value);
      }
    }
  }

  /** A denial approves nothing and says why; only an approval is signed. */
  lemma DenialIsEmpty(
    config: RiskConfig, margin: MarginCalculator, killed: bool, dailyLoss: real, command: RiskCommand,
    account: RiskAccount, positions: Positions, sensor: Option<SensorSnapshot>, allowReduction: bool)
    ensures var r := Evaluate(config, margin, killed, dailyLoss, command, account, positions, sensor, allowReduction);
            && r.originalQty == command.qty && r.signature.Some? == r.isApproved == r.rejection.None?
            && (!r.isApproved ==> r.decision == DENY && r.approvedQty == 0 && r.reducedCommand == None)
  {
  }

  lemma RoomIsDecided(
    config: RiskConfig, margin: MarginCalculator, command: RiskCommand, account: RiskAccount, position: Position,
    sensor: Option<SensorSnapshot>, allowReduction: bool, large: int)
    requires ValidConfig(config) && Room(config, command, position, allowReduction) == Some(large) && large > 0
    ensures Decided(config, margin, command, account, position, sensor, allowReduction,
                    MarginChecks(config, margin, command.(qty := large), command.qty, account, sensor, allowReduction))
  {
    forall qty | Sized(config, margin, command, account, position, allowReduction, qty)
      ensures var r :=
                MarginChecks(config, margin, command.(qty := large), command.qty, account, sensor, allowReduction);
              && (r.isApproved <==>
                    WithinRatio(config, account, Cost(margin, command, qty)) && !OnDiet(command, sensor))
              && (r.isApproved ==> r.approvedQty == qty)
              && (!r.isApproved ==>
                    r.rejection == Some(if WithinRatio(config, account, Cost(margin, command, qty))
                                        then MARGIN_DIET_ACTIVE else EXCEEDED_MAX_MARGIN_RATIO))
    {
      MarginChecksAreExact(config, margin, command, account, position, sensor, allowReduction, large, qty);
    }
    if !SizedAtAll(config, margin, command, account, position, allowReduction) {
      UnsizedIsNotPaidFor(config, margin, command, account, position, sensor, allowReduction, large);
    }
  }

  // ----- projection onto the broker command -----

  /**
    Projection accepts exactly the positive quantities up to the original's, for the same client
    order, and changes nothing but the quantity.
   */
  lemma ProjectionOnlyReduces(original: BrokerOrderCommand, effective: RiskCommand)
    ensures var r := ProjectRiskEffectiveQuantity(Some(original), Some(effective));
            && (r.Ok? <==> original.clientOrderId == effective.clientOrderId
                           && 0 < effective.qty <= original.quantity)
            && (r.Ok? ==>
                  && r.value.quantity == effective.qty
                  && r.value.(quantity := original.quantity) == original)
  {
  }

  /** An approved order is routed at its approved quantity. */
  lemma ApprovalIsRouted(
    config: RiskConfig, margin: MarginCalculator, killed: bool, dailyLoss: real, command: RiskCommand,
    account: RiskAccount, positions: Positions, sensor: Option<SensorSnapshot>, allowReduction: bool,
    original: BrokerOrderCommand)
    requires Evaluate(config, margin, killed, dailyLoss, command, account, positions, sensor, allowReduction).isApproved
    requires original.clientOrderId == command.clientOrderId && original.quantity == command.qty
    ensures var r := Evaluate(config, margin, killed, dailyLoss, command, account, positions, sensor, allowReduction);
            var effective := if r.reducedCommand.Some? then r.reducedCommand.value else command;
            ProjectRiskEffectiveQuantity(Some(original), Some(effective)) == Ok(original.(quantity := r.approvedQty))
  {
    ApprovalIsBounded(config, margin, killed, dailyLoss, command, account, positions, sensor, allowReduction);
  }
}
