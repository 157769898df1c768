/** Commands to the broker: their kinds, their identities, and which are valid.
    Prices and quantities are reals, so every value is finite. */
module Commands {
  import opened Basics
  import opened Text

  datatype OrderSide = Buy | Sell
  datatype OrderType = Market | Limit | Stop | StopLimit | TrailingStop
  datatype OrderClass = Simple | Bracket | OCO | OTO | TRO

  datatype BrokerOrderRequest = BrokerOrderRequest(
    clientOrderId: string,
    insightId: string,
    strategyType: string,
    symbol: string,
    quantity: Option<real>,
    side: OrderSide,
    orderType: OrderType,
    orderClass: OrderClass,
    limitPrice: Option<real>,
    stopPrice: Option<real>,
    takeProfitLevels: Option<seq<real>>,
    stopLossLevels: Option<seq<real>>,
    trailingStopPrice: Option<real>)

  datatype BrokerCommandAction =
    | AmendEntry(orderId: string, amendLimit: Option<real>, amendStop: Option<real>)
    | Submit(request: BrokerOrderRequest)
    | Cancel(orderId: string)
    | Close(orderId: string, quantity: real, closePrice: Option<real>)
    | Replace(orderId: string, price: real, quantity: real)
    | TakeProfit(orderId: string, price: real, quantity: real)
    | StopLoss(orderId: string, price: real, quantity: real)
  {
    predicate IsEntry() { Submit? }

    predicate IsTeardown() { Cancel? || Close? }

    /** The order the mutation targets; a submission has none yet. */
    function TargetOrder(): Option<string> {
      if Submit? then None else Some(orderId)
    }

    /** Terminal evidence for exactly the targeted order settles an uncertain
        clean-up or protection update, never an entry or a replacement. */
    predicate SettledByTerminal(order: Option<string>, state: InsightState) {
      && TargetOrder().Some?
      && TargetOrder() == order
      && match this {
           case Close(_, _, _) => state == Closed
           case Cancel(_) => state in {Cancelled, Rejected, Closed}
           case TakeProfit(_, _, _) => state in {Closed, Cancelled}
           case StopLoss(_, _, _) => state in {Closed, Cancelled}
           case _ => false
         }
    }
  }

  datatype InsightState = New | Executed | Filled | Closed | Cancelled | Rejected

  /** A UUIDv5 over (strategy, account, client order id) is taken to be
      injective, so an entry identity is the triple itself. Every other text an
      identity may hold is a `TextId`. */
  datatype BrokerCommandId =
    | EntryId(strategyId: string, accountId: string, clientOrderId: string)
    | TextId(text: string)

  datatype BrokerOperationGroup = BrokerOperationGroup(id: string, version: nat)

  datatype BrokerDispatchConstraints = BrokerDispatchConstraints(maxTotalSymbolQuantity: Option<real>)

  /** `jsonBytes` is the length of the command's JSON text. */
  datatype BrokerCommand = BrokerCommand(
    version: nat,
    id: BrokerCommandId,
    strategyId: string,
    accountId: string,
    insightId: string,
    group: Option<BrokerOperationGroup>,
    constraints: BrokerDispatchConstraints,
    action: BrokerCommandAction,
    jsonBytes: nat)
  {
    function Receipt(): BrokerCommandReceipt {
      BrokerCommandReceipt(id, insightId, group)
    }
  }

  datatype BrokerCommandReceipt = BrokerCommandReceipt(
    id: BrokerCommandId, insightId: string, group: Option<BrokerOperationGroup>)

  /** The parts of a broker order that evidence checks compare. */
  datatype Order = Order(orderId: string, insightId: Option<string>, symbol: string, side: OrderSide, status: string)

  datatype BrokerCommandOutcome =
    | OrderResponse(order: Order)
    | Acknowledged
    | Declined(reason: string)
    | Ambiguous(reason: string)
    | CancelledBeforeDispatch

  datatype BrokerCommandCompletion = BrokerCommandCompletion(
    receipt: BrokerCommandReceipt,
    queuedAt: int,
    dispatchedAt: Option<int>,
    completedAt: int,
    outcome: BrokerCommandOutcome)

  datatype BrokerCommandError =
    | Invalid
    | TooLarge
    | QueueFull
    | WorkerClosed
    | Stopping
    | IdentityConflict
    | Journal

  const BROKER_COMMAND_VERSION: nat := 1
  const MAX_BROKER_COMMAND_BYTES: nat := 16 * 1024

  predicate Positive(v: real) { v > 0.0 }

  predicate PositiveIfAny(v: Option<real>) { v.Some? ==> Positive(v.value) }

  predicate AllPositive(levels: Option<seq<real>>) {
    levels.Some? ==> forall i :: 0 <= i < |levels.value| ==> Positive(levels.value[i])
  }

  predicate IdentityText(s: string) {
    s != [] && Trim(s) == s && ByteLen(s) <= 512
  }

  /** A derived identity prints as 36 characters, none of them blank. */
  predicate ValidId(id: BrokerCommandId) {
    id.TextId? ==> IdentityText(id.text)
  }

  predicate OversizedRequest(r: BrokerOrderRequest) {
    || ByteLen(r.clientOrderId) > 512
    || ByteLen(r.strategyType) > 512
    || ByteLen(r.symbol) > 128
    || (r.takeProfitLevels.Some? && |r.takeProfitLevels.value| > 256)
    || (r.stopLossLevels.Some? && |r.stopLossLevels.value| > 256)
  }

  predicate ValidPayload(c: BrokerCommand) {
    match c.action
    case Submit(r) =>
      && r.insightId == c.insightId
      && Trim(r.clientOrderId) != []
      && Trim(r.symbol) != []
      && r.quantity.Some? && Positive(r.quantity.value)
      && PositiveIfAny(r.limitPrice) && PositiveIfAny(r.stopPrice) && PositiveIfAny(r.trailingStopPrice)
      && AllPositive(r.takeProfitLevels) && AllPositive(r.stopLossLevels)
    case Cancel(_) => true
    case AmendEntry(_, limit, stop) => (limit.Some? || stop.Some?) && PositiveIfAny(limit) && PositiveIfAny(stop)
    case Close(_, quantity, price) => Positive(quantity) && PositiveIfAny(price)
    case Replace(_, price, quantity) => Positive(quantity) && Positive(price)
    case TakeProfit(_, price, quantity) => Positive(quantity) && Positive(price)
    case StopLoss(_, price, quantity) => Positive(quantity) && Positive(price)
  }

  /** `None` accepts; the checks run in the order that decides which error wins. */
  function Validate(c: BrokerCommand): Option<BrokerCommandError> {
    if c.version != BROKER_COMMAND_VERSION then Some(Invalid)
    else if !(ValidId(c.id) && IdentityText(c.strategyId)
              && IdentityText(c.accountId) && IdentityText(c.insightId)) then Some(Invalid)
    else if c.group.Some? && (Trim(c.group.value.id) == [] || ByteLen(c.group.value.id) > 512) then Some(Invalid)
    else if !PositiveIfAny(c.constraints.maxTotalSymbolQuantity)
            || (c.constraints.maxTotalSymbolQuantity.Some? && !c.action.IsEntry()) then Some(Invalid)
    else if c.action.Submit? && OversizedRequest(c.action.request) then Some(TooLarge)
    else if c.action.Submit?
            && c.id != EntryId(c.strategyId, c.accountId, c.action.request.clientOrderId) then Some(Invalid)
    else if !ValidPayload(c)
            || (c.action.TargetOrder().Some?
                && (Trim(c.action.TargetOrder().value) == [] || ByteLen(c.action.TargetOrder().value) > 512))
    then Some(Invalid)
    else None
  }

  /** `encode`: validation, then the byte ceiling on the JSON text. */
  function EncodeFault(c: BrokerCommand): Option<BrokerCommandError> {
    if Validate(c).Some? then Validate(c)
    else if c.jsonBytes > MAX_BROKER_COMMAND_BYTES then Some(TooLarge)
    else None
  }

  /** `freshText` is the random identity drawn for anything but a submission. */
  function NewWithConstraints(strategyId: string, accountId: string, insightId: string, action: BrokerCommandAction,
                              group: Option<BrokerOperationGroup>, constraints: BrokerDispatchConstraints,
                              freshText: string, jsonBytes: nat): BrokerCommand {
    var strategy := Trim(strategyId);
    var account := Trim(accountId);
    var id := if action.Submit? then EntryId(strategy, account, action.request.clientOrderId) else TextId(freshText);
    BrokerCommand(BROKER_COMMAND_VERSION, id, strategy, account, insightId, group, constraints, action, jsonBytes)
  }

  ghost predicate Named(s: string) { s != "" && Trim(s) == s && ByteLen(s) <= 512 }

  ghost predicate AboveZero(v: Option<real>) { v == None || v.value > 0.0 }

  ghost predicate LevelsAboveZero(levels: Option<seq<real>>) {
    levels == None || (|levels.value| <= 256 && forall v :: v in levels.value ==> v > 0.0)
  }

  /** What the command must say, by its kind. */
  ghost predicate SoundAction(c: BrokerCommand) {
    match c.action
    case Submit(r) =>
      && c.id == EntryId(c.strategyId, c.accountId, r.clientOrderId) && r.insightId == c.insightId
      && Trim(r.clientOrderId) != "" && ByteLen(r.clientOrderId) <= 512 && ByteLen(r.strategyType) <= 512
      && Trim(r.symbol) != "" && ByteLen(r.symbol) <= 128
      && r.quantity != None && r.quantity.value > 0.0
      && AboveZero(r.limitPrice) && AboveZero(r.stopPrice) && AboveZero(r.trailingStopPrice)
      && LevelsAboveZero(r.takeProfitLevels) && LevelsAboveZero(r.stopLossLevels)
    case Cancel(order) => Trim(order) != "" && ByteLen(order) <= 512
    case AmendEntry(order, limit, stop) =>
      && Trim(order) != "" && ByteLen(order) <= 512
      && !(limit == None && stop == None) && AboveZero(limit) && AboveZero(stop)
    case Close(order, quantity, price) => Trim(order) != "" && ByteLen(order) <= 512 && quantity > 0.0 && AboveZero(price)
    case Replace(order, price, quantity) => Trim(order) != "" && ByteLen(order) <= 512 && quantity > 0.0 && price > 0.0
    case TakeProfit(order, price, quantity) => Trim(order) != "" && ByteLen(order) <= 512 && quantity > 0.0 && price > 0.0
    case StopLoss(order, price, quantity) => Trim(order) != "" && ByteLen(order) <= 512 && quantity > 0.0 && price > 0.0
  }

  lemma SubmitExactly(c: BrokerCommand)
    requires c.action.Submit?
    ensures SoundAction(c) <==>
            && ValidPayload(c) && !OversizedRequest(c.action.request)
            && c.id == EntryId(c.strategyId, c.accountId, c.action.request.clientOrderId)
  {
    LevelsExactly(c.action.request.takeProfitLevels);
    LevelsExactly(c.action.request.stopLossLevels);
  }

  /** Exactly the commands that may be journalled and sent. */
  lemma ValidExactly(c: BrokerCommand)
    ensures Validate(c) == None <==>
            && c.version == 1 && (c.id.EntryId? || Named(c.id.text))
            && Named(c.strategyId) && Named(c.accountId) && Named(c.insightId)
            && (c.group == None || (Trim(c.group.value.id) != "" && ByteLen(c.group.value.id) <= 512))
            && (c.constraints.maxTotalSymbolQuantity == None
                || (c.action.Submit? && c.constraints.maxTotalSymbolQuantity.value > 0.0))
            && SoundAction(c)
    ensures EncodeFault(c) == None <==> Validate(c) == None && c.jsonBytes <= 16384
  {
    if c.action.Submit? { SubmitExactly(c); } else { TargetExactly(c); }
  }

  lemma TargetExactly(c: BrokerCommand)
    requires !c.action.Submit?
    ensures SoundAction(c) <==>
            && ValidPayload(c) && c.action.TargetOrder().Some?
            && Trim(c.action.TargetOrder().value) != [] && ByteLen(c.action.TargetOrder().value) <= 512
  {
  }

  lemma LevelsExactly(levels: Option<seq<real>>)
    ensures LevelsAboveZero(levels) <==> AllPositive(levels) && (levels.Some? ==> |levels.value| <= 256)
  {
    if levels.Some? && AllPositive(levels) {
      forall v | v in levels.value ensures v > 0.0 {
        var i :| 0 <= i < |levels.value| && levels.value[i] == v;
      }
    }
    if levels.Some? && LevelsAboveZero(levels) {
      forall i | 0 <= i < |levels.value| ensures Positive(levels.value[i]) { assert levels.value[i] in levels.value; }
    }
  }

  /** Entry identity survives a process that forgot its receipt: two valid
      submissions in one scope share an identity exactly when they carry the
      same client order id, whatever else about them differs. */
  lemma EntryIdentityIsTheIntent(a: BrokerCommand, b: BrokerCommand)
    requires Validate(a).None? && Validate(b).None?
    requires a.action.Submit? && b.action.Submit?
    requires a.strategyId == b.strategyId && a.accountId == b.accountId
    ensures a.id == b.id <==> a.action.request.clientOrderId == b.action.request.clientOrderId
  {
  }

  /** Re-issuing an entry from differently padded scope names yields the same
      identity, and the stored scope is already in the trimmed form that
      `Validate` insists on. */
  lemma ReissueKeepsIdentity(s1: string, s2: string, a1: string, a2: string, c1: BrokerCommand, c2: BrokerCommand)
    requires Trim(s1) == Trim(s2) && Trim(a1) == Trim(a2)
    requires c1.action.Submit? && c2.action.Submit?
    requires c1.action.request.clientOrderId == c2.action.request.clientOrderId
    requires c1 == NewWithConstraints(s1, a1, c1.insightId, c1.action, c1.group, c1.constraints, "", c1.jsonBytes)
    requires c2 == NewWithConstraints(s2, a2, c2.insightId, c2.action, c2.group, c2.constraints, "", c2.jsonBytes)
    ensures c1.id == c2.id
    ensures Trim(c1.strategyId) == c1.strategyId && Trim(c1.accountId) == c1.accountId
  {
    TrimIdempotent(s1);
    TrimIdempotent(a1);
  }
}
