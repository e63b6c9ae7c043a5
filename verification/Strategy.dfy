/** The laddering strategy as a state machine: what each phase of a bar, and each
    order notification, does to the strategy's variables and to the broker's open
    orders. */
module Strategy {
  import opened Outcomes
  import opened Pricing
  import opened Orders
  import opened Ladder

  datatype Config = Config(
    maxpozic: int, defModeFrom: Option<real>, chunk: int, vykladka: int,
    curve: seq<real>, curveDef: seq<real>,
    profit: real, defProfit: Option<real>, maxProfit: Option<real>,
    firstBuyMarket: bool, firstBuyMarketDefMode: bool, marketBuyMultiplier: int,
    consolidationBarCount: int, ticks2resetBackup: real,
    buyOnlyOnConfirmed: bool, lastbuyOffset: int, offsetResetAfterSell: bool)
  {
    /** Chunks and multipliers count shares, and the bar count is a divisor. */
    predicate Valid() {
      chunk > 0 && marketBuyMultiplier >= 1 && consolidationBarCount > 0
    }
  }

  /** One incoming bar; the rush flags stand for the clock. */
  datatype Bar = Bar(index: int, close: real, confirmed: bool, openRush: bool, closeRush: bool)

  /** What pos() answers: the average price, or nothing after an error. The position in
      an answer is the one held. */
  datatype Report = Unknown | Known(avgp: real)

  datatype MarketSell = MarketSell(close: real, avgp: real, size: int)

  /** `held` is the position at the broker, `positions` what the strategy takes it
      for. */
  datatype State = State(
    held: int, positions: int, avgp: real,
    orders: Book, nextId: nat,
    openBuy: int, openSell: int, sells: seq<MarketSell>,
    pendingbuys: map<nat, real>, jevylozeno: int, blockbuy: int, lastbuyindex: int,
    sellInProgress: bool, ticks2reset: real)

  /** Python's int() of a quotient: towards zero. */
  function TruncatedQuotient(a: int, b: int): int
    requires b > 0
  {
    if a >= 0 then a / b else -(-a / b)
  }

  // ---------- Read-only parts of a bar ----------

  predicate DefensiveMode(cfg: Config, s: State) {
    IsDefensive(s.positions, cfg.maxpozic, cfg.defModeFrom)
  }

  function ProfitPrice(cfg: Config, s: State): real {
    var defProfit := match cfg.defProfit { case Some(v) => v case None => cfg.profit };
    GoalPrice(s.avgp, if DefensiveMode(cfg, s) then defProfit else cfg.profit)
  }

  function MaxProfitPrice(cfg: Config, s: State): real {
    GoalPrice(s.avgp, match cfg.maxProfit { case Some(v) => v case None => 0.03 })
  }

  function QtyMultiplier(cfg: Config, s: State): int
    requires cfg.Valid()
  {
    // positions / chunk strictly between 0 and 4
    if 0 < s.positions < 4 * cfg.chunk then cfg.marketBuyMultiplier else 1
  }

  /** The general preconditions of a buy, all of which must be false. */
  predicate BuyBlocked(cfg: Config, s: State, bar: Bar) {
    || (cfg.buyOnlyOnConfirmed && !bar.confirmed)
    || bar.index < s.lastbuyindex + cfg.lastbuyOffset
    || s.blockbuy == 1
    || s.jevylozeno == 1
    || bar.openRush
    || bar.closeRush
  }

  function Room(cfg: Config, s: State): int {
    cfg.maxpozic - s.positions
  }

  function Curve(cfg: Config, s: State): seq<real> {
    if DefensiveMode(cfg, s) then cfg.curveDef else cfg.curve
  }

  /** `vykladka` cut down to the room left and to the length of the curve. */
  function LadderLength(cfg: Config, s: State): int
    requires cfg.Valid()
  {
    var fits := TruncatedQuotient(Room(cfg, s), cfg.chunk);
    var length := if fits < cfg.vykladka then fits else cfg.vykladka;
    if |Curve(cfg, s)| < length then |Curve(cfg, s)| else length
  }

  function CurveSteps(cfg: Config, s: State): (n: nat)
    requires cfg.Valid()
    ensures n <= |Curve(cfg, s)|
  {
    if LadderLength(cfg, s) >= 1 then LadderLength(cfg, s) - 1 else 0
  }

  predicate FirstAtMarket(cfg: Config, s: State) {
    cfg.firstBuyMarket && !(DefensiveMode(cfg, s) && !cfg.firstBuyMarketDefMode)
  }

  // ---------- Orders ----------

  /** buy_l. Every attempt takes the next id; the broker refuses the ids in
      `refused`, and an order it accepts is open at once and recorded as pending. */
  function PlaceLimit(cfg: Config, s: State, rung: Rung, refused: set<nat>): State {
    if s.positions >= cfg.maxpozic then s
    else if s.nextId in refused then s.(nextId := s.nextId + 1)
    else
      s.(orders := s.orders + [Order(s.nextId, BUY, LIMIT, rung.price, rung.qty, 0)],
         pendingbuys := s.pendingbuys[s.nextId := rung.price],
         nextId := s.nextId + 1)
  }

  function PlaceAll(cfg: Config, s: State, rungs: seq<Rung>, refused: set<nat>): State {
    if rungs == [] then s
    else PlaceLimit(cfg, PlaceAll(cfg, s, rungs[..|rungs| - 1], refused), rungs[|rungs| - 1], refused)
  }

  /** buy: an accepted market buy is open until its fills come in. */
  function BuyAtMarket(cfg: Config, s: State, size: int, refused: set<nat>): State {
    if s.positions >= cfg.maxpozic then s
    else if s.nextId in refused then s.(nextId := s.nextId + 1)
    else s.(openBuy := s.openBuy + size, nextId := s.nextId + 1)
  }

  /** cancel_pending_buys: a cancel request for each pending buy, of which the broker
      carries out those in `cancelled`. The answers are ignored: `pendingbuys` is
      emptied all the same. */
  function CancelPending(s: State, cancelled: set<nat>): State {
    s.(orders := Without(s.orders, cancelled * s.pendingbuys.Keys), pendingbuys := map[], jevylozeno := 0)
  }

  // ---------- The phases of a bar ----------

  function FirstBuy(cfg: Config, s: State, start: real, refused: set<nat>): State
    requires cfg.Valid()
  {
    if FirstAtMarket(cfg, s) then BuyAtMarket(cfg, s, QtyMultiplier(cfg, s) * cfg.chunk, refused)
    else PlaceLimit(cfg, s, Rung(start, cfg.chunk), refused)
  }

  function Tuned(cfg: Config, s: State): State {
    s.(ticks2reset := if DefensiveMode(cfg, s) then 0.06 else cfg.ticks2resetBackup)
  }

  /** The orders of a ladder after its first one. */
  function LaterRungs(cfg: Config, s: State, lastPrice: real): seq<Rung>
    requires cfg.Valid()
  {
    Descend(cfg.chunk, Curve(cfg, s), Price2Dec(lastPrice, 2), CurveSteps(cfg, s)).rungs
  }

  function LayLadder(cfg: Config, s: State, lastPrice: real, index: int, refused: set<nat>): State
    requires cfg.Valid()
  {
    if s.positions >= cfg.maxpozic then s
    else
      var begun := FirstBuy(cfg, Tuned(cfg, s), Price2Dec(lastPrice, 2), refused);
      PlaceAll(cfg, begun, LaterRungs(cfg, s, lastPrice), refused).(blockbuy := 1, jevylozeno := 1, lastbuyindex := index)
  }

  predicate Sends(cfg: Config, s: State, close: real, protection: bool) {
    s.positions > 0 && s.avgp > 0.0 && !s.sellInProgress
    && close >= ProfitPrice(cfg, s) && (close >= MaxProfitPrice(cfg, s) || !protection)
  }

  /** The sale of everything. The answer is not looked at: a refused sale is in
      progress all the same. */
  function EvalSell(cfg: Config, s: State, close: real, protection: bool, accepted: bool): State {
    if !Sends(cfg, s, close, protection) then s
    else if !accepted then s.(sellInProgress := true)
    else
      s.(openSell := s.openSell + s.positions,
         sells := s.sells + [MarketSell(close, s.avgp, s.positions)],
         sellInProgress := true)
  }

  /** state.avgp, state.positions = pos(): an error stores -1 for both. */
  function Refresh(s: State, report: Report): State {
    match report
    case Unknown => s.(positions := -1, avgp := -1.0)
    case Known(avgp) => s.(positions := s.held, avgp := avgp)
  }

  function Consolidate(cfg: Config, s: State, index: int, report: Report): State
    requires cfg.Valid()
  {
    if index % cfg.consolidationBarCount == 0 then
      Refresh(s, report).(pendingbuys := PendingOf(s.orders),
                          jevylozeno := if |PendingOf(s.orders)| > 0 then 1 else 0)
    else s
  }

  function EvalBuy(cfg: Config, s: State, bar: Bar, signal: bool, lastPrice: real, refused: set<nat>): State
    requires cfg.Valid()
  {
    if !BuyBlocked(cfg, s, bar) && signal then LayLadder(cfg, s, lastPrice, bar.index, refused) else s
  }

  /** The price has run away: it is over the dearest pending buy by more than
      `ticks2reset` normalised ticks. */
  ghost predicate RanAway(s: State, lastPrice: real) {
    exists id :: id in s.pendingbuys && IsDearest(s.pendingbuys, id)
                 && lastPrice > s.pendingbuys[id] + GetTick(s.pendingbuys[id], s.ticks2reset)
  }

  ghost predicate IsDearest(pending: map<nat, real>, id: nat) {
    id in pending && forall other :: other in pending ==> pending[other] <= pending[id]
  }

  ghost predicate GivesUp(s: State, cancel: bool, lastPrice: real) {
    |s.pendingbuys| > 0 && (cancel || RanAway(s, lastPrice))
  }

  ghost function OptimizePending(s: State, cancel: bool, lastPrice: real, cancelled: set<nat>): State {
    if |s.pendingbuys| > 0 then
      var after := if cancel || RanAway(s, lastPrice) then CancelPending(s, cancelled) else s;
      if |after.pendingbuys| == 0 then after.(blockbuy := 0, jevylozeno := 0) else after
    else s
  }

  // ---------- Order notifications ----------

  datatype TradeEvent = FILL | PARTIAL_FILL | CANCELED

  /** orderUpdateBuy. */
  function BuyUpdate(s: State, event: TradeEvent, id: nat, report: Report): State {
    var t := if event != PARTIAL_FILL then s.(pendingbuys := s.pendingbuys - {id}, blockbuy := 0) else s;
    if event != CANCELED then Refresh(t, report) else t
  }

  /** The position of a sell notification, and after it that of pos() unless it fails. */
  function SellPosition(s: State, event: TradeEvent, report: Report): State {
    var t := if event != CANCELED then s.(positions := s.held, avgp := if s.held == 0 then 0.0 else s.avgp) else s;
    if event != PARTIAL_FILL && report.Known? then Refresh(t, report) else t
  }

  /** orderUpdateSell up to its cancels: a sale that is over, sold or cancelled, also
      ends the ladder. */
  function SellNoted(cfg: Config, s: State, event: TradeEvent, report: Report): State {
    var t := SellPosition(s.(sellInProgress := event != FILL && s.sellInProgress), event, report);
    if event != PARTIAL_FILL then
      t.(lastbuyindex := if cfg.offsetResetAfterSell then -5 else t.lastbuyindex, jevylozeno := 0)
    else t
  }

  function SellUpdate(cfg: Config, s: State, event: TradeEvent, report: Report, cancelled: set<nat>): State {
    var t := SellNoted(cfg, s, event, report);
    if event != PARTIAL_FILL then CancelPending(t, cancelled) else t
  }

  // ---------- Steps of a run ----------

  /** The four phases of a bar, and what the broker does. `signal`, `protection` and
      `cancel` are the outcomes of the configured directives; `accepted`, `refused`,
      `cancelled` and `report` are the broker's answers. */
  datatype Event =
    | SellPhase(close: real, protection: bool, accepted: bool)
    | ConsolidationPhase(index: int, report: Report)
    | BuyPhase(bar: Bar, signal: bool, lastPrice: real, refused: set<nat>)
    | PendingPhase(cancel: bool, lastPrice: real, cancelled: set<nat>)
    | Fill(k: int, report: Report)                // a limit buy is filled
    | PartFill(k: int, qty: int, report: Report)  // ... in part
    | Drop(k: int)                                // a limit buy is cancelled
    | Lapse(k: int)                               // a limit buy ends with another status
    | Notice(id: nat)                             // the cancel of a closed limit buy is reported late
    | MarketFill(id: nat, qty: int, report: Report)
    | MarketPart(qty: int, report: Report)
    | MarketDrop(id: nat, qty: int)
    | SellPart(qty: int)
    | SellWhole(report: Report, cancelled: set<nat>)
    | SellCancel(report: Report, cancelled: set<nat>)

  predicate Closed(s: State, id: nat) {
    forall o <- s.orders :: o.id != id
  }

  predicate Enabled(s: State, e: Event) {
    match e
    case Fill(k, _) => 0 <= k < |s.orders|
    case PartFill(k, qty, _) => 0 <= k < |s.orders| && 0 < qty < s.orders[k].Remaining()
    case Drop(k) => 0 <= k < |s.orders|
    case Lapse(k) => 0 <= k < |s.orders|
    case Notice(id) => Closed(s, id)
    case MarketFill(id, qty, _) => Closed(s, id) && 0 < qty <= s.openBuy
    case MarketPart(qty, _) => 0 < qty < s.openBuy
    case MarketDrop(id, qty) => Closed(s, id) && 0 < qty <= s.openBuy
    case SellPart(qty) => 0 < qty < s.openSell
    case SellWhole(_, _) => 0 < s.openSell
    case SellCancel(_, _) => 0 < s.openSell
    case _ => true
  }

  function WithoutOrder(s: State, k: nat): State
    requires k < |s.orders|
  {
    s.(orders := s.orders[..k] + s.orders[k + 1..])
  }

  function Partly(o: Order, qty: int): Order {
    o.(filled := o.filled + qty)
  }

  predicate IsPhase(e: Event) {
    e.SellPhase? || e.ConsolidationPhase? || e.BuyPhase? || e.PendingPhase?
  }

  predicate IsSellUpdate(e: Event) {
    e.SellPart? || e.SellWhole? || e.SellCancel?
  }

  ghost function ApplyPhase(cfg: Config, s: State, e: Event): State
    requires cfg.Valid() && IsPhase(e)
  {
    match e
    case SellPhase(close, protection, accepted) => EvalSell(cfg, s, close, protection, accepted)
    case ConsolidationPhase(index, report) => Consolidate(cfg, s, index, report)
    case BuyPhase(bar, signal, lastPrice, refused) => EvalBuy(cfg, s, bar, signal, lastPrice, refused)
    case PendingPhase(cancel, lastPrice, cancelled) => OptimizePending(s, cancel, lastPrice, cancelled)
  }

  function ApplyBuyUpdate(s: State, e: Event): State
    requires Enabled(s, e) && !IsPhase(e) && !IsSellUpdate(e)
  {
    match e
    case Fill(k, report) =>
      BuyUpdate(WithoutOrder(s, k).(held := s.held + s.orders[k].Remaining()), FILL, s.orders[k].id, report)
    case PartFill(k, qty, report) =>
      BuyUpdate(s.(orders := s.orders[k := Partly(s.orders[k], qty)], held := s.held + qty),
                PARTIAL_FILL, s.orders[k].id, report)
    case Drop(k) => BuyUpdate(WithoutOrder(s, k), CANCELED, s.orders[k].id, Unknown)
    case Lapse(k) => WithoutOrder(s, k)
    case Notice(id) => BuyUpdate(s, CANCELED, id, Unknown)
    case MarketFill(id, qty, report) =>
      BuyUpdate(s.(openBuy := s.openBuy - qty, held := s.held + qty), FILL, id, report)
    case MarketPart(qty, report) => Refresh(s.(openBuy := s.openBuy - qty, held := s.held + qty), report)
    case MarketDrop(id, qty) => BuyUpdate(s.(openBuy := s.openBuy - qty), CANCELED, id, Unknown)
  }

  /** What a sell event does at the broker, before its notification. */
  function Sold(s: State, e: Event): State
    requires IsSellUpdate(e)
  {
    match e
    case SellPart(qty) => s.(openSell := s.openSell - qty, held := s.held - qty)
    case SellWhole(_, _) => s.(openSell := 0, held := s.held - s.openSell)
    case SellCancel(_, _) => s.(openSell := 0)
  }

  function ApplySellUpdate(cfg: Config, s: State, e: Event): State
    requires IsSellUpdate(e)
  {
    match e
    case SellPart(_) => SellUpdate(cfg, Sold(s, e), PARTIAL_FILL, Unknown, {})
    case SellWhole(report, cancelled) => SellUpdate(cfg, Sold(s, e), FILL, report, cancelled)
    case SellCancel(report, cancelled) => SellUpdate(cfg, Sold(s, e), CANCELED, report, cancelled)
  }

  ghost function Apply(cfg: Config, s: State, e: Event): State
    requires cfg.Valid() && Enabled(s, e)
  {
    if IsPhase(e) then ApplyPhase(cfg, s, e)
    else if IsSellUpdate(e) then ApplySellUpdate(cfg, s, e)
    else ApplyBuyUpdate(s, e)
  }

  /** The variables as `init` leaves them, with some position already held. */
  function Initial(cfg: Config, positions: int, avgp: real): State {
    State(positions, positions, avgp, [], 0, 0, 0, [], map[], 0, 0, 0, false, cfg.ticks2resetBackup)
  }
}
