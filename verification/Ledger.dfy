/** The stream contract as a state machine over values.  An entry point maps a ledger to a ledger
    and a result; when the result is an error the ledger is the old one, because the host rolls a
    failed call back. */
module Ledger {
  import opened FixedWidth
  import opened Accrual
  import opened Streams
  import opened StreamIds
  import opened StreamRules

  const MAX_MEMO_BYTES := 256

  datatype Config = Config(admin: Address, globalPaused: bool, creationPaused: bool, maxRate: i128)

  /** Running totals of one stream, kept past its removal: tokens put in for it, paid to the
      recipient's side, and refunded to the sender. */
  datatype Flow = Flow(funded: int, paid: int, refunded: int)

  function Net(f: Flow): int { f.funded - f.paid - f.refunded }

  /** `balance` is what the token contract records for this contract; `spendable[a]` is what it may
      still pull from `a`, and `sent[a]` counts the tokens it has sent to `a`. */
  datatype State = State(
    clock: Clock,
    config: Config,
    balance: int,
    spendable: multiset<Address>,
    sent: multiset<Address>,
    streams: map<int, Stream>,
    liabilities: int,
    ids: Allocator,
    autoClaim: map<int, Address>,
    pending: map<int, Address>,
    nonces: multiset<Address>,
    flows: map<int, Flow>)

  // ------------------------------------------------------------------ one effect on one stream

  function Add(m: multiset<Address>, a: Address, n: nat): multiset<Address> { m[a := m[a] + n] }

  function Leaving(to: Address, n: nat): nat { if to == Contract then 0 else n }

  function Send(l: State, to: Address, n: nat): State {
    l.(balance := l.balance - Leaving(to, n), sent := Add(l.sent, to, n))
  }

  predicate CanPull(l: State, from: Address, n: nat) {
    n <= l.spendable[from] && l.balance + n <= I128_MAX
  }

  function Pull(l: State, from: Address, n: nat): State
    requires CanPull(l, from, n)
  {
    l.(balance := l.balance + n, spendable := l.spendable[from := l.spendable[from] - n])
  }

  function Booked(flows: map<int, Flow>, id: int, funded: nat, paid: nat, refunded: nat): map<int, Flow> {
    var f := if id in flows then flows[id] else Flow(0, 0, 0);
    flows[id := Flow(f.funded + funded, f.paid + paid, f.refunded + refunded)]
  }

  function Record(l: State, id: int, funded: nat, paid: nat, refunded: nat): State {
    l.(flows := Booked(l.flows, id, funded, paid, refunded))
  }

  predicate Funded(l: State, e: Effect) { e.Write? && e.fund > 0 ==> CanPull(l, e.funder, e.fund) }

  /** Save the record, adjust the liability counter, move the tokens. */
  function Commit(l: State, id: int, e: Effect): State
    requires Funded(l, e)
  {
    if e == Keep then l
    else
      var saved := l.(streams := l.streams[id := e.stream],
                      liabilities := Min(l.liabilities + e.liability, I128_MAX));
      var pulled := if e.fund > 0 then Pull(saved, e.funder, e.fund) else saved;
      Record(Send(Send(pulled, e.payee, e.pay), e.stream.sender, e.refund), id, e.fund, e.pay, e.refund)
  }

  /** The reply is the amount paid to the recipient's side. */
  function Apply(l: State, id: int, r: Result<Effect>): (State, Result<int>) {
    if r.Err? then (l, Err(r.error))
    else if !Funded(l, r.value) then (l, Err(HostTrap))
    else (Commit(l, id, r.value), Ok(if r.value.Write? then r.value.pay else 0))
  }

  // ------------------------------------------------------------------ entry points on one stream

  datatype StreamOp =
    | Withdraw(caller: Address)
    | WithdrawTo(caller: Address, destination: Address)
    | DelegatedWithdraw(request: Delegation)
    | TriggerAutoClaim
    | UpdateRate(caller: Address, rate: i128)
    | DecreaseRate(caller: Address, rate: i128)
    | Shorten(caller: Address, end: u64)
    | Extend(caller: Address, end: u64)
    | TopUp(funder: Address, amount: i128)
    | Pause(caller: Address, asAdmin: bool)
    | Resume(caller: Address, asAdmin: bool)
    | Cancel(caller: Address, asAdmin: bool)

  /** Refusals that come before the stream is loaded. */
  function Refusal(l: State, op: StreamOp): Option<Error> {
    match op
    case Pause(caller, asAdmin) => if asAdmin && caller != l.config.admin then Some(HostTrap) else None
    case Resume(caller, asAdmin) => if asAdmin && caller != l.config.admin then Some(HostTrap) else None
    case Cancel(caller, true) => if caller != l.config.admin then Some(HostTrap) else None
    case _ =>
      if l.config.globalPaused then Some(ContractPaused)
      else if op.DelegatedWithdraw? && l.clock.now > op.request.deadline then Some(SignatureDeadlineExpired)
      else if op.TopUp? && op.amount <= 0 then Some(InvalidParams)
      else None
  }

  function Guarded(allowed: bool, r: Result<Effect>): Result<Effect> { if allowed then r else Err(HostTrap) }

  function Rule(l: State, id: int, op: StreamOp): Result<Effect>
    requires id in l.streams && Refusal(l, op) == None
  {
    var s, c := l.streams[id], l.clock;
    match op
    case Withdraw(caller) => StreamRules.Withdraw(s, c, caller)
    case WithdrawTo(caller, to) => StreamRules.WithdrawTo(s, c, caller, to)
    case DelegatedWithdraw(d) =>
      var r := StreamRules.DelegatedWithdraw(s, c, d, l.nonces[s.recipient]);
      if r.Ok? && r.value.Write? && l.nonces[s.recipient] >= U64_MAX then Err(HostTrap) else r
    case TriggerAutoClaim =>
      StreamRules.TriggerAutoClaim(s, c, if id in l.autoClaim then Some(l.autoClaim[id]) else None)
    case UpdateRate(caller, rate) => StreamRules.UpdateRate(s, c, caller, rate, l.config.maxRate)
    case DecreaseRate(caller, rate) => StreamRules.DecreaseRate(s, c, caller, rate)
    case Shorten(caller, end) => StreamRules.Shorten(s, c, caller, end)
    case Extend(caller, end) => StreamRules.Extend(s, c, caller, end)
    case TopUp(funder, amount) => StreamRules.TopUp(s, c, funder, amount)
    case Pause(caller, asAdmin) => Guarded(asAdmin || caller == s.sender, StreamRules.Pause(s, c))
    case Resume(caller, asAdmin) => Guarded(asAdmin || caller == s.sender, StreamRules.Resume(s, c))
    case Cancel(caller, asAdmin) => Guarded(asAdmin || caller == s.sender, StreamRules.Cancel(s, c))
  }

  function StreamStep(l: State, id: int, op: StreamOp): (State, Result<int>) {
    if Refusal(l, op).Some? then (l, Err(Refusal(l, op).value))
    else if id !in l.streams then (l, Err(StreamNotFound))
    else
      var r := Rule(l, id, op);
      var (m, a) := Apply(l, id, r);
      (if op.DelegatedWithdraw? && r.Ok? && r.value.Write? && a.Ok?
       then m.(nonces := Add(m.nonces, l.streams[id].recipient, 1)) else m, a)
  }

  // ------------------------------------------------------------------ creation

  datatype Params = Params(recipient: Address, deposit: i128, rate: i128, start: u64, cliff: u64, end: u64,
                           dust: i128, memo: Option<seq<bv8>>, kind: StreamKind)

  function FinalRate(p: Params): int { if p.kind == CliffOnly then 0 else p.rate }

  function Validate(config: Config, now: int, sender: Address, p: Params): Result<()> {
    if p.deposit <= 0 then Err(InvalidParams)
    else if p.kind == Linear && (p.rate <= 0 || p.rate > config.maxRate) then Err(InvalidParams)
    else if sender == p.recipient || p.start >= p.end then Err(InvalidParams)
    else if p.start < now then Err(StartTimeInPast)
    else if p.cliff < p.start || p.cliff > p.end then Err(InvalidParams)
    else if p.kind == Linear && p.rate * (p.end - p.start) > I128_MAX then Err(InvalidParams)
    else if p.kind == Linear && p.deposit < p.rate * (p.end - p.start) then Err(InsufficientDeposit)
    else Ok(())
  }

  predicate MemoFits(p: Params) { p.memo.Some? ==> |p.memo.value| <= MAX_MEMO_BYTES }

  function NewStream(sender: Address, p: Params): Stream {
    Stream(sender, p.recipient, p.deposit, FinalRate(p), p.start, p.cliff, p.end, 0, Active, None, 0, p.start,
           p.dust, p.memo, p.kind, 0, 0)
  }

  /** Allocate an ID and store the record; the deposit has been pulled. */
  function Persist(l: State, sender: Address, p: Params): (State, int)
    requires p.deposit > 0
  {
    var (ids, id) := Allocate(l.ids, sender);
    (Record(l.(ids := ids,
               streams := l.streams[id := NewStream(sender, p)],
               liabilities := Min(l.liabilities + p.deposit, I128_MAX)), id, p.deposit, 0, 0), id)
  }

  function CreateRefusal(l: State, sender: Address, p: Params): Option<Error> {
    var v := Validate(l.config, l.clock.now, sender, p);
    if sender == Contract then Some(HostTrap)
    else if l.config.globalPaused || l.config.creationPaused then Some(ContractPaused)
    else if v.Err? then Some(v.error)
    else if !CanPull(l, sender, p.deposit) then Some(HostTrap)
    else if !MemoFits(p) then Some(InvalidParams)
    else if !CanAllocate(l.ids, sender) then Some(HostTrap)
    else None
  }

  function CreateStream(l: State, sender: Address, p: Params): (State, Result<int>) {
    if CreateRefusal(l, sender, p).Some? then (l, Err(CreateRefusal(l, sender, p).value))
    else
      var (m, id) := Persist(Pull(l, sender, p.deposit), sender, p);
      (m, Ok(id))
  }

  /** Create the streams one by one; the first refusal undoes them all. */
  function CreateStreams(l: State, sender: Address, ps: seq<Params>): (State, Result<seq<int>>) {
    if |ps| == 0 then (l, Ok([]))
    else
      var (m, ids) := CreateStreams(l, sender, ps[..|ps| - 1]);
      if ids.Err? then (l, ids)
      else
        var (n, id) := CreateStream(m, sender, ps[|ps| - 1]);
        if id.Err? then (l, Err(id.error)) else (n, Ok(ids.value + [id.value]))
  }

  // ------------------------------------------------------------------ batches

  predicate Distinct(ids: seq<int>) { forall i, j | 0 <= i < j < |ids| :: ids[i] != ids[j] }

  /** One stream of a batch withdrawal; `payee` is `None` for `batch_withdraw`. */
  datatype Item = Item(id: int, payee: Option<Address>)

  function ItemRule(s: Stream, c: Clock, recipient: Address, item: Item): Result<Effect> {
    match item.payee
    case None => BatchWithdrawItem(s, c, recipient)
    case Some(to) => BatchWithdrawToItem(s, c, recipient, to)
  }

  function WithdrawItem(l: State, recipient: Address, item: Item): (State, Result<int>) {
    if item.id !in l.streams then (l, Err(StreamNotFound))
    else Apply(l, item.id, ItemRule(l.streams[item.id], l.clock, recipient, item))
  }

  /** The items one after the other; the first refusal undoes them all. */
  function WithdrawItems(l: State, recipient: Address, items: seq<Item>): (State, Result<seq<int>>) {
    if |items| == 0 then (l, Ok([]))
    else
      var (m, paid) := WithdrawItems(l, recipient, items[..|items| - 1]);
      if paid.Err? then (l, paid)
      else
        var (n, amount) := WithdrawItem(m, recipient, items[|items| - 1]);
        if amount.Err? then (l, Err(amount.error)) else (n, Ok(paid.value + [amount.value]))
  }

  function Plain(ids: seq<int>): seq<Item> { seq(|ids|, i requires 0 <= i < |ids| => Item(ids[i], None)) }

  function BatchWithdraw(l: State, recipient: Address, ids: seq<int>): (State, Result<seq<int>>) {
    if l.config.globalPaused then (l, Err(ContractPaused))
    else if !Distinct(ids) then (l, Err(DuplicateStreamId))
    else WithdrawItems(l, recipient, Plain(ids))
  }

  datatype WithdrawToParam = WithdrawToParam(id: int, destination: Address)

  predicate RepeatedLater(ids: seq<int>, i: nat)
    requires i < |ids|
  {
    exists j :: i < j < |ids| && ids[j] == ids[i]
  }

  function Ids(ws: seq<WithdrawToParam>): seq<int> { seq(|ws|, i requires 0 <= i < |ws| => ws[i].id) }

  function Directed(ws: seq<WithdrawToParam>): seq<Item> {
    seq(|ws|, i requires 0 <= i < |ws| => Item(ws[i].id, Some(ws[i].destination)))
  }

  /** The first malformed entry from position `i` on decides: the contract as a destination is an
      error, a repeated ID fails an assertion. */
  ghost function DirectedFault(ws: seq<WithdrawToParam>, i: nat): Option<Error>
    requires i <= |ws|
    decreases |ws| - i
  {
    if i == |ws| then None
    else if ws[i].destination == Contract then Some(InvalidParams)
    else if RepeatedLater(Ids(ws), i) then Some(HostTrap)
    else DirectedFault(ws, i + 1)
  }

  ghost function BatchWithdrawTo(l: State, recipient: Address, ws: seq<WithdrawToParam>): (State, Result<seq<int>>) {
    if l.config.globalPaused then (l, Err(ContractPaused))
    else if DirectedFault(ws, 0).Some? then (l, Err(DirectedFault(ws, 0).value))
    else WithdrawItems(l, recipient, Directed(ws))
  }

  /** The first entry that cannot be cancelled decides. */
  ghost function BulkFault(l: State, sender: Address, ids: seq<int>, i: nat): Option<Error>
    requires i <= |ids|
    decreases |ids| - i
  {
    if i == |ids| then None
    else if RepeatedLater(ids, i) then Some(DuplicateStreamId)
    else if ids[i] !in l.streams then Some(StreamNotFound)
    else if l.streams[ids[i]].sender != sender then Some(Unauthorized)
    else if !Live(l.streams[ids[i]]) then Some(InvalidState)
    else BulkFault(l, sender, ids, i + 1)
  }

  /** Pay the recipient up to date, then cancel as `cancel_stream` does. */
  function SettleAndCancel(l: State, id: int): State
    requires id in l.streams && Live(l.streams[id])
  {
    var m := Commit(l, id, PayUpToDate(l.streams[id], l.clock));
    Commit(m, id, StreamRules.Cancel(m.streams[id], m.clock).value)
  }

  /** One stream after the other. */
  function SettleAndCancelAll(l: State, ids: seq<int>): State {
    if |ids| == 0 then l
    else
      var m, id := SettleAndCancelAll(l, ids[..|ids| - 1]), ids[|ids| - 1];
      if id in m.streams && Live(m.streams[id]) then SettleAndCancel(m, id) else m
  }

  ghost function BulkCancel(l: State, sender: Address, ids: seq<int>): (State, Result<()>) {
    if l.config.globalPaused then (l, Err(ContractPaused))
    else if BulkFault(l, sender, ids, 0).Some? then (l, Err(BulkFault(l, sender, ids, 0).value))
    else (SettleAndCancelAll(l, ids), Ok(()))
  }

  // ------------------------------------------------------------------ the rest of the life cycle

  function Close(l: State, id: int, completedToo: bool): (State, Result<()>) {
    if id !in l.streams then (l, Err(StreamNotFound))
    else
      var s := l.streams[id];
      if (s.status == Cancelled && Claim(s, l.clock) <= 0) || (completedToo && s.status == Completed)
      then (l.(streams := l.streams - {id}), Ok(()))
      else (l, Err(InvalidState))
  }

  function ProposeRecipient(l: State, caller: Address, id: int, to: Address): (State, Result<()>) {
    if l.config.globalPaused then (l, Err(ContractPaused))
    else if id !in l.streams then (l, Err(StreamNotFound))
    else if caller != l.streams[id].sender then (l, Err(HostTrap))
    else if to == l.streams[id].recipient then (l, Err(InvalidParams))
    else if id in l.pending then (l, Err(InvalidState))
    else (l.(pending := l.pending[id := to]), Ok(()))
  }

  function AcceptRecipient(l: State, caller: Address, id: int): (State, Result<()>) {
    if l.config.globalPaused then (l, Err(ContractPaused))
    else if id !in l.pending then (l, Err(InvalidState))
    else if id !in l.streams then (l, Err(StreamNotFound))
    else if caller != l.streams[id].recipient then (l, Err(HostTrap))
    else (l.(streams := l.streams[id := l.streams[id].(recipient := l.pending[id])],
             pending := l.pending - {id}), Ok(()))
  }

  function WithdrawProposal(l: State, caller: Address, id: int): (State, Result<()>) {
    if id !in l.streams then (l, Err(StreamNotFound))
    else if caller != l.streams[id].sender then (l, Err(HostTrap))
    else if id !in l.pending then (l, Err(InvalidState))
    else (l.(pending := l.pending - {id}), Ok(()))
  }

  function SetAutoClaim(l: State, caller: Address, id: int, to: Option<Address>): (State, Result<()>) {
    if id !in l.streams then (l, Err(StreamNotFound))
    else if caller != l.streams[id].recipient then (l, Err(HostTrap))
    else if to == Some(Contract) then (l, Err(InvalidParams))
    else (l.(autoClaim := if to.Some? then l.autoClaim[id := to.value] else l.autoClaim - {id}), Ok(()))
  }

  /** What the administrator may take: the balance beyond the liability counter. */
  function Sweep(l: State, caller: Address, to: Address): (State, Result<int>) {
    if caller != l.config.admin then (l, Err(HostTrap))
    else if l.balance <= l.liabilities then (l, Ok(0))
    else (Send(l, to, l.balance - l.liabilities), Ok(l.balance - l.liabilities))
  }

  function Range(start: int, count: nat): seq<int> { seq(count, i => start + i) }

  function ReserveIds(l: State, caller: Address, count: u32, expiry: Option<int>): (State, Result<seq<int>>) {
    var r := Reserve(l.ids, caller, count, expiry);
    if r.Err? then (l, Err(r.error)) else (l.(ids := r.value), Ok(Range(l.ids.nextId, count)))
  }

  function ReleaseIds(l: State, caller: Address): State { l.(ids := Release(l.ids, caller)) }

  function ReclaimIds(l: State, holder: Address): (State, Result<()>) {
    var r := Reclaim(l.ids, holder, l.clock.now);
    if r.Err? then (l, Err(r.error)) else (l.(ids := r.value), Ok(()))
  }

  /** The forecast: what would be claimable at time `t`, as things stand. */
  function ClaimableAt(l: State, id: int, t: int): Result<int> {
    if id !in l.streams then Err(StreamNotFound)
    else
      var s := l.streams[id];
      if s.status == Completed then Ok(0)
      else
        var at := if s.status == Cancelled then Min(t, AccrualTime(s, t)) else t;
        Ok(Max(Entitlement(Checkpoint(s), s.rate, at) - s.withdrawn, 0))
  }

  // ------------------------------------------------------------------ all steps

  datatype Op =
    // the outside world
    | Tick(seconds: nat, ledgers: nat)
    | Donate(amount: nat)
    | Allow(owner: Address, amount: nat)
    | Configure(config: Config)
    // entry points
    | On(id: int, op: StreamOp)
    | Create(sender: Address, params: Params)
    | CreateBatch(sender: Address, batch: seq<Params>)
    | WithdrawBatch(recipient: Address, ids: seq<int>)
    | WithdrawBatchTo(recipient: Address, directed: seq<WithdrawToParam>)
    | CancelBatch(sender: Address, ids: seq<int>)
    | CloseStream(id: int, completedToo: bool)
    | Propose(caller: Address, id: int, to: Address)
    | Accept(caller: Address, id: int)
    | Retract(caller: Address, id: int)
    | AutoClaim(caller: Address, id: int, destination: Option<Address>)
    | SweepExcess(caller: Address, to: Address)
    | ReserveRange(caller: Address, count: u32, expiry: Option<int>)
    | ReleaseRange(caller: Address)
    | ReclaimRange(holder: Address)

  ghost function Step(l: State, op: Op): State {
    match op
    case Tick(seconds, ledgers) =>
      var c := Clock(l.clock.now + seconds, l.clock.sequence + ledgers);
      if ClockOk(c) then l.(clock := c) else l
    case Donate(amount) => if l.balance + amount <= I128_MAX then l.(balance := l.balance + amount) else l
    case Allow(owner, amount) => l.(spendable := l.spendable[owner := amount])
    case Configure(config) => l.(config := config)
    case On(id, o) => StreamStep(l, id, o).0
    case Create(sender, p) => CreateStream(l, sender, p).0
    case CreateBatch(sender, ps) => CreateStreams(l, sender, ps).0
    case WithdrawBatch(recipient, ids) => BatchWithdraw(l, recipient, ids).0
    case WithdrawBatchTo(recipient, ws) => BatchWithdrawTo(l, recipient, ws).0
    case CancelBatch(sender, ids) => BulkCancel(l, sender, ids).0
    case CloseStream(id, completedToo) => Close(l, id, completedToo).0
    case Propose(caller, id, to) => ProposeRecipient(l, caller, id, to).0
    case Accept(caller, id) => AcceptRecipient(l, caller, id).0
    case Retract(caller, id) => WithdrawProposal(l, caller, id).0
    case AutoClaim(caller, id, to) => SetAutoClaim(l, caller, id, to).0
    case SweepExcess(caller, to) => Sweep(l, caller, to).0
    case ReserveRange(caller, count, expiry) => ReserveIds(l, caller, count, expiry).0
    case ReleaseRange(caller) => ReleaseIds(l, caller)
    case ReclaimRange(holder) => ReclaimIds(l, holder).0
  }

  /** The ledger after a run; every step is either a completed call or leaves the ledger alone. */
  ghost function Run(l: State, ops: seq<Op>): State {
    if |ops| == 0 then l else Step(Run(l, ops[..|ops| - 1]), ops[|ops| - 1])
  }

  /** The contract as `init` leaves it. */
  function Initial(clock: Clock, config: Config): State {
    State(clock, config, 0, multiset{}, multiset{}, map[], 0, Allocator(0, map[]), map[], map[], multiset{}, map[])
  }
}
