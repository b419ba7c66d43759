/** The ledger invariant and the proof that every step keeps it. */
module LedgerInvariant {
  import opened FixedWidth
  import opened Accrual
  import opened Streams
  import opened StreamIds
  import opened StreamRules
  import opened Ledger

  // ------------------------------------------------------------------ the sum of what is owed

  ghost function Total(m: map<int, Stream>): int
    decreases |m|
  {
    if forall id :: id !in m then 0
    else
      var id :| id in m;
      Owed(m[id]) + Total(m - {id})
  }

  lemma {:induction false} TotalWithout(m: map<int, Stream>, id: int)
    requires id in m
    ensures Total(m) == Owed(m[id]) + Total(m - {id})
    decreases |m|
  {
    var first :| first in m && Total(m) == Owed(m[first]) + Total(m - {first});
    if first != id {
      TotalWithout(m - {first}, id);
      TotalWithout(m - {id}, first);
      assert m - {first} - {id} == m - {id} - {first};
    }
  }

  lemma TotalUpdate(m: map<int, Stream>, id: int, s: Stream)
    ensures Total(m[id := s]) == Total(m) - (if id in m then Owed(m[id]) else 0) + Owed(s)
  {
    TotalWithout(m[id := s], id);
    assert m[id := s] - {id} == m - {id};
    if id in m {
      TotalWithout(m, id);
    } else {
      assert m - {id} == m;
    }
  }

  /** No single stream is owed more than all of them together. */
  lemma {:induction false} TotalCovers(m: map<int, Stream>, c: Clock)
    requires forall id | id in m :: StreamOk(m[id], c)
    ensures 0 <= Total(m) && forall id | id in m :: Owed(m[id]) <= Total(m)
    decreases |m|
  {
    if exists id :: id in m {
      var first :| first in m;
      TotalWithout(m, first);
      TotalCovers(m - {first}, c);
      OwedBounds(m[first], c);
      assert forall id | id in m && id != first :: (m - {first})[id] == m[id];
    }
  }

  // ------------------------------------------------------------------ the invariant

  /** Every record is valid; the tokens held and the liability counter each cover everything owed;
      every stream's books balance, also after it has been removed; IDs are allocated soundly. */
  ghost predicate Inv(l: State) {
    && ClockOk(l.clock)
    && (forall id | id in l.streams :: StreamOk(l.streams[id], l.clock))
    && BooksBalance(l)
    && AllocatorOk(l.ids, l.flows.Keys)
    && Total(l.streams) <= l.balance <= I128_MAX
    && Total(l.streams) <= l.liabilities <= I128_MAX
  }

  /** Funded minus paid minus refunded is what is still owed. */
  ghost predicate BooksBalance(l: State) {
    && l.streams.Keys <= l.flows.Keys
    && (forall id | id in l.flows ::
          Net(l.flows[id]) == if id in l.streams then Owed(l.streams[id]) else 0)
  }

  /** What no step takes back.  Removed streams stay removed with their books closed; a stream that
      is still there has accrued and paid out at least as much as before. */
  ghost predicate Progress(l: State, m: State) {
    && l.clock.now <= m.clock.now
    && l.flows.Keys <= m.flows.Keys
    && (forall id | id in l.flows && id !in l.streams :: id !in m.streams && m.flows[id] == l.flows[id])
    && (forall id | id in l.streams && id in m.streams ::
          && Accrued(l.streams[id], l.clock.now) <= Accrued(m.streams[id], m.clock.now)
          && l.streams[id].withdrawn <= m.streams[id].withdrawn
          && l.streams[id].sender == m.streams[id].sender)
  }

  lemma ProgressTransitive(l: State, m: State, n: State)
    requires Progress(l, m) && Progress(m, n) && BooksBalance(l)
    ensures Progress(l, n)
  {
    forall id | id in l.streams && id in n.streams
      ensures id in m.streams
    {
      assert id in l.flows && id in m.flows;
    }
  }

  // ------------------------------------------------------------------ one effect

  /** What committing an effect writes, field by field. */
  lemma CommitWrites(l: State, id: int, e: Effect)
    requires e.Write? && Funded(l, e) && id in l.flows && e.stream.sender != Contract
    ensures var m, f := Commit(l, id, e), l.flows[id];
            && m == l.(streams := l.streams[id := e.stream],
                       liabilities := Min(l.liabilities + e.liability, I128_MAX),
                       balance := l.balance + e.fund - Leaving(e.payee, e.pay) - e.refund,
                       spendable := m.spendable, sent := m.sent,
                       flows := l.flows[id := Flow(f.funded + e.fund, f.paid + e.pay, f.refunded + e.refund)])
  {
  }

  /** Replacing one record by one that is owed `delta` more keeps the books and the records valid. */
  lemma ReplaceKeepsBooks(l: State, m: State, id: int, e: Effect)
    requires Inv(l) && id in l.streams && e.Write? && EffectOk(l.streams[id], e, l.clock)
    requires m.clock == l.clock && m.streams == l.streams[id := e.stream]
    requires var f := l.flows[id];
             m.flows == l.flows[id := Flow(f.funded + e.fund, f.paid + e.pay, f.refunded + e.refund)]
    ensures m.flows.Keys == l.flows.Keys && BooksBalance(m) && Progress(l, m)
    ensures forall k | k in m.streams :: StreamOk(m.streams[k], m.clock)
    ensures Total(m.streams) == Total(l.streams) + e.fund - e.pay - e.refund
  {
    TotalUpdate(l.streams, id, e.stream);
  }

  /** A lawful effect keeps the invariant; tokens and debts move together. */
  lemma CommitKeepsInv(l: State, id: int, e: Effect)
    requires Inv(l) && id in l.streams && EffectOk(l.streams[id], e, l.clock) && Funded(l, e)
    ensures var m := Commit(l, id, e);
            && Inv(m) && Progress(l, m) && m.flows.Keys == l.flows.Keys
            && (e.Write? ==>
                  && m.streams == l.streams[id := e.stream]
                  && Total(m.streams) == Total(l.streams) + e.fund - e.pay - e.refund
                  && m.balance == l.balance + e.fund - Leaving(e.payee, e.pay) - e.refund
                  && m.liabilities == Min(l.liabilities + e.liability, I128_MAX))
  {
    if e.Write? {
      CommitWrites(l, id, e);
      ReplaceKeepsBooks(l, Commit(l, id, e), id, e);
      TotalCovers(l.streams, l.clock);
    }
  }

  lemma ApplyKeepsInv(l: State, id: int, r: Result<Effect>)
    requires Inv(l) && id in l.streams && (r.Ok? ==> EffectOk(l.streams[id], r.value, l.clock))
    ensures Inv(Apply(l, id, r).0) && Progress(l, Apply(l, id, r).0)
    ensures Apply(l, id, r).0.flows.Keys == l.flows.Keys
  {
    if r.Ok? && Funded(l, r.value) {
      CommitKeepsInv(l, id, r.value);
    }
  }

  lemma RuleOk(l: State, id: int, op: StreamOp)
    requires Inv(l) && id in l.streams && Refusal(l, op) == None && Rule(l, id, op).Ok?
    ensures EffectOk(l.streams[id], Rule(l, id, op).value, l.clock)
  {
    var s, c := l.streams[id], l.clock;
    match op
    case Withdraw(caller) => WithdrawOk(s, c, caller);
    case WithdrawTo(caller, to) => WithdrawToOk(s, c, caller, to);
    case DelegatedWithdraw(d) => DelegatedWithdrawOk(s, c, d, l.nonces[s.recipient]);
    case TriggerAutoClaim => TriggerAutoClaimOk(s, c, if id in l.autoClaim then Some(l.autoClaim[id]) else None);
    case UpdateRate(caller, rate) => UpdateRateOk(s, c, caller, rate, l.config.maxRate);
    case DecreaseRate(caller, rate) => DecreaseRateOk(s, c, caller, rate);
    case Shorten(caller, end) => ShortenOk(s, c, caller, end);
    case Extend(caller, end) => ExtendOk(s, c, caller, end);
    case TopUp(funder, amount) => TopUpOk(s, c, funder, amount);
    case Pause(_, _) => PauseResumeOk(s, c);
    case Resume(_, _) => PauseResumeOk(s, c);
    case Cancel(_, _) => CancelOk(s, c);
  }

  lemma StreamStepKeepsInv(l: State, id: int, op: StreamOp)
    requires Inv(l)
    ensures Inv(StreamStep(l, id, op).0) && Progress(l, StreamStep(l, id, op).0)
  {
    if Refusal(l, op) == None && id in l.streams {
      var r := Rule(l, id, op);
      if r.Ok? {
        RuleOk(l, id, op);
      }
      ApplyKeepsInv(l, id, r);
    }
  }

  // ------------------------------------------------------------------ creation

  lemma NewStreamOk(l: State, sender: Address, p: Params)
    requires Inv(l) && sender != Contract && Validate(l.config, l.clock.now, sender, p).Ok?
    ensures StreamOk(NewStream(sender, p), l.clock) && Owed(NewStream(sender, p)) == p.deposit
  {
    var s := NewStream(sender, p);
    assert Elapsed(Checkpoint(s), l.clock.now) == 0;
    EntitlementBounds(Checkpoint(s), s.rate, l.clock.now);
  }

  lemma CreateKeepsInv(l: State, sender: Address, p: Params)
    requires Inv(l)
    ensures Inv(CreateStream(l, sender, p).0) && Progress(l, CreateStream(l, sender, p).0)
    ensures var (m, id) := CreateStream(l, sender, p);
            id.Ok? ==>
              && id.value !in l.flows && m.streams == l.streams[id.value := NewStream(sender, p)]
              && Total(m.streams) == Total(l.streams) + p.deposit
              && m.balance == l.balance + p.deposit
              && m.liabilities == Min(l.liabilities + p.deposit, I128_MAX)
  {
    var (m, r) := CreateStream(l, sender, p);
    if r.Ok? {
      NewStreamOk(l, sender, p);
      AllocateIsFresh(l.ids, l.flows.Keys, sender);
      TotalUpdate(l.streams, r.value, NewStream(sender, p));
      assert m.flows.Keys == l.flows.Keys + {r.value};
      assert m.streams == l.streams[r.value := NewStream(sender, p)];
    }
  }

  lemma {:induction false} CreateStreamsKeepsInv(l: State, sender: Address, ps: seq<Params>)
    requires Inv(l)
    ensures Inv(CreateStreams(l, sender, ps).0) && Progress(l, CreateStreams(l, sender, ps).0)
    ensures CreateStreams(l, sender, ps).1.Ok? ==> |CreateStreams(l, sender, ps).1.value| == |ps|
  {
    if |ps| > 0 {
      var (m, ids) := CreateStreams(l, sender, ps[..|ps| - 1]);
      CreateStreamsKeepsInv(l, sender, ps[..|ps| - 1]);
      CreateKeepsInv(m, sender, ps[|ps| - 1]);
      ProgressTransitive(l, m, CreateStream(m, sender, ps[|ps| - 1]).0);
    }
  }

  // ------------------------------------------------------------------ batches

  lemma ItemOk(l: State, recipient: Address, item: Item)
    requires Inv(l) && item.id in l.streams && ItemRule(l.streams[item.id], l.clock, recipient, item).Ok?
    ensures EffectOk(l.streams[item.id], ItemRule(l.streams[item.id], l.clock, recipient, item).value, l.clock)
  {
    match item.payee
    case None => BatchWithdrawItemOk(l.streams[item.id], l.clock, recipient);
    case Some(to) => BatchWithdrawToItemOk(l.streams[item.id], l.clock, recipient, to);
  }

  lemma WithdrawItemKeepsInv(l: State, recipient: Address, item: Item)
    requires Inv(l)
    ensures Inv(WithdrawItem(l, recipient, item).0) && Progress(l, WithdrawItem(l, recipient, item).0)
  {
    if item.id in l.streams {
      var r := ItemRule(l.streams[item.id], l.clock, recipient, item);
      if r.Ok? {
        ItemOk(l, recipient, item);
      }
      ApplyKeepsInv(l, item.id, r);
    }
  }

  lemma {:induction false} WithdrawItemsKeepsInv(l: State, recipient: Address, items: seq<Item>)
    requires Inv(l)
    ensures Inv(WithdrawItems(l, recipient, items).0) && Progress(l, WithdrawItems(l, recipient, items).0)
  {
    if |items| > 0 {
      var (m, paid) := WithdrawItems(l, recipient, items[..|items| - 1]);
      WithdrawItemsKeepsInv(l, recipient, items[..|items| - 1]);
      WithdrawItemKeepsInv(m, recipient, items[|items| - 1]);
      ProgressTransitive(l, m, WithdrawItem(m, recipient, items[|items| - 1]).0);
    }
  }

  /** `m` is `l` after `gone` tokens were paid for stream `id`, `kept` of them to the contract. */
  ghost predicate Drained(l: State, m: State, id: int, gone: int, kept: int) {
    && Inv(m) && Progress(l, m) && id in m.streams
    && m.streams == l.streams[id := m.streams[id]]
    && Total(m.streams) == Total(l.streams) - gone
    && m.liabilities == l.liabilities - gone
    && m.balance == l.balance - gone + kept
    && m.clock == l.clock && m.config == l.config
  }

  lemma ReplacedTwice(streams: map<int, Stream>, id: int, s: Stream, t: Stream)
    ensures streams[id := s][id := t] == streams[id := t]
  {
  }

  lemma DrainedTransitive(l: State, m: State, n: State, id: int, x: int, y: int, kept: int)
    requires Inv(l) && Drained(l, m, id, x, kept) && Drained(m, n, id, y, 0)
    ensures Drained(l, n, id, x + y, kept)
  {
    ProgressTransitive(l, m, n);
    ReplacedTwice(l.streams, id, m.streams[id], n.streams[id]);
  }

  ghost function KeptBy(to: Address, n: int): int { if to == Contract then n else 0 }

  /** Paying up to date leaves a live stream with nothing to claim. */
  lemma PayKeepsInv(l: State, id: int)
    requires Inv(l) && id in l.streams && Live(l.streams[id])
    ensures var m, s := Commit(l, id, PayUpToDate(l.streams[id], l.clock)), l.streams[id];
            && Drained(l, m, id, Claim(s, l.clock), KeptBy(s.recipient, Claim(s, l.clock)))
            && Live(m.streams[id]) && Claim(m.streams[id], l.clock) == 0
            && Owed(m.streams[id]) == Owed(s) - Claim(s, l.clock)
  {
    var s := l.streams[id];
    OwedBounds(s, l.clock);
    PayUpToDateOk(s, l.clock);
    CommitKeepsInv(l, id, PayUpToDate(s, l.clock));
  }

  /** Cancelling gives back all that is owed beyond the claim. */
  lemma CancelKeepsInv(l: State, id: int)
    requires Inv(l) && id in l.streams && Live(l.streams[id])
    ensures var m, s := Commit(l, id, StreamRules.Cancel(l.streams[id], l.clock).value), l.streams[id];
            && Drained(l, m, id, Owed(s) - Claim(s, l.clock), 0)
            && m.streams[id].status == Cancelled && Owed(m.streams[id]) == Claim(s, l.clock)
  {
    var s := l.streams[id];
    OwedBounds(s, l.clock);
    CancelOk(s, l.clock);
    CommitKeepsInv(l, id, StreamRules.Cancel(s, l.clock).value);
  }

  /** A settled and cancelled stream is owed nothing, and its whole remaining deposit has left. */
  lemma SettleAndCancelKeepsInv(l: State, id: int)
    requires Inv(l) && id in l.streams && Live(l.streams[id])
    ensures var m, s := SettleAndCancel(l, id), l.streams[id];
            && Drained(l, m, id, Owed(s), KeptBy(s.recipient, Claim(s, l.clock)))
            && m.streams[id].status == Cancelled && Owed(m.streams[id]) == 0
  {
    var s := l.streams[id];
    PayKeepsInv(l, id);
    var m := Commit(l, id, PayUpToDate(s, l.clock));
    CancelKeepsInv(m, id);
    DrainedTransitive(l, m, SettleAndCancel(l, id), id, Claim(s, l.clock), Owed(s) - Claim(s, l.clock),
                      KeptBy(s.recipient, Claim(s, l.clock)));
  }

  lemma {:induction false} SettleAndCancelAllKeepsInv(l: State, ids: seq<int>)
    requires Inv(l)
    ensures Inv(SettleAndCancelAll(l, ids)) && Progress(l, SettleAndCancelAll(l, ids))
  {
    if |ids| > 0 {
      var m, id := SettleAndCancelAll(l, ids[..|ids| - 1]), ids[|ids| - 1];
      SettleAndCancelAllKeepsInv(l, ids[..|ids| - 1]);
      if id in m.streams && Live(m.streams[id]) {
        SettleAndCancelKeepsInv(m, id);
        ProgressTransitive(l, m, SettleAndCancel(m, id));
      }
    }
  }

  // ------------------------------------------------------------------ the rest

  /** Only a stream that is owed nothing can be closed. */
  lemma CloseKeepsInv(l: State, id: int, completedToo: bool)
    requires Inv(l)
    ensures Inv(Close(l, id, completedToo).0) && Progress(l, Close(l, id, completedToo).0)
    ensures Close(l, id, completedToo).1.Ok? ==> Owed(l.streams[id]) == 0
    ensures Total(Close(l, id, completedToo).0.streams) == Total(l.streams)
  {
    if Close(l, id, completedToo).1.Ok? {
      OwedBounds(l.streams[id], l.clock);
      TotalWithout(l.streams, id);
    }
  }

  lemma AcceptKeepsInv(l: State, caller: Address, id: int)
    requires Inv(l)
    ensures Inv(AcceptRecipient(l, caller, id).0) && Progress(l, AcceptRecipient(l, caller, id).0)
    ensures Total(AcceptRecipient(l, caller, id).0.streams) == Total(l.streams)
  {
    if AcceptRecipient(l, caller, id).1.Ok? {
      TotalUpdate(l.streams, id, l.streams[id].(recipient := l.pending[id]));
    }
  }

  lemma TickKeepsInv(l: State, seconds: nat, ledgers: nat)
    requires Inv(l)
    ensures Inv(Step(l, Tick(seconds, ledgers))) && Progress(l, Step(l, Tick(seconds, ledgers)))
  {
    var m := Step(l, Tick(seconds, ledgers));
    forall id | id in l.streams ensures StreamOk(m.streams[id], m.clock) {
      StreamOkLater(l.streams[id], l.clock, m.clock);
    }
    forall id | id in l.streams
      ensures Accrued(l.streams[id], l.clock.now) <= Accrued(m.streams[id], m.clock.now)
    {
      AccruedMonotone(l.streams[id], l.clock.now, m.clock.now);
    }
  }

  /** Steps that leave the books alone and take no tokens. */
  lemma FrameKeepsInv(l: State, m: State)
    requires Inv(l) && l.balance <= m.balance <= I128_MAX
    requires m == l.(balance := m.balance, config := m.config, spendable := m.spendable,
                     autoClaim := m.autoClaim, pending := m.pending)
    ensures Inv(m) && Progress(l, m)
  {
  }

  lemma SendKeepsInv(l: State, to: Address, n: nat)
    requires Inv(l) && n <= l.balance - l.liabilities
    ensures Inv(Send(l, to, n)) && Progress(l, Send(l, to, n))
  {
    var m := Send(l, to, n);
    assert m.streams == l.streams && m.clock == l.clock && m.flows == l.flows && m.ids == l.ids;
  }

  /** The sweep stops at the liability counter, which covers everything owed. */
  lemma SweepKeepsInv(l: State, caller: Address, to: Address)
    requires Inv(l)
    ensures Inv(Sweep(l, caller, to).0) && Progress(l, Sweep(l, caller, to).0)
  {
    if caller == l.config.admin && l.balance > l.liabilities {
      SendKeepsInv(l, to, l.balance - l.liabilities);
    }
  }

  /** A step of the allocator alone. */
  lemma AllocatorKeepsInv(l: State, ids: Allocator)
    requires Inv(l) && AllocatorOk(ids, l.flows.Keys)
    ensures Inv(l.(ids := ids)) && Progress(l, l.(ids := ids))
  {
  }

  lemma ReserveKeepsInv(l: State, who: Address, count: u32, expiry: Option<int>)
    requires Inv(l)
    ensures Inv(ReserveIds(l, who, count, expiry).0) && Progress(l, ReserveIds(l, who, count, expiry).0)
  {
    ReservationsKeepInvariant(l.ids, l.flows.Keys, who, count, expiry);
    var r := Reserve(l.ids, who, count, expiry);
    AllocatorKeepsInv(l, if r.Ok? then r.value else l.ids);
  }

  lemma ReleaseKeepsInv(l: State, who: Address)
    requires Inv(l)
    ensures Inv(ReleaseIds(l, who)) && Progress(l, ReleaseIds(l, who))
  {
    ReservationsKeepInvariant(l.ids, l.flows.Keys, who, 0, None);
    AllocatorKeepsInv(l, Release(l.ids, who));
  }

  lemma ReclaimKeepsInv(l: State, holder: Address)
    requires Inv(l)
    ensures Inv(ReclaimIds(l, holder).0) && Progress(l, ReclaimIds(l, holder).0)
  {
    var r := Reclaim(l.ids, holder, l.clock.now);
    if r.Ok? {
      ReclaimKeepsInvariant(l.ids, l.flows.Keys, holder, l.clock.now);
    }
    AllocatorKeepsInv(l, if r.Ok? then r.value else l.ids);
  }

  lemma OutsideStepKeepsInv(l: State, op: Op)
    requires Inv(l) && (op.Tick? || op.Donate? || op.Allow? || op.Configure?)
    ensures Inv(Step(l, op)) && Progress(l, Step(l, op))
  {
    match op
    case Tick(seconds, ledgers) => TickKeepsInv(l, seconds, ledgers);
    case _ => FrameKeepsInv(l, Step(l, op));
  }

  lemma CreationStepKeepsInv(l: State, op: Op)
    requires Inv(l) && (op.Create? || op.CreateBatch?)
    ensures Inv(Step(l, op)) && Progress(l, Step(l, op))
  {
    match op
    case Create(sender, p) => CreateKeepsInv(l, sender, p);
    case CreateBatch(sender, ps) => CreateStreamsKeepsInv(l, sender, ps);
  }

  lemma BatchWithdrawsKeepInv(l: State, recipient: Address, ids: seq<int>, ws: seq<WithdrawToParam>)
    requires Inv(l)
    ensures Inv(BatchWithdraw(l, recipient, ids).0) && Progress(l, BatchWithdraw(l, recipient, ids).0)
    ensures Inv(BatchWithdrawTo(l, recipient, ws).0) && Progress(l, BatchWithdrawTo(l, recipient, ws).0)
  {
    WithdrawItemsKeepsInv(l, recipient, Plain(ids));
    WithdrawItemsKeepsInv(l, recipient, Directed(ws));
  }

  lemma BulkCancelKeepsInv(l: State, sender: Address, ids: seq<int>)
    requires Inv(l)
    ensures Inv(BulkCancel(l, sender, ids).0) && Progress(l, BulkCancel(l, sender, ids).0)
  {
    SettleAndCancelAllKeepsInv(l, ids);
  }

  lemma ProposeKeepsInv(l: State, caller: Address, id: int, to: Address)
    requires Inv(l)
    ensures Inv(ProposeRecipient(l, caller, id, to).0) && Progress(l, ProposeRecipient(l, caller, id, to).0)
  {
    FrameKeepsInv(l, ProposeRecipient(l, caller, id, to).0);
  }

  lemma RetractKeepsInv(l: State, caller: Address, id: int)
    requires Inv(l)
    ensures Inv(WithdrawProposal(l, caller, id).0) && Progress(l, WithdrawProposal(l, caller, id).0)
  {
    FrameKeepsInv(l, WithdrawProposal(l, caller, id).0);
  }

  lemma AutoClaimKeepsInv(l: State, caller: Address, id: int, to: Option<Address>)
    requires Inv(l)
    ensures Inv(SetAutoClaim(l, caller, id, to).0) && Progress(l, SetAutoClaim(l, caller, id, to).0)
  {
    FrameKeepsInv(l, SetAutoClaim(l, caller, id, to).0);
  }

  lemma BatchStepKeepsInv(l: State, op: Op)
    requires Inv(l) && (op.WithdrawBatch? || op.WithdrawBatchTo? || op.CancelBatch?)
    ensures Inv(Step(l, op)) && Progress(l, Step(l, op))
  {
    if op.WithdrawBatch? {
      BatchWithdrawsKeepInv(l, op.recipient, op.ids, []);
    } else if op.WithdrawBatchTo? {
      BatchWithdrawsKeepInv(l, op.recipient, [], op.directed);
    } else {
      BulkCancelKeepsInv(l, op.sender, op.ids);
    }
  }

  lemma SideStepKeepsInv(l: State, op: Op)
    requires Inv(l) && (op.Propose? || op.Retract? || op.AutoClaim? || op.SweepExcess?)
    ensures Inv(Step(l, op)) && Progress(l, Step(l, op))
  {
    match op
    case SweepExcess(caller, to) => SweepKeepsInv(l, caller, to);
    case Propose(caller, id, to) => ProposeKeepsInv(l, caller, id, to);
    case Retract(caller, id) => RetractKeepsInv(l, caller, id);
    case AutoClaim(caller, id, to) => AutoClaimKeepsInv(l, caller, id, to);
  }

  lemma RangeStepKeepsInv(l: State, op: Op)
    requires Inv(l) && (op.ReserveRange? || op.ReleaseRange? || op.ReclaimRange?)
    ensures Inv(Step(l, op)) && Progress(l, Step(l, op))
  {
    match op
    case ReserveRange(caller, count, expiry) => ReserveKeepsInv(l, caller, count, expiry);
    case ReleaseRange(caller) => ReleaseKeepsInv(l, caller);
    case ReclaimRange(holder) => ReclaimKeepsInv(l, holder);
  }

  lemma LifeStepKeepsInv(l: State, op: Op)
    requires Inv(l) && (op.On? || op.CloseStream? || op.Accept?)
    ensures Inv(Step(l, op)) && Progress(l, Step(l, op))
  {
    match op
    case On(id, o) => StreamStepKeepsInv(l, id, o);
    case CloseStream(id, completedToo) => CloseKeepsInv(l, id, completedToo);
    case Accept(caller, id) => AcceptKeepsInv(l, caller, id);
  }

  /** Every step of the machine keeps the invariant and takes nothing back. */
  lemma StepKeepsInv(l: State, op: Op)
    requires Inv(l)
    ensures Inv(Step(l, op)) && Progress(l, Step(l, op))
  {
    if op.On? || op.CloseStream? || op.Accept? {
      LifeStepKeepsInv(l, op);
    } else if op.Tick? || op.Donate? || op.Allow? || op.Configure? {
      OutsideStepKeepsInv(l, op);
    } else if op.Create? || op.CreateBatch? {
      CreationStepKeepsInv(l, op);
    } else if op.WithdrawBatch? || op.WithdrawBatchTo? || op.CancelBatch? {
      BatchStepKeepsInv(l, op);
    } else if op.ReserveRange? || op.ReleaseRange? || op.ReclaimRange? {
      RangeStepKeepsInv(l, op);
    } else {
      SideStepKeepsInv(l, op);
    }
  }
}
