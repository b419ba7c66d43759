/** What holds over every run of the contract: solvency, the liability counter, entitlement,
    conservation at close, and the nonces of delegated withdrawals. */
module LedgerRuns {
  import opened FixedWidth
  import opened Streams
  import opened StreamRules
  import opened Ledger
  import opened LedgerInvariant

  lemma {:induction false} RunKeepsInv(l: State, ops: seq<Op>)
    requires Inv(l)
    ensures Inv(Run(l, ops)) && Progress(l, Run(l, ops))
  {
    if |ops| > 0 {
      var m := Run(l, ops[..|ops| - 1]);
      RunKeepsInv(l, ops[..|ops| - 1]);
      StepKeepsInv(m, ops[|ops| - 1]);
      ProgressTransitive(l, m, Run(l, ops));
    }
  }

  // ------------------------------------------------------------------ solvency and entitlement

  /** In every state a run can reach, the contract holds what it owes, the liability counter covers
      it too, and no claim exceeds the balance: the balance caps in the withdrawal paths never bind. */
  lemma Solvency(clock: Clock, config: Config, ops: seq<Op>)
    requires ClockOk(clock)
    ensures var l := Run(Initial(clock, config), ops);
            && Total(l.streams) <= l.balance && Total(l.streams) <= l.liabilities
            && (forall id | id in l.streams :: 0 <= Claim(l.streams[id], l.clock) <= Owed(l.streams[id]) <= l.balance)
  {
    var l := Run(Initial(clock, config), ops);
    RunKeepsInv(Initial(clock, config), ops);
    TotalCovers(l.streams, l.clock);
    forall id | id in l.streams
      ensures 0 <= Claim(l.streams[id], l.clock) <= Owed(l.streams[id])
    {
      OwedBounds(l.streams[id], l.clock);
    }
  }

  /** What a recipient has earned never shrinks, whatever is done to the stream by anyone, and what
      was withdrawn stays within it. */
  lemma EntitlementNeverShrinks(clock: Clock, config: Config, before: seq<Op>, after: seq<Op>, id: int)
    requires ClockOk(clock)
    requires id in Run(Initial(clock, config), before).streams
    requires id in Run(Run(Initial(clock, config), before), after).streams
    ensures var l := Run(Initial(clock, config), before);
            var m := Run(l, after);
            && 0 <= l.streams[id].withdrawn <= m.streams[id].withdrawn
            && m.streams[id].withdrawn <= Accrued(m.streams[id], m.clock.now) <= m.streams[id].deposit
            && Accrued(l.streams[id], l.clock.now) <= Accrued(m.streams[id], m.clock.now)
  {
    RunKeepsInv(Initial(clock, config), before);
    var l := Run(Initial(clock, config), before);
    RunKeepsInv(l, after);
    OwedBounds(Run(l, after).streams[id], Run(l, after).clock);
  }

  /** A stream that is closed had paid out or refunded everything ever put in for it, and its books
      stay that way; the ID is never live again. */
  lemma ConservationAtClose(l: State, id: int, completedToo: bool, later: seq<Op>)
    requires Inv(l) && Close(l, id, completedToo).1.Ok?
    ensures var m := Run(Close(l, id, completedToo).0, later);
            && id in l.flows && id in m.flows && id !in m.streams && m.flows[id] == l.flows[id]
            && m.flows[id].funded == m.flows[id].paid + m.flows[id].refunded
  {
    CloseKeepsInv(l, id, completedToo);
    RunKeepsInv(Close(l, id, completedToo).0, later);
  }

  // ------------------------------------------------------------------ the liability counter

  /** How far the counter lies above what is owed. */
  ghost function Gap(l: State): int { l.liabilities - Total(l.streams) }

  /** The entry points that move tokens out without lowering the counter. */
  predicate BypassesCounter(op: Op) {
    || op.WithdrawBatchTo?
    || (op.On? && (op.op.DecreaseRate? || op.op.DelegatedWithdraw? || op.op.TriggerAutoClaim?))
  }

  function Deposits(ps: seq<Params>): int {
    if |ps| == 0 then 0 else Deposits(ps[..|ps| - 1]) + Max(ps[|ps| - 1].deposit, 0)
  }

  /** New money that arrives with a call: nothing if the call is refused. */
  function Arrived(l: State, op: Op): int {
    match op
    case On(id, TopUp(_, amount)) => if StreamStep(l, id, op.op).1.Ok? then amount else 0
    case Create(sender, p) => if CreateStream(l, sender, p).1.Ok? then p.deposit else 0
    case CreateBatch(sender, ps) => if CreateStreams(l, sender, ps).1.Ok? then Deposits(ps) else 0
    case _ => 0
  }

  /** What the counter, which stops at the largest `i128`, does not count of that money. */
  function Cut(l: State, arrived: int): int { Max(l.liabilities + arrived - I128_MAX, 0) }

  predicate NoContractRecipient(l: State) { forall id | id in l.streams :: l.streams[id].recipient != Contract }

  /** What the contract holds beyond what it owes. */
  ghost function Surplus(l: State): int { l.balance - Total(l.streams) }

  /** The counter follows every token that moved (`bypass` false), or stands still while the tokens
      that left are exactly what is no longer owed (`bypass` true). */
  ghost predicate Counted(l: State, m: State, bypass: bool) {
    if bypass then m.liabilities == l.liabilities && l.balance - m.balance == Total(l.streams) - Total(m.streams)
    else Gap(m) == Gap(l)
  }

  /** No more tokens left than debts were settled; they differ only by payments the contract makes
      to itself. */
  ghost predicate Matched(l: State, m: State) {
    && Surplus(l) <= Surplus(m)
    && (NoContractRecipient(l) ==> Surplus(m) == Surplus(l))
  }

  predicate SameRecipients(l: State, m: State) {
    && m.streams.Keys == l.streams.Keys
    && forall id | id in l.streams :: m.streams[id].recipient == l.streams[id].recipient
  }

  /** One step and the counter: the gap grows by what a bypassing entry point moves out, shrinks by
      what saturation cuts off, and else stays. */
  ghost predicate Accounted(l: State, m: State, op: Op) {
    Gap(m) == Gap(l) + (if BypassesCounter(op) then l.balance - m.balance else 0) - Cut(l, Arrived(l, op))
  }

  lemma RuleCounts(l: State, id: int, op: StreamOp)
    requires Inv(l) && id in l.streams && Refusal(l, op) == None && Rule(l, id, op).Ok? && Rule(l, id, op).value.Write?
    ensures var e := Rule(l, id, op).value;
            if BypassesCounter(On(id, op)) then e.liability == 0 == e.fund && (e.pay > 0 ==> e.payee != Contract)
            else e.liability == e.fund - e.pay - e.refund
    ensures op.TopUp? ==> Rule(l, id, op).value.fund == op.amount
    ensures !op.TopUp? ==> Rule(l, id, op).value.fund == 0
  {
    OwedBounds(l.streams[id], l.clock);
  }

  lemma BypassCounts(l: State, id: int, e: Effect)
    requires Inv(l) && id in l.streams && EffectOk(l.streams[id], e, l.clock) && Funded(l, e)
    requires e.Write? ==> e.liability == 0 == e.fund && (e.pay > 0 ==> e.payee != Contract)
    ensures Counted(l, Commit(l, id, e), true)
  {
    CommitKeepsInv(l, id, e);
  }

  lemma FollowedCounts(l: State, id: int, e: Effect)
    requires Inv(l) && id in l.streams && EffectOk(l.streams[id], e, l.clock) && Funded(l, e)
    requires e.Write? ==> e.liability == e.fund - e.pay - e.refund
    ensures Gap(Commit(l, id, e)) == Gap(l) - Cut(l, if e.Write? then e.fund else 0)
  {
    CommitKeepsInv(l, id, e);
  }

  lemma CommitCounts(l: State, id: int, e: Effect, bypass: bool)
    requires Inv(l) && id in l.streams && EffectOk(l.streams[id], e, l.clock) && Funded(l, e)
    requires e.Write? ==> if bypass then e.liability == 0 == e.fund && (e.pay > 0 ==> e.payee != Contract)
                          else e.liability == e.fund - e.pay - e.refund
    ensures var m, fund := Commit(l, id, e), if e.Write? then e.fund else 0;
            if bypass then Counted(l, m, true) else Gap(m) == Gap(l) - Cut(l, fund)
    ensures (e.Write? ==> e.fund == 0) ==> Counted(l, Commit(l, id, e), bypass)
  {
    if bypass {
      BypassCounts(l, id, e);
    } else {
      FollowedCounts(l, id, e);
    }
  }

  lemma CommitMatches(l: State, id: int, e: Effect)
    requires Inv(l) && id in l.streams && EffectOk(l.streams[id], e, l.clock) && Funded(l, e)
    requires e.Write? && e.pay > 0 && e.payee == Contract ==> l.streams[id].recipient == Contract
    ensures Matched(l, Commit(l, id, e)) && SameRecipients(l, Commit(l, id, e))
  {
    CommitKeepsInv(l, id, e);
  }

  /** The reply of a call that gets past its rule depends on the pull alone. */
  lemma StepApplies(l: State, id: int, op: StreamOp)
    requires id in l.streams && Refusal(l, op) == None && Rule(l, id, op).Ok?
    ensures var (m, r) := StreamStep(l, id, op);
            && r.Ok? == Funded(l, Rule(l, id, op).value)
            && (r.Ok? ==> var n := Commit(l, id, Rule(l, id, op).value);
                          m.balance == n.balance && m.liabilities == n.liabilities && m.streams == n.streams)
            && (r.Err? ==> m == l)
  {
  }

  lemma RefusedStays(l: State, id: int, op: StreamOp)
    requires StreamStep(l, id, op).1.Err?
    ensures StreamStep(l, id, op).0 == l
  {
  }

  lemma ArrivedWith(l: State, id: int, op: StreamOp)
    ensures Arrived(l, On(id, op)) == if op.TopUp? && StreamStep(l, id, op).1.Ok? then op.amount else 0
  {
  }

  lemma AcceptedStepCounts(l: State, id: int, op: StreamOp)
    requires Inv(l) && StreamStep(l, id, op).1.Ok?
    ensures var m, arrived := StreamStep(l, id, op).0, if op.TopUp? then op.amount else 0;
            if BypassesCounter(On(id, op)) then Counted(l, m, true) && arrived == 0
            else Gap(m) == Gap(l) - Cut(l, arrived)
  {
    var e := Rule(l, id, op).value;
    RuleOk(l, id, op);
    StepApplies(l, id, op);
    if e.Write? {
      RuleCounts(l, id, op);
    } else if op.TopUp? {
      TopUpWrites(l, id, op);
    }
    CommitCounts(l, id, e, BypassesCounter(On(id, op)));
  }

  lemma StreamStepCounts(l: State, id: int, op: StreamOp)
    requires Inv(l)
    ensures Accounted(l, StreamStep(l, id, op).0, On(id, op))
  {
    ArrivedWith(l, id, op);
    if StreamStep(l, id, op).1.Err? {
      RefusedStays(l, id, op);
    } else {
      AcceptedStepCounts(l, id, op);
    }
  }

  lemma TopUpWrites(l: State, id: int, op: StreamOp)
    requires id in l.streams && Refusal(l, op) == None && Rule(l, id, op).Ok? && op.TopUp?
    ensures Rule(l, id, op).value.Write?
  {
  }

  /** Only a stream of the contract's own makes the contract pay itself. */
  lemma SelfPaymentIsOwn(l: State, id: int, op: StreamOp)
    requires id in l.streams && Refusal(l, op) == None && Rule(l, id, op).Ok? && Rule(l, id, op).value.Write?
    ensures var e := Rule(l, id, op).value; e.pay > 0 && e.payee == Contract ==> l.streams[id].recipient == Contract
  {
  }

  lemma StreamStepMatches(l: State, id: int, op: StreamOp)
    requires Inv(l)
    ensures Matched(l, StreamStep(l, id, op).0)
  {
    if StreamStep(l, id, op).1.Err? {
      RefusedStays(l, id, op);
    } else {
      RuleOk(l, id, op);
      StepApplies(l, id, op);
      if Rule(l, id, op).value.Write? {
        SelfPaymentIsOwn(l, id, op);
      }
      CommitMatches(l, id, Rule(l, id, op).value);
    }
  }

  lemma {:induction false} DepositsNonNegative(ps: seq<Params>)
    ensures Deposits(ps) >= 0
  {
    if |ps| > 0 {
      DepositsNonNegative(ps[..|ps| - 1]);
    }
  }

  /** What creations do: the surplus stays, and the counter follows the deposits as far as it can. */
  ghost predicate Deposited(l: State, m: State, arrived: int) {
    && Surplus(m) == Surplus(l) && Gap(m) == Gap(l) - Cut(l, arrived)
    && m.liabilities == Min(l.liabilities + arrived, I128_MAX)
  }

  lemma CreationCounts(l: State, sender: Address, p: Params)
    requires Inv(l)
    ensures var (m, r) := CreateStream(l, sender, p);
            Deposited(l, m, if r.Ok? then p.deposit else 0) && (r.Ok? ==> p.deposit > 0)
  {
    CreateKeepsInv(l, sender, p);
  }

  lemma DepositedTwice(l: State, m: State, n: State, x: int, y: int)
    requires Deposited(l, m, x) && Deposited(m, n, y) && 0 <= x && 0 <= y && l.liabilities <= I128_MAX
    ensures Deposited(l, n, x + y)
  {
  }

  lemma {:induction false} CreationsCount(l: State, sender: Address, ps: seq<Params>)
    requires Inv(l)
    ensures var (m, r) := CreateStreams(l, sender, ps);
            Deposited(l, m, if r.Ok? then Deposits(ps) else 0)
  {
    if |ps| > 0 {
      var before, last := ps[..|ps| - 1], ps[|ps| - 1];
      var (m, ids) := CreateStreams(l, sender, before);
      DepositsNonNegative(before);
      CreationsCount(l, sender, before);
      CreateStreamsKeepsInv(l, sender, before);
      if ids.Ok? && CreateStream(m, sender, last).1.Ok? {
        CreationCounts(m, sender, last);
        DepositedTwice(l, m, CreateStream(m, sender, last).0, Deposits(before), last.deposit);
      }
    }
  }

  /** The destinations of a directed batch that passed its checks. */
  lemma {:induction false} NoFaultNoContract(ws: seq<WithdrawToParam>, i: nat)
    requires i <= |ws| && DirectedFault(ws, i) == None
    ensures forall k | i <= k < |ws| :: ws[k].destination != Contract
    decreases |ws| - i
  {
    if i < |ws| {
      NoFaultNoContract(ws, i + 1);
    }
  }

  /** What a batch that only pays out does to counter, surplus and recipients. */
  ghost predicate Drains(l: State, m: State, bypass: bool) {
    Counted(l, m, bypass) && Matched(l, m) && SameRecipients(l, m)
  }

  lemma DrainsTransitive(l: State, m: State, n: State, bypass: bool)
    requires Drains(l, m, bypass) && Drains(m, n, bypass)
    ensures Drains(l, n, bypass)
  {
    assert NoContractRecipient(l) ==> NoContractRecipient(m);
  }

  lemma WithdrawItemCounts(l: State, recipient: Address, item: Item)
    requires Inv(l) && item.payee != Some(Contract)
    ensures var m := WithdrawItem(l, recipient, item).0;
            Drains(l, m, item.payee.Some?)
  {
    if item.id in l.streams {
      var r := ItemRule(l.streams[item.id], l.clock, recipient, item);
      if r.Ok? {
        ItemOk(l, recipient, item);
        CommitCounts(l, item.id, r.value, item.payee.Some?);
        CommitMatches(l, item.id, r.value);
      }
    }
  }

  lemma ItemsEitherWay(l: State, recipient: Address, items: seq<Item>)
    requires |items| > 0
    ensures var m, n := WithdrawItems(l, recipient, items).0, WithdrawItems(l, recipient, items[..|items| - 1]).0;
            m == l || m == WithdrawItem(n, recipient, items[|items| - 1]).0
  {
  }

  lemma {:induction false} WithdrawItemsCount(l: State, recipient: Address, items: seq<Item>, bypass: bool)
    requires Inv(l) && forall i | 0 <= i < |items| :: items[i].payee != Some(Contract) && items[i].payee.Some? == bypass
    ensures Drains(l, WithdrawItems(l, recipient, items).0, bypass)
  {
    if |items| > 0 {
      var before, last := items[..|items| - 1], items[|items| - 1];
      var m := WithdrawItems(l, recipient, before).0;
      WithdrawItemsCount(l, recipient, before, bypass);
      WithdrawItemsKeepsInv(l, recipient, before);
      WithdrawItemCounts(m, recipient, last);
      DrainsTransitive(l, m, WithdrawItem(m, recipient, last).0, bypass);
      ItemsEitherWay(l, recipient, items);
    }
  }

  lemma SettlingKeepsRecipient(l: State, id: int)
    requires id in l.streams && Live(l.streams[id])
    ensures id in SettleAndCancel(l, id).streams
    ensures SettleAndCancel(l, id).streams[id].recipient == l.streams[id].recipient
  {
  }

  lemma DrainedCounts(l: State, m: State, id: int, gone: int, kept: int)
    requires id in l.streams && Drained(l, m, id, gone, kept) && 0 <= kept
    requires m.streams[id].recipient == l.streams[id].recipient
    requires kept > 0 ==> l.streams[id].recipient == Contract
    ensures Drains(l, m, false)
  {
  }

  lemma SettleCounts(l: State, id: int)
    requires Inv(l) && id in l.streams && Live(l.streams[id])
    ensures Drains(l, SettleAndCancel(l, id), false)
  {
    var s := l.streams[id];
    SettleAndCancelKeepsInv(l, id);
    SettlingKeepsRecipient(l, id);
    OwedBounds(s, l.clock);
    DrainedCounts(l, SettleAndCancel(l, id), id, Owed(s), KeptBy(s.recipient, Claim(s, l.clock)));
  }

  lemma {:induction false} SettleAllCounts(l: State, ids: seq<int>)
    requires Inv(l)
    ensures Drains(l, SettleAndCancelAll(l, ids), false)
  {
    if |ids| > 0 {
      var m, id := SettleAndCancelAll(l, ids[..|ids| - 1]), ids[|ids| - 1];
      SettleAllCounts(l, ids[..|ids| - 1]);
      SettleAndCancelAllKeepsInv(l, ids[..|ids| - 1]);
      if id in m.streams && Live(m.streams[id]) {
        SettleCounts(m, id);
        DrainsTransitive(l, m, SettleAndCancel(m, id), false);
      }
    }
  }

  lemma DirectedCounts(l: State, recipient: Address, ws: seq<WithdrawToParam>)
    requires Inv(l)
    ensures Drains(l, BatchWithdrawTo(l, recipient, ws).0, true)
  {
    if DirectedFault(ws, 0) == None {
      NoFaultNoContract(ws, 0);
      WithdrawItemsCount(l, recipient, Directed(ws), true);
    }
  }

  lemma PlainCounts(l: State, recipient: Address, ids: seq<int>)
    requires Inv(l)
    ensures Drains(l, BatchWithdraw(l, recipient, ids).0, false)
  {
    WithdrawItemsCount(l, recipient, Plain(ids), false);
  }

  lemma BulkCancelCounts(l: State, sender: Address, ids: seq<int>)
    requires Inv(l)
    ensures Drains(l, BulkCancel(l, sender, ids).0, false)
  {
    SettleAllCounts(l, ids);
  }

  lemma BatchCounts(l: State, op: Op)
    requires Inv(l) && (op.WithdrawBatch? || op.WithdrawBatchTo? || op.CancelBatch?)
    ensures Drains(l, Step(l, op), BypassesCounter(op))
  {
    if op.WithdrawBatch? {
      PlainCounts(l, op.recipient, op.ids);
    } else if op.WithdrawBatchTo? {
      DirectedCounts(l, op.recipient, op.directed);
    } else {
      BulkCancelCounts(l, op.sender, op.ids);
    }
  }

  /** The steps that change neither what is owed nor the counter. */
  predicate Neutral(op: Op) {
    || op.Tick? || op.Donate? || op.Allow? || op.Configure? || op.CloseStream? || op.Propose? || op.Accept?
    || op.Retract? || op.AutoClaim? || op.SweepExcess? || op.ReserveRange? || op.ReleaseRange? || op.ReclaimRange?
  }

  /** Neither the streams nor the counter change, and the balance only by donations and sweeps. */
  ghost predicate Quiet(l: State, op: Op) {
    var m := Step(l, op);
    && m.streams == l.streams && m.liabilities == l.liabilities
    && (if op.Donate? then m.balance >= l.balance else op.SweepExcess? || m.balance == l.balance)
  }

  lemma OutsideIsQuiet(l: State, op: Op)
    requires op.Tick? || op.Donate? || op.Allow? || op.Configure?
          || op.ReserveRange? || op.ReleaseRange? || op.ReclaimRange?
    ensures Quiet(l, op)
  {
    if op.Tick? || op.Donate? || op.Allow? || op.Configure? {
      WorldIsQuiet(l, op);
    } else {
      RangeIsQuiet(l, op);
    }
  }

  lemma WorldIsQuiet(l: State, op: Op)
    requires op.Tick? || op.Donate? || op.Allow? || op.Configure?
    ensures Quiet(l, op)
  {
  }

  lemma RangeIsQuiet(l: State, op: Op)
    requires op.ReserveRange? || op.ReleaseRange? || op.ReclaimRange?
    ensures Quiet(l, op)
  {
  }

  lemma SideStepIsQuiet(l: State, op: Op)
    requires op.Propose? || op.Retract? || op.AutoClaim? || op.SweepExcess?
    ensures Quiet(l, op)
  {
  }

  /** Neither what is owed nor the counter changes, and the balance only by donations and sweeps. */
  ghost predicate Still(l: State, m: State, op: Op) {
    && Total(m.streams) == Total(l.streams) && m.liabilities == l.liabilities
    && (if op.Donate? then m.balance >= l.balance else op.SweepExcess? || m.balance == l.balance)
  }

  lemma CloseIsStill(l: State, op: Op)
    requires Inv(l) && op.CloseStream?
    ensures Still(l, Step(l, op), op)
  {
    CloseKeepsInv(l, op.id, op.completedToo);
    assert Close(l, op.id, op.completedToo).0.(streams := l.streams) == l;
  }

  lemma AcceptIsStill(l: State, op: Op)
    requires Inv(l) && op.Accept?
    ensures Still(l, Step(l, op), op)
  {
    AcceptKeepsInv(l, op.caller, op.id);
    assert AcceptRecipient(l, op.caller, op.id).0.(streams := l.streams, pending := l.pending) == l;
  }

  lemma NeutralSteps(l: State, op: Op)
    requires Inv(l) && Neutral(op)
    ensures Still(l, Step(l, op), op)
  {
    if op.CloseStream? {
      CloseIsStill(l, op);
    } else if op.Accept? {
      AcceptIsStill(l, op);
    } else if op.Propose? || op.Retract? || op.AutoClaim? || op.SweepExcess? {
      SideStepIsQuiet(l, op);
    } else {
      OutsideIsQuiet(l, op);
    }
  }

  lemma DrainsCounts(l: State, op: Op)
    requires Inv(l) && (op.WithdrawBatch? || op.WithdrawBatchTo? || op.CancelBatch?)
    ensures Accounted(l, Step(l, op), op)
  {
    BatchCounts(l, op);
    assert Arrived(l, op) == 0;
  }

  lemma StillCounts(l: State, op: Op)
    requires Inv(l) && Neutral(op)
    ensures Accounted(l, Step(l, op), op)
  {
    NeutralSteps(l, op);
    assert Arrived(l, op) == 0 && !BypassesCounter(op);
  }

  lemma DepositCounts(l: State, op: Op)
    requires Inv(l) && (op.Create? || op.CreateBatch?)
    ensures Accounted(l, Step(l, op), op) && Surplus(Step(l, op)) == Surplus(l)
  {
    if op.Create? {
      CreationCounts(l, op.sender, op.params);
    } else {
      CreationsCount(l, op.sender, op.batch);
    }
  }

  /** Every step of the machine, refused calls included. */
  lemma StepCounts(l: State, op: Op)
    requires Inv(l)
    ensures Accounted(l, Step(l, op), op)
  {
    if op.On? {
      StreamStepCounts(l, op.id, op.op);
    } else if op.Create? || op.CreateBatch? {
      DepositCounts(l, op);
    } else if Neutral(op) {
      StillCounts(l, op);
    } else {
      DrainsCounts(l, op);
    }
  }

  /** One step and the surplus: only a sweep can lower it; only donations and payments the contract
      makes to itself can raise it. */
  lemma StepMatches(l: State, op: Op)
    requires Inv(l) && !op.SweepExcess?
    ensures Surplus(l) <= Surplus(Step(l, op))
    ensures !op.Donate? && NoContractRecipient(l) ==> Surplus(Step(l, op)) == Surplus(l)
  {
    if op.On? {
      StreamStepMatches(l, op.id, op.op);
    } else if op.Create? || op.CreateBatch? {
      DepositCounts(l, op);
    } else if Neutral(op) {
      NeutralSteps(l, op);
    } else {
      BatchCounts(l, op);
    }
  }

  // ------------------------------------------------------------------ the counter over runs

  /** The tokens that the bypassing entry points moved out during the run. */
  ghost function Bypassed(l: State, ops: seq<Op>): int {
    if |ops| == 0 then 0
    else
      var m, op := Run(l, ops[..|ops| - 1]), ops[|ops| - 1];
      Bypassed(l, ops[..|ops| - 1]) + if BypassesCounter(op) then m.balance - Step(m, op).balance else 0
  }

  /** The tokens that arrived during the run while the counter was at its limit. */
  ghost function CutOff(l: State, ops: seq<Op>): nat {
    if |ops| == 0 then 0
    else
      var m := Run(l, ops[..|ops| - 1]);
      CutOff(l, ops[..|ops| - 1]) + Cut(m, Arrived(m, ops[|ops| - 1]))
  }

  /** Over every run, the distance of the counter from what is owed grows by exactly the total moved by
      rate decreases, delegated withdrawals, auto-claims and directed batches, less what arrived while
      the counter was saturated. */
  lemma {:induction false} GapIsWhatBypassed(l: State, ops: seq<Op>)
    requires Inv(l)
    ensures Gap(Run(l, ops)) == Gap(l) + Bypassed(l, ops) - CutOff(l, ops)
  {
    if |ops| > 0 {
      RunKeepsInv(l, ops[..|ops| - 1]);
      GapIsWhatBypassed(l, ops[..|ops| - 1]);
      StepCounts(Run(l, ops[..|ops| - 1]), ops[|ops| - 1]);
    }
  }

  /** No step of the run brings more than the counter can still count. */
  ghost predicate NeverSaturates(l: State, ops: seq<Op>) {
    |ops| > 0 ==>
      var m := Run(l, ops[..|ops| - 1]);
      NeverSaturates(l, ops[..|ops| - 1]) && m.liabilities + Arrived(m, ops[|ops| - 1]) <= I128_MAX
  }

  /** Nothing is cut off if and only if the counter never saturates. */
  lemma {:induction false} CutOffExactly(l: State, ops: seq<Op>)
    ensures CutOff(l, ops) == 0 <==> NeverSaturates(l, ops)
  {
    if |ops| > 0 {
      CutOffExactly(l, ops[..|ops| - 1]);
    }
  }

  lemma BypassingRulePays(l: State, id: int, op: StreamOp)
    requires Inv(l) && BypassesCounter(On(id, op))
    ensures StreamStep(l, id, op).0.balance <= l.balance
  {
    if StreamStep(l, id, op).1.Err? {
      RefusedStays(l, id, op);
    } else {
      RuleOk(l, id, op);
      StepApplies(l, id, op);
      if Rule(l, id, op).value.Write? {
        RuleCounts(l, id, op);
      }
      CommitKeepsInv(l, id, Rule(l, id, op).value);
    }
  }

  lemma ItemIsNotFunded(s: Stream, c: Clock, recipient: Address, item: Item)
    requires ItemRule(s, c, recipient, item).Ok? && ItemRule(s, c, recipient, item).value.Write?
    ensures ItemRule(s, c, recipient, item).value.fund == 0
  {
  }

  lemma UnfundedPays(l: State, id: int, e: Effect)
    requires Inv(l) && id in l.streams && EffectOk(l.streams[id], e, l.clock) && (e.Write? ==> e.fund == 0)
    ensures Apply(l, id, Ok(e)).0.balance <= l.balance
  {
    CommitKeepsInv(l, id, e);
  }

  lemma ItemPays(l: State, recipient: Address, item: Item)
    requires Inv(l)
    ensures WithdrawItem(l, recipient, item).0.balance <= l.balance
  {
    if item.id in l.streams {
      var r := ItemRule(l.streams[item.id], l.clock, recipient, item);
      if r.Ok? {
        ItemOk(l, recipient, item);
        if r.value.Write? {
          ItemIsNotFunded(l.streams[item.id], l.clock, recipient, item);
        }
        UnfundedPays(l, item.id, r.value);
      }
    }
  }

  lemma {:induction false} ItemsPay(l: State, recipient: Address, items: seq<Item>)
    requires Inv(l)
    ensures WithdrawItems(l, recipient, items).0.balance <= l.balance
  {
    if |items| > 0 {
      ItemsPay(l, recipient, items[..|items| - 1]);
      WithdrawItemsKeepsInv(l, recipient, items[..|items| - 1]);
      ItemPays(WithdrawItems(l, recipient, items[..|items| - 1]).0, recipient, items[|items| - 1]);
      ItemsEitherWay(l, recipient, items);
    }
  }

  lemma DirectedPays(l: State, recipient: Address, ws: seq<WithdrawToParam>)
    requires Inv(l)
    ensures BatchWithdrawTo(l, recipient, ws).0.balance <= l.balance
  {
    ItemsPay(l, recipient, Directed(ws));
  }

  lemma BypassingPays(l: State, op: Op)
    requires Inv(l) && BypassesCounter(op)
    ensures Step(l, op).balance <= l.balance
  {
    if op.On? {
      BypassingRulePays(l, op.id, op.op);
    } else {
      DirectedPays(l, op.recipient, op.directed);
    }
  }

  /** Without sweeps the surplus of the contract never falls. */
  lemma {:induction false} SurplusNeverFalls(l: State, ops: seq<Op>)
    requires Inv(l) && forall i | 0 <= i < |ops| :: !ops[i].SweepExcess?
    ensures Surplus(l) <= Surplus(Run(l, ops))
  {
    if |ops| > 0 {
      RunKeepsInv(l, ops[..|ops| - 1]);
      SurplusNeverFalls(l, ops[..|ops| - 1]);
      StepMatches(Run(l, ops[..|ops| - 1]), ops[|ops| - 1]);
    }
  }

  /** A sweep takes the balance down to the liability counter, never below what is owed. */
  lemma SweepLeavesTheGap(l: State, to: Address)
    requires Inv(l) && to != Contract && l.liabilities <= l.balance
    ensures var m := Sweep(l, l.config.admin, to).0;
            && m.balance == l.liabilities && Surplus(m) == Gap(l) >= 0
            && Sweep(l, l.config.admin, to).1 == Ok(Surplus(l) - Gap(l))
  {
  }

  /** What bypassed the counter is out of the administrator's reach for good: however often and whenever
      the excess was swept during the run, a sweep after it that takes anything leaves the gap there was
      at the beginning and all that has bypassed the counter since, less what saturation cut off. */
  lemma BypassedIsNeverSwept(l: State, ops: seq<Op>, caller: Address, to: Address)
    requires Inv(l)
    ensures var (n, taken) := Sweep(Run(l, ops), caller, to);
            && Bypassed(l, ops) >= 0
            && (taken.Ok? && taken.value > 0 ==> Surplus(n) >= Gap(l) + Bypassed(l, ops) - CutOff(l, ops))
  {
    GapIsWhatBypassed(l, ops);
    BypassedGrows(l, ops);
  }

  lemma {:induction false} BypassedGrows(l: State, ops: seq<Op>)
    requires Inv(l)
    ensures Bypassed(l, ops) >= 0
  {
    if |ops| > 0 {
      BypassedGrows(l, ops[..|ops| - 1]);
      RunKeepsInv(l, ops[..|ops| - 1]);
      if BypassesCounter(ops[|ops| - 1]) {
        BypassingPays(Run(l, ops[..|ops| - 1]), ops[|ops| - 1]);
      }
    }
  }

  // ------------------------------------------------------------------ delegated withdrawals

  lemma StreamStepNonces(l: State, id: int, op: StreamOp)
    ensures forall a :: l.nonces[a] <= StreamStep(l, id, op).0.nonces[a]
  {
    if Refusal(l, op) == None && id in l.streams {
      ApplyKeepsNonces(l, id, Rule(l, id, op));
    }
  }

  lemma ApplyKeepsNonces(l: State, id: int, r: Result<Effect>)
    ensures Apply(l, id, r).0.nonces == l.nonces
  {
  }

  lemma QuietNonces(l: State, op: Op)
    requires Neutral(op) || op.Create?
    ensures Step(l, op).nonces == l.nonces
  {
  }

  lemma {:induction false} ItemsKeepNonces(l: State, recipient: Address, items: seq<Item>)
    ensures WithdrawItems(l, recipient, items).0.nonces == l.nonces
  {
    if |items| > 0 {
      ItemsKeepNonces(l, recipient, items[..|items| - 1]);
    }
  }

  lemma {:induction false} CreationsKeepNonces(l: State, sender: Address, ps: seq<Params>)
    ensures CreateStreams(l, sender, ps).0.nonces == l.nonces
  {
    if |ps| > 0 {
      CreationsKeepNonces(l, sender, ps[..|ps| - 1]);
    }
  }

  lemma {:induction false} SettlingKeepsNonces(l: State, ids: seq<int>)
    ensures SettleAndCancelAll(l, ids).nonces == l.nonces
  {
    if |ids| > 0 {
      SettlingKeepsNonces(l, ids[..|ids| - 1]);
    }
  }

  lemma StepNonces(l: State, op: Op)
    ensures forall a :: l.nonces[a] <= Step(l, op).nonces[a]
  {
    if op.On? {
      StreamStepNonces(l, op.id, op.op);
    } else if op.WithdrawBatch? || op.WithdrawBatchTo? || op.CancelBatch? {
      BatchKeepsNonces(l, op);
    } else if op.CreateBatch? {
      CreationsKeepNonces(l, op.sender, op.batch);
    } else {
      QuietNonces(l, op);
    }
  }

  lemma BatchWithdrawsKeepNonces(l: State, recipient: Address, ids: seq<int>, ws: seq<WithdrawToParam>)
    ensures BatchWithdraw(l, recipient, ids).0.nonces == l.nonces
    ensures BatchWithdrawTo(l, recipient, ws).0.nonces == l.nonces
  {
    ItemsKeepNonces(l, recipient, Plain(ids));
    ItemsKeepNonces(l, recipient, Directed(ws));
  }

  lemma BulkCancelKeepsNonces(l: State, sender: Address, ids: seq<int>)
    ensures BulkCancel(l, sender, ids).0.nonces == l.nonces
  {
    SettlingKeepsNonces(l, ids);
  }

  lemma BatchKeepsNonces(l: State, op: Op)
    requires op.WithdrawBatch? || op.WithdrawBatchTo? || op.CancelBatch?
    ensures Step(l, op).nonces == l.nonces
  {
    if op.WithdrawBatch? {
      BatchWithdrawsKeepNonces(l, op.recipient, op.ids, []);
    } else if op.WithdrawBatchTo? {
      BatchWithdrawsKeepNonces(l, op.recipient, [], op.directed);
    } else {
      BulkCancelKeepsNonces(l, op.sender, op.ids);
    }
  }

  lemma {:induction false} NoncesOnlyGrow(l: State, ops: seq<Op>, a: Address)
    ensures l.nonces[a] <= Run(l, ops).nonces[a]
  {
    if |ops| > 0 {
      NoncesOnlyGrow(l, ops[..|ops| - 1], a);
      StepNonces(Run(l, ops[..|ops| - 1]), ops[|ops| - 1]);
    }
  }

  /** A request that pays uses up its nonce. */
  lemma PayingUsesNonce(l: State, id: int, request: Delegation)
    requires StreamStep(l, id, DelegatedWithdraw(request)).1.Ok?
    requires StreamStep(l, id, DelegatedWithdraw(request)).1.value > 0
    ensures StreamStep(l, id, DelegatedWithdraw(request)).0.nonces[Account(request.key)] == request.nonce + 1
  {
    ApplyKeepsNonces(l, id, Rule(l, id, DelegatedWithdraw(request)));
  }

  /** A request with a nonce that has been passed is refused. */
  lemma StaleNonceRefused(l: State, id: int, request: Delegation)
    requires request.nonce < l.nonces[Account(request.key)]
    ensures StreamStep(l, id, DelegatedWithdraw(request)).1.Err?
  {
  }

  /** A signed request pays at most once: after it has paid, no request with the same key and nonce
      is accepted again, on any stream, however the contract is used in between. */
  lemma SignatureIsSpent(l: State, id: int, request: Delegation, ops: seq<Op>, other: int, again: Delegation)
    requires StreamStep(l, id, DelegatedWithdraw(request)).1.Ok?
    requires StreamStep(l, id, DelegatedWithdraw(request)).1.value > 0
    requires again.key == request.key && again.nonce == request.nonce
    ensures var m := Run(StreamStep(l, id, DelegatedWithdraw(request)).0, ops);
            StreamStep(m, other, DelegatedWithdraw(again)).1.Err?
  {
    var m := StreamStep(l, id, DelegatedWithdraw(request)).0;
    PayingUsesNonce(l, id, request);
    NoncesOnlyGrow(m, ops, Account(request.key));
    StaleNonceRefused(Run(m, ops), other, again);
  }
}
