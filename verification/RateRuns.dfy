/** Accrual as a second-by-second simulation over whole runs of the contract: whatever else happens to
    the stream and to the contract, only the rate changes that were accepted matter. */
module RateRuns {
  import opened FixedWidth
  import opened Accrual
  import opened Streams
  import opened StreamRules
  import opened Ledger
  import opened LedgerInvariant
  import opened RateSimulation
  import LedgerRuns
  import Forecast

  /** The fields that accrual over time depends on. */
  predicate SamePricing(s: Stream, t: Stream) {
    && Checkpoint(s) == Checkpoint(t) && s.rate == t.rate && s.start == t.start && s.sender == t.sender
  }

  /** A live stream has something left to pay. */
  predicate Unfinished(s: Stream) { Live(s) ==> s.withdrawn < s.deposit }

  predicate Continues(s: Stream, t: Stream) { SamePricing(s, t) && (Unfinished(s) ==> Unfinished(t)) }

  ghost predicate PricingKept(l: State, m: State, id: int) {
    id in l.streams && id in m.streams ==> Continues(l.streams[id], m.streams[id])
  }

  // ------------------------------------------------------------------ steps that keep the pricing

  predicate Reprices(op: StreamOp) { op.UpdateRate? || op.DecreaseRate? }

  predicate Reschedules(op: StreamOp) { op.TopUp? || op.Shorten? || op.Extend? }

  lemma OtherRulesKeepPricing(l: State, id: int, op: StreamOp)
    requires Inv(l) && id in l.streams && Refusal(l, op) == None && Rule(l, id, op).Ok? && Rule(l, id, op).value.Write?
    requires !Reprices(op) && !Reschedules(op)
    ensures Continues(l.streams[id], Rule(l, id, op).value.stream)
  {
    OwedBounds(l.streams[id], l.clock);
  }

  lemma StreamStepKeepsPricing(l: State, i: int, op: StreamOp, id: int)
    requires Inv(l)
    requires i != id || StreamStep(l, i, op).1.Err? || (!Reprices(op) && !Reschedules(op))
    ensures PricingKept(l, StreamStep(l, i, op).0, id)
  {
    if StreamStep(l, i, op).1.Err? {
      LedgerRuns.RefusedStays(l, i, op);
    } else if i != id {
      if id in l.streams {
        Forecast.StreamStepElsewhere(l, i, op, id);
      }
    } else {
      LedgerRuns.StepApplies(l, id, op);
      if Rule(l, id, op).value.Write? {
        OtherRulesKeepPricing(l, id, op);
      }
    }
  }

  lemma ItemRuleKeepsPricing(s: Stream, c: Clock, recipient: Address, item: Item)
    requires StreamOk(s, c)
    requires ItemRule(s, c, recipient, item).Ok? && ItemRule(s, c, recipient, item).value.Write?
    ensures Continues(s, ItemRule(s, c, recipient, item).value.stream)
  {
    OwedBounds(s, c);
  }

  /** All streams at once: the table keeps its IDs, and each record its pricing. */
  ghost predicate AllPricingKept(l: State, m: State) {
    m.streams.Keys == l.streams.Keys && forall id | id in l.streams :: Continues(l.streams[id], m.streams[id])
  }

  lemma CommitKeepsPricing(l: State, id: int, e: Effect)
    requires Funded(l, e) && id in l.streams && (e.Write? ==> Continues(l.streams[id], e.stream))
    ensures AllPricingKept(l, Commit(l, id, e))
  {
  }

  lemma AppliedKeepsPricing(l: State, id: int, r: Result<Effect>)
    requires id in l.streams && (r.Ok? && r.value.Write? ==> Continues(l.streams[id], r.value.stream))
    ensures AllPricingKept(l, Apply(l, id, r).0)
  {
    if r.Ok? && Funded(l, r.value) {
      CommitKeepsPricing(l, id, r.value);
    }
  }

  lemma ItemKeepsPricing(l: State, recipient: Address, item: Item)
    requires Inv(l)
    ensures AllPricingKept(l, WithdrawItem(l, recipient, item).0)
  {
    if item.id in l.streams {
      var r := ItemRule(l.streams[item.id], l.clock, recipient, item);
      if r.Ok? && r.value.Write? {
        ItemRuleKeepsPricing(l.streams[item.id], l.clock, recipient, item);
      }
      AppliedKeepsPricing(l, item.id, r);
    }
  }

  lemma {:induction false} ItemsKeepPricing(l: State, recipient: Address, items: seq<Item>)
    requires Inv(l)
    ensures AllPricingKept(l, WithdrawItems(l, recipient, items).0)
  {
    if |items| > 0 {
      ItemsKeepPricing(l, recipient, items[..|items| - 1]);
      WithdrawItemsKeepsInv(l, recipient, items[..|items| - 1]);
      ItemKeepsPricing(WithdrawItems(l, recipient, items[..|items| - 1]).0, recipient, items[|items| - 1]);
      LedgerRuns.ItemsEitherWay(l, recipient, items);
    }
  }

  lemma SettlingOneKeepsPricing(l: State, id: int)
    requires id in l.streams && Live(l.streams[id])
    ensures AllPricingKept(l, SettleAndCancel(l, id))
  {
    var s, m := l.streams[id], Commit(l, id, PayUpToDate(l.streams[id], l.clock));
    assert m.streams == l.streams[id := PayUpToDate(s, l.clock).stream];
    assert SamePricing(s, m.streams[id]);
  }

  lemma {:induction false} SettlingKeepsPricing(l: State, ids: seq<int>)
    ensures AllPricingKept(l, SettleAndCancelAll(l, ids))
  {
    if |ids| > 0 {
      var m, i := SettleAndCancelAll(l, ids[..|ids| - 1]), ids[|ids| - 1];
      SettlingKeepsPricing(l, ids[..|ids| - 1]);
      if i in m.streams && Live(m.streams[i]) {
        SettlingOneKeepsPricing(m, i);
      }
    }
  }

  lemma BatchWithdrawsKeepPricing(l: State, recipient: Address, ids: seq<int>, ws: seq<WithdrawToParam>)
    requires Inv(l)
    ensures AllPricingKept(l, BatchWithdraw(l, recipient, ids).0)
    ensures AllPricingKept(l, BatchWithdrawTo(l, recipient, ws).0)
  {
    ItemsKeepPricing(l, recipient, Plain(ids));
    ItemsKeepPricing(l, recipient, Directed(ws));
  }

  lemma BulkCancelKeepsPricing(l: State, sender: Address, ids: seq<int>)
    ensures AllPricingKept(l, BulkCancel(l, sender, ids).0)
  {
    SettlingKeepsPricing(l, ids);
  }

  lemma BatchKeepsPricing(l: State, op: Op)
    requires Inv(l) && (op.WithdrawBatch? || op.WithdrawBatchTo? || op.CancelBatch?)
    ensures AllPricingKept(l, Step(l, op))
  {
    if op.WithdrawBatch? {
      BatchWithdrawsKeepPricing(l, op.recipient, op.ids, []);
      assert Step(l, op) == BatchWithdraw(l, op.recipient, op.ids).0;
    } else if op.WithdrawBatchTo? {
      BatchWithdrawsKeepPricing(l, op.recipient, [], op.directed);
      assert Step(l, op) == BatchWithdrawTo(l, op.recipient, op.directed).0;
    } else {
      BulkCancelKeepsPricing(l, op.sender, op.ids);
      assert Step(l, op) == BulkCancel(l, op.sender, op.ids).0;
    }
  }

  lemma CloseKeepsPricing(l: State, i: int, completedToo: bool, id: int)
    ensures PricingKept(l, Close(l, i, completedToo).0, id)
  {
  }

  lemma AcceptKeepsPricing(l: State, caller: Address, i: int, id: int)
    ensures PricingKept(l, AcceptRecipient(l, caller, i).0, id)
  {
  }

  /** The steps on anything but this stream's terms. */
  lemma OtherStepKeepsPricing(l: State, op: Op, id: int)
    requires Inv(l) && !op.On?
    ensures PricingKept(l, Step(l, op), id)
  {
    if op.Create? || op.CreateBatch? {
      Forecast.CreationKeepsTerms(l, op, id);
    } else if op.WithdrawBatch? || op.WithdrawBatchTo? || op.CancelBatch? {
      BatchKeepsPricing(l, op);
    } else if op.CloseStream? {
      CloseKeepsPricing(l, op.id, op.completedToo, id);
    } else if op.Accept? {
      AcceptKeepsPricing(l, op.caller, op.id, id);
    } else if op.Propose? || op.Retract? || op.AutoClaim? || op.SweepExcess? {
      LedgerRuns.SideStepIsQuiet(l, op);
    } else {
      LedgerRuns.OutsideIsQuiet(l, op);
    }
  }

  // ------------------------------------------------------------------ rate changes

  /** An accepted rate change of stream `id`. */
  predicate IsChange(l: State, op: Op, id: int) {
    op.On? && op.id == id && Reprices(op.op) && StreamStep(l, id, op.op).1.Ok?
  }

  /** The rate changes that the run makes, with the times at which they are made. */
  ghost function Changes(l: State, ops: seq<Op>, id: int): seq<Change> {
    if |ops| == 0 then []
    else
      var m, op := Run(l, ops[..|ops| - 1]), ops[|ops| - 1];
      Changes(l, ops[..|ops| - 1], id) + if IsChange(m, op, id) then [Change(m.clock.now, op.op.rate)] else []
  }

  /** No top-up and no change of the schedule of stream `id` is accepted. */
  ghost predicate Steady(l: State, ops: seq<Op>, id: int) {
    |ops| > 0 ==>
      var m, op := Run(l, ops[..|ops| - 1]), ops[|ops| - 1];
      && Steady(l, ops[..|ops| - 1], id)
      && (op.On? && op.id == id && Reschedules(op.op) ==> StreamStep(m, id, op.op).1.Err?)
  }

  function PriceRule(s: Stream, c: Clock, op: StreamOp, maxRate: int): Result<Effect>
    requires Reprices(op)
  {
    if op.UpdateRate? then StreamRules.UpdateRate(s, c, op.caller, op.rate, maxRate)
    else StreamRules.DecreaseRate(s, c, op.caller, op.rate)
  }

  /** A rule for a rate change does to the pricing what it does to a copy of the stream that has not
      been paid from or paused, under whatever cap. */
  lemma RuleFollows(p: Stream, q: Stream, c: Clock, op: StreamOp, maxRate: int)
    requires SamePricing(p, q) && Live(q) && Reprices(op) && PriceRule(p, c, op, maxRate).Ok?
    ensures PriceRule(p, c, op, maxRate).value.Write?
    ensures var t := Reprice(q, Change(c.now, op.rate), I128_MAX);
            t.Ok? && SamePricing(PriceRule(p, c, op, maxRate).value.stream, t.value) && Live(t.value)
  {
    assert IsI128(op.rate);
    assert Accrued(p, c.now) == Accrued(q, c.now);
  }

  lemma ChangeFollows(l: State, op: Op, id: int, q: Stream)
    requires IsChange(l, op, id) && id in l.streams && SamePricing(l.streams[id], q) && Live(q)
    ensures id in Step(l, op).streams
    ensures var t := Reprice(q, Change(l.clock.now, op.op.rate), I128_MAX);
            t.Ok? && SamePricing(Step(l, op).streams[id], t.value) && Live(t.value)
  {
    LedgerRuns.StepApplies(l, id, op.op);
    RuleFollows(l.streams[id], q, l.clock, op.op, l.config.maxRate);
  }

  lemma NoChangeKeepsPricing(l: State, op: Op, id: int)
    requires Inv(l) && !IsChange(l, op, id)
    requires op.On? && op.id == id && Reschedules(op.op) ==> StreamStep(l, id, op.op).1.Err?
    ensures PricingKept(l, Step(l, op), id)
  {
    if op.On? {
      StreamStepKeepsPricing(l, op.id, op.op, id);
      assert Step(l, op) == StreamStep(l, op.id, op.op).0;
    } else {
      OtherStepKeepsPricing(l, op, id);
    }
  }

  // ------------------------------------------------------------------ runs

  /** `changes` tell how the pricing of `s` became that of `t` by the time `now`. */
  predicate Follows(s: Stream, changes: seq<Change>, t: Stream, now: int) {
    var r := Repriced(s, changes, I128_MAX);
    && r.Ok? && Live(r.value) && SamePricing(r.value, t) && InOrder(changes)
    && (|changes| > 0 ==> changes[|changes| - 1].at <= now)
  }

  lemma FollowsOneMore(s: Stream, changes: seq<Change>, p: Stream, t: Stream, change: Change, now: int)
    requires Follows(s, changes, p, change.at) && change.at <= now
    requires var q := Repriced(s, changes, I128_MAX).value;
             var r := Reprice(q, change, I128_MAX);
             r.Ok? && Live(r.value) && SamePricing(t, r.value)
    ensures Follows(s, changes + [change], t, now)
  {
    var all := changes + [change];
    assert all[..|all| - 1] == changes;
    assert forall i | 0 <= i < |changes| :: all[i] == changes[i];
  }

  /** What one call adds to the changes. */
  function ChangeBy(l: State, op: Op, id: int): seq<Change> {
    if IsChange(l, op, id) then [Change(l.clock.now, op.op.rate)] else []
  }

  lemma FollowsStep(s: Stream, changes: seq<Change>, m: State, n: State, op: Op, id: int)
    requires Inv(m) && n == Step(m, op) && m.clock.now <= n.clock.now && id in m.streams && id in n.streams
    requires Follows(s, changes, m.streams[id], m.clock.now)
    requires op.On? && op.id == id && Reschedules(op.op) ==> StreamStep(m, id, op.op).1.Err?
    ensures Follows(s, changes + ChangeBy(m, op, id), n.streams[id], n.clock.now)
  {
    if IsChange(m, op, id) {
      ChangeFollows(m, op, id, Repriced(s, changes, I128_MAX).value);
      FollowsOneMore(s, changes, m.streams[id], n.streams[id], Change(m.clock.now, op.op.rate), n.clock.now);
    } else {
      NoChangeKeepsPricing(m, op, id);
      assert changes + [] == changes;
    }
  }

  /** Along any such run the stream is priced as its initial record after the accepted changes. */
  lemma {:induction false} PricingFollows(l: State, ops: seq<Op>, id: int)
    requires Inv(l) && id in l.streams && Live(l.streams[id]) && Steady(l, ops, id) && id in Run(l, ops).streams
    ensures Follows(l.streams[id], Changes(l, ops, id), Run(l, ops).streams[id], Run(l, ops).clock.now)
  {
    if |ops| > 0 {
      var before, op := ops[..|ops| - 1], ops[|ops| - 1];
      var m := Run(l, before);
      LedgerRuns.RunKeepsInv(l, before);
      StepKeepsInv(m, op);
      StreamWasThere(l, m, op, id);
      PricingFollows(l, before, id);
      FollowsStep(l.streams[id], Changes(l, before, id), m, Step(m, op), op, id);
    }
  }

  /** A stream that is still there after a step was there before it. */
  lemma StreamWasThere(l: State, m: State, op: Op, id: int)
    requires Inv(m) && Progress(l, m) && Progress(m, Step(m, op)) && BooksBalance(l)
    requires id in l.streams && id in Step(m, op).streams
    ensures id in m.streams
  {
    assert id in l.flows && id in m.flows;
  }

  /** The theorem over runs: take a stream as creation leaves it, and any run of the contract in which
      it is neither topped up nor re-scheduled; it may be paid from in every way, paused, resumed,
      cancelled, handed over, and re-priced under changing caps.  From the last accepted rate change
      and the cliff on, what its record entitles the recipient to is the sum, second by second, of the
      rate that was in force, capped by the deposit. */
  lemma RunAccrualIsSimulation(l: State, ops: seq<Op>, id: int, t: int)
    requires Inv(l) && id in l.streams && Fresh(l.streams[id]) && Steady(l, ops, id) && id in Run(l, ops).streams
    requires Max(l.streams[id].cliff, LastChange(l.streams[id], Changes(l, ops, id))) <= t
    ensures var s, m, changes := l.streams[id], Run(l, ops).streams[id], Changes(l, ops, id);
            Entitlement(Checkpoint(m), m.rate, t)
            == Min(Simulated(s.rate, changes, Origin(s, changes), Min(t, s.end)), m.deposit)
  {
    PricingFollows(l, ops, id);
    CheckpointedAccrualIsSimulation(l.streams[id], Changes(l, ops, id), I128_MAX, t);
  }

  /** In particular, while the stream is live, what has accrued by now. */
  lemma LiveAccrualIsSimulation(l: State, ops: seq<Op>, id: int)
    requires Inv(l) && id in l.streams && Fresh(l.streams[id]) && Steady(l, ops, id)
    requires var m := Run(l, ops); id in m.streams && Live(m.streams[id]) && l.streams[id].cliff <= m.clock.now
    ensures var s, m, changes := l.streams[id], Run(l, ops), Changes(l, ops, id);
            Accrued(m.streams[id], m.clock.now)
            == Min(Simulated(s.rate, changes, Origin(s, changes), Min(m.clock.now, s.end)), m.streams[id].deposit)
  {
    PricingFollows(l, ops, id);
    RunAccrualIsSimulation(l, ops, id, Run(l, ops).clock.now);
  }
}
