/** What a creation promises, and that every run of the contract keeps it. */
module Promises {
  import opened FixedWidth
  import opened Accrual
  import opened Streams
  import opened StreamIds
  import opened Ledger
  import opened LedgerInvariant
  import opened RateSimulation
  import opened RateRuns
  import opened StreamCalls
  import LedgerRuns
  import IdCounter
  import StreamTerms

  // ------------------------------------------------------------------ what is asked for

  /** Terms that `sender` may ask for at time `now`. */
  predicate Sound(config: Config, now: int, sender: Address, p: Params) {
    && 0 < p.deposit && p.recipient != sender
    && now <= p.start < p.end && p.start <= p.cliff <= p.end
    && (p.kind == Linear ==> 0 < p.rate <= config.maxRate && p.rate * (p.end - p.start) <= p.deposit)
    && (p.memo.Some? ==> |p.memo.value| <= 256)
  }

  /** The record holds what was asked for, and nothing has happened to it yet. */
  predicate StoredAs(s: Stream, sender: Address, p: Params) {
    && s.sender == sender && s.recipient == p.recipient && s.deposit == p.deposit
    && s.rate == (if p.kind == Linear then p.rate else 0)
    && s.start == p.start && s.cliff == p.cliff && s.end == p.end
    && s.kind == p.kind && s.dust == p.dust && s.memo == p.memo
    && s.status == Active && s.cancelledAt == None && s.withdrawn == 0
    && s.checkpointed == 0 && s.checkpointedAt == p.start && s.lastPauseToggle == 0 && s.lastWithdraw == 0
  }

  /** `m` is `l` after `sender` has paid `n` tokens into the contract. */
  predicate PaidIn(l: State, m: State, sender: Address, n: int) {
    && 0 <= n <= l.spendable[sender] && m.spendable == l.spendable[sender := l.spendable[sender] - n]
    && m.balance == l.balance + n && m.liabilities == Min(l.liabilities + n, I128_MAX)
    && m.clock == l.clock && m.config == l.config && m.sent == l.sent && m.autoClaim == l.autoClaim
    && m.pending == l.pending && m.nonces == l.nonces
  }

  lemma SoundIsValid(config: Config, now: int, sender: Address, p: Params)
    ensures Sound(config, now, sender, p) <==> Validate(config, now, sender, p).Ok? && MemoFits(p)
  {
    assert IsI128(p.deposit);
  }

  lemma CreationAccepted(l: State, sender: Address, p: Params)
    ensures CreateStream(l, sender, p).1.Ok? <==>
              && sender != Contract && !l.config.globalPaused && !l.config.creationPaused
              && Validate(l.config, l.clock.now, sender, p).Ok? && MemoFits(p)
              && p.deposit <= l.spendable[sender] && l.balance + p.deposit <= I128_MAX
              && (sender in l.ids.reservations || l.ids.nextId < U64_MAX)
    ensures CreateStream(l, sender, p).1.Err? ==> CreateStream(l, sender, p).0 == l
  {
  }

  lemma NewIsStored(sender: Address, p: Params)
    ensures StoredAs(NewStream(sender, p), sender, p)
  {
  }

  lemma CreationPulls(l: State, sender: Address, p: Params, m: State, id: int)
    requires CreateStream(l, sender, p) == (m, Ok(id))
    ensures p.deposit > 0 && PaidIn(l, m, sender, p.deposit)
    ensures id !in l.flows ==> m.flows == l.flows[id := Flow(p.deposit, 0, 0)]
  {
  }

  /** `create_stream` is accepted exactly when the contract is open, the terms are sound, the sender can
      pay and there is an ID; then it pulls the deposit and stores exactly what was asked for. */
  lemma CreationMeans(l: State, sender: Address, p: Params)
    requires Inv(l)
    ensures var (m, r) := CreateStream(l, sender, p);
            && (r.Ok? <==> && sender != Contract && !l.config.globalPaused && !l.config.creationPaused
                           && Sound(l.config, l.clock.now, sender, p)
                           && p.deposit <= l.spendable[sender] && l.balance + p.deposit <= I128_MAX
                           && (sender in l.ids.reservations || l.ids.nextId < U64_MAX))
            && (r.Err? ==> m == l)
            && (r.Ok? ==> && PaidIn(l, m, sender, p.deposit) && r.value !in l.flows && r.value in m.streams
                          && m.streams == l.streams[r.value := m.streams[r.value]]
                          && m.flows == l.flows[r.value := Flow(p.deposit, 0, 0)]
                          && StoredAs(m.streams[r.value], sender, p))
  {
    SoundIsValid(l.config, l.clock.now, sender, p);
    CreationAccepted(l, sender, p);
    CreateKeepsInv(l, sender, p);
    var (m, r) := CreateStream(l, sender, p);
    if r.Ok? {
      CreationPulls(l, sender, p, m, r.value);
      NewIsStored(sender, p);
    }
  }

  // ------------------------------------------------------------------ batches

  /** The records of a batch: the k-th ID has the k-th terms, and the other streams are as they were. */
  ghost predicate AllStored(l: State, m: State, sender: Address, ps: seq<Params>, ids: seq<int>) {
    && |ids| == |ps|
    && (forall k | 0 <= k < |ps| :: ids[k] in m.streams && StoredAs(m.streams[ids[k]], sender, ps[k]))
    && (forall id | id in l.flows && id in l.streams :: id in m.streams && m.streams[id] == l.streams[id])
    && (forall id | id in l.flows :: id in m.flows && m.flows[id] == l.flows[id])
    && (forall k | 0 <= k < |ps| :: ids[k] in m.flows && ids[k] !in l.flows)
  }

  lemma StoredNext(l: State, m: State, n: State, sender: Address, ps: seq<Params>, ids: seq<int>, p: Params, id: int)
    requires AllStored(l, m, sender, ps, ids) && l.flows.Keys <= m.flows.Keys
    requires id !in m.flows && id in n.streams && StoredAs(n.streams[id], sender, p)
    requires n.streams == m.streams[id := n.streams[id]] && n.flows == m.flows[id := Flow(p.deposit, 0, 0)]
    ensures AllStored(l, n, sender, ps + [p], ids + [id])
  {
    forall k | 0 <= k < |ps + [p]|
      ensures (ids + [id])[k] in n.streams && StoredAs(n.streams[(ids + [id])[k]], sender, (ps + [p])[k])
      ensures (ids + [id])[k] in n.flows && (ids + [id])[k] !in l.flows
    {
      if k < |ps| {
        assert ids[k] in m.flows && ids[k] != id;
      }
    }
  }

  lemma PaidInTwice(l: State, m: State, n: State, sender: Address, x: int, y: int)
    requires PaidIn(l, m, sender, x) && PaidIn(m, n, sender, y)
    ensures PaidIn(l, n, sender, x + y)
  {
    assert l.spendable[sender := l.spendable[sender] - x][sender := l.spendable[sender] - x - y]
        == l.spendable[sender := l.spendable[sender] - (x + y)];
  }

  lemma PaidInNothing(l: State, sender: Address)
    requires l.liabilities <= I128_MAX
    ensures PaidIn(l, l, sender, 0)
  {
    assert l.spendable[sender := l.spendable[sender]] == l.spendable;
  }

  /** What a batch on `ps` from `l` to `m` has done so far. */
  ghost predicate BatchDone(l: State, m: State, sender: Address, ps: seq<Params>, ids: seq<int>) {
    && l.flows.Keys <= m.flows.Keys
    && PaidIn(l, m, sender, LedgerRuns.Deposits(ps)) && AllStored(l, m, sender, ps, ids)
  }

  /** `n` is `m` after the creation of stream `id` with the terms `p`. */
  ghost predicate OneMoreStored(m: State, n: State, sender: Address, p: Params, id: int) {
    && PaidIn(m, n, sender, p.deposit) && id !in m.flows && id in n.streams && p.deposit > 0
    && n.streams == m.streams[id := n.streams[id]] && n.flows == m.flows[id := Flow(p.deposit, 0, 0)]
    && StoredAs(n.streams[id], sender, p)
  }

  lemma CreationStores(m: State, sender: Address, p: Params, n: State, id: int)
    requires Inv(m) && CreateStream(m, sender, p) == (n, Ok(id))
    ensures Inv(n) && OneMoreStored(m, n, sender, p, id)
  {
    CreationMeans(m, sender, p);
    CreateKeepsInv(m, sender, p);
  }

  lemma BatchNext(l: State, m: State, n: State, sender: Address, ps: seq<Params>, ids: seq<int>, p: Params, id: int)
    requires BatchDone(l, m, sender, ps, ids) && OneMoreStored(m, n, sender, p, id)
    ensures BatchDone(l, n, sender, ps + [p], ids + [id])
  {
    PaidInTwice(l, m, n, sender, LedgerRuns.Deposits(ps), p.deposit);
    StoredNext(l, m, n, sender, ps, ids, p, id);
    assert (ps + [p])[..|ps|] == ps;
  }

  lemma LastOfBatch(l: State, sender: Address, ps: seq<Params>, m: State, ids: seq<int>)
      returns (x: State, first: seq<int>, id: int)
    requires |ps| > 0 && CreateStreams(l, sender, ps) == (m, Ok(ids))
    ensures CreateStreams(l, sender, ps[..|ps| - 1]) == (x, Ok(first))
    ensures CreateStream(x, sender, ps[|ps| - 1]) == (m, Ok(id)) && ids == first + [id]
  {
    x, first := CreateStreams(l, sender, ps[..|ps| - 1]).0, CreateStreams(l, sender, ps[..|ps| - 1]).1.value;
    id := CreateStream(x, sender, ps[|ps| - 1]).1.value;
  }

  /** An accepted batch pulls the sum of the deposits and stores each entry as asked for. */
  lemma {:induction false} BatchMeans(l: State, sender: Address, ps: seq<Params>, m: State, ids: seq<int>)
    requires Inv(l) && CreateStreams(l, sender, ps) == (m, Ok(ids))
    ensures Inv(m) && BatchDone(l, m, sender, ps, ids)
  {
    if |ps| == 0 {
      PaidInNothing(l, sender);
    } else {
      var before, last := ps[..|ps| - 1], ps[|ps| - 1];
      var x, first, id := LastOfBatch(l, sender, ps, m, ids);
      BatchMeans(l, sender, before, x, first);
      CreationStores(x, sender, last, m, id);
      BatchNext(l, x, m, sender, before, first, last, id);
      assert ps == before + [last];
    }
  }

  predicate AllSound(config: Config, now: int, sender: Address, ps: seq<Params>) {
    forall i | 0 <= i < |ps| :: Sound(config, now, sender, ps[i])
  }

  lemma AllSoundSplits(config: Config, now: int, sender: Address, before: seq<Params>, last: Params)
    ensures AllSound(config, now, sender, before + [last]) <==>
              AllSound(config, now, sender, before) && Sound(config, now, sender, last)
  {
    var ps := before + [last];
    assert ps[|before|] == last;
    if AllSound(config, now, sender, ps) {
      assert forall i | 0 <= i < |before| :: before[i] == ps[i];
    }
  }

  /** Money, and IDs from the own range or the counter, for `n` streams with the given sum of deposits. */
  predicate Affordable(l: State, sender: Address, sum: int, n: nat) {
    && sum <= l.spendable[sender] && l.balance + sum <= I128_MAX
    && n <= IdCounter.LeftFor(l.ids, sender) + (U64_MAX - l.ids.nextId)
  }

  predicate CreationOpen(l: State, sender: Address) {
    sender != Contract && !l.config.globalPaused && !l.config.creationPaused
  }

  lemma LastAccepted(l: State, x: State, sender: Address, before: seq<Params>, last: Params)
    requires Inv(l) && Inv(x) && PaidIn(l, x, sender, LedgerRuns.Deposits(before))
    requires IdCounter.After(l.ids, x.ids, sender, |before|)
    requires last.deposit > 0 ==>
               LedgerRuns.Deposits(before + [last]) == LedgerRuns.Deposits(before) + last.deposit
    ensures last.deposit > 0 ==>
              (Affordable(l, sender, LedgerRuns.Deposits(before + [last]), |before| + 1) <==>
                && last.deposit <= x.spendable[sender] && x.balance + last.deposit <= I128_MAX
                && (sender in x.ids.reservations || x.ids.nextId < U64_MAX))
  {
  }

  /** A batch is accepted exactly when the contract is open, all terms are sound, the sender can pay for
      all of them together, and there are enough IDs; an empty batch always is. */
  lemma {:induction false} BatchAcceptedExactly(l: State, sender: Address, ps: seq<Params>)
    requires Inv(l)
    ensures CreateStreams(l, sender, ps).1.Ok? <==>
              || |ps| == 0
              || (CreationOpen(l, sender) && AllSound(l.config, l.clock.now, sender, ps)
                  && Affordable(l, sender, LedgerRuns.Deposits(ps), |ps|))
  {
    if |ps| > 0 {
      var before, last := ps[..|ps| - 1], ps[|ps| - 1];
      assert ps == before + [last];
      var (x, first) := CreateStreams(l, sender, before);
      BatchAcceptedExactly(l, sender, before);
      AllSoundSplits(l.config, l.clock.now, sender, before, last);
      if first.Ok? {
        BatchMeans(l, sender, before, x, first.value);
        IdCounter.BatchTakesNext(l, sender, before);
        CreationMeans(x, sender, last);
        LastAccepted(l, x, sender, before, last);
      }
    }
  }

  // ------------------------------------------------------------------ from the creation on

  ghost predicate FromBatch(l: State, m: State, id: int, sender: Address, p: Params, ps: seq<Params>, k: nat) {
    var (n, ids) := CreateStreams(l, sender, ps);
    n == m && ids.Ok? && k < |ps| && k < |ids.value| && ps[k] == p && ids.value[k] == id
  }

  /** `id` is the stream that `sender` got for the terms `p`, alone or as an entry of a batch. */
  ghost predicate Created(l: State, m: State, id: int, sender: Address, p: Params) {
    || CreateStream(l, sender, p) == (m, Ok(id))
    || exists ps: seq<Params>, k: nat :: FromBatch(l, m, id, sender, p, ps, k)
  }

  /** Either way the record is as asked for, under an ID that was never in use. */
  lemma CreatedAsAsked(l: State, m: State, id: int, sender: Address, p: Params)
    requires Inv(l) && Created(l, m, id, sender, p)
    ensures Inv(m) && id !in l.flows && id in m.streams && StoredAs(m.streams[id], sender, p)
    ensures p.kind == Linear ==> Fresh(m.streams[id])
  {
    if CreateStream(l, sender, p) == (m, Ok(id)) {
      CreationStores(l, sender, p, m, id);
    } else {
      var ps: seq<Params>, k: nat :| FromBatch(l, m, id, sender, p, ps, k);
      BatchMeans(l, sender, ps, m, CreateStreams(l, sender, ps).1.value);
    }
    assert StreamOk(m.streams[id], m.clock);
  }

  /** From the creation on: in any run in which the stream is neither topped up nor re-scheduled, from
      the last accepted rate change and the cliff on, its record entitles the recipient to the sum,
      second by second, of the rate in force, which begins as the rate asked for, capped by the deposit. */
  lemma CreatedAccrualIsSimulation(l: State, m: State, id: int, sender: Address, p: Params, ops: seq<Op>, t: int)
    requires Inv(l) && Created(l, m, id, sender, p) && p.kind == Linear
    requires Steady(m, ops, id) && id in Run(m, ops).streams
    ensures id in m.streams
    ensures var s, n, changes := m.streams[id], Run(m, ops).streams[id], Changes(m, ops, id);
            Max(p.cliff, LastChange(s, changes)) <= t ==>
              Entitlement(Checkpoint(n), n.rate, t)
              == Min(Simulated(p.rate, changes, Origin(s, changes), Min(t, p.end)), n.deposit)
  {
    CreatedAsAsked(l, m, id, sender, p);
    if Max(p.cliff, LastChange(m.streams[id], Changes(m, ops, id))) <= t {
      RunAccrualIsSimulation(m, ops, id, t);
    }
  }

  /** In particular what has accrued by now, while the stream is live: nothing before the cliff, and from
      then on that sum. */
  lemma CreatedLiveAccrual(l: State, m: State, id: int, sender: Address, p: Params, ops: seq<Op>, n: State)
    requires Inv(l) && Created(l, m, id, sender, p) && p.kind == Linear
    requires n == Run(m, ops) && Steady(m, ops, id) && id in n.streams && Live(n.streams[id])
    ensures id in m.streams
    ensures var s, changes := m.streams[id], Changes(m, ops, id);
            Accrued(n.streams[id], n.clock.now)
            == if n.clock.now < p.cliff then 0
               else Min(Simulated(p.rate, changes, Origin(s, changes), Min(n.clock.now, p.end)), n.streams[id].deposit)
  {
    CreatedAsAsked(l, m, id, sender, p);
    var s, changes := m.streams[id], Changes(m, ops, id);
    PricingFollows(m, ops, id);
    CheckpointedAccrualIsSimulation(s, changes, I128_MAX, Max(p.cliff, LastChange(s, changes)));
    if n.clock.now >= p.cliff {
      LiveAccrualIsSimulation(m, ops, id);
    }
  }

  // ------------------------------------------------------------------ terms that nobody changes

  /** No call of the run that would change the rate, the end or the deposit of stream `id` is accepted. */
  ghost predicate TermsStay(l: State, ops: seq<Op>, id: int) {
    |ops| > 0 ==>
      var m, op := Run(l, ops[..|ops| - 1]), ops[|ops| - 1];
      && TermsStay(l, ops[..|ops| - 1], id)
      && (op.On? && op.id == id && (Reprices(op.op) || Reschedules(op.op)) ==> StreamStep(m, id, op.op).1.Err?)
  }

  lemma TermsStayStep(l: State, op: Op, id: int)
    requires Inv(l)
    requires op.On? && op.id == id && (Reprices(op.op) || Reschedules(op.op)) ==> StreamStep(l, id, op.op).1.Err?
    ensures PricingKept(l, Step(l, op), id)
  {
    NoChangeKeepsPricing(l, op, id);
  }

  lemma PricingTransitive(l: State, m: State, n: State, id: int)
    requires PricingKept(l, m, id) && PricingKept(m, n, id) && (id in n.streams ==> id in m.streams)
    ensures PricingKept(l, n, id)
  {
  }

  lemma {:induction false} TermsStayOverRun(l: State, ops: seq<Op>, id: int)
    requires Inv(l) && id in l.streams && TermsStay(l, ops, id)
    ensures PricingKept(l, Run(l, ops), id)
  {
    if |ops| > 0 {
      var before, op := ops[..|ops| - 1], ops[|ops| - 1];
      var m := Run(l, before);
      TermsStayOverRun(l, before, id);
      LedgerRuns.RunKeepsInv(l, before);
      StepKeepsInv(m, op);
      TermsStayStep(m, op, id);
      if id in Step(m, op).streams {
        StreamWasThere(l, m, op, id);
      }
      PricingTransitive(l, m, Step(m, op), id);
    }
  }

  lemma CliffOnlyRefusesChanges(l: State, id: int, op: StreamOp)
    requires (Reprices(op) || Reschedules(op)) && (id in l.streams ==> l.streams[id].kind == CliffOnly)
    ensures StreamStep(l, id, op).1.Err?
  {
  }

  /** The terms of a cliff-only stream stay in every run. */
  lemma {:induction false} CliffOnlyTermsStay(l: State, ops: seq<Op>, id: int)
    requires Inv(l) && id in l.streams && l.streams[id].kind == CliffOnly
    ensures TermsStay(l, ops, id)
  {
    if |ops| > 0 {
      var before, op := ops[..|ops| - 1], ops[|ops| - 1];
      CliffOnlyTermsStay(l, before, id);
      TermsStayOverRun(l, before, id);
      if op.On? && op.id == id && (Reprices(op.op) || Reschedules(op.op)) {
        CliffOnlyRefusesChanges(Run(l, before), id, op.op);
      }
    }
  }

  /** What the terms promise by time `t`: nothing before the cliff; from then on everything at once, or
      the seconds since the start at the rate, up to the end. */
  function Promised(p: Params, t: int): int {
    if t < p.cliff then 0
    else if p.kind == CliffOnly then p.deposit
    else Min(p.deposit, p.rate * (Min(t, p.end) - p.start))
  }

  lemma RecordPromises(x: Stream, s: Stream, sender: Address, p: Params, c: Clock, t: int)
    requires StoredAs(x, sender, p) && StreamOk(x, c) && SamePricing(x, s) && Live(s)
    ensures s.deposit == p.deposit && s.end == p.end && s.sender == sender && s.kind == p.kind
    ensures Accrued(s, t) == Promised(p, t)
  {
    if p.kind == Linear {
      StreamTerms.AccrualInFields(s, t);
    }
  }

  lemma CreatedIsUnfinished(x: Stream, sender: Address, p: Params, c: Clock)
    requires StoredAs(x, sender, p) && StreamOk(x, c)
    ensures Unfinished(x)
  {
  }

  /** `id` is live in `n`, a state of a run since its creation in which its terms have stayed. */
  ghost predicate Standing(l: State, m: State, id: int, sender: Address, p: Params, ops: seq<Op>, n: State) {
    && Inv(l) && Created(l, m, id, sender, p) && n == Run(m, ops)
    && (p.kind == Linear ==> TermsStay(m, ops, id))
    && id in n.streams && n.streams[id].status in {Active, Paused}
  }

  /** Over every run from the creation on: what a live stream has accrued at any time is what its terms
      promised when it was created, and something is left to pay. */
  lemma AccrualIsAsPromised(l: State, m: State, id: int, sender: Address, p: Params, ops: seq<Op>, n: State, t: int)
    requires Standing(l, m, id, sender, p, ops, n)
    ensures Inv(n)
    ensures var s := n.streams[id];
            && s.sender == sender && s.deposit == p.deposit && s.end == p.end && s.kind == p.kind
            && s.withdrawn < p.deposit && Accrued(s, t) == Promised(p, t)
  {
    CreatedAsAsked(l, m, id, sender, p);
    if p.kind == CliffOnly {
      CliffOnlyTermsStay(m, ops, id);
    }
    TermsStayOverRun(m, ops, id);
    LedgerRuns.RunKeepsInv(m, ops);
    RecordPromises(m.streams[id], n.streams[id], sender, p, m.clock, t);
    CreatedIsUnfinished(m.streams[id], sender, p, m.clock);
  }

  /** What the recipient is told: at every time, the promise less what was withdrawn. */
  lemma PromiseIsForecast(l: State, m: State, id: int, sender: Address, p: Params, ops: seq<Op>, n: State, t: int)
    requires Standing(l, m, id, sender, p, ops, n)
    ensures ClaimableAt(n, id, t) == Ok(Max(Promised(p, t) - n.streams[id].withdrawn, 0))
  {
    AccrualIsAsPromised(l, m, id, sender, p, ops, n, t);
    StreamTerms.ForecastMeans(n, id, t);
  }

  /** What the recipient is paid: `withdraw` pays the promise for the present time less what was withdrawn,
      unless the dust rule holds it back before the end, and completes the stream exactly when the whole
      deposit was promised by now. */
  lemma PromiseIsPaid(l: State, m: State, id: int, sender: Address, p: Params, ops: seq<Op>, n: State)
    requires Standing(l, m, id, sender, p, ops, n)
    ensures 0 <= n.streams[id].withdrawn <= Promised(p, n.clock.now)
    ensures var s, now := n.streams[id], n.clock.now;
            var due, (w, r) := Promised(p, now) - s.withdrawn, StreamStep(n, id, Withdraw(s.recipient));
            r.Ok? ==>
              && (r.value == due || (r.value == 0 && due < s.dust && now < p.end && Promised(p, now) < p.deposit))
              && w.sent[s.recipient] == n.sent[s.recipient] + r.value
              && id in w.streams && w.streams[id].withdrawn == s.withdrawn + r.value
              && (w.streams[id].status == Completed <==> Promised(p, now) == p.deposit)
  {
    AccrualIsAsPromised(l, m, id, sender, p, ops, n, n.clock.now);
    var s, w := n.streams[id], StreamStep(n, id, Withdraw(n.streams[id].recipient)).0;
    WithdrawMeans(n, id, s.recipient);
    if StreamStep(n, id, Withdraw(s.recipient)).1.Ok? {
      DrawnAsPromised(s, n.clock, p);
    }
  }

  lemma DrawnAsPromised(s: Stream, c: Clock, p: Params)
    requires StreamOk(s, c) && s.status in {Active, Paused} && s.deposit == p.deposit && s.end == p.end
    requires s.withdrawn < p.deposit && Accrued(s, c.now) == Promised(p, c.now)
    ensures var due, n := Promised(p, c.now) - s.withdrawn, Payable(s, c);
            && 0 <= due
            && (n == due || (n == 0 && due < s.dust && c.now < p.end && Promised(p, c.now) < p.deposit))
            && StreamCalls.Drawn(s, n, c.sequence).withdrawn == s.withdrawn + n
            && (StreamCalls.Drawn(s, n, c.sequence).status == Completed <==> Promised(p, c.now) == p.deposit)
  {
    OwedBounds(s, c);
  }

  /** What a cancellation makes of the promise: the sender gets back exactly what was not promised by
      now, and the recipient's claim on the rest of the promise stays, and stays the same for ever. */
  lemma PromiseIsSplit(l: State, m: State, id: int, sender: Address, p: Params, ops: seq<Op>, n: State,
                       caller: Address, asAdmin: bool, t: int)
    requires Standing(l, m, id, sender, p, ops, n)
    ensures var s, promised := n.streams[id], Promised(p, n.clock.now);
            var (w, r) := StreamStep(n, id, Cancel(caller, asAdmin));
            r.Ok? ==>
              && w.sent[sender] == n.sent[sender] + (p.deposit - promised)
              && w.balance == n.balance - (p.deposit - promised)
              && id in w.streams && Owed(w.streams[id]) == promised - s.withdrawn
              && Accrued(w.streams[id], t) == promised
  {
    AccrualIsAsPromised(l, m, id, sender, p, ops, n, n.clock.now);
    if StreamStep(n, id, Cancel(caller, asAdmin)).1.Ok? {
      StreamTerms.CancelMeans(n, id, caller, asAdmin, t);
      StreamTerms.CancelMeans(n, id, caller, asAdmin, 0);
    }
  }

  /** A cliff-only stream, over every run from its creation: before the cliff nothing is claimable and
      `withdraw` pays nothing; from the cliff on, an accepted `withdraw` pays the whole deposit less what
      was withdrawn, and completes the stream. */
  lemma CliffOnlyPaysAtTheCliff(l: State, m: State, id: int, sender: Address, p: Params, ops: seq<Op>, n: State)
    requires p.kind == CliffOnly && Standing(l, m, id, sender, p, ops, n)
    ensures var s := n.streams[id];
            var (w, r) := StreamStep(n, id, Withdraw(s.recipient));
            if n.clock.now < p.cliff then ClaimableAt(n, id, n.clock.now) == Ok(0) && (r.Ok? ==> r.value == 0)
            else ClaimableAt(n, id, n.clock.now) == Ok(p.deposit - s.withdrawn)
                 && (r.Ok? ==> && r.value == p.deposit - s.withdrawn > 0
                               && w.sent[s.recipient] == n.sent[s.recipient] + r.value
                               && id in w.streams && w.streams[id].status == Completed)
  {
    AccrualIsAsPromised(l, m, id, sender, p, ops, n, n.clock.now);
    PromiseIsForecast(l, m, id, sender, p, ops, n, n.clock.now);
    PromiseIsPaid(l, m, id, sender, p, ops, n);
  }

  /** And a cancellation from the cliff on refunds nothing and leaves that claim; before the cliff it
      refunds everything. */
  lemma CliffOnlyCancelled(l: State, m: State, id: int, sender: Address, p: Params, ops: seq<Op>, n: State,
                           caller: Address, asAdmin: bool)
    requires p.kind == CliffOnly && Standing(l, m, id, sender, p, ops, n)
    requires StreamStep(n, id, Cancel(caller, asAdmin)).1.Ok?
    ensures var w := StreamStep(n, id, Cancel(caller, asAdmin)).0;
            var refund := if n.clock.now < p.cliff then p.deposit else 0;
            && w.balance == n.balance - refund && w.sent[sender] == n.sent[sender] + refund
            && id in w.streams && Owed(w.streams[id]) == p.deposit - refund - n.streams[id].withdrawn
  {
    AccrualIsAsPromised(l, m, id, sender, p, ops, n, n.clock.now);
    PromiseIsSplit(l, m, id, sender, p, ops, n, caller, asAdmin, n.clock.now);
  }
}
