/** Concrete runs from the initial state, on which the promises fail that the other modules delimit. */
module Witnesses {
  import opened FixedWidth
  import opened Accrual
  import opened Streams
  import opened StreamIds
  import opened Ledger
  import opened LedgerInvariant
  import opened LedgerRuns
  import StreamRules
  import BulkCreation
  import BatchTheorems
  import Keeper
  import RateSimulation
  import StreamTerms

  // ------------------------------------------------------------------ runs, one step at a time

  const SENDER: Address := Account(1)
  const RECIPIENT: Address := Account(2)

  function Start(): State { Initial(Clock(0, 1), Config(Account(0), false, false, I128_MAX)) }

  lemma RunOneMore(l: State, ops: seq<Op>, op: Op)
    ensures Run(l, ops + [op]) == Step(Run(l, ops), op)
  {
    assert (ops + [op])[..|ops|] == ops;
  }

  /** A linear stream of `rate` per second from `start`, with its cliff at `cliff`. */
  function Terms(deposit: i128, rate: i128, start: u64, cliff: u64, end: u64): Params {
    Params(RECIPIENT, deposit, rate, start, cliff, end, 0, None, Linear)
  }

  /** The state with that one stream, at the given time, `extra` tokens having been donated. */
  function OneStream(s: Stream, now: int, sequence: int, funded: nat, extra: nat): State {
    Start().(clock := Clock(now, sequence), balance := funded + extra, streams := map[0 := s], liabilities := funded,
             ids := Allocator(1, map[]), flows := map[0 := Flow(funded, 0, 0)])
  }

  function Opening(p: Params): seq<Op> { [Allow(SENDER, if p.deposit >= 0 then p.deposit else 0), Create(SENDER, p)] }

  /** Creating it is accepted, and leaves just this stream. */
  lemma OpeningLeaves(p: Params)
    requires p.recipient == RECIPIENT && p.kind == Linear && p.memo == None
    requires Validate(Start().config, 0, SENDER, p).Ok?
    ensures Run(Start(), Opening(p)) == OneStream(NewStream(SENDER, p), 0, 1, p.deposit, 0)
  {
    var a := Allow(SENDER, p.deposit);
    assert [] + [a] == [a] && [a] + [Create(SENDER, p)] == Opening(p);
    RunOneMore(Start(), [], a);
    RunOneMore(Start(), [a], Create(SENDER, p));
    CreateLeaves(Step(Start(), a), p);
  }

  lemma CreateLeaves(l: State, p: Params)
    requires Validate(l.config, 0, SENDER, p).Ok? && p.memo == None
    requires l == Start().(spendable := multiset{}[SENDER := p.deposit])
    ensures CreateStream(l, SENDER, p) == (OneStream(NewStream(SENDER, p), 0, 1, p.deposit, 0), Ok(0))
  {
    assert l.spendable[SENDER := 0] == multiset{};
  }

  lemma TickLeaves(s: Stream, now: int, sequence: int, funded: nat, extra: nat, seconds: nat, ledgers: nat)
    requires ClockOk(Clock(now + seconds, sequence + ledgers))
    ensures Step(OneStream(s, now, sequence, funded, extra), Tick(seconds, ledgers))
         == OneStream(s, now + seconds, sequence + ledgers, funded, extra)
  {
  }

  lemma DonateLeaves(s: Stream, now: int, sequence: int, funded: nat, extra: nat)
    requires funded + extra <= I128_MAX
    ensures Step(OneStream(s, now, sequence, funded, 0), Donate(extra)) == OneStream(s, now, sequence, funded, extra)
  {
  }

  lemma SendNothing(m: multiset<Address>, a: Address)
    ensures Add(m, a, 0) == m
  {
  }

  lemma UpdateLeaves(s: Stream, now: int, sequence: int, funded: nat, rate: i128, t: Stream)
    requires funded <= I128_MAX && s.sender == SENDER
    requires StreamRules.UpdateRate(s, Clock(now, sequence), SENDER, rate, I128_MAX) == Ok(StreamRules.Rewrite(t))
    ensures Step(OneStream(s, now, sequence, funded, 0), On(0, UpdateRate(SENDER, rate)))
         == OneStream(t, now, sequence, funded, 0)
  {
    var l := OneStream(s, now, sequence, funded, 0);
    SendNothing(l.sent, t.recipient);
    SendNothing(l.sent, t.sender);
    assert l.streams[0 := t] == map[0 := t];
    assert Booked(l.flows, 0, 0, 0, 0) == l.flows;
  }

  // ------------------------------------------------------------------ rate changes before the cliff

  lemma OneChange(s: Stream, change: RateSimulation.Change)
    ensures RateSimulation.Repriced(s, [change], I128_MAX) == RateSimulation.Reprice(s, change, I128_MAX)
  {
    assert [change][..0] == [];
    assert RateSimulation.Repriced(s, [change][..0], I128_MAX) == Ok(s);
  }

  /** A rate change made before the start makes the stream accrue for seconds before its start. */
  lemma ChangeBeforeStartAddsAccrual()
    ensures var p, changes := Terms(100_000, 1, 1000, 1000, 1010), [RateSimulation.Change(0, 2)];
            var l := Run(Start(), Opening(p) + [On(0, UpdateRate(SENDER, 2))] + [Tick(1000, 1)]);
            && l.clock.now == 1000 && 0 in l.streams
            && RateSimulation.Repriced(NewStream(SENDER, p), changes, I128_MAX) == Ok(l.streams[0])
            && RateSimulation.Simulated(1, changes, 1000, 1000) == 0 && Accrued(l.streams[0], 1000) == 2000
  {
    var p, change := Terms(100_000, 1, 1000, 1000, 1010), RateSimulation.Change(0, 2);
    var s := NewStream(SENDER, p);
    var t := s.(checkpointedAt := 0, rate := 2);
    OpeningLeaves(p);
    OneChange(s, change);
    RunOneMore(Start(), Opening(p), On(0, UpdateRate(SENDER, 2)));
    RunOneMore(Start(), Opening(p) + [On(0, UpdateRate(SENDER, 2))], Tick(1000, 1));
    assert StreamRules.UpdateRate(s, Clock(0, 1), SENDER, 2, I128_MAX) == Ok(StreamRules.Rewrite(t));
    UpdateLeaves(s, 0, 1, 100_000, 2, t);
    TickLeaves(t, 0, 1, 100_000, 0, 1000, 1);
  }

  /** A rate change made between the start and the cliff drops what the seconds before it would count. */
  lemma ChangeBeforeCliffDropsAccrual()
    ensures var p, changes := Terms(100, 1, 0, 5, 10), [RateSimulation.Change(3, 2)];
            var l := Run(Start(), Opening(p) + [Tick(3, 1)] + [On(0, UpdateRate(SENDER, 2))] + [Tick(7, 1)]);
            && l.clock.now == 10 && 0 in l.streams
            && RateSimulation.Repriced(NewStream(SENDER, p), changes, I128_MAX) == Ok(l.streams[0])
            && RateSimulation.Simulated(1, changes, 0, 10) == 17 && Accrued(l.streams[0], 10) == 14
  {
    var p, change := Terms(100, 1, 0, 5, 10), RateSimulation.Change(3, 2);
    var s := NewStream(SENDER, p);
    var t := s.(checkpointedAt := 3, rate := 2);
    OpeningLeaves(p);
    OneChange(s, change);
    RunOneMore(Start(), Opening(p), Tick(3, 1));
    RunOneMore(Start(), Opening(p) + [Tick(3, 1)], On(0, UpdateRate(SENDER, 2)));
    RunOneMore(Start(), Opening(p) + [Tick(3, 1)] + [On(0, UpdateRate(SENDER, 2))], Tick(7, 1));
    TickLeaves(s, 0, 1, 100, 0, 3, 1);
    assert StreamRules.UpdateRate(s, Clock(3, 2), SENDER, 2, I128_MAX) == Ok(StreamRules.Rewrite(t));
    UpdateLeaves(s, 3, 2, 100, 2, t);
    TickLeaves(t, 3, 2, 100, 0, 7, 1);
    RateSimulation.SimulatedFlat(1, [change], 0, 0, 3, 1);
    RateSimulation.SimulatedFlat(1, [change], 0, 3, 10, 2);
  }

  // ------------------------------------------------------------------ shortening after a decrease

  /** A stream of 100 tokens per second for twenty seconds, lowered to 10 per second after nine. */
  function Lowered(): seq<Op> {
    Opening(Terms(2000, 100, 0, 0, 20)) + [Tick(9, 1)] + [On(0, DecreaseRate(SENDER, 10))] + [Tick(1, 1)]
  }

  predicate IsLowered(s: Stream) {
    && s.status == Active && s.kind == Linear && s.sender == SENDER && s.rate == 10 && s.deposit == 1010
    && s.start == s.cliff == 0 && s.end == 20 && s.checkpointed == 900 && s.checkpointedAt == 9
  }

  lemma HundredPerSecond(s: Stream)
    requires s == NewStream(SENDER, Terms(2000, 100, 0, 0, 20))
    ensures Accrued(s, 9) == 900
  {
    StreamTerms.AccrualInFields(s, 9);
  }

  lemma LoweredLeaves(l: State)
    requires l == Run(Start(), Lowered())
    ensures Inv(l) && !l.config.globalPaused && l.clock.now == 10 && 0 in l.streams && IsLowered(l.streams[0])
  {
    var p := Terms(2000, 100, 0, 0, 20);
    var s := NewStream(SENDER, p);
    OpeningLeaves(p);
    RunOneMore(Start(), Opening(p), Tick(9, 1));
    TickLeaves(s, 0, 1, 2000, 0, 9, 1);
    var x := OneStream(s, 9, 2, 2000, 0);
    RunKeepsInv(Start(), Opening(p) + [Tick(9, 1)]);
    RunOneMore(Start(), Opening(p) + [Tick(9, 1)], On(0, DecreaseRate(SENDER, 10)));
    HundredPerSecond(s);
    DecreaseLeaves(x);
    RunOneMore(Start(), Opening(p) + [Tick(9, 1)] + [On(0, DecreaseRate(SENDER, 10))], Tick(1, 1));
    RunKeepsInv(Start(), Lowered());
  }

  lemma DecreaseLeaves(x: State)
    requires Inv(x) && !x.config.globalPaused && x.clock == Clock(9, 2) && 0 in x.streams
    requires x.streams[0] == NewStream(SENDER, Terms(2000, 100, 0, 0, 20)) && Accrued(x.streams[0], 9) == 900
    ensures var m := Step(x, On(0, DecreaseRate(SENDER, 10)));
            m.config == x.config && m.clock == x.clock && 0 in m.streams && IsLowered(m.streams[0])
  {
    StreamTerms.DecreaseRateAccepted(x, 0, SENDER, 10);
    DecreaseLowers(x);
  }

  lemma DecreaseLowers(x: State)
    requires Inv(x) && x.clock == Clock(9, 2) && 0 in x.streams && StreamStep(x, 0, DecreaseRate(SENDER, 10)).1.Ok?
    requires x.streams[0] == NewStream(SENDER, Terms(2000, 100, 0, 0, 20)) && Accrued(x.streams[0], 9) == 900
    ensures var m := StreamStep(x, 0, DecreaseRate(SENDER, 10)).0;
            m.config == x.config && m.clock == x.clock && 0 in m.streams && IsLowered(m.streams[0])
  {
    StreamTerms.DecreaseRateMeans(x, 0, SENDER, 10, 9);
    LedgerRuns.StepApplies(x, 0, DecreaseRate(SENDER, 10));
  }

  /** Shortening that stream to fifteen seconds takes back tokens that would have accrued before the new
      end: of the 960 it earns by second fifteen under its terms it pays 910. */
  lemma ShortenCanCutEarnings(l: State)
    requires l == Run(Start(), Lowered())
    ensures Inv(l) && 0 in l.streams && Accrued(l.streams[0], 15) == 960
    ensures var (m, r) := StreamStep(l, 0, Shorten(SENDER, 15));
            r.Ok? && 0 in m.streams && m.streams[0].deposit == 910 && Accrued(m.streams[0], 15) == 910
  {
    LoweredLeaves(l);
    var s := l.streams[0];
    StreamTerms.AccrualInFields(s, 10);
    StreamTerms.AccrualInFields(s, 15);
    StreamTerms.ShortenAccepted(l, 0, SENDER, 15);
    StreamTerms.ShortenMeans(l, 0, SENDER, 15, 15);
  }

  // ------------------------------------------------------------------ batches

  /** A stream of one token per second for ten seconds, at or after its end. */
  function TenTokens(): Stream { NewStream(SENDER, Terms(10, 1, 0, 0, 10)) }

  lemma TenTokensAt(seconds: nat)
    requires IsU64(seconds)
    ensures Run(Start(), Opening(Terms(10, 1, 0, 0, 10)) + [Tick(seconds, 1)])
         == OneStream(TenTokens(), seconds, 2, 10, 0)
  {
    var p := Terms(10, 1, 0, 0, 10);
    OpeningLeaves(p);
    RunOneMore(Start(), Opening(p), Tick(seconds, 1));
    TickLeaves(TenTokens(), 0, 1, 10, 0, seconds, 1);
  }

  /** All that matters of this stream from its end on. */
  predicate IsTenTokens(s: Stream) {
    && s.status == Active && s.kind == Linear && s.rate == 1 && s.deposit == 10 && s.withdrawn == 0 && s.dust == 0
    && s.start == s.cliff == s.checkpointedAt == s.checkpointed == 0 && s.end == 10 && s.cancelledAt == None
    && s.lastWithdraw == 0 && s.sender == SENDER && s.recipient == RECIPIENT
  }

  lemma TenTokensAccrue(s: Stream, t: int)
    requires IsTenTokens(s) && t >= 10
    ensures Accrued(s, t) == 10
  {
    assert Elapsed(Checkpoint(s), t) == 10;
  }

  lemma TenTokensPaid(s: Stream, c: Clock)
    requires IsTenTokens(s) && c.now == 10 && c.sequence == 2
    ensures var r := StreamRules.Withdraw(s, c, RECIPIENT);
            && r.Ok? && r.value.Write? && r.value.fund == 0
            && r.value.stream == s.(withdrawn := 10, lastWithdraw := 2, status := Completed)
  {
    TenTokensAccrue(s, 10);
    FullClaimPaid(s, c);
  }

  lemma FullClaimPaid(s: Stream, c: Clock)
    requires s.status == Active && 0 <= s.withdrawn < s.deposit == Accrued(s, c.now) && !StreamRules.TooSoon(s, c)
    ensures var r := StreamRules.Withdraw(s, c, s.recipient);
            && r.Ok? && r.value.Write? && r.value.fund == 0
            && r.value.stream == s.(withdrawn := s.deposit, lastWithdraw := c.sequence, status := Completed)
  {
  }

  /** What a payment leaves of the fields that matter here. */
  lemma PaymentLeaves(l: State, e: StreamRules.Effect)
    requires e.Write? && e.fund == 0
    ensures var m := Commit(l, 0, e);
            m.clock == l.clock && m.config == l.config && m.streams == l.streams[0 := e.stream]
  {
  }

  /** The streams after the last withdrawal, which completes the stream. */
  lemma WithdrawalCompletes(l: State)
    requires !l.config.globalPaused && l.clock == Clock(10, 2) && 0 in l.streams && IsTenTokens(l.streams[0])
    ensures var m := StreamStep(l, 0, Withdraw(RECIPIENT)).0;
            && m.clock == l.clock && m.config == l.config && 0 in m.streams
            && m.streams[0].status == Completed && m.streams[0].lastWithdraw == 2 && m.streams[0].recipient == RECIPIENT
  {
    TenTokensPaid(l.streams[0], l.clock);
    PaymentLeaves(l, StreamRules.Withdraw(l.streams[0], l.clock, RECIPIENT).value);
  }

  lemma AtTheEnd() returns (l: State)
    ensures l == Run(Start(), Opening(Terms(10, 1, 0, 0, 10)) + [Tick(10, 1)])
    ensures !l.config.globalPaused && l.clock == Clock(10, 2) && 0 in l.streams && IsTenTokens(l.streams[0])
  {
    TenTokensAt(10);
    l := OneStream(TenTokens(), 10, 2, 10, 0);
  }

  /** A stream completed in this very ledger makes the batch fail, although single withdrawals of the
      streams that are not completed succeed. */
  lemma CompletedStreamFailsBatch(l: State, ids: seq<int>)
    requires l == Run(Start(), Opening(Terms(10, 1, 0, 0, 10)) + [Tick(10, 1)] + [On(0, Withdraw(RECIPIENT))])
    requires ids == [0]
    ensures BatchTheorems.OneByOne(l, RECIPIENT, ids).1 == Ok([0])
    ensures BatchWithdraw(l, RECIPIENT, ids) == (l, Err(WithdrawalTooFrequent))
  {
    var before := AtTheEnd();
    RunOneMore(Start(), Opening(Terms(10, 1, 0, 0, 10)) + [Tick(10, 1)], On(0, Withdraw(RECIPIENT)));
    assert l == Step(before, On(0, Withdraw(RECIPIENT)));
    WithdrawalCompletes(before);
    CompletedIsTooSoon(l, ids);
  }

  lemma CompletedIsTooSoon(l: State, ids: seq<int>)
    requires !l.config.globalPaused && l.clock.sequence == 2 && 0 in l.streams && ids == [0]
    requires l.streams[0].status == Completed && l.streams[0].lastWithdraw == 2 && l.streams[0].recipient == RECIPIENT
    ensures BatchTheorems.OneByOne(l, RECIPIENT, ids).1 == Ok([0])
    ensures BatchWithdraw(l, RECIPIENT, ids) == (l, Err(WithdrawalTooFrequent))
  {
    var items := Plain(ids);
    assert items == [Item(0, None)];
    assert ids[..|ids| - 1] == [] && items[..|items| - 1] == [];
    assert BatchTheorems.OneByOne(l, RECIPIENT, ids[..|ids| - 1]) == (l, Ok([]));
    assert WithdrawItems(l, RECIPIENT, items[..|items| - 1]) == (l, Ok([]));
    var paid: seq<int> := [];
    assert paid + [0] == [0];
  }

  /** The batch reports the invalid second entry, creation one by one the pull for the first. */
  lemma BatchReportsOtherError()
    ensures var ps := [Terms(10, 1, 0, 0, 10), Terms(0, 1, 0, 0, 10)];
            && BulkCreation.BatchCreate(Start(), SENDER, ps) == (Start(), Err(InvalidParams))
            && CreateStreams(Start(), SENDER, ps) == (Start(), Err(HostTrap))
  {
    var ps := [Terms(10, 1, 0, 0, 10), Terms(0, 1, 0, 0, 10)];
    var one := ps[..1];
    assert one == [ps[0]] && one[..0] == [];
    var l := Start();
    assert BulkCreation.FirstPass(l.config, 0, SENDER, one[..0]) == Ok(0);
    assert BulkCreation.FirstPass(l.config, 0, SENDER, one) == Ok(10);
    assert CreateStreams(l, SENDER, one[..0]) == (l, Ok([]));
    assert CreateStreams(l, SENDER, one) == (l, Err(HostTrap));
  }

  // ------------------------------------------------------------------ keeper cancellation

  const ABANDONED: nat := 604_810

  function Waiting(extra: nat): seq<Op> { Opening(Terms(10, 1, 0, 0, 10)) + [Tick(ABANDONED, 1)] + [Donate(extra)] }

  lemma WaitingLeaves(extra: nat)
    requires 10 + extra <= I128_MAX
    ensures Run(Start(), Waiting(extra)) == OneStream(TenTokens(), ABANDONED, 2, 10, extra)
    ensures Inv(Run(Start(), Waiting(extra)))
  {
    TenTokensAt(ABANDONED);
    RunOneMore(Start(), Opening(Terms(10, 1, 0, 0, 10)) + [Tick(ABANDONED, 1)], Donate(extra));
    DonateLeaves(TenTokens(), ABANDONED, 2, 10, extra);
    RunKeepsInv(Start(), Waiting(extra));
  }

  /** A state with this stream alone, long past its end. */
  ghost predicate Abandoned(l: State) {
    Inv(l) && l.clock == Clock(ABANDONED, 2) && (forall id :: id in l.streams <==> id == 0) && IsTenTokens(l.streams[0])
    && !l.config.globalPaused
  }

  /** What a keeper finds: all ten tokens have accrued and none has been withdrawn. */
  lemma KeeperFinds(l: State)
    requires Abandoned(l)
    ensures StreamRules.Claim(l.streams[0], l.clock) == 10 && Total(l.streams) == 10
    ensures Keeper.KeeperRule(l.streams[0], l.clock) == Ok(Keeper.Split(10, 0, 0))
  {
    TenTokensAccrue(l.streams[0], ABANDONED);
    TotalWithout(l.streams, 0);
    assert forall id :: id !in l.streams - {0};
  }

  lemma KeeperPays(l: State)
    requires Abandoned(l)
    ensures var (m, _, r) := Keeper.KeeperStep(l, 0, Account(3), 0);
            r.Ok? && m.balance == l.balance - 10 && Total(m.streams) == 10
  {
    KeeperFinds(l);
    Keeper.KeeperTotals(l, 0, Account(3), Keeper.Split(10, 0, 0));
    Keeper.KeeperSteps(l, 0, Account(3), 0, Keeper.Split(10, 0, 0));
  }

  lemma RecipientIsPaidAgain(l: State)
    requires Abandoned(l) && l.balance >= 20
    ensures StreamStep(Keeper.KeeperStep(l, 0, Account(3), 0).0, 0, Withdraw(RECIPIENT)).1 == Ok(10)
  {
    KeeperFinds(l);
    KeeperPays(l);
    Keeper.ClaimIsPaidOnceMore(l, 0, Account(3), 0);
  }

  /** Without a surplus the contract owes ten tokens after the call, and has none. */
  lemma KeeperCanLeaveInsolvent(l: State)
    requires l == Run(Start(), Waiting(0))
    ensures Inv(l)
    ensures var (m, _, r) := Keeper.KeeperStep(l, 0, Account(3), 0);
            r.Ok? && m.balance == 0 && Total(m.streams) == 10
  {
    WaitingLeaves(0);
    KeeperPays(l);
  }

  /** With a surplus of ten tokens the recipient, who has just been paid ten, is paid ten once more. */
  lemma KeeperCanPayTwice(l: State)
    requires l == Run(Start(), Waiting(10))
    ensures Inv(l)
    ensures var (m, _, r) := Keeper.KeeperStep(l, 0, Account(3), 0);
            r.Ok? && l.balance - m.balance == 10 && StreamStep(m, 0, Withdraw(RECIPIENT)).1 == Ok(10)
  {
    WaitingLeaves(10);
    KeeperPays(l);
    RecipientIsPaidAgain(l);
  }
}
