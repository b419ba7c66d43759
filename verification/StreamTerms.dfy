/** Calls that change the terms of a stream: exactly when they are accepted, what they change, and what
    the stream accrues from then on, at every later time. */
module StreamTerms {
  import opened FixedWidth
  import opened Accrual
  import opened Streams
  import opened Ledger
  import opened LedgerInvariant
  import opened StreamCalls
  import StreamRules

  predicate IsLive(s: Stream) { s.status in {Active, Paused} }

  /** What the rate of `s` adds to its checkpoint by `t`, without the cap. */
  function Uncapped(s: Stream, t: int): int {
    s.checkpointed + s.rate * Max(Min(t, s.end) - s.checkpointedAt, 0)
  }

  /** Accrual of a live linear stream, in its fields. */
  lemma AccrualInFields(s: Stream, t: int)
    requires IsLive(s) && s.kind == Linear && s.rate >= 0 && s.deposit > 0 && s.checkpointed >= 0
    ensures Accrued(s, t) == if t < s.cliff then 0 else Min(Uncapped(s, t), s.deposit)
  {
    var x := Elapsed(Checkpoint(s), t);
    MulMonotone(0, x, s.rate);
    assert x * s.rate == s.rate * x;
  }

  // ------------------------------------------------------------------ the rate

  lemma UpdateRateAccepted(l: State, id: int, caller: Address, rate: i128)
    requires Inv(l)
    ensures StreamStep(l, id, UpdateRate(caller, rate)).1.Ok? <==>
              && !l.config.globalPaused && id in l.streams && l.streams[id].sender == caller
              && l.streams[id].kind == Linear && IsLive(l.streams[id])
              && l.streams[id].rate < rate <= l.config.maxRate
              && rate * (l.streams[id].end - l.streams[id].start) <= l.streams[id].deposit
  {
  }

  lemma DecreaseRateAccepted(l: State, id: int, caller: Address, rate: i128)
    requires Inv(l)
    ensures StreamStep(l, id, DecreaseRate(caller, rate)).1.Ok? <==>
              && !l.config.globalPaused && id in l.streams && l.streams[id].sender == caller
              && l.streams[id].kind == Linear && IsLive(l.streams[id]) && l.clock.now < l.streams[id].end
              && 0 < rate < l.streams[id].rate
              && Accrued(l.streams[id], l.clock.now) + rate * (l.streams[id].end - l.clock.now) <= l.streams[id].deposit
  {
    if id in l.streams {
      OwedBounds(l.streams[id], l.clock);
    }
  }

  /** A stream that earns `rate` per second from `now` until its end, on top of what it had earned. */
  predicate EarnsFrom(s: Stream, t: Stream, now: int, rate: int, u: int) {
    Accrued(t, u) == if u < s.cliff then 0
                     else Min(Accrued(s, now) + rate * Max(Min(u, s.end) - now, 0), t.deposit)
  }

  lemma RebasedEarns(s: Stream, t: Stream, c: Clock, rate: int, u: int)
    requires StreamOk(s, c) && IsLive(s) && s.kind == Linear && rate > 0 && t.deposit > 0
    requires t == s.(checkpointed := Accrued(s, c.now), checkpointedAt := c.now, rate := rate, deposit := t.deposit)
    ensures EarnsFrom(s, t, c.now, rate, u)
  {
    AccrualInFields(t, u);
  }

  /** A raised rate: by the sender, within the cap and the deposit; no token moves, and from now on the
      stream earns the new rate per second, up to the deposit. */
  lemma UpdateRateMeans(l: State, id: int, caller: Address, rate: i128, u: int)
    requires Inv(l) && StreamStep(l, id, UpdateRate(caller, rate)).1.Ok?
    ensures id in StreamStep(l, id, UpdateRate(caller, rate)).0.streams
    ensures var (m, r) := StreamStep(l, id, UpdateRate(caller, rate));
            var s, t := l.streams[id], m.streams[id];
            && r.value == 0 && Rewrites(l, m, id, t)
            && t == s.(checkpointed := t.checkpointed, checkpointedAt := t.checkpointedAt, rate := rate)
            && EarnsFrom(s, t, l.clock.now, rate, u)
  {
    var s := l.streams[id];
    UpdateRateAccepted(l, id, caller, rate);
    var e := AcceptedCommits(l, id, UpdateRate(caller, rate));
    CommitRefunds(l, id, e, false);
    RefundOfNothing(l, Commit(l, id, e), id, e.stream, false);
    RebasedEarns(s, e.stream, l.clock, rate, u);
  }

  lemma DecreaseWrites(l: State, id: int, caller: Address, rate: i128, e: StreamRules.Effect)
    requires Inv(l) && id in l.streams && Refusal(l, DecreaseRate(caller, rate)) == None
    requires Rule(l, id, DecreaseRate(caller, rate)) == Ok(e)
    ensures var s, now := l.streams[id], l.clock.now;
            var deposit := Accrued(s, now) + rate * (s.end - now);
            && 0 < deposit <= s.deposit
            && e == StreamRules.Write(
                      s.(checkpointed := Accrued(s, now), checkpointedAt := now, rate := rate, deposit := deposit),
                      0, 0, s.recipient, s.deposit - deposit, 0, s.sender)
  {
    var s := l.streams[id];
    OwedBounds(s, l.clock);
    MulMonotone(1, s.end - l.clock.now, rate);
    assert rate * (s.end - l.clock.now) == (s.end - l.clock.now) * rate;
  }

  /** A lowered rate: the deposit is cut to what the stream will have earned by its end, the rest goes
      back to the sender at once, and from now on the stream earns exactly the new rate per second. */
  lemma DecreaseRateMeans(l: State, id: int, caller: Address, rate: i128, u: int)
    requires Inv(l) && StreamStep(l, id, DecreaseRate(caller, rate)).1.Ok?
    ensures id in StreamStep(l, id, DecreaseRate(caller, rate)).0.streams
    ensures var (m, r) := StreamStep(l, id, DecreaseRate(caller, rate));
            var s, t := l.streams[id], m.streams[id];
            && r.value == 0 && Refunds(l, m, id, t, s.deposit - t.deposit, false)
            && t == s.(checkpointed := t.checkpointed, checkpointedAt := t.checkpointedAt, rate := rate,
                       deposit := t.deposit)
            && t.deposit == Accrued(s, l.clock.now) + rate * (s.end - l.clock.now)
            && EarnsFrom(s, t, l.clock.now, rate, u)
  {
    var s := l.streams[id];
    DecreaseRateAccepted(l, id, caller, rate);
    var e := AcceptedCommits(l, id, DecreaseRate(caller, rate));
    DecreaseWrites(l, id, caller, rate, e);
    CommitRefunds(l, id, e, false);
    RebasedEarns(s, e.stream, l.clock, rate, u);
  }

  // ------------------------------------------------------------------ the end

  /** What the rate pays from the start of the stream until `end`. */
  function Schedule(s: Stream, end: int): int { s.rate * (end - s.start) }

  lemma ShortenAccepted(l: State, id: int, caller: Address, end: u64)
    requires Inv(l)
    ensures StreamStep(l, id, Shorten(caller, end)).1.Ok? <==>
              && !l.config.globalPaused && id in l.streams && l.streams[id].sender == caller
              && l.streams[id].kind == Linear && IsLive(l.streams[id])
              && l.clock.now < end < l.streams[id].end && l.streams[id].start < end && l.streams[id].cliff <= end
              && l.streams[id].rate * (end - l.streams[id].start) <= l.streams[id].deposit
  {
    if id in l.streams {
      OwedBounds(l.streams[id], l.clock);
    }
  }

  lemma ShortenWrites(l: State, id: int, caller: Address, end: u64, e: StreamRules.Effect)
    requires Inv(l) && id in l.streams && Refusal(l, Shorten(caller, end)) == None
    requires Rule(l, id, Shorten(caller, end)) == Ok(e)
    ensures var s := l.streams[id];
            var deposit := Max(s.rate * (end - s.start), Accrued(s, l.clock.now));
            && 0 < deposit <= s.deposit
            && e == StreamRules.Write(s.(end := end, deposit := deposit), -(s.deposit - deposit), 0, s.recipient,
                                      s.deposit - deposit, 0, s.sender)
  {
    var s := l.streams[id];
    MulMonotone(1, end - s.start, s.rate);
    assert s.rate * (end - s.start) == (end - s.start) * s.rate;
  }

  lemma ShortenedEarns(s: Stream, t: Stream, c: Clock, end: int, u: int)
    requires StreamOk(s, c) && IsLive(s) && s.kind == Linear && s.cliff <= end < s.end
    requires t == s.(end := end, deposit := t.deposit) && 0 < t.deposit <= s.deposit
    ensures Accrued(t, u) == Min(Accrued(s, Min(u, end)), t.deposit)
  {
    AccrualInFields(t, u);
    AccrualInFields(s, Min(u, end));
  }

  /** Shortening cuts the schedule off at the new end: what accrues by any time before it is what would
      have accrued, as far as the new deposit goes; the cut of the deposit goes back to the sender. */
  lemma ShortenMeans(l: State, id: int, caller: Address, end: u64, u: int)
    requires Inv(l) && StreamStep(l, id, Shorten(caller, end)).1.Ok?
    ensures id in StreamStep(l, id, Shorten(caller, end)).0.streams
    ensures var (m, r) := StreamStep(l, id, Shorten(caller, end));
            var s, t := l.streams[id], m.streams[id];
            && r.value == 0 && Refunds(l, m, id, t, s.deposit - t.deposit, true)
            && t == s.(end := end, deposit := t.deposit)
            && t.deposit == Max(Schedule(s, end), Accrued(s, l.clock.now)) <= s.deposit
            && Accrued(t, u) == Min(Accrued(s, Min(u, end)), t.deposit)
  {
    ShortenAccepted(l, id, caller, end);
    var e := AcceptedCommits(l, id, Shorten(caller, end));
    ShortenWrites(l, id, caller, end, e);
    CommitRefunds(l, id, e, true);
    ShortenedEarns(l.streams[id], e.stream, l.clock, end, u);
  }

  /** What a shortened stream pays by its new end, against what it would have paid by that time: the
      same if and only if the schedule up to the new end covers what the checkpoint promises by then,
      or the deposit is that schedule, or nothing more was to accrue before the new end anyway. */
  lemma ShortenedPaysExactly(l: State, id: int, caller: Address, end: u64)
    requires Inv(l) && StreamStep(l, id, Shorten(caller, end)).1.Ok?
    ensures id in StreamStep(l, id, Shorten(caller, end)).0.streams
    ensures var s, t := l.streams[id], StreamStep(l, id, Shorten(caller, end)).0.streams[id];
            Accrued(t, end) == Accrued(s, end) <==>
              || Uncapped(s, end) <= Schedule(s, end)
              || s.deposit == Schedule(s, end)
              || Accrued(s, end) == Accrued(s, l.clock.now)
  {
    var s := l.streams[id];
    ShortenMeans(l, id, caller, end, end);
    ShortenAccepted(l, id, caller, end);
    AccrualInFields(s, end);
    OwedBounds(s, l.clock);
    AccruedMonotone(s, l.clock.now, end);
  }

  lemma ScheduleIsKept(s: Stream, t: Stream, c: Clock, end: int)
    requires StreamOk(s, c) && IsLive(s) && s.kind == Linear && s.checkpointed == 0 && s.checkpointedAt == s.start
    requires c.now < end && s.start < end && s.cliff <= end < s.end
    requires t == s.(end := end, deposit := t.deposit)
    requires t.deposit == Max(Schedule(s, end), Accrued(s, c.now)) <= s.deposit
    ensures Accrued(s, end) == t.deposit == Schedule(s, end)
  {
    AccrualInFields(s, end);
    AccruedMonotone(s, c.now, end);
  }

  lemma ShortenedRecord(l: State, id: int, caller: Address, end: u64) returns (t: Stream)
    requires Inv(l) && StreamStep(l, id, Shorten(caller, end)).1.Ok?
    ensures id in StreamStep(l, id, Shorten(caller, end)).0.streams
    ensures t == StreamStep(l, id, Shorten(caller, end)).0.streams[id]
    ensures var s, c := l.streams[id], l.clock;
            && StreamOk(s, c) && IsLive(s) && s.kind == Linear
            && c.now < end && s.start < end && s.cliff <= end < s.end
            && t == s.(end := end, deposit := t.deposit)
            && t.deposit == Max(Schedule(s, end), Accrued(s, c.now)) <= s.deposit
            && Accrued(t, end) == Min(Accrued(s, end), t.deposit)
  {
    ShortenAccepted(l, id, caller, end);
    ShortenMeans(l, id, caller, end, end);
    t := StreamStep(l, id, Shorten(caller, end)).0.streams[id];
  }

  /** In particular a stream whose rate was never changed pays by the new end what it would have paid by
      that time, and its new deposit is exactly that. */
  lemma ShortenKeepsTheSchedule(l: State, id: int, caller: Address, end: u64) returns (t: Stream)
    requires Inv(l) && id in l.streams && StreamStep(l, id, Shorten(caller, end)).1.Ok?
    requires l.streams[id].checkpointed == 0 && l.streams[id].checkpointedAt == l.streams[id].start
    ensures id in StreamStep(l, id, Shorten(caller, end)).0.streams
    ensures t == StreamStep(l, id, Shorten(caller, end)).0.streams[id] && t.end == end
    ensures Accrued(t, end) == Accrued(l.streams[id], end) == t.deposit == Schedule(l.streams[id], end)
  {
    t := ShortenedRecord(l, id, caller, end);
    ScheduleIsKept(l.streams[id], t, l.clock, end);
  }

  lemma ExtendAccepted(l: State, id: int, caller: Address, end: u64)
    requires Inv(l)
    ensures StreamStep(l, id, Extend(caller, end)).1.Ok? <==>
              && !l.config.globalPaused && id in l.streams && l.streams[id].sender == caller
              && l.streams[id].kind == Linear && IsLive(l.streams[id])
              && l.streams[id].end < end && l.clock.now <= end
              && l.streams[id].rate * (end - l.streams[id].start) <= l.streams[id].deposit
  {
  }

  lemma ExtendWrites(l: State, id: int, caller: Address, end: u64, e: StreamRules.Effect)
    requires id in l.streams && Refusal(l, Extend(caller, end)) == None && Rule(l, id, Extend(caller, end)) == Ok(e)
    ensures var s := l.streams[id];
            e == StreamRules.Write(s.(end := end), 0, 0, s.recipient, 0, 0, s.sender)
  {
  }

  /** Extending: nothing else changes, no token moves, and the stream goes on earning its rate after its
      old end, or after its checkpoint if that is later, up to the deposit. */
  lemma ExtendMeans(l: State, id: int, caller: Address, end: u64, u: int)
    requires Inv(l) && StreamStep(l, id, Extend(caller, end)).1.Ok?
    ensures id in StreamStep(l, id, Extend(caller, end)).0.streams
    ensures var (m, r) := StreamStep(l, id, Extend(caller, end));
            var s, t := l.streams[id], m.streams[id];
            && r.value == 0 && Rewrites(l, m, id, t) && t == s.(end := end)
            && (u <= s.end ==> Accrued(t, u) == Accrued(s, u))
            && (s.end <= u ==>
                  Accrued(t, u) == Min(Accrued(s, s.end) + s.rate * Max(Min(u, end) - Max(s.end, s.checkpointedAt), 0),
                                       s.deposit))
  {
    var s := l.streams[id];
    ExtendAccepted(l, id, caller, end);
    var e := AcceptedCommits(l, id, Extend(caller, end));
    ExtendWrites(l, id, caller, end, e);
    CommitRefunds(l, id, e, false);
    RefundOfNothing(l, Commit(l, id, e), id, e.stream, false);
    ExtendedEarns(s, e.stream, l.clock, end, u);
  }

  lemma ExtendedEarns(s: Stream, t: Stream, c: Clock, end: int, u: int)
    requires StreamOk(s, c) && IsLive(s) && s.kind == Linear && s.end < end && t == s.(end := end)
    ensures u <= s.end ==> Accrued(t, u) == Accrued(s, u)
    ensures s.end <= u ==>
              Accrued(t, u) == Min(Accrued(s, s.end) + s.rate * Max(Min(u, end) - Max(s.end, s.checkpointedAt), 0),
                                   s.deposit)
  {
    AccrualInFields(t, u);
    AccrualInFields(s, Min(u, s.end));
    if s.end <= u {
      MoreSeconds(s.checkpointed, s.rate, s.deposit, Max(s.end - s.checkpointedAt, 0),
                  Max(Min(u, end) - Max(s.end, s.checkpointedAt), 0));
    }
  }

  /** Capping half-way loses nothing. */
  lemma MoreSeconds(base: int, rate: int, cap: int, x: nat, y: nat)
    requires 0 <= rate
    ensures Min(base + rate * (x + y), cap) == Min(Min(base + rate * x, cap) + rate * y, cap)
  {
    assert rate * (x + y) == rate * x + rate * y;
    MulMonotone(0, y, rate);
    assert rate * y == y * rate;
  }

  // ------------------------------------------------------------------ the deposit

  lemma TopUpAccepted(l: State, id: int, funder: Address, amount: i128)
    requires Inv(l)
    ensures StreamStep(l, id, TopUp(funder, amount)).1.Ok? <==>
              && !l.config.globalPaused && id in l.streams && funder != Contract && 0 < amount
              && l.streams[id].kind == Linear && IsLive(l.streams[id]) && l.clock.now < l.streams[id].end
              && l.streams[id].deposit + amount <= I128_MAX
              && amount <= l.spendable[funder] && l.balance + amount <= I128_MAX
  {
  }

  lemma TopUpWrites(l: State, id: int, funder: Address, amount: i128, e: StreamRules.Effect)
    requires id in l.streams && Refusal(l, TopUp(funder, amount)) == None && Rule(l, id, TopUp(funder, amount)) == Ok(e)
    ensures var s := l.streams[id];
            && 0 < amount
            && e == StreamRules.Write(s.(deposit := s.deposit + amount), amount, 0, s.recipient, 0, amount, funder)
  {
  }

  lemma ToppedUpEarns(s: Stream, t: Stream, c: Clock, u: int)
    requires StreamOk(s, c) && IsLive(s) && s.kind == Linear && t == s.(deposit := t.deposit) && s.deposit <= t.deposit
    ensures Accrued(s, u) == Min(Accrued(t, u), s.deposit)
  {
    AccrualInFields(s, u);
    AccrualInFields(t, u);
  }

  /** A top-up: by anybody, from the caller's own tokens; the deposit grows by them and nothing else of
      the record changes, so that accrual only loses its old cap. */
  lemma TopUpMeans(l: State, id: int, funder: Address, amount: i128, u: int)
    requires Inv(l) && StreamStep(l, id, TopUp(funder, amount)).1.Ok?
    ensures id in StreamStep(l, id, TopUp(funder, amount)).0.streams
    ensures var (m, r) := StreamStep(l, id, TopUp(funder, amount));
            var s, t := l.streams[id], m.streams[id];
            && r.value == 0 && Funds(l, m, id, t, funder, amount) && t == s.(deposit := s.deposit + amount)
            && Accrued(s, u) == Min(Accrued(t, u), s.deposit)
  {
    var s := l.streams[id];
    TopUpAccepted(l, id, funder, amount);
    var e := AcceptedCommits(l, id, TopUp(funder, amount));
    TopUpWrites(l, id, funder, amount, e);
    CommitFunds(l, id, e);
    ToppedUpEarns(s, e.stream, l.clock, u);
  }

  // ------------------------------------------------------------------ pausing and cancelling

  predicate MayStop(l: State, id: int, caller: Address, asAdmin: bool)
    requires id in l.streams
  {
    caller == if asAdmin then l.config.admin else l.streams[id].sender
  }

  lemma PauseAccepted(l: State, id: int, caller: Address, asAdmin: bool)
    requires Inv(l)
    ensures StreamStep(l, id, Pause(caller, asAdmin)).1.Ok? <==>
              && id in l.streams && MayStop(l, id, caller, asAdmin) && l.streams[id].status == Active
              && l.clock.now < l.streams[id].end && l.clock.sequence >= l.streams[id].lastPauseToggle + 17
    ensures StreamStep(l, id, Resume(caller, asAdmin)).1.Ok? <==>
              && id in l.streams && MayStop(l, id, caller, asAdmin) && l.streams[id].status == Paused
              && l.clock.now < l.streams[id].end && l.clock.sequence >= l.streams[id].lastPauseToggle + 17
  {
  }

  lemma ToggleWrites(l: State, id: int, op: StreamOp, e: StreamRules.Effect)
    requires id in l.streams && (op.Pause? || op.Resume?) && Refusal(l, op) == None && Rule(l, id, op) == Ok(e)
    ensures var s := l.streams[id];
            e == StreamRules.Write(s.(status := if op.Pause? then Paused else Active,
                                      lastPauseToggle := l.clock.sequence), 0, 0, s.recipient, 0, 0, s.sender)
  {
  }

  /** Pausing and resuming change the flag, and nothing of what accrues. */
  lemma PauseMeans(l: State, id: int, op: StreamOp, u: int)
    requires Inv(l) && (op.Pause? || op.Resume?) && StreamStep(l, id, op).1.Ok?
    ensures id in StreamStep(l, id, op).0.streams
    ensures var (m, r) := StreamStep(l, id, op);
            var s, t := l.streams[id], m.streams[id];
            && r.value == 0 && Rewrites(l, m, id, t)
            && t == s.(status := if op.Pause? then Paused else Active, lastPauseToggle := l.clock.sequence)
            && Accrued(t, u) == Accrued(s, u)
  {
    PauseAccepted(l, id, op.caller, op.asAdmin);
    var e := AcceptedCommits(l, id, op);
    ToggleWrites(l, id, op, e);
    CommitRefunds(l, id, e, false);
    RefundOfNothing(l, Commit(l, id, e), id, e.stream, false);
  }

  lemma CancelAccepted(l: State, id: int, caller: Address, asAdmin: bool)
    requires Inv(l)
    ensures StreamStep(l, id, Cancel(caller, asAdmin)).1.Ok? <==>
              && (asAdmin || !l.config.globalPaused) && id in l.streams && MayStop(l, id, caller, asAdmin)
              && IsLive(l.streams[id])
  {
  }

  lemma CancelWrites(l: State, id: int, caller: Address, asAdmin: bool, e: StreamRules.Effect)
    requires Inv(l) && id in l.streams && Refusal(l, Cancel(caller, asAdmin)) == None
    requires Rule(l, id, Cancel(caller, asAdmin)) == Ok(e)
    ensures var s := l.streams[id];
            var rest := s.deposit - Accrued(s, l.clock.now);
            && 0 <= rest
            && e == StreamRules.Write(s.(status := Cancelled, cancelledAt := Some(l.clock.now)), -rest, 0, s.recipient,
                                      rest, 0, s.sender)
  {
    OwedBounds(l.streams[id], l.clock);
  }

  /** Cancelling stops accrual where it stands, for ever, and gives the sender the rest of the deposit. */
  lemma CancelMeans(l: State, id: int, caller: Address, asAdmin: bool, u: int)
    requires Inv(l) && StreamStep(l, id, Cancel(caller, asAdmin)).1.Ok?
    ensures id in StreamStep(l, id, Cancel(caller, asAdmin)).0.streams
    ensures var (m, r) := StreamStep(l, id, Cancel(caller, asAdmin));
            var s, t := l.streams[id], m.streams[id];
            && r.value == 0 && Refunds(l, m, id, t, s.deposit - Accrued(s, l.clock.now), true)
            && t == s.(status := Cancelled, cancelledAt := Some(l.clock.now))
            && Accrued(t, u) == Accrued(s, l.clock.now)
  {
    CancelAccepted(l, id, caller, asAdmin);
    var e := AcceptedCommits(l, id, Cancel(caller, asAdmin));
    CancelWrites(l, id, caller, asAdmin, e);
    CommitRefunds(l, id, e, true);
  }

  // ------------------------------------------------------------------ the forecast

  /** The query, while a stream is live: what will have accrued by `t`, less what was withdrawn. */
  lemma ForecastMeans(l: State, id: int, t: int)
    requires Inv(l)
    ensures ClaimableAt(l, id, t).Ok? <==> id in l.streams
    ensures id in l.streams && IsLive(l.streams[id]) ==>
              ClaimableAt(l, id, t) == Ok(Max(Accrued(l.streams[id], t) - l.streams[id].withdrawn, 0))
    ensures id in l.streams && l.streams[id].status == Completed ==> ClaimableAt(l, id, t) == Ok(0)
  {
  }

  /** A cancellation leaves the answers about the past as they were, and freezes those about the future. */
  lemma CancelFreezesForecasts(l: State, id: int, caller: Address, asAdmin: bool, t: int)
    requires Inv(l) && StreamStep(l, id, Cancel(caller, asAdmin)).1.Ok?
    ensures ClaimableAt(StreamStep(l, id, Cancel(caller, asAdmin)).0, id, t)
         == ClaimableAt(l, id, Min(t, l.clock.now))
  {
    CancelMeans(l, id, caller, asAdmin, t);
  }
}
