/** Checkpointed accrual against the obvious reference: count, one second at a time, the rate that
    was in force.  Any number of rate increases and decreases may happen in between. */
module RateSimulation {
  import opened FixedWidth
  import opened Accrual
  import opened Streams
  import StreamRules

  /** The sender sets a new rate at time `at`. */
  datatype Change = Change(at: int, rate: int)

  /** The entry point the sender has to use: one for increases, one for decreases. */
  function Reprice(s: Stream, change: Change, maxRate: int): Result<Stream> {
    var e :- if change.rate > s.rate
             then StreamRules.UpdateRate(s, Clock(change.at, 0), s.sender, change.rate, maxRate)
             else StreamRules.DecreaseRate(s, Clock(change.at, 0), s.sender, change.rate);
    if e.Write? then Ok(e.stream) else Ok(s)
  }

  /** The stream after a sequence of changes, or the refusal of one of them. */
  function Repriced(s: Stream, changes: seq<Change>, maxRate: int): Result<Stream> {
    if |changes| == 0 then Ok(s)
    else
      var t :- Repriced(s, changes[..|changes| - 1], maxRate);
      Reprice(t, changes[|changes| - 1], maxRate)
  }

  /** A stream as creation leaves it. */
  predicate Fresh(s: Stream) {
    && s.status == Active && s.kind == Linear && 0 < s.rate && 0 < s.deposit
    && 0 <= s.start <= s.cliff <= s.end && s.start < s.end
    && s.checkpointed == 0 && s.checkpointedAt == s.start
  }

  /** Changes come in order of time: before the start, before the cliff, or after the end. */
  predicate InOrder(changes: seq<Change>) {
    forall i, j | 0 <= i < j < |changes| :: changes[i].at <= changes[j].at
  }

  /** The rate in force during the second that starts at `u`. */
  function RateAt(initial: int, changes: seq<Change>, u: int): int {
    if |changes| == 0 then initial
    else if changes[|changes| - 1].at <= u then changes[|changes| - 1].rate
    else RateAt(initial, changes[..|changes| - 1], u)
  }

  /** The second-by-second simulation over the seconds in `[from, t)`. */
  function Simulated(initial: int, changes: seq<Change>, from: int, t: int): int
    decreases t - from
  {
    if t <= from then 0
    else Simulated(initial, changes, from, t - 1) + RateAt(initial, changes, t - 1)
  }

  function LastChange(s: Stream, changes: seq<Change>): int {
    if |changes| == 0 then s.start else changes[|changes| - 1].at
  }

  /** Where the counting starts: at the start of the stream, or at the last change made before the
      cliff, because a change made while nothing is visible checkpoints zero. */
  function Origin(s: Stream, changes: seq<Change>): int {
    if |changes| == 0 then s.start
    else if changes[|changes| - 1].at < s.cliff then changes[|changes| - 1].at
    else Origin(s, changes[..|changes| - 1])
  }

  /** Up to the last change the simulation does not know about it. */
  lemma {:induction false} SimulatedBefore(initial: int, changes: seq<Change>, from: int, t: int)
    requires |changes| > 0 && t <= changes[|changes| - 1].at
    ensures Simulated(initial, changes, from, t) == Simulated(initial, changes[..|changes| - 1], from, t)
    decreases t - from
  {
    if t > from {
      SimulatedBefore(initial, changes, from, t - 1);
    }
  }

  /** Over seconds with one rate it is a product. */
  lemma {:induction false} SimulatedFlat(initial: int, changes: seq<Change>, from: int, mid: int, t: int, rate: int)
    requires from <= mid <= t
    requires forall u | mid <= u < t :: RateAt(initial, changes, u) == rate
    ensures Simulated(initial, changes, from, t) == Simulated(initial, changes, from, mid) + (t - mid) * rate
    decreases t - mid
  {
    if t > mid {
      SimulatedFlat(initial, changes, from, mid, t - 1, rate);
    }
  }

  predicate Positive(initial: int, changes: seq<Change>) {
    initial > 0 && forall i | 0 <= i < |changes| :: changes[i].rate > 0
  }

  lemma {:induction false} RateAtPositive(initial: int, changes: seq<Change>, u: int)
    requires Positive(initial, changes)
    ensures RateAt(initial, changes, u) > 0
  {
    if |changes| > 0 {
      RateAtPositive(initial, changes[..|changes| - 1], u);
    }
  }

  lemma {:induction false} SimulatedGrows(initial: int, changes: seq<Change>, from: int, t: int)
    requires Positive(initial, changes)
    ensures Simulated(initial, changes, from, t) >= Max(t - from, 0)
    decreases t - from
  {
    if t > from {
      SimulatedGrows(initial, changes, from, t - 1);
      RateAtPositive(initial, changes, t - 1);
    }
  }

  /** What the fields of a repriced stream are, and that the schedule is untouched. */
  predicate Tracks(s: Stream, changes: seq<Change>, r: Stream) {
    && r == s.(checkpointed := r.checkpointed, checkpointedAt := r.checkpointedAt, rate := r.rate, deposit := r.deposit)
    && r.checkpointedAt == LastChange(s, changes)
    && r.rate == RateAt(s.rate, changes, LastChange(s, changes))
    && 0 < r.deposit && 0 < r.rate
    && Positive(s.rate, changes)
    && Origin(s, changes) <= LastChange(s, changes)
  }

  /** Clamping at the checkpoint as well as at the end loses nothing. */
  lemma NestedClamp(base: int, deposit: int, added: int)
    requires 0 <= base && 0 <= added && 0 <= deposit
    ensures Clamp(Min(base, deposit) + added, 0, deposit) == Min(base + added, deposit)
  {
  }

  /** What a successful change writes. */
  lemma RepriceWrites(p: Stream, change: Change, maxRate: int)
    requires Live(p) && Reprice(p, change, maxRate).Ok?
    ensures var r := Reprice(p, change, maxRate).value;
            var kept := Accrued(p, change.at);
            && change.rate > 0
            && r == p.(checkpointed := kept, checkpointedAt := change.at, rate := change.rate, deposit := r.deposit)
            && (if change.rate > p.rate then r.deposit == p.deposit
                else change.at < p.end && r.deposit == kept + change.rate * (p.end - change.at) <= p.deposit)
  {
  }

  /** One epoch: if the total so far was `base` capped by the deposit, then so is every later total. */
  lemma EpochAccrual(p: Stream, change: Change, maxRate: int, base: int, t: int)
    requires Live(p) && p.kind == Linear && 0 < p.deposit && 0 <= base
    requires change.at < p.end && Max(change.at, p.cliff) <= t
    requires Reprice(p, change, maxRate).Ok? && Accrued(p, change.at) == Min(base, p.deposit)
    ensures var r := Reprice(p, change, maxRate).value;
            && 0 < r.deposit
            && Accrued(r, t) == Min(base + (Min(t, p.end) - change.at) * change.rate, r.deposit)
  {
    RepriceWrites(p, change, maxRate);
    var r, seconds := Reprice(p, change, maxRate).value, Min(t, p.end) - change.at;
    MulMonotone(0, seconds, change.rate);
    MulMonotone(seconds, p.end - change.at, change.rate);
    MulMonotone(1, p.end - change.at, change.rate);
    assert change.rate * (p.end - change.at) == (p.end - change.at) * change.rate;
    assert Elapsed(Checkpoint(r), t) == seconds;
    assert r.deposit > 0;
    assert Accrued(r, t) == Clamp(Min(base, p.deposit) + seconds * change.rate, 0, r.deposit);
    if change.rate > p.rate {
      NestedClamp(base, p.deposit, seconds * change.rate);
    }
  }

  /** With no change there is one epoch, and the simulation is a product. */
  lemma FirstEpoch(s: Stream, t: int)
    requires Fresh(s) && s.cliff <= t
    ensures Tracks(s, [], s)
    ensures Accrued(s, t) == Min(Simulated(s.rate, [], s.start, Min(t, s.end)), s.deposit)
  {
    var until := Min(t, s.end);
    SimulatedFlat(s.rate, [], s.start, s.start, until, s.rate);
    assert Elapsed(Checkpoint(s), t) == until - s.start;
    MulMonotone(0, until - s.start, s.rate);
  }

  /** A change after the end keeps what has accrued, and nothing accrues any more. */
  lemma EpochAfterEnd(p: Stream, change: Change, maxRate: int, t: int)
    requires Live(p) && p.kind == Linear && 0 < p.deposit && p.cliff <= p.end <= change.at <= t
    requires Reprice(p, change, maxRate).Ok?
    ensures var r := Reprice(p, change, maxRate).value;
            r.deposit == p.deposit && Accrued(r, t) == Accrued(p, change.at)
  {
    RepriceWrites(p, change, maxRate);
    EntitlementBounds(Checkpoint(p), p.rate, change.at);
    assert Elapsed(Checkpoint(Reprice(p, change, maxRate).value), t) == 0;
  }

  /** What the theorem says of the changes before the last one, at the time of the last one. */
  predicate TotalBefore(s: Stream, changes: seq<Change>, p: Stream)
    requires |changes| > 0
  {
    var before, last := changes[..|changes| - 1], changes[|changes| - 1];
    last.at >= s.cliff ==>
      Accrued(p, last.at) == Min(Simulated(s.rate, before, Origin(s, before), Min(last.at, s.end)), p.deposit)
  }

  /** Up to the last change the total is the one of the changes before it; a change made before the
      cliff starts from zero. */
  lemma TotalAtLastChange(s: Stream, changes: seq<Change>, p: Stream)
    requires Fresh(s) && InOrder(changes) && |changes| > 0
    requires Tracks(s, changes[..|changes| - 1], p) && TotalBefore(s, changes, p)
    ensures var last := changes[|changes| - 1];
            var total := Simulated(s.rate, changes, Origin(s, changes), Min(last.at, s.end));
            0 <= total && Accrued(p, last.at) == Min(total, p.deposit)
  {
    var before, last, origin := changes[..|changes| - 1], changes[|changes| - 1], Origin(s, changes);
    if last.at >= s.cliff {
      SimulatedBefore(s.rate, changes, origin, Min(last.at, s.end));
      SimulatedGrows(s.rate, before, origin, Min(last.at, s.end));
    }
  }

  lemma LastEpochBeforeEnd(s: Stream, changes: seq<Change>, maxRate: int, p: Stream, r: Stream, t: int)
    requires Fresh(s) && InOrder(changes) && |changes| > 0 && Tracks(s, changes[..|changes| - 1], p)
    requires var last := changes[|changes| - 1];
             Reprice(p, last, maxRate) == Ok(r) && Max(s.cliff, last.at) <= t && last.at < s.end
    requires TotalBefore(s, changes, p)
    ensures Tracks(s, changes, r)
    ensures Accrued(r, t) == Min(Simulated(s.rate, changes, Origin(s, changes), Min(t, s.end)), r.deposit)
  {
    var last, origin := changes[|changes| - 1], Origin(s, changes);
    TotalAtLastChange(s, changes, p);
    RepriceWrites(p, last, maxRate);
    OriginBeforeLast(s, changes);
    SimulatedFlat(s.rate, changes, origin, last.at, Min(t, s.end), last.rate);
    EpochAccrual(p, last, maxRate, Simulated(s.rate, changes, origin, last.at), t);
  }

  lemma LastEpochAfterEnd(s: Stream, changes: seq<Change>, maxRate: int, p: Stream, r: Stream, t: int)
    requires Fresh(s) && InOrder(changes) && |changes| > 0 && Tracks(s, changes[..|changes| - 1], p)
    requires var last := changes[|changes| - 1];
             Reprice(p, last, maxRate) == Ok(r) && s.end <= last.at <= t
    requires TotalBefore(s, changes, p)
    ensures Tracks(s, changes, r)
    ensures Accrued(r, t) == Min(Simulated(s.rate, changes, Origin(s, changes), Min(t, s.end)), r.deposit)
  {
    var last := changes[|changes| - 1];
    TotalAtLastChange(s, changes, p);
    RepriceWrites(p, last, maxRate);
    OriginBeforeLast(s, changes);
    EpochAfterEnd(p, last, maxRate, t);
  }

  lemma {:induction false} OriginBeforeLast(s: Stream, changes: seq<Change>)
    requires Fresh(s) && InOrder(changes) && |changes| > 0
    ensures changes[|changes| - 1].at < s.cliff ==> Origin(s, changes) == changes[|changes| - 1].at
    ensures Origin(s, changes) <= changes[|changes| - 1].at
  {
    var before := changes[..|changes| - 1];
    if |before| > 0 && changes[|changes| - 1].at >= s.cliff {
      OriginBeforeLast(s, before);
    }
  }

  /** The refinement theorem, for every sequence of successful changes: from the last change and the
      cliff on, the accrual computed from the one stored checkpoint is the simulated
      total since `Origin`, capped by the deposit. */
  lemma {:induction false} CheckpointedAccrualIsSimulation(s: Stream, changes: seq<Change>, maxRate: int, t: int)
    requires Fresh(s) && InOrder(changes) && Repriced(s, changes, maxRate).Ok?
    requires Max(s.cliff, LastChange(s, changes)) <= t
    ensures Tracks(s, changes, Repriced(s, changes, maxRate).value)
    ensures var r := Repriced(s, changes, maxRate).value;
            Accrued(r, t) == Min(Simulated(s.rate, changes, Origin(s, changes), Min(t, s.end)), r.deposit)
    decreases |changes|
  {
    if |changes| == 0 {
      FirstEpoch(s, t);
      assert changes == [];
    } else {
      var before, last := changes[..|changes| - 1], changes[|changes| - 1];
      CheckpointedAccrualIsSimulation(s, before, maxRate, Max(s.cliff, last.at));
      var p, r := Repriced(s, before, maxRate).value, Repriced(s, changes, maxRate).value;
      if last.at < s.end {
        LastEpochBeforeEnd(s, changes, maxRate, p, r, t);
      } else {
        LastEpochAfterEnd(s, changes, maxRate, p, r, t);
      }
    }
  }

  /** Without changes before the cliff nothing is skipped: the count runs from the start. */
  lemma {:induction false} OriginIsStart(s: Stream, changes: seq<Change>)
    requires forall i | 0 <= i < |changes| :: s.cliff <= changes[i].at
    ensures Origin(s, changes) == s.start
  {
    if |changes| > 0 {
      OriginIsStart(s, changes[..|changes| - 1]);
    }
  }

  lemma {:induction false} SimulatedSplits(initial: int, changes: seq<Change>, from: int, mid: int, t: int)
    requires from <= mid <= t
    ensures Simulated(initial, changes, from, t)
         == Simulated(initial, changes, from, mid) + Simulated(initial, changes, mid, t)
    decreases t - mid
  {
    if t > mid {
      SimulatedSplits(initial, changes, from, mid, t - 1);
    }
  }

  /** The reading "sum of the rate from the start, capped by the deposit", exactly.  It is right when
      counting starts at the start.  When the last change before the cliff was made before the start,
      counting starts too early: accrual is never too low, and right only if the deposit caps the sum.
      When that change was made after the start, counting starts too late: accrual is never too high,
      and right only if the deposit caps even the shorter count. */
  lemma SumFromStartExactly(s: Stream, changes: seq<Change>, maxRate: int, t: int)
    requires Fresh(s) && InOrder(changes) && Repriced(s, changes, maxRate).Ok?
    requires Max(s.cliff, LastChange(s, changes)) <= t
    ensures var r, until, origin := Repriced(s, changes, maxRate).value, Min(t, s.end), Origin(s, changes);
            var sum, counted := Simulated(s.rate, changes, s.start, until), Simulated(s.rate, changes, origin, until);
            && (origin == s.start ==> Accrued(r, t) == Min(sum, r.deposit))
            && (origin < s.start ==> Accrued(r, t) >= Min(sum, r.deposit)
                                     && (Accrued(r, t) == Min(sum, r.deposit) <==> r.deposit <= sum))
            && (origin > s.start ==> Accrued(r, t) <= Min(sum, r.deposit)
                                     && (Accrued(r, t) == Min(sum, r.deposit) <==> r.deposit <= counted))
  {
    CheckpointedAccrualIsSimulation(s, changes, maxRate, t);
    var origin, until := Origin(s, changes), Min(t, s.end);
    OriginBeforeEnd(s, changes);
    if origin < s.start {
      SimulatedSplits(s.rate, changes, origin, s.start, until);
      SimulatedGrows(s.rate, changes, origin, s.start);
    } else {
      SimulatedSplits(s.rate, changes, s.start, origin, until);
      SimulatedGrows(s.rate, changes, s.start, origin);
    }
  }

  lemma {:induction false} OriginBeforeEnd(s: Stream, changes: seq<Change>)
    requires Fresh(s)
    ensures Origin(s, changes) <= s.cliff && Origin(s, changes) < s.end
  {
    if |changes| > 0 {
      OriginBeforeEnd(s, changes[..|changes| - 1]);
    }
  }
}
