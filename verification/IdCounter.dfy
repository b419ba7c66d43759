/** Which ID comes next: a caller's own range first, then the counter, which is moved by creations,
    reservations and reclaims and by nothing else. */
module IdCounter {
  import opened FixedWidth
  import opened Streams
  import opened StreamIds
  import opened Ledger
  import opened LedgerInvariant
  import opened IdRuns
  import LedgerRuns

  /** How many IDs are left in the range of `who`. */
  function LeftFor(a: Allocator, who: Address): int {
    if who in a.reservations then a.reservations[who].count - a.reservations[who].consumed else 0
  }

  /** The ID that the next but `k` stream of `who` gets if nobody else comes in between. */
  function Due(a: Allocator, who: Address, k: nat): int {
    if k < LeftFor(a, who) then a.reservations[who].start + a.reservations[who].consumed + k
    else a.nextId + k - LeftFor(a, who)
  }

  /** `b` is `a` after `who` has taken `n` IDs. */
  ghost predicate After(a: Allocator, b: Allocator, who: Address, n: nat) {
    && (forall k: nat :: Due(b, who, k) == Due(a, who, n + k))
    && LeftFor(b, who) == Max(LeftFor(a, who) - n, 0)
    && b.nextId == a.nextId + Max(n - LeftFor(a, who), 0)
  }

  lemma AfterNone(a: Allocator, who: Address)
    requires LeftFor(a, who) >= 0
    ensures After(a, a, who, 0)
  {
  }

  lemma AfterOneMore(a: Allocator, b: Allocator, c: Allocator, who: Address, n: nat)
    requires After(a, b, who, n) && After(b, c, who, 1) && LeftFor(a, who) >= 0
    ensures Due(b, who, 0) == Due(a, who, n) && After(a, c, who, n + 1)
  {
    forall k: nat ensures Due(c, who, k) == Due(a, who, n + 1 + k) {
      assert Due(c, who, k) == Due(b, who, 1 + k);
    }
  }

  lemma LeftIsPositive(l: State, who: Address)
    requires Inv(l)
    ensures LeftFor(l.ids, who) >= 0
    ensures who in l.ids.reservations ==> LeftFor(l.ids, who) > 0
  {
    if who in l.ids.reservations {
      assert ReservationOk(l.ids.reservations[who], l.ids.nextId);
    }
  }

  lemma CreationTakesNext(l: State, sender: Address, p: Params)
    requires Inv(l) && CreateStream(l, sender, p).1.Ok?
    ensures var (m, id) := CreateStream(l, sender, p);
            id.value == Due(l.ids, sender, 0) && After(l.ids, m.ids, sender, 1)
  {
    LeftIsPositive(l, sender);
  }

  /** The IDs of a batch, in order: what is left of the sender's own range, then the counter, without a
      gap; and the counter has then moved by the IDs that the range did not cover. */
  lemma {:induction false} BatchTakesNext(l: State, sender: Address, ps: seq<Params>)
    requires Inv(l) && CreateStreams(l, sender, ps).1.Ok?
    ensures var (m, ids) := CreateStreams(l, sender, ps);
            && |ids.value| == |ps| && (forall k | 0 <= k < |ps| :: ids.value[k] == Due(l.ids, sender, k))
            && After(l.ids, m.ids, sender, |ps|)
  {
    LeftIsPositive(l, sender);
    if |ps| > 0 {
      var before, last := ps[..|ps| - 1], ps[|ps| - 1];
      var (m, ids) := CreateStreams(l, sender, before);
      BatchTakesNext(l, sender, before);
      CreateStreamsKeepsInv(l, sender, before);
      CreationTakesNext(m, sender, last);
      AfterOneMore(l.ids, m.ids, CreateStream(m, sender, last).0.ids, sender, |before|);
    } else {
      AfterNone(l.ids, sender);
    }
  }

  /** A range is granted exactly within the limits, and it is the next `count` IDs of the counter. */
  lemma ReserveTakesNext(l: State, who: Address, count: u32, expiry: Option<int>)
    ensures var (m, range) := ReserveIds(l, who, count, expiry);
            && (range.Ok? <==> 1 <= count <= 100 && l.ids.nextId + count <= U64_MAX)
            && (range.Ok? ==> |range.value| == count && m.ids.nextId == l.ids.nextId + count
                              && forall k | 0 <= k < count :: range.value[k] == l.ids.nextId + k)
  {
  }

  // ------------------------------------------------------------------ the counter over runs

  /** The reservation of `holder` is the newest: it ends where the counter stands. */
  predicate IsNewest(a: Allocator, holder: Address) {
    holder in a.reservations && a.reservations[holder].start + a.reservations[holder].count == a.nextId
  }

  /** How far a call moves the counter; back only for the reclaim of the newest range. */
  function Moved(l: State, op: Op): int {
    match op
    case Create(sender, p) =>
      if CreateStream(l, sender, p).1.Ok? then Max(1 - LeftFor(l.ids, sender), 0) else 0
    case CreateBatch(sender, ps) =>
      if CreateStreams(l, sender, ps).1.Ok? then Max(|ps| - LeftFor(l.ids, sender), 0) else 0
    case ReserveRange(caller, count, expiry) => if ReserveIds(l, caller, count, expiry).1.Ok? then count else 0
    case ReclaimRange(holder) =>
      if ReclaimIds(l, holder).1.Ok? && IsNewest(l.ids, holder) then -LeftFor(l.ids, holder) else 0
    case _ => 0
  }

  lemma CreationMoves(l: State, op: Op)
    requires Inv(l) && (op.Create? || op.CreateBatch?)
    ensures Step(l, op).ids.nextId == l.ids.nextId + Moved(l, op)
  {
    if op.Create? {
      if CreateStream(l, op.sender, op.params).1.Ok? {
        CreationTakesNext(l, op.sender, op.params);
      }
    } else if CreateStreams(l, op.sender, op.batch).1.Ok? {
      BatchTakesNext(l, op.sender, op.batch);
    } else {
      RefusedBatchKeepsIds(l, op.sender, op.batch);
    }
  }

  lemma {:induction false} RefusedBatchKeepsIds(l: State, sender: Address, ps: seq<Params>)
    requires CreateStreams(l, sender, ps).1.Err?
    ensures CreateStreams(l, sender, ps).0 == l
  {
    if |ps| > 0 && CreateStreams(l, sender, ps[..|ps| - 1]).1.Err? {
      RefusedBatchKeepsIds(l, sender, ps[..|ps| - 1]);
    }
  }

  lemma ReserveMoves(l: State, op: Op)
    requires op.ReserveRange?
    ensures Step(l, op).ids.nextId == l.ids.nextId + Moved(l, op)
  {
    ReserveTakesNext(l, op.caller, op.count, op.expiry);
  }

  lemma ReleaseMoves(l: State, op: Op)
    requires op.ReleaseRange?
    ensures Step(l, op).ids.nextId == l.ids.nextId + Moved(l, op)
  {
  }

  lemma ReclaimMoves(l: State, holder: Address)
    requires Inv(l)
    ensures ReclaimIds(l, holder).0.ids.nextId
         == if ReclaimIds(l, holder).1.Ok? && IsNewest(l.ids, holder) then l.ids.nextId - LeftFor(l.ids, holder)
            else l.ids.nextId
  {
    LeftIsPositive(l, holder);
  }

  lemma RangeMoves(l: State, op: Op)
    requires Inv(l) && (op.ReserveRange? || op.ReleaseRange? || op.ReclaimRange?)
    ensures Step(l, op).ids.nextId == l.ids.nextId + Moved(l, op)
  {
    if op.ReserveRange? {
      ReserveMoves(l, op);
    } else if op.ReleaseRange? {
      ReleaseMoves(l, op);
    } else {
      ReclaimMoves(l, op.holder);
    }
  }

  lemma StepMovesCounter(l: State, op: Op)
    requires Inv(l)
    ensures Step(l, op).ids.nextId == l.ids.nextId + Moved(l, op)
  {
    if op.Create? || op.CreateBatch? {
      CreationMoves(l, op);
    } else if op.ReserveRange? || op.ReleaseRange? || op.ReclaimRange? {
      RangeMoves(l, op);
    } else if op.WithdrawBatch? || op.WithdrawBatchTo? || op.CancelBatch? {
      BatchesKeepIds(l, op);
    } else {
      OthersKeepIds(l, op);
    }
  }

  ghost function MovedBy(l: State, ops: seq<Op>): int {
    if |ops| == 0 then 0
    else MovedBy(l, ops[..|ops| - 1]) + Moved(Run(l, ops[..|ops| - 1]), ops[|ops| - 1])
  }

  /** The books of the counter, over every run: the IDs that creations took beyond their callers' own
      ranges, plus the IDs set aside, minus the IDs given back. */
  lemma {:induction false} CounterIsAccounted(l: State, ops: seq<Op>)
    requires Inv(l)
    ensures Run(l, ops).ids.nextId == l.ids.nextId + MovedBy(l, ops)
  {
    if |ops| > 0 {
      CounterIsAccounted(l, ops[..|ops| - 1]);
      LedgerRuns.RunKeepsInv(l, ops[..|ops| - 1]);
      StepMovesCounter(Run(l, ops[..|ops| - 1]), ops[|ops| - 1]);
    }
  }

  // ------------------------------------------------------------------ reclaimed IDs

  /** A reclaim is accepted exactly from the expiry on; a range without one stays. */
  lemma ReclaimAcceptedExactly(l: State, holder: Address)
    ensures ReclaimIds(l, holder).1.Ok? <==>
              && holder in l.ids.reservations && l.ids.reservations[holder].expiry.Some?
              && l.clock.now >= l.ids.reservations[holder].expiry.value
    ensures ReclaimIds(l, holder).1.Ok? ==> holder !in ReclaimIds(l, holder).0.ids.reservations
  {
  }

  /** What the next draws on the counter begin with. */
  ghost predicate DrawsFrom(n: State, next: int) {
    && (forall who: Address, p: Params | who !in n.ids.reservations && CreateStream(n, who, p).1.Ok? ::
          CreateStream(n, who, p).1.value == next)
    && (forall who: Address, ps: seq<Params> | who !in n.ids.reservations && CreateStreams(n, who, ps).1.Ok? ::
          |CreateStreams(n, who, ps).1.value| == |ps|
          && forall k | 0 <= k < |ps| :: CreateStreams(n, who, ps).1.value[k] == next + k)
    && (forall who: Address, count: u32, expiry: Option<int> | ReserveIds(n, who, count, expiry).1.Ok? ::
          |ReserveIds(n, who, count, expiry).1.value| == count
          && forall k | 0 <= k < count :: ReserveIds(n, who, count, expiry).1.value[k] == next + k)
  }

  lemma DrawsFromCounter(n: State)
    requires Inv(n)
    ensures DrawsFrom(n, n.ids.nextId)
  {
    forall who: Address, p: Params | who !in n.ids.reservations && CreateStream(n, who, p).1.Ok?
      ensures CreateStream(n, who, p).1.value == n.ids.nextId
    {
      CreationTakesNext(n, who, p);
    }
    forall who: Address, ps: seq<Params> | who !in n.ids.reservations && CreateStreams(n, who, ps).1.Ok?
      ensures |CreateStreams(n, who, ps).1.value| == |ps|
      ensures forall k | 0 <= k < |ps| :: CreateStreams(n, who, ps).1.value[k] == n.ids.nextId + k
    {
      BatchTakesNext(n, who, ps);
    }
  }

  /** When reclaimed IDs come back.  After an accepted reclaim, and any run in which nothing moves the
      counter, the next draw on it, by a creation of a caller without a range or by a reservation, begins
      with the first unused ID of the reclaimed range if that range was the newest; if it was not, with
      the ID it would have begun with anyway. */
  lemma ReclaimedIdsComeBack(l: State, holder: Address, ops: seq<Op>)
    requires Inv(l) && ReclaimIds(l, holder).1.Ok?
    requires MovedNever(ReclaimIds(l, holder).0, ops)
    ensures var r := l.ids.reservations[holder];
            DrawsFrom(Run(ReclaimIds(l, holder).0, ops),
                      if IsNewest(l.ids, holder) then r.start + r.consumed else l.ids.nextId)
  {
    var m := ReclaimIds(l, holder).0;
    ReclaimKeepsInv(l, holder);
    ReclaimMoves(l, holder);
    LedgerRuns.RunKeepsInv(m, ops);
    CounterStays(m, ops);
    DrawsFromCounter(Run(m, ops));
  }

  ghost predicate MovedNever(l: State, ops: seq<Op>) {
    |ops| > 0 ==> MovedNever(l, ops[..|ops| - 1]) && Moved(Run(l, ops[..|ops| - 1]), ops[|ops| - 1]) == 0
  }

  lemma {:induction false} CounterStays(l: State, ops: seq<Op>)
    requires Inv(l) && MovedNever(l, ops)
    ensures Run(l, ops).ids.nextId == l.ids.nextId
  {
    if |ops| > 0 {
      CounterStays(l, ops[..|ops| - 1]);
      LedgerRuns.RunKeepsInv(l, ops[..|ops| - 1]);
      StepMovesCounter(Run(l, ops[..|ops| - 1]), ops[|ops| - 1]);
    }
  }

  /** From the reservation on: until its holder has used it up or given it up, a range can be reclaimed
      exactly from the expiry on that was asked for. */
  lemma ReclaimableFromExpiry(l: State, who: Address, count: u32, expiry: Option<int>, ops: seq<Op>)
    requires Inv(l) && ReserveIds(l, who, count, expiry).1.Ok?
    requires Undisturbed(ReserveIds(l, who, count, expiry).0, ops, who)
    requires |AllIssued(ReserveIds(l, who, count, expiry).0, ops, Some(who))| < count
    ensures var n := Run(ReserveIds(l, who, count, expiry).0, ops);
            ReclaimIds(n, who).1.Ok? <==> expiry.Some? && n.clock.now >= expiry.value
  {
    ReserveKeepsInv(l, who, count, expiry);
    ReservationIsHonoured(ReserveIds(l, who, count, expiry).0, ops, who);
  }
}
