/** Stream IDs over whole runs: no ID is issued twice, and a reservation is honoured. */
module IdRuns {
  import opened FixedWidth
  import opened Streams
  import opened StreamIds
  import opened Ledger
  import opened LedgerInvariant
  import LedgerRuns

  /** The IDs a step hands out, and the caller they go to. */
  ghost function Issued(l: State, op: Op): seq<int> {
    match op
    case Create(sender, p) =>
      var id := CreateStream(l, sender, p).1; if id.Ok? then [id.value] else []
    case CreateBatch(sender, ps) =>
      var ids := CreateStreams(l, sender, ps).1; if ids.Ok? then ids.value else []
    case _ => []
  }

  predicate IsBy(op: Op, who: Address) {
    (op.Create? && op.sender == who) || (op.CreateBatch? && op.sender == who)
  }

  /** Everything issued in a run, in order; with a `who`, only what that caller got. */
  ghost function AllIssued(l: State, ops: seq<Op>, who: Option<Address>): seq<int> {
    if |ops| == 0 then []
    else
      var m, op := Run(l, ops[..|ops| - 1]), ops[|ops| - 1];
      AllIssued(l, ops[..|ops| - 1], who) + if who == None || IsBy(op, who.value) then Issued(m, op) else []
  }

  // ------------------------------------------------------------------ uniqueness

  /** IDs that were unknown before and are booked after. */
  ghost predicate NewIds(l: State, m: State, ids: seq<int>) {
    Distinct(ids) && forall i | 0 <= i < |ids| :: ids[i] !in l.flows && ids[i] in m.flows
  }

  lemma NewIdsAppend(l: State, m: State, n: State, x: seq<int>, y: seq<int>)
    requires l.flows.Keys <= m.flows.Keys <= n.flows.Keys
    requires NewIds(l, m, x) && NewIds(m, n, y)
    ensures NewIds(l, n, x + y)
  {
    forall i, j | 0 <= i < j < |x + y| ensures (x + y)[i] != (x + y)[j] {
      if i < |x| && j >= |x| {
        assert x[i] in m.flows && y[j - |x|] !in m.flows;
      }
    }
    forall i | 0 <= i < |x + y| ensures (x + y)[i] !in l.flows && (x + y)[i] in n.flows {
      if i >= |x| {
        assert y[i - |x|] !in m.flows;
      }
    }
  }

  lemma CreateIssuesNew(l: State, sender: Address, p: Params)
    requires Inv(l) && CreateStream(l, sender, p).1.Ok?
    ensures NewIds(l, CreateStream(l, sender, p).0, [CreateStream(l, sender, p).1.value])
  {
    CreateKeepsInv(l, sender, p);
  }

  lemma {:induction false} CreateStreamsIssuesNew(l: State, sender: Address, ps: seq<Params>)
    requires Inv(l) && CreateStreams(l, sender, ps).1.Ok?
    ensures NewIds(l, CreateStreams(l, sender, ps).0, CreateStreams(l, sender, ps).1.value)
  {
    if |ps| > 0 {
      var before, last := ps[..|ps| - 1], ps[|ps| - 1];
      var (m, ids) := CreateStreams(l, sender, before);
      CreateStreamsIssuesNew(l, sender, before);
      CreateStreamsKeepsInv(l, sender, before);
      CreateIssuesNew(m, sender, last);
      CreateKeepsInv(m, sender, last);
      var (n, id) := CreateStream(m, sender, last);
      NewIdsAppend(l, m, n, ids.value, [id.value]);
    }
  }

  lemma StepIssuesNew(l: State, op: Op)
    requires Inv(l)
    ensures NewIds(l, Step(l, op), Issued(l, op))
  {
    match op
    case Create(sender, p) =>
      if CreateStream(l, sender, p).1.Ok? {
        CreateIssuesNew(l, sender, p);
      }
    case CreateBatch(sender, ps) =>
      if CreateStreams(l, sender, ps).1.Ok? {
        CreateStreamsIssuesNew(l, sender, ps);
      }
    case _ =>
  }

  /** In any interleaving of creations, reservations, replacements, releases and reclaims, and of all
      other calls, every ID is issued at most once, although a reclaim rewinds the counter. */
  lemma {:induction false} NoIdIssuedTwice(l: State, ops: seq<Op>)
    requires Inv(l)
    ensures NewIds(l, Run(l, ops), AllIssued(l, ops, None))
  {
    if |ops| > 0 {
      var before, op := ops[..|ops| - 1], ops[|ops| - 1];
      var m := Run(l, before);
      NoIdIssuedTwice(l, before);
      LedgerRuns.RunKeepsInv(l, before);
      StepIssuesNew(m, op);
      StepKeepsInv(m, op);
      NewIdsAppend(l, m, Step(m, op), AllIssued(l, before, None), Issued(m, op));
    }
  }

  // ------------------------------------------------------------------ reservations

  function Left(r: Reservation): int { r.count - r.consumed }

  /** `ids` is what the holder of `r` gets next, and `b` still reserves what is left of it. */
  ghost predicate Honours(b: Allocator, who: Address, r: Reservation, ids: seq<int>) {
    && (forall k | 0 <= k < |ids| && k < Left(r) :: ids[k] == First(r) + k)
    && (|ids| < Left(r) ==> who in b.reservations && b.reservations[who] == r.(consumed := r.consumed + |ids|))
  }

  /** The calls that end the reservation of `who`: a new reservation or a release of its own, and a
      reclaim by anybody once it has expired. */
  predicate Ends(l: State, op: Op, who: Address)
    requires who in l.ids.reservations
  {
    match op
    case ReserveRange(caller, count, _) =>
      caller == who && 0 < count <= MAX_ID_RESERVATION && l.ids.nextId + count <= U64_MAX
    case ReleaseRange(caller) => caller == who
    case ReclaimRange(holder) => holder == who && Expired(l.ids.reservations[who], l.clock.now)
    case _ => false
  }

  lemma HonoursAppend(b: Allocator, c: Allocator, who: Address, r: Reservation, x: seq<int>, y: seq<int>)
    requires Honours(b, who, r, x) && 0 <= r.consumed
    requires |x| < Left(r) ==> Honours(c, who, r.(consumed := r.consumed + |x|), y)
    ensures Honours(c, who, r, x + y)
  {
    forall k | 0 <= k < |x + y| && k < Left(r) ensures (x + y)[k] == First(r) + k {
      if k >= |x| {
        assert y[k - |x|] == First(r) + |x| + (k - |x|);
      }
    }
  }

  lemma CreateHonours(l: State, sender: Address, p: Params, who: Address)
    requires who in l.ids.reservations && ReservationOk(l.ids.reservations[who], l.ids.nextId)
    ensures var (m, id) := CreateStream(l, sender, p);
            Honours(m.ids, who, l.ids.reservations[who], if sender == who && id.Ok? then [id.value] else [])
  {
  }

  lemma NothingTaken(b: Allocator, who: Address, r: Reservation)
    requires who in b.reservations && b.reservations[who] == r
    ensures Honours(b, who, r, [])
  {
  }

  /** What `who` got from a call that returned `ids` to `sender`. */
  function Share(sender: Address, who: Address, ids: Result<seq<int>>): seq<int> {
    if sender == who && ids.Ok? then ids.value else []
  }

  lemma AppendHonours(m: State, sender: Address, p: Params, who: Address, r: Reservation, ids: seq<int>)
    requires Inv(m) && Honours(m.ids, who, r, Share(sender, who, Ok(ids))) && 0 <= r.consumed
    requires CreateStream(m, sender, p).1.Ok?
    ensures var (n, id) := CreateStream(m, sender, p);
            Honours(n.ids, who, r, Share(sender, who, Ok(ids + [id.value])))
  {
    var (n, id) := CreateStream(m, sender, p);
    var x := Share(sender, who, Ok(ids));
    if |x| < Left(r) {
      CreateHonours(m, sender, p, who);
    }
    HonoursAppend(m.ids, n.ids, who, r, x, Share(sender, who, Ok([id.value])));
    assert sender != who ==> x + [] == x;
  }

  /** A batch by `who` draws on the reservation in order; a batch by anyone else leaves it alone. */
  lemma {:induction false} CreateStreamsHonours(l: State, sender: Address, ps: seq<Params>, who: Address)
    requires Inv(l) && who in l.ids.reservations
    ensures var (m, ids) := CreateStreams(l, sender, ps);
            Honours(m.ids, who, l.ids.reservations[who], Share(sender, who, ids))
  {
    NothingTaken(l.ids, who, l.ids.reservations[who]);
    if |ps| > 0 {
      var before, last := ps[..|ps| - 1], ps[|ps| - 1];
      var (m, ids) := CreateStreams(l, sender, before);
      CreateStreamsHonours(l, sender, before, who);
      CreateStreamsKeepsInv(l, sender, before);
      if ids.Ok? && CreateStream(m, sender, last).1.Ok? {
        AppendHonours(m, sender, last, who, l.ids.reservations[who], ids.value);
      }
    }
  }

  lemma {:induction false} ItemsKeepIds(l: State, recipient: Address, items: seq<Item>)
    ensures WithdrawItems(l, recipient, items).0.ids == l.ids
  {
    if |items| > 0 {
      ItemsKeepIds(l, recipient, items[..|items| - 1]);
    }
  }

  lemma {:induction false} SettlingKeepsIds(l: State, ids: seq<int>)
    ensures SettleAndCancelAll(l, ids).ids == l.ids
  {
    if |ids| > 0 {
      SettlingKeepsIds(l, ids[..|ids| - 1]);
    }
  }

  lemma BatchWithdrawsKeepIds(l: State, recipient: Address, ids: seq<int>, ws: seq<WithdrawToParam>)
    ensures BatchWithdraw(l, recipient, ids).0.ids == l.ids
    ensures BatchWithdrawTo(l, recipient, ws).0.ids == l.ids
  {
    ItemsKeepIds(l, recipient, Plain(ids));
    ItemsKeepIds(l, recipient, Directed(ws));
  }

  lemma BulkCancelKeepsIds(l: State, sender: Address, ids: seq<int>)
    ensures BulkCancel(l, sender, ids).0.ids == l.ids
  {
    SettlingKeepsIds(l, ids);
  }

  lemma BatchesKeepIds(l: State, op: Op)
    requires op.WithdrawBatch? || op.WithdrawBatchTo? || op.CancelBatch?
    ensures Step(l, op).ids == l.ids
  {
    if op.WithdrawBatch? {
      BatchWithdrawsKeepIds(l, op.recipient, op.ids, []);
    } else if op.WithdrawBatchTo? {
      BatchWithdrawsKeepIds(l, op.recipient, [], op.directed);
    } else {
      BulkCancelKeepsIds(l, op.sender, op.ids);
    }
  }

  lemma CallsKeepIds(l: State, op: Op)
    requires op.On? || op.CloseStream?
    ensures Step(l, op).ids == l.ids
  {
  }

  lemma WorldKeepsIds(l: State, op: Op)
    requires op.Tick? || op.Donate? || op.Allow? || op.Configure?
    ensures Step(l, op).ids == l.ids
  {
  }

  lemma SideStepsKeepIds(l: State, op: Op)
    requires op.Propose? || op.Accept? || op.Retract? || op.AutoClaim? || op.SweepExcess?
    ensures Step(l, op).ids == l.ids
  {
  }

  lemma OthersKeepIds(l: State, op: Op)
    requires op.Tick? || op.Donate? || op.Allow? || op.Configure? || op.On? || op.CloseStream?
          || op.Propose? || op.Accept? || op.Retract? || op.AutoClaim? || op.SweepExcess?
    ensures Step(l, op).ids == l.ids
  {
    if op.On? || op.CloseStream? {
      CallsKeepIds(l, op);
    } else if op.Tick? || op.Donate? || op.Allow? || op.Configure? {
      WorldKeepsIds(l, op);
    } else {
      SideStepsKeepIds(l, op);
    }
  }

  /** `who` still has the reservation it had. */
  predicate Kept(l: State, m: State, who: Address)
    requires who in l.ids.reservations
  {
    who in m.ids.reservations && m.ids.reservations[who] == l.ids.reservations[who]
  }

  lemma ReserveKeepsExactly(l: State, op: Op, who: Address)
    requires who in l.ids.reservations && ReservationOk(l.ids.reservations[who], l.ids.nextId) && op.ReserveRange?
    ensures Kept(l, Step(l, op), who) <==> !Ends(l, op, who)
  {
  }

  lemma ReleaseKeepsExactly(l: State, op: Op, who: Address)
    requires who in l.ids.reservations && op.ReleaseRange?
    ensures Kept(l, Step(l, op), who) <==> !Ends(l, op, who)
  {
  }

  lemma ReclaimKeepsExactly(l: State, op: Op, who: Address)
    requires who in l.ids.reservations && op.ReclaimRange?
    ensures Kept(l, Step(l, op), who) <==> !Ends(l, op, who)
  {
  }

  /** Of all calls other than the holder's own creations, exactly these end a reservation: the holder
      reserves anew or releases, or its expiry has come and somebody reclaims it. */
  lemma ReservationsEndExactly(l: State, op: Op, who: Address)
    requires Inv(l) && who in l.ids.reservations && !IsBy(op, who)
    ensures Kept(l, Step(l, op), who) <==> !Ends(l, op, who)
  {
    if op.ReserveRange? {
      ReserveKeepsExactly(l, op, who);
    } else if op.ReleaseRange? {
      ReleaseKeepsExactly(l, op, who);
    } else if op.ReclaimRange? {
      ReclaimKeepsExactly(l, op, who);
    } else if op.Create? {
      CreateHonours(l, op.sender, op.params, who);
    } else if op.CreateBatch? {
      CreateStreamsHonours(l, op.sender, op.batch, who);
    } else if op.WithdrawBatch? || op.WithdrawBatchTo? || op.CancelBatch? {
      BatchesKeepIds(l, op);
    } else {
      OthersKeepIds(l, op);
    }
  }

  lemma CreateOpHonours(l: State, op: Op, who: Address)
    requires Inv(l) && who in l.ids.reservations && op.Create?
    ensures Honours(Step(l, op).ids, who, l.ids.reservations[who], if IsBy(op, who) then Issued(l, op) else [])
  {
    CreateHonours(l, op.sender, op.params, who);
  }

  lemma CreateBatchOpHonours(l: State, op: Op, who: Address)
    requires Inv(l) && who in l.ids.reservations && op.CreateBatch?
    ensures Honours(Step(l, op).ids, who, l.ids.reservations[who], if IsBy(op, who) then Issued(l, op) else [])
  {
    CreateStreamsHonours(l, op.sender, op.batch, who);
  }

  lemma StepHonours(l: State, op: Op, who: Address)
    requires Inv(l) && who in l.ids.reservations && !Ends(l, op, who)
    ensures Honours(Step(l, op).ids, who, l.ids.reservations[who], if IsBy(op, who) then Issued(l, op) else [])
  {
    if op.Create? {
      CreateOpHonours(l, op, who);
    } else if op.CreateBatch? {
      CreateBatchOpHonours(l, op, who);
    } else {
      ReservationsEndExactly(l, op, who);
      NothingTaken(Step(l, op).ids, who, l.ids.reservations[who]);
    }
  }

  // ------------------------------------------------------------------ reservations over runs

  /** Until it is used up, no call of the run ends the reservation `who` has at the beginning. */
  ghost predicate Undisturbed(l: State, ops: seq<Op>, who: Address)
    requires who in l.ids.reservations
  {
    |ops| > 0 ==>
      var before, m := ops[..|ops| - 1], Run(l, ops[..|ops| - 1]);
      && Undisturbed(l, before, who)
      && (|AllIssued(l, before, Some(who))| < Left(l.ids.reservations[who]) ==>
            who in m.ids.reservations ==> !Ends(m, ops[|ops| - 1], who))
  }

  /** A reservation is honoured: the k-th ID its holder gets is the k-th of the reserved range, no
      matter what all other callers create, reserve, release or reclaim in between. */
  lemma {:induction false} ReservationIsHonoured(l: State, ops: seq<Op>, who: Address)
    requires Inv(l) && who in l.ids.reservations && Undisturbed(l, ops, who)
    ensures Honours(Run(l, ops).ids, who, l.ids.reservations[who], AllIssued(l, ops, Some(who)))
  {
    if |ops| > 0 {
      var before, op, r := ops[..|ops| - 1], ops[|ops| - 1], l.ids.reservations[who];
      var m, x := Run(l, before), AllIssued(l, before, Some(who));
      ReservationIsHonoured(l, before, who);
      LedgerRuns.RunKeepsInv(l, before);
      if |x| < Left(r) {
        StepHonours(m, op, who);
      }
      HonoursAppend(m.ids, Step(m, op).ids, who, r, x, if IsBy(op, who) then Issued(m, op) else []);
    }
  }

  /** In particular for the range that `reserve_stream_ids` has just returned. */
  lemma ReservedRangeIsHonoured(l: State, who: Address, count: u32, expiry: Option<int>, ops: seq<Op>)
    requires Inv(l) && ReserveIds(l, who, count, expiry).1.Ok?
    requires Undisturbed(ReserveIds(l, who, count, expiry).0, ops, who)
    ensures var (m, range) := ReserveIds(l, who, count, expiry);
            var got := AllIssued(m, ops, Some(who));
            forall k | 0 <= k < |got| && k < count :: got[k] == range.value[k]
  {
    ReserveKeepsInv(l, who, count, expiry);
    ReservationIsHonoured(ReserveIds(l, who, count, expiry).0, ops, who);
  }

  /** A call by which `who` gives up its own reservation; a refused reservation is none. */
  predicate GivesUp(l: State, op: Op, who: Address) {
    || (op.ReserveRange? && op.caller == who && ReserveIds(l, who, op.count, op.expiry).1.Ok?)
    || (op.ReleaseRange? && op.caller == who)
  }

  ghost predicate NeverGivenUp(l: State, ops: seq<Op>, who: Address) {
    |ops| > 0 ==>
      NeverGivenUp(l, ops[..|ops| - 1], who) && !GivesUp(Run(l, ops[..|ops| - 1]), ops[|ops| - 1], who)
  }

  /** A reservation ends by being given up, or by a reclaim after its expiry. */
  lemma EndsByGivingUp(l: State, op: Op, who: Address)
    requires who in l.ids.reservations && Ends(l, op, who) && !Expired(l.ids.reservations[who], l.clock.now)
    ensures GivesUp(l, op, who)
  {
  }

  lemma {:induction false} ReclaimsFailUntilExpiry(l: State, ops: seq<Op>, who: Address)
    requires Inv(l) && who in l.ids.reservations && NeverGivenUp(l, ops, who)
    requires !Expired(l.ids.reservations[who], Run(l, ops).clock.now)
    ensures Undisturbed(l, ops, who)
  {
    if |ops| > 0 {
      var before, op := ops[..|ops| - 1], ops[|ops| - 1];
      var m := Run(l, before);
      LedgerRuns.RunKeepsInv(l, before);
      StepKeepsInv(m, op);
      ReclaimsFailUntilExpiry(l, before, who);
      ReservationIsHonoured(l, before, who);
      if who in m.ids.reservations && !Expired(m.ids.reservations[who], m.clock.now) && Ends(m, op, who) {
        EndsByGivingUp(m, op, who);
      }
    }
  }

  /** Against every attempt to reclaim it: as long as its holder neither reserves anew nor releases, a
      reservation with no expiry is honoured for ever, and one with an expiry until that time. */
  lemma UnexpiredReservationIsHonoured(l: State, ops: seq<Op>, who: Address)
    requires Inv(l) && who in l.ids.reservations && NeverGivenUp(l, ops, who)
    requires !Expired(l.ids.reservations[who], Run(l, ops).clock.now)
    ensures Honours(Run(l, ops).ids, who, l.ids.reservations[who], AllIssued(l, ops, Some(who)))
  {
    ReclaimsFailUntilExpiry(l, ops, who);
    ReservationIsHonoured(l, ops, who);
  }
}
