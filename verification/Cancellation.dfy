/** Cancelling one stream or many, and removing streams that are settled, over the stored state. */
module Cancellation {
  import opened FixedWidth
  import opened Accrual
  import opened Streams
  import opened StreamRules
  import opened Ledger
  import opened LedgerInvariant
  import opened Storage
  import opened RateChanges
  import opened BatchTheorems

  // ------------------------------------------------------------------ one stream

  /** `cancel_stream_internal` up to the point where it writes. */
  method CheckCancel(stream: Stream, clock: Clock) returns (r: Result<Effect>)
    requires StreamOk(stream, clock) && ClockOk(clock)
    ensures r == StreamRules.Cancel(stream, clock)
  {
    if stream.status != Active && stream.status != Paused {
      return Err(InvalidState);
    }
    MachineAccrual(stream, clock);
    var refund := Checked(stream.deposit - AccruedAt(stream, clock.now));
    if refund == None {
      return Err(InvalidState);
    }
    return Ok(Refunding(stream.(status := Cancelled, cancelledAt := Some(clock.now)), refund.value, true));
  }

  /** `cancel_stream` and `cancel_stream_as_admin`; only the former respects the global pause. */
  method CancelStream(env: Env, caller: Address, asAdmin: bool, id: int) returns (r: Result<int>)
    requires env.Valid()
    modifies env
    ensures env.Valid()
    ensures (env.View(), r) == StreamStep(old(env.View()), id, StreamOp.Cancel(caller, asAdmin))
  {
    if asAdmin && caller != env.config.admin {
      return Err(HostTrap);
    }
    if !asAdmin && env.config.globalPaused {
      return Err(ContractPaused);
    }
    if id !in env.streams {
      return Err(StreamNotFound);
    }
    if !asAdmin && caller != env.streams[id].sender {
      return Err(HostTrap);
    }
    var effect :- CheckCancel(env.streams[id], env.clock);
    ChangeStep(env, id, StreamOp.Cancel(caller, asAdmin), effect, true);
    return Ok(0);
  }

  // ------------------------------------------------------------------ many streams: the checks

  lemma {:induction false} BulkFaultSkips(l: State, sender: Address, ids: seq<int>, i: nat)
    requires i <= |ids|
    requires forall k | 0 <= k < i :: !RepeatedLater(ids, k) && CanSettle(l, sender, ids[k])
    ensures BulkFault(l, sender, ids, 0) == BulkFault(l, sender, ids, i)
  {
    if i > 0 {
      BulkFaultSkips(l, sender, ids, i - 1);
    }
  }

  predicate CanSettle(l: State, sender: Address, id: int) {
    id in l.streams && l.streams[id].sender == sender && Live(l.streams[id])
  }

  /** Phase one of `bulk_cancel_streams`; it keeps the records it has loaded. */
  method CheckBulk(env: Env, sender: Address, ids: seq<int>) returns (fault: Option<Error>, loaded: seq<Stream>)
    ensures fault == BulkFault(env.View(), sender, ids, 0)
    ensures fault == None ==>
              && Distinct(ids) && |loaded| == |ids|
              && forall k | 0 <= k < |ids| :: CanSettle(env.View(), sender, ids[k]) && loaded[k] == env.streams[ids[k]]
  {
    ghost var l := env.View();
    loaded := [];
    var i := 0;
    while i < |ids|
      invariant 0 <= i <= |ids| && |loaded| == i
      invariant forall k | 0 <= k < i :: !RepeatedLater(ids, k) && CanSettle(l, sender, ids[k])
      invariant forall k | 0 <= k < i :: loaded[k] == l.streams[ids[k]]
    {
      BulkFaultSkips(l, sender, ids, i);
      var j := i + 1;
      while j < |ids|
        invariant i < j <= |ids|
        invariant forall k | i < k < j :: ids[k] != ids[i]
      {
        if ids[j] == ids[i] {
          return Some(DuplicateStreamId), loaded;
        }
        j := j + 1;
      }
      if ids[i] !in env.streams {
        return Some(StreamNotFound), loaded;
      }
      var stream := env.streams[ids[i]];
      if stream.sender != sender {
        return Some(Unauthorized), loaded;
      }
      if stream.status != Active && stream.status != Paused {
        return Some(InvalidState), loaded;
      }
      loaded := loaded + [stream];
      i := i + 1;
    }
    BulkFaultSkips(l, sender, ids, i);
    assert forall k | 0 <= k < |ids| :: !RepeatedLater(ids, k);
    return None, loaded;
  }

  // ------------------------------------------------------------------ many streams: one settlement

  function Refundable(s: Stream, now: int): int { s.deposit - Accrued(s, now) }

  /** The record that a bulk cancellation leaves. */
  function SettledRecord(s: Stream, c: Clock): Stream {
    s.(withdrawn := s.withdrawn + Max(Claim(s, c), 0), status := Cancelled, cancelledAt := Some(c.now))
  }

  /** `SettleAndCancel` with the refund still in the contract. */
  function Withheld(l: State, id: int): State
    requires id in l.streams
  {
    var s, paid := l.streams[id], Max(Claim(l.streams[id], l.clock), 0);
    var refund := Max(Refundable(s, l.clock.now), 0);
    l.(streams := l.streams[id := SettledRecord(s, l.clock)],
       liabilities := l.liabilities - paid - refund,
       balance := l.balance - Leaving(s.recipient, paid),
       sent := Add(l.sent, s.recipient, paid),
       flows := Booked(l.flows, id, 0, paid, refund))
  }

  lemma BookedTwice(flows: map<int, Flow>, id: int, paid: nat, refund: nat)
    ensures Booked(Booked(flows, id, 0, paid, 0), id, 0, 0, refund) == Booked(flows, id, 0, paid, refund)
  {
  }

  /** `l` after the first half of a settlement. */
  function PaidUp(l: State, id: int): State
    requires id in l.streams
  {
    var s, paid := l.streams[id], Max(Claim(l.streams[id], l.clock), 0);
    l.(streams := l.streams[id := s.(withdrawn := s.withdrawn + paid)],
       liabilities := l.liabilities - paid,
       balance := l.balance - Leaving(s.recipient, paid),
       sent := Add(l.sent, s.recipient, paid),
       flows := Booked(l.flows, id, 0, paid, 0))
  }

  /** `l` after a cancellation. */
  function CancelledAt(l: State, id: int): State
    requires id in l.streams
  {
    var s, refund := l.streams[id], Max(Refundable(l.streams[id], l.clock.now), 0);
    l.(streams := l.streams[id := Cancelling(s, l.clock)],
       liabilities := l.liabilities - refund,
       balance := l.balance - refund,
       sent := Add(l.sent, s.sender, refund),
       flows := Booked(l.flows, id, 0, 0, refund))
  }

  lemma PayWrites(l: State, id: int)
    requires Inv(l) && id in l.streams && Live(l.streams[id])
    ensures Commit(l, id, PayUpToDate(l.streams[id], l.clock)) == PaidUp(l, id)
  {
    var s, paid := l.streams[id], Max(Claim(l.streams[id], l.clock), 0);
    var m := l.(streams := l.streams[id := s.(withdrawn := s.withdrawn + paid)], liabilities := l.liabilities - paid);
    SendZero(Send(m, s.recipient, paid), s.sender);
  }

  lemma CancelWrites(l: State, id: int)
    requires id in l.streams && Live(l.streams[id]) && l.streams[id].sender != Contract
    requires l.liabilities <= I128_MAX
    ensures Commit(l, id, StreamRules.Cancel(l.streams[id], l.clock).value) == CancelledAt(l, id)
  {
    var s, refund := l.streams[id], Max(Refundable(l.streams[id], l.clock.now), 0);
    SendZero(l.(streams := l.streams[id := Cancelling(s, l.clock)], liabilities := l.liabilities - refund),
             s.recipient);
  }

  lemma WithheldRefund(l: State, id: int)
    requires id in l.streams && Live(l.streams[id]) && l.streams[id].sender != Contract
    ensures Send(Withheld(l, id), l.streams[id].sender, Max(Refundable(l.streams[id], l.clock.now), 0))
         == CancelledAt(PaidUp(l, id), id)
  {
    var s, paid := l.streams[id], Max(Claim(l.streams[id], l.clock), 0);
    var refund, m := Max(Refundable(s, l.clock.now), 0), PaidUp(l, id);
    assert m.streams[id := SettledRecord(s, l.clock)] == l.streams[id := SettledRecord(s, l.clock)];
    assert Cancelling(m.streams[id], m.clock) == SettledRecord(s, l.clock);
    assert Refundable(m.streams[id], m.clock.now) == Refundable(s, l.clock.now);
    BookedTwice(l.flows, id, paid, refund);
  }

  lemma SettlementSendsRefund(l: State, id: int)
    requires Inv(l) && id in l.streams && Live(l.streams[id])
    ensures Send(Withheld(l, id), l.streams[id].sender, Max(Refundable(l.streams[id], l.clock.now), 0))
         == SettleAndCancel(l, id)
  {
    PayWrites(l, id);
    CancelWrites(PaidUp(l, id), id);
    WithheldRefund(l, id);
  }

  /** With a refund still to be sent, the invariant holds too. */
  lemma WithheldKeepsInv(l: State, id: int)
    requires Inv(l) && id in l.streams && Live(l.streams[id])
    ensures Inv(Withheld(l, id))
  {
    var s := l.streams[id];
    SettlementSendsRefund(l, id);
    SettleAndCancelKeepsInv(l, id);
    UnsentKeepsInv(Withheld(l, id), s.sender, Max(Refundable(s, l.clock.now), 0));
  }

  lemma UnsentKeepsInv(l: State, a: Address, n: nat)
    requires Inv(Send(l, a, n)) && l.balance <= I128_MAX
    ensures Inv(l)
  {
  }

  lemma WithheldAfterSend(l: State, id: int, a: Address, held: nat)
    requires id in l.streams && a != Contract
    ensures Withheld(Send(l, a, held), id) == Send(Withheld(l, id), a, held)
  {
    var s := l.streams[id];
    AddsCommute(l.sent, a, held, s.recipient, Max(Claim(s, l.clock), 0));
  }

  lemma SendTwice(l: State, a: Address, x: nat, y: nat)
    ensures Send(Send(l, a, x), a, y) == Send(l, a, x + y)
  {
    assert Add(Add(l.sent, a, x), a, y) == Add(l.sent, a, x + y);
  }

  /** A refund that is withheld can be added to those withheld before. */
  lemma WithheldAdds(l: State, id: int, held: nat)
    requires id in l.streams && Live(l.streams[id]) && l.streams[id].sender != Contract
    requires Inv(Send(l, l.streams[id].sender, held))
    ensures var s, refund := l.streams[id], Max(Refundable(l.streams[id], l.clock.now), 0);
            SettleAndCancel(Send(l, s.sender, held), id) == Send(Withheld(l, id), s.sender, held + refund)
  {
    var s, refund := l.streams[id], Max(Refundable(l.streams[id], l.clock.now), 0);
    SettlementSendsRefund(Send(l, s.sender, held), id);
    WithheldAfterSend(l, id, s.sender, held);
    SendTwice(Withheld(l, id), s.sender, held, refund);
  }

  // ------------------------------------------------------------------ many streams: the loop

  /** What a turn of the loop may rely on. */
  lemma SettlementIsCovered(l: State, id: int)
    requires Inv(l) && id in l.streams && Live(l.streams[id])
    ensures var s := l.streams[id];
            && StreamOk(s, l.clock) && ClockOk(l.clock)
            && 0 <= Claim(s, l.clock) <= l.balance && 0 <= Refundable(s, l.clock.now)
            && Claim(s, l.clock) + Refundable(s, l.clock.now) <= l.liabilities <= I128_MAX
            && forall k | k in l.streams :: 0 <= k < U64_MAX
  {
    ClaimIsPayable(l, id);
    IdsFit(l);
  }

  /** The recipient's part of a turn. */
  method PayEarned(env: Env, recipient: Address, earned: nat)
    requires earned <= env.balance && earned <= env.totalLiabilities <= I128_MAX
    modifies env
    ensures env.View() == Send(old(env.View()), recipient, earned).(liabilities := old(env.totalLiabilities) - earned)
    ensures env.index == old(env.index) && env.pausedCount == old(env.pausedCount)
  {
    if earned > 0 {
      LowerTotalLiabilities(env, earned);
      PushToken(env, recipient, earned);
    } else {
      SendZero(env.View(), recipient);
    }
  }

  lemma WithheldSteps(l: State, id: int, paid: nat, refund: nat)
    requires id in l.streams && paid == Max(Claim(l.streams[id], l.clock), 0)
    requires refund == Max(Refundable(l.streams[id], l.clock.now), 0)
    ensures var s, m := SettledRecord(l.streams[id], l.clock),
                        Send(l, l.streams[id].recipient, paid).(liabilities := l.liabilities - paid);
            Withheld(l, id)
            == Record(m.(streams := m.streams[id := s]).(liabilities := m.liabilities - refund), id, 0, paid, refund)
  {
  }

  /** One turn of phase two: pay the recipient up to date, mark the stream, keep the refund for later. */
  method SettleOne(env: Env, id: int, loaded: Stream) returns (refund: nat)
    requires env.Valid() && id in env.streams && loaded == env.streams[id] && Live(loaded)
    modifies env
    ensures env.Valid()
    ensures env.View() == Withheld(old(env.View()), id)
    ensures refund == old(Refundable(loaded, env.clock.now))
  {
    ghost var l := env.View();
    WithheldKeepsInv(l, id);
    SettlementIsCovered(l, id);
    MachineAccrual(loaded, env.clock);
    var stream, now := loaded, env.clock.now;
    var accrued := AccruedAt(stream, now);
    var unstreamed := Checked(stream.deposit - accrued);
    refund := unstreamed.value;
    var earned := Max(SaturatingSub(accrued, stream.withdrawn), 0);
    var total := Checked(stream.withdrawn + earned);
    stream := stream.(withdrawn := if total.Some? then total.value else I128_MAX,
                      status := Cancelled, cancelledAt := Some(now));
    assert stream == SettledRecord(loaded, l.clock);
    WithheldSteps(l, id, earned, refund);
    WriteSettlement(env, id, stream, earned, refund);
    ValidAt(env, Withheld(l, id));
  }

  method WriteSettlement(env: Env, id: int, stream: Stream, earned: nat, refund: nat)
    requires env.TablesOk() && id in env.streams && stream.recipient == env.streams[id].recipient
    requires forall k | k in env.streams :: 0 <= k < U64_MAX
    requires earned <= env.balance && earned + refund <= env.totalLiabilities <= I128_MAX
    modifies env
    ensures env.TablesOk()
    ensures var m := Send(old(env.View()), stream.recipient, earned)
                     .(liabilities := old(env.totalLiabilities) - earned);
            env.View() == Record(m.(streams := m.streams[id := stream]).(liabilities := m.liabilities - refund),
                                 id, 0, earned, refund)
  {
    PayEarned(env, stream.recipient, earned);
    SaveStream(env, id, stream);
    if refund > 0 {
      LowerTotalLiabilities(env, refund);
    }
    Book(env, id, 0, earned, refund);
  }

  /** The sum of the refunds of the single cancellations. */
  function RefundsOf(l: State, ids: seq<int>): int {
    if |ids| == 0 then 0
    else
      var id := ids[|ids| - 1];
      RefundsOf(l, ids[..|ids| - 1]) + if id in l.streams then Refundable(l.streams[id], l.clock.now) else 0
  }

  /** `v` is `l` with the streams in `done` settled, up to `held` tokens still to be sent to `sender`. */
  ghost predicate Held(l: State, done: seq<int>, v: State, sender: Address, held: nat) {
    Send(v, sender, held) == SettleAndCancelAll(l, done) && held == RefundsOf(l, done) && v.clock == l.clock
  }

  lemma NextSettlement(l: State, done: seq<int>, id: int, m: State)
    requires m == SettleAndCancelAll(l, done) && id in m.streams && Live(m.streams[id])
    ensures SettleAndCancelAll(l, done + [id]) == SettleAndCancel(m, id)
  {
    assert (done + [id])[..|done|] == done;
  }

  lemma NextRefund(l: State, done: seq<int>, id: int)
    requires id in l.streams
    ensures RefundsOf(l, done + [id]) == RefundsOf(l, done) + Refundable(l.streams[id], l.clock.now)
  {
    assert (done + [id])[..|done|] == done;
  }

  lemma HeldInv(l: State, done: seq<int>, v: State, sender: Address, held: nat)
    requires Inv(l) && Held(l, done, v, sender, held)
    ensures Inv(Send(v, sender, held))
  {
    SettleAndCancelAllKeepsInv(l, done);
  }

  /** The entries from `i` on are still as they were loaded. */
  ghost predicate Remaining(v: State, sender: Address, ids: seq<int>, i: nat, loaded: seq<Stream>) {
    |loaded| == |ids| && forall k | i <= k < |ids| :: CanSettle(v, sender, ids[k]) && v.streams[ids[k]] == loaded[k]
  }

  lemma RemainingNext(v: State, sender: Address, ids: seq<int>, i: nat, loaded: seq<Stream>)
    requires i < |ids| && Distinct(ids) && Remaining(v, sender, ids, i, loaded)
    ensures Remaining(Withheld(v, ids[i]), sender, ids, i + 1, loaded)
  {
  }

  /** The turn that settles one stream more. */
  lemma HeldNext(l: State, done: seq<int>, id: int, next: seq<int>, v: State, sender: Address, held: nat, sum: nat)
    requires Inv(l) && sender != Contract && Held(l, done, v, sender, held) && next == done + [id]
    requires CanSettle(v, sender, id) && id in l.streams && v.streams[id] == l.streams[id]
    requires 0 <= Refundable(v.streams[id], v.clock.now) == sum - held
    ensures Held(l, next, Withheld(v, id), sender, sum)
  {
    var refund: nat := Refundable(v.streams[id], v.clock.now);
    HeldInv(l, done, v, sender, held);
    NextRefund(l, done, id);
    NextSent(l, done, id, next, v, sender, held, refund, Send(v, sender, held));
  }

  lemma NextSent(l: State, done: seq<int>, id: int, next: seq<int>, v: State, sender: Address, held: nat, refund: nat,
                 m: State)
    requires sender != Contract && m == Send(v, sender, held) && Inv(m) && next == done + [id]
    requires m == SettleAndCancelAll(l, done) && CanSettle(v, sender, id)
    requires refund == Refundable(v.streams[id], v.clock.now)
    ensures Send(Withheld(v, id), sender, held + refund) == SettleAndCancelAll(l, next)
  {
    WithheldAdds(v, id, held);
    NextSettlement(l, done, id, m);
  }

  lemma NextIsLoaded(l: State, ids: seq<int>, i: nat, v: State, sender: Address, loaded: seq<Stream>)
    requires i < |ids| && Inv(v)
    requires Remaining(l, sender, ids, 0, loaded) && Remaining(v, sender, ids, i, loaded)
    ensures CanSettle(v, sender, ids[i]) && CanSettle(l, sender, ids[i])
    ensures v.streams[ids[i]] == loaded[i] == l.streams[ids[i]]
    ensures Refundable(loaded[i], v.clock.now) >= 0
  {
    assert CanSettle(v, sender, ids[i]) && CanSettle(l, sender, ids[i]);
    SettlementIsCovered(v, ids[i]);
  }

  /** What is held back is in the contract. */
  lemma HeldIsCovered(l: State, ids: seq<int>, v: State, sender: Address, held: nat)
    requires Inv(l) && sender != Contract && Held(l, ids, v, sender, held) && Inv(v)
    ensures held <= v.balance <= I128_MAX
  {
    HeldInv(l, ids, v, sender, held);
    var m := SettleAndCancelAll(l, ids);
    TotalCovers(m.streams, m.clock);
  }

  /** The running refund is within the balance, so its checked sum does not overflow. */
  lemma NextIsCovered(l: State, done: seq<int>, id: int, v: State, sender: Address, held: nat)
    requires Inv(l) && Inv(v) && sender != Contract && CanSettle(v, sender, id)
    requires Held(l, done, Withheld(v, id), sender, held)
    ensures held <= I128_MAX
  {
    WithheldKeepsInv(v, id);
    HeldIsCovered(l, done, Withheld(v, id), sender, held);
  }

  /** A whole turn. */
  lemma TurnOk(l: State, done: seq<int>, id: int, next: seq<int>, v: State, sender: Address, held: nat, sum: nat)
    requires Inv(l) && Inv(v) && sender != Contract && Held(l, done, v, sender, held) && next == done + [id]
    requires CanSettle(v, sender, id) && id in l.streams && v.streams[id] == l.streams[id]
    requires 0 <= Refundable(v.streams[id], v.clock.now) == sum - held
    ensures Held(l, next, Withheld(v, id), sender, sum) && sum <= I128_MAX
  {
    HeldNext(l, done, id, next, v, sender, held, sum);
    NextIsCovered(l, next, id, v, sender, sum);
  }

  lemma TurnAt(l: State, ids: seq<int>, i: nat, v: State, sender: Address, held: nat, loaded: seq<Stream>, refund: nat)
    requires i < |ids| && Inv(l) && Inv(v) && sender != Contract && Held(l, ids[..i], v, sender, held)
    requires Distinct(ids) && Remaining(l, sender, ids, 0, loaded) && Remaining(v, sender, ids, i, loaded)
    requires refund == Refundable(loaded[i], v.clock.now)
    ensures Held(l, ids[..i + 1], Withheld(v, ids[i]), sender, held + refund)
    ensures Remaining(Withheld(v, ids[i]), sender, ids, i + 1, loaded)
    ensures held + refund <= I128_MAX
  {
    NextIsLoaded(l, ids, i, v, sender, loaded);
    RemainingNext(v, sender, ids, i, loaded);
    TurnOk(l, ids[..i], ids[i], ids[..i + 1], v, sender, held, held + refund);
  }

  /** Phase two: every stream is settled, and the refunds are added up. */
  method SettleEach(env: Env, sender: Address, ids: seq<int>, loaded: seq<Stream>) returns (aggregate: nat)
    requires env.Valid() && sender != Contract && Distinct(ids) && Remaining(env.View(), sender, ids, 0, loaded)
    modifies env
    ensures env.Valid()
    ensures Held(old(env.View()), ids, env.View(), sender, aggregate)
  {
    ghost var l := env.View();
    ghost var v := l;
    aggregate := 0;
    var i := 0;
    NothingHeld(l, ids, sender);
    while i < |ids|
      invariant 0 <= i <= |ids| && env.Valid() && env.View() == v
      invariant Held(l, ids[..i], v, sender, aggregate)
      invariant Remaining(v, sender, ids, i, loaded)
    {
      NextIsLoaded(l, ids, i, v, sender, loaded);
      var refund := SettleOne(env, ids[i], loaded[i]);
      TurnAt(l, ids, i, v, sender, aggregate, loaded, refund);
      v := Withheld(v, ids[i]);
      var sum := Checked(aggregate + refund);
      aggregate := sum.value;
      i := i + 1;
    }
    assert ids[..i] == ids;
  }

  lemma NothingHeld(l: State, ids: seq<int>, sender: Address)
    ensures Held(l, ids[..0], l, sender, 0)
  {
    SendZero(l, sender);
  }

  /** The refunds are sent in one transfer; the outcome is that of settling the streams one after the
      other, each with a refund of its own. */
  method SettleAll(env: Env, sender: Address, ids: seq<int>, loaded: seq<Stream>) returns (aggregate: nat)
    requires env.Valid() && |ids| > 0 && Distinct(ids) && Remaining(env.View(), sender, ids, 0, loaded)
    modifies env
    ensures env.Valid()
    ensures env.View() == SettleAndCancelAll(old(env.View()), ids)
    ensures aggregate == RefundsOf(old(env.View()), ids)
  {
    ghost var l := env.View();
    assert CanSettle(l, sender, ids[0]);
    SettlementIsCovered(l, ids[0]);
    aggregate := SettleEach(env, sender, ids, loaded);
    HeldIsCovered(l, ids, env.View(), sender, aggregate);
    HeldInv(l, ids, env.View(), sender, aggregate);
    SendZero(env.View(), sender);
    if aggregate > 0 {
      PushToken(env, sender, aggregate);
    }
    ValidAt(env, SettleAndCancelAll(l, ids));
  }

  method BulkCancelStreams(env: Env, sender: Address, ids: seq<int>) returns (r: Result<()>)
    requires env.Valid()
    modifies env
    ensures env.Valid()
    ensures (env.View(), r) == BulkCancel(old(env.View()), sender, ids)
  {
    if env.config.globalPaused {
      return Err(ContractPaused);
    }
    if |ids| == 0 {
      return Ok(());
    }
    var fault, loaded := CheckBulk(env, sender, ids);
    if fault.Some? {
      return Err(fault.value);
    }
    var _ := SettleAll(env, sender, ids, loaded);
    return Ok(());
  }

  // ------------------------------------------------------------------ closing

  /** `remove_stream_from_recipient_index` and `remove_stream`. */
  method RemoveStream(env: Env, id: int)
    requires env.TablesOk() && id in env.streams && env.streams[id].status != Paused
    modifies env`streams, env`index
    ensures env.TablesOk()
    ensures env.View() == old(env.View()).(streams := old(env.streams) - {id})
  {
    var recipient := env.streams[id].recipient;
    var list := IndexOf(env.index, recipient);
    IndexAfterRemoval(env.index, env.streams, id);
    assert PausedIds(env.streams - {id}) == PausedIds(env.streams);
    env.index := env.index[recipient := Removed(list, id)];
    env.streams := env.streams - {id};
  }

  /** Whether a close entry point accepts the record; `completedToo` tells `close_completed_stream`,
      which takes cancelled streams as well, from `close_cancelled_stream`. */
  method CheckClose(stream: Stream, clock: Clock, completedToo: bool) returns (ok: bool)
    requires StreamOk(stream, clock) && ClockOk(clock)
    ensures ok == ((stream.status == Cancelled && Claim(stream, clock) <= 0)
                   || (completedToo && stream.status == Completed))
    ensures ok ==> Owed(stream) == 0
  {
    OwedBounds(stream, clock);
    if stream.status != Cancelled && !(completedToo && stream.status == Completed) {
      return false;
    }
    if stream.status == Cancelled {
      FixedWidthIsExact(Checkpoint(stream), stream.rate, stream.cancelledAt.value);
      var claimable := Max(SaturatingSub(AccruedAt(stream, stream.cancelledAt.value), stream.withdrawn), 0);
      if claimable > 0 {
        return false;
      }
    }
    return true;
  }

  /** `close_completed_stream` and `close_cancelled_stream`. */
  method CloseStream(env: Env, id: int, completedToo: bool) returns (r: Result<()>)
    requires env.Valid()
    modifies env
    ensures env.Valid()
    ensures (env.View(), r) == Close(old(env.View()), id, completedToo)
  {
    if id !in env.streams {
      return Err(StreamNotFound);
    }
    var closable := CheckClose(env.streams[id], env.clock, completedToo);
    if !closable {
      return Err(InvalidState);
    }
    ghost var l := env.View();
    CloseKeepsInv(l, id, completedToo);
    RemoveStream(env, id);
    ValidAt(env, Close(l, id, completedToo).0);
    return Ok(());
  }
}
