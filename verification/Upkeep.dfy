/** The remaining entry points over the stored state: changing the recipient, auto-claim
    destinations, sweeping the excess, and reserving stream IDs. */
module Upkeep {
  import opened FixedWidth
  import opened Streams
  import opened StreamIds
  import opened Ledger
  import opened LedgerInvariant
  import opened Storage

  // ------------------------------------------------------------------ changing the recipient

  /** `update_recipient`: the sender proposes. */
  method UpdateRecipient(env: Env, caller: Address, id: int, to: Address) returns (r: Result<()>)
    requires env.Valid()
    modifies env
    ensures env.Valid()
    ensures (env.View(), r) == ProposeRecipient(old(env.View()), caller, id, to)
  {
    if env.config.globalPaused {
      return Err(ContractPaused);
    }
    if id !in env.streams {
      return Err(StreamNotFound);
    }
    if caller != env.streams[id].sender {
      return Err(HostTrap);
    }
    if to == env.streams[id].recipient {
      return Err(InvalidParams);
    }
    if id in env.pending {
      return Err(InvalidState);
    }
    ghost var l := env.View();
    ProposeKeepsInv(l, caller, id, to);
    env.pending := env.pending[id := to];
    ValidAt(env, ProposeRecipient(l, caller, id, to).0);
    return Ok(());
  }

  /** The table after the stream has been given to another recipient: taken out of the one list and
      put into the other. */
  lemma IndexAfterMove(index: map<Address, seq<int>>, streams: map<int, Stream>, id: int, to: Address)
    requires IndexOk(index, streams) && id in streams
    ensures var from := streams[id].recipient;
            var without := index[from := Removed(IndexOf(index, from), id)];
            IndexOk(without[to := Inserted(IndexOf(without, to), id)], streams[id := streams[id].(recipient := to)])
  {
    var from := streams[id].recipient;
    var without := index[from := Removed(IndexOf(index, from), id)];
    IndexAfterRemoval(index, streams, id);
    IndexAfterInsertion(without, streams - {id}, id, streams[id].(recipient := to));
    assert (streams - {id})[id := streams[id].(recipient := to)] == streams[id := streams[id].(recipient := to)];
  }

  lemma PausedAfterMove(streams: map<int, Stream>, id: int, to: Address)
    requires id in streams
    ensures PausedIds(streams[id := streams[id].(recipient := to)]) == PausedIds(streams)
  {
  }

  /** The index and the table move together. */
  method MoveStream(env: Env, id: int, to: Address)
    requires env.TablesOk() && id in env.streams
    modifies env`index, env`streams
    ensures env.TablesOk()
    ensures env.View() == old(env.View()).(streams := old(env.streams)[id := old(env.streams)[id].(recipient := to)])
  {
    var stream := env.streams[id];
    IndexAfterMove(env.index, env.streams, id, to);
    PausedAfterMove(env.streams, id, to);
    env.index := env.index[stream.recipient := Removed(IndexOf(env.index, stream.recipient), id)];
    env.index := env.index[to := Inserted(IndexOf(env.index, to), id)];
    env.streams := env.streams[id := stream.(recipient := to)];
  }

  /** `accept_recipient_update`: the present recipient hands the stream over. */
  method AcceptRecipientUpdate(env: Env, caller: Address, id: int) returns (r: Result<()>)
    requires env.Valid()
    modifies env
    ensures env.Valid()
    ensures (env.View(), r) == AcceptRecipient(old(env.View()), caller, id)
  {
    if env.config.globalPaused {
      return Err(ContractPaused);
    }
    if id !in env.pending {
      return Err(InvalidState);
    }
    if id !in env.streams {
      return Err(StreamNotFound);
    }
    if caller != env.streams[id].recipient {
      return Err(HostTrap);
    }
    ghost var l := env.View();
    AcceptKeepsInv(l, caller, id);
    MoveStream(env, id, env.pending[id]);
    env.pending := env.pending - {id};
    ValidAt(env, AcceptRecipient(l, caller, id).0);
    return Ok(());
  }

  /** `cancel_recipient_update`: the sender retracts. */
  method CancelRecipientUpdate(env: Env, caller: Address, id: int) returns (r: Result<()>)
    requires env.Valid()
    modifies env
    ensures env.Valid()
    ensures (env.View(), r) == WithdrawProposal(old(env.View()), caller, id)
  {
    if id !in env.streams {
      return Err(StreamNotFound);
    }
    if caller != env.streams[id].sender {
      return Err(HostTrap);
    }
    if id !in env.pending {
      return Err(InvalidState);
    }
    ghost var l := env.View();
    RetractKeepsInv(l, caller, id);
    env.pending := env.pending - {id};
    ValidAt(env, WithdrawProposal(l, caller, id).0);
    return Ok(());
  }

  // ------------------------------------------------------------------ auto-claim, sweep

  /** `set_auto_claim` and, without a destination, `revoke_auto_claim`. */
  method ChangeAutoClaim(env: Env, caller: Address, id: int, to: Option<Address>) returns (r: Result<()>)
    requires env.Valid()
    modifies env
    ensures env.Valid()
    ensures (env.View(), r) == SetAutoClaim(old(env.View()), caller, id, to)
  {
    if id !in env.streams {
      return Err(StreamNotFound);
    }
    if caller != env.streams[id].recipient {
      return Err(HostTrap);
    }
    if to == Some(Contract) {
      return Err(InvalidParams);
    }
    ghost var l := env.View();
    AutoClaimKeepsInv(l, caller, id, to);
    match to {
      case Some(destination) => env.autoClaim := env.autoClaim[id := destination];
      case None => env.autoClaim := env.autoClaim - {id};
    }
    ValidAt(env, SetAutoClaim(l, caller, id, to).0);
    return Ok(());
  }

  lemma SweepSends(l: State, to: Address)
    requires Inv(l)
    ensures 0 <= l.liabilities && SaturatingSub(l.balance, l.liabilities) == l.balance - l.liabilities
    ensures Sweep(l, l.config.admin, to)
         == if l.balance <= l.liabilities then (l, Ok(0))
            else (Send(l, to, l.balance - l.liabilities), Ok(l.balance - l.liabilities))
  {
    TotalCovers(l.streams, l.clock);
  }

  /** `sweep_excess`. */
  method SweepExcess(env: Env, caller: Address, to: Address) returns (r: Result<int>)
    requires env.Valid()
    modifies env
    ensures env.Valid()
    ensures (env.View(), r) == Sweep(old(env.View()), caller, to)
  {
    if caller != env.config.admin {
      return Err(HostTrap);
    }
    ghost var l := env.View();
    SweepKeepsInv(l, caller, to);
    SweepSends(l, to);
    var excess := SaturatingSub(env.balance, env.totalLiabilities);
    if excess <= 0 {
      return Ok(0);
    }
    PushToken(env, to, excess);
    ValidAt(env, Sweep(l, caller, to).0);
    return Ok(excess);
  }

  // ------------------------------------------------------------------ reserving stream IDs

  method WriteAllocator(env: Env, nextId: int, reservations: map<Address, Reservation>)
    modifies env`nextId, env`reservations
    ensures env.View() == old(env.View()).(ids := Allocator(nextId, reservations))
  {
    env.nextId, env.reservations := nextId, reservations;
  }

  /** The IDs that a reservation returns. */
  method ListRange(start: int, count: nat) returns (ids: seq<int>)
    ensures ids == Range(start, count)
  {
    ids := [];
    var i := 0;
    while i < count
      invariant 0 <= i <= count && ids == Range(start, i)
    {
      ids := ids + [start + i];
      i := i + 1;
    }
  }

  /** `reserve_stream_ids`; a former reservation of the same caller is replaced. */
  method ReserveStreamIds(env: Env, caller: Address, count: u32, expiry: Option<int>) returns (r: Result<seq<int>>)
    requires env.Valid()
    modifies env
    ensures env.Valid()
    ensures (env.View(), r) == ReserveIds(old(env.View()), caller, count, expiry)
  {
    if count == 0 {
      return Err(ReservationCountZero);
    }
    if count > MAX_ID_RESERVATION {
      return Err(ReservationLimitExceeded);
    }
    ghost var l := env.View();
    ReserveKeepsInv(l, caller, count, expiry);
    var start := env.nextId;
    var next := CheckedAddU64(start, count);
    if next == None {
      return Err(HostTrap);
    }
    WriteAllocator(env, next.value, env.reservations[caller := Reservation(start, count, 0, expiry)]);
    var ids := ListRange(start, count);
    ValidAt(env, ReserveIds(l, caller, count, expiry).0);
    return Ok(ids);
  }

  /** `release_id_reservation`: the range is forgotten, the counter stays. */
  method ReleaseIdReservation(env: Env, caller: Address)
    requires env.Valid()
    modifies env
    ensures env.Valid()
    ensures env.View() == ReleaseIds(old(env.View()), caller)
  {
    ghost var l := env.View();
    ReleaseKeepsInv(l, caller);
    env.reservations := env.reservations - {caller};
    ValidAt(env, ReleaseIds(l, caller));
  }

  /** `reclaim_expired_id_reservation`: the counter moves back if nothing was handed out above. */
  method ReclaimExpiredIdReservation(env: Env, holder: Address) returns (r: Result<()>)
    requires env.Valid()
    modifies env
    ensures env.Valid()
    ensures (env.View(), r) == ReclaimIds(old(env.View()), holder)
  {
    if holder !in env.reservations {
      return Err(ReservationNotFound);
    }
    var res := env.reservations[holder];
    if res.expiry == None {
      return Err(ReservationNotExpirable);
    }
    if env.clock.now < res.expiry.value {
      return Err(ReservationStillActive);
    }
    ghost var l := env.View();
    ReclaimKeepsInv(l, holder);
    var unconsumedStart, reservationEnd := res.start + res.consumed, res.start + res.count;
    var rewinds := reservationEnd == env.nextId && unconsumedStart < reservationEnd;
    WriteAllocator(env, if rewinds then unconsumedStart else env.nextId, env.reservations - {holder});
    ValidAt(env, ReclaimIds(l, holder).0);
    return Ok(());
  }
}
