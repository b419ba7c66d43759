/** The stream-ID allocator: a global counter, ranges reserved by callers, and a reclaim that
    rewinds the counter. */
module StreamIds {
  import opened FixedWidth
  import opened Streams

  const MAX_ID_RESERVATION := 100

  datatype Reservation = Reservation(start: int, count: int, consumed: int, expiry: Option<int>)

  datatype Allocator = Allocator(nextId: int, reservations: map<Address, Reservation>)

  /** The IDs a reservation still holds: from `First` up to, but not including, `Limit`. */
  function First(r: Reservation): int { r.start + r.consumed }
  function Limit(r: Reservation): int { r.start + r.count }
  predicate Holds(r: Reservation, id: int) { First(r) <= id < Limit(r) }

  predicate CanAllocate(a: Allocator, caller: Address) {
    caller in a.reservations || a.nextId < U64_MAX
  }

  /** The next ID for `caller`: from its own range if it has one, else from the counter. */
  function Allocate(a: Allocator, caller: Address): (Allocator, int) {
    if caller in a.reservations then
      var r := a.reservations[caller];
      var used := r.(consumed := r.consumed + 1);
      (a.(reservations := if First(used) >= Limit(used) then a.reservations - {caller}
                          else a.reservations[caller := used]), First(r))
    else (a.(nextId := a.nextId + 1), a.nextId)
  }

  function Reserve(a: Allocator, caller: Address, count: int, expiry: Option<int>): Result<Allocator> {
    if count == 0 then Err(ReservationCountZero)
    else if count > MAX_ID_RESERVATION then Err(ReservationLimitExceeded)
    else if a.nextId + count > U64_MAX then Err(HostTrap)
    else Ok(Allocator(a.nextId + count, a.reservations[caller := Reservation(a.nextId, count, 0, expiry)]))
  }

  function Release(a: Allocator, caller: Address): Allocator {
    a.(reservations := a.reservations - {caller})
  }

  predicate Expired(r: Reservation, now: int) { r.expiry.Some? && now >= r.expiry.value }

  /** Anyone may reclaim an expired range; the counter moves back if the range is the newest one. */
  function Reclaim(a: Allocator, holder: Address, now: int): Result<Allocator> {
    if holder !in a.reservations then Err(ReservationNotFound)
    else if a.reservations[holder].expiry == None then Err(ReservationNotExpirable)
    else if !Expired(a.reservations[holder], now) then Err(ReservationStillActive)
    else
      var r := a.reservations[holder];
      Ok(Release(a, holder).(nextId := if Limit(r) == a.nextId && First(r) < Limit(r) then First(r) else a.nextId))
  }

  predicate Apart(r: Reservation, q: Reservation) { Limit(r) <= First(q) || Limit(q) <= First(r) }

  predicate HoldsNone(r: Reservation, issued: set<int>) { forall id | id in issued :: !Holds(r, id) }

  /** No ID is at two places at once: issued IDs and reserved ranges lie below the counter, ranges
      hold no issued ID, and different callers' ranges do not meet. */
  predicate AllocatorOk(a: Allocator, issued: set<int>) {
    && 0 <= a.nextId <= U64_MAX
    && (forall id | id in issued :: 0 <= id < a.nextId)
    && (forall c | c in a.reservations :: ReservationOk(a.reservations[c], a.nextId))
    && (forall c | c in a.reservations :: HoldsNone(a.reservations[c], issued))
    && (forall c, d | c in a.reservations && d in a.reservations && c != d ::
          Apart(a.reservations[c], a.reservations[d]))
  }

  predicate ReservationOk(r: Reservation, nextId: int) {
    && 0 <= r.start && 0 <= r.consumed < r.count <= MAX_ID_RESERVATION && Limit(r) <= nextId
  }

  /** What using up one ID of a range leaves of it. */
  lemma UsedRange(a: Allocator, caller: Address)
    requires caller in a.reservations
    ensures var r, b := a.reservations[caller], Allocate(a, caller).0;
            && Allocate(a, caller).1 == First(r) && b.nextId == a.nextId
            && (forall c | c in b.reservations :: c in a.reservations)
            && (forall c | c in b.reservations && c != caller :: b.reservations[c] == a.reservations[c])
            && (caller in b.reservations ==>
                  b.reservations[caller] == r.(consumed := r.consumed + 1) && r.consumed + 1 < r.count)
  {
  }

  lemma ReservedIsFresh(a: Allocator, issued: set<int>, caller: Address)
    requires AllocatorOk(a, issued) && caller in a.reservations
    ensures Allocate(a, caller).1 !in issued && 0 <= Allocate(a, caller).1 < U64_MAX
    ensures AllocatorOk(Allocate(a, caller).0, issued + {Allocate(a, caller).1})
  {
    var b, id, r := Allocate(a, caller).0, Allocate(a, caller).1, a.reservations[caller];
    UsedRange(a, caller);
    assert ReservationOk(r, a.nextId) && HoldsNone(r, issued) && Holds(r, id);
    forall c | c in b.reservations
      ensures ReservationOk(b.reservations[c], b.nextId) && HoldsNone(b.reservations[c], issued + {id})
    {
      assert ReservationOk(a.reservations[c], a.nextId) && HoldsNone(a.reservations[c], issued);
      assert c != caller ==> Apart(a.reservations[c], r);
    }
    forall c, d | c in b.reservations && d in b.reservations && c != d
      ensures Apart(b.reservations[c], b.reservations[d])
    {
      assert Apart(a.reservations[c], a.reservations[d]);
    }
  }

  lemma CountedIsFresh(a: Allocator, issued: set<int>, caller: Address)
    requires AllocatorOk(a, issued) && caller !in a.reservations && a.nextId < U64_MAX
    ensures Allocate(a, caller).1 !in issued && 0 <= Allocate(a, caller).1 < U64_MAX
    ensures AllocatorOk(Allocate(a, caller).0, issued + {Allocate(a, caller).1})
  {
  }

  /** An allocated ID is new, and allocating keeps the invariant. */
  lemma AllocateIsFresh(a: Allocator, issued: set<int>, caller: Address)
    requires AllocatorOk(a, issued) && CanAllocate(a, caller)
    ensures Allocate(a, caller).1 !in issued && 0 <= Allocate(a, caller).1 < U64_MAX
    ensures AllocatorOk(Allocate(a, caller).0, issued + {Allocate(a, caller).1})
  {
    if caller in a.reservations {
      ReservedIsFresh(a, issued, caller);
    } else {
      CountedIsFresh(a, issued, caller);
    }
  }

  lemma ReservationsKeepInvariant(a: Allocator, issued: set<int>, who: Address, count: int, expiry: Option<int>)
    requires AllocatorOk(a, issued) && count >= 0
    ensures Reserve(a, who, count, expiry).Ok? ==> AllocatorOk(Reserve(a, who, count, expiry).value, issued)
    ensures AllocatorOk(Release(a, who), issued)
  {
  }

  /** Rewinding is safe: everything issued and every other range lies below the reclaimed one. */
  lemma ReclaimKeepsInvariant(a: Allocator, issued: set<int>, holder: Address, now: int)
    requires AllocatorOk(a, issued) && Reclaim(a, holder, now).Ok?
    ensures AllocatorOk(Reclaim(a, holder, now).value, issued)
  {
    var r, b := a.reservations[holder], Reclaim(a, holder, now).value;
    if b.nextId != a.nextId {
      forall id | id in issued ensures id < b.nextId {
        assert HoldsNone(r, issued) && !Holds(r, id);
      }
      forall c | c in b.reservations ensures Limit(b.reservations[c]) <= b.nextId {
        assert c != holder && c in a.reservations;
      }
    }
  }
}
