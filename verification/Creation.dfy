/** Creating streams over the stored state: the ID allocator, the recipient index, and the batch
    form with its single pull and its per-recipient cache. */
module Creation {
  import opened FixedWidth
  import opened Accrual
  import opened Streams
  import opened StreamIds
  import opened Ledger
  import opened LedgerInvariant
  import opened Storage
  import opened BulkCreation

  // ------------------------------------------------------------------ allocation

  /** `next_stream_id_for`; the counter traps at the end of the `u64` range. */
  method NextStreamIdFor(env: Env, caller: Address) returns (r: Result<int>)
    modifies env`nextId, env`reservations
    ensures r == if CanAllocate(old(env.View()).ids, caller) then Ok(Allocate(old(env.View()).ids, caller).1)
                 else Err(HostTrap)
    ensures env.View() == if r.Ok? then old(env.View()).(ids := Allocate(old(env.View()).ids, caller).0)
                          else old(env.View())
  {
    if caller in env.reservations {
      var res := env.reservations[caller];
      var id := res.start + res.consumed;
      var used := res.(consumed := res.consumed + 1);
      if used.consumed >= used.count {
        env.reservations := env.reservations - {caller};
      } else {
        env.reservations := env.reservations[caller := used];
      }
      return Ok(id);
    }
    var id := env.nextId;
    if id >= U64_MAX {
      return Err(HostTrap);
    }
    env.nextId := id + 1;
    return Ok(id);
  }

  // ------------------------------------------------------------------ the checks

  method ValidateStreamParams(config: Config, sender: Address, p: Params, finalRate: int, now: int)
      returns (r: Result<()>)
    requires finalRate == FinalRate(p)
    ensures r == Validate(config, now, sender, p)
  {
    if p.deposit <= 0 {
      return Err(InvalidParams);
    }
    if p.kind == Linear {
      if finalRate <= 0 {
        return Err(InvalidParams);
      }
      if finalRate > config.maxRate {
        return Err(InvalidParams);
      }
    } else if finalRate != 0 {
      return Err(InvalidParams);
    }
    if sender == p.recipient {
      return Err(InvalidParams);
    }
    if p.start >= p.end {
      return Err(InvalidParams);
    }
    if p.start < now {
      return Err(StartTimeInPast);
    }
    if p.cliff < p.start || p.cliff > p.end {
      return Err(InvalidParams);
    }
    if p.kind == Linear {
      var duration := MinusUnsigned(p.end, p.start);
      MulMonotone(0, duration, finalRate);
      assert finalRate * duration == duration * finalRate;
      var streamable := CheckedMul(finalRate, duration);
      if streamable == None {
        return Err(InvalidParams);
      }
      if p.deposit < streamable.value {
        return Err(InsufficientDeposit);
      }
    }
    return Ok(());
  }

  // ------------------------------------------------------------------ persisting

  ghost predicate IdsOk(l: State) { AllocatorOk(l.ids, l.flows.Keys) && l.streams.Keys <= l.flows.Keys }

  lemma PersistKeepsIds(l: State, sender: Address, p: Params)
    requires IdsOk(l) && CanAllocate(l.ids, sender) && p.deposit > 0
    ensures IdsOk(Persist(l, sender, p).0) && Persist(l, sender, p).1 !in l.streams
  {
    var (m, id) := Persist(l, sender, p);
    AllocateIsFresh(l.ids, l.flows.Keys, sender);
    assert m.flows.Keys == l.flows.Keys + {id};
  }

  /** The record and what goes with it, under a given ID. */
  method WriteNewStream(env: Env, id: int, s: Stream)
    requires s.deposit > 0 && s.status == Active && id !in env.streams && 0 <= env.totalLiabilities
    requires env.pausedCount == |PausedIds(env.streams)|
    modifies env`streams, env`totalLiabilities, env`flows
    ensures env.View() == Record(old(env.View()).(streams := old(env.streams)[id := s],
                                                  liabilities := Min(old(env.totalLiabilities) + s.deposit, I128_MAX)),
                                 id, s.deposit, 0, 0)
    ensures env.pausedCount == |PausedIds(env.streams)|
  {
    PausedAfterSave(env.streams, id, s);
    env.streams := env.streams[id := s];
    RaiseTotalLiabilities(env, s.deposit);
    Book(env, id, s.deposit, 0, 0);
  }

  /** `persist_new_stream_skip_index`. */
  method PersistSkipIndex(env: Env, sender: Address, p: Params) returns (r: Result<int>)
    requires p.deposit > 0 && IdsOk(env.View())
    requires env.pausedCount == |PausedIds(env.streams)| && 0 <= env.totalLiabilities
    modifies env`nextId, env`reservations, env`streams, env`totalLiabilities, env`flows
    ensures (env.View(), r) == PersistOne(old(env.View()), sender, p)
    ensures IdsOk(env.View()) && env.pausedCount == |PausedIds(env.streams)| && 0 <= env.totalLiabilities
    ensures r.Ok? ==> r.value !in old(env.streams) && env.streams == old(env.streams)[r.value := NewStream(sender, p)]
    ensures r.Err? ==> env.streams == old(env.streams)
  {
    if p.memo.Some? && |p.memo.value| > MAX_MEMO_BYTES {
      return Err(InvalidParams);
    }
    ghost var l := env.View();
    var id :- NextStreamIdFor(env, sender);
    PersistKeepsIds(l, sender, p);
    assert env.streams == l.streams && env.totalLiabilities == l.liabilities;
    var stream := Stream(sender, p.recipient, p.deposit, FinalRate(p), p.start, p.cliff, p.end, 0, Active, None, 0,
                         p.start, p.dust, p.memo, p.kind, 0, 0);
    WriteNewStream(env, id, stream);
    assert env.View() == Persist(l, sender, p).0;
    return Ok(id);
  }

  /** `add_stream_to_recipient_index`. */
  method AddToRecipientIndex(env: Env, recipient: Address, id: int)
    modifies env`index
    ensures env.index == old(env.index)[recipient := Inserted(IndexOf(old(env.index), recipient), id)]
  {
    var list := IndexOf(env.index, recipient);
    var at := Position(list, id);
    list := list[..at] + [id] + list[at..];
    env.index := env.index[recipient := list];
  }

  /** `persist_new_stream`. */
  method PersistNewStream(env: Env, sender: Address, p: Params) returns (r: Result<int>)
    requires p.deposit > 0 && IdsOk(env.View()) && env.TablesOk() && 0 <= env.totalLiabilities
    modifies env
    ensures env.TablesOk()
    ensures (env.View(), r) == PersistOne(old(env.View()), sender, p)
  {
    ghost var streams := env.streams;
    r := PersistSkipIndex(env, sender, p);
    if r.Ok? {
      IndexAfterInsertion(env.index, streams, r.value, NewStream(sender, p));
      AddToRecipientIndex(env, p.recipient, r.value);
    }
  }

  /** `create_stream`. */
  method CreateStream(env: Env, sender: Address, p: Params) returns (r: Result<int>)
    requires env.Valid()
    modifies env
    ensures env.Valid()
    ensures (env.View(), r) == Ledger.CreateStream(old(env.View()), sender, p)
  {
    if sender == Contract {
      return Err(HostTrap);
    }
    if env.config.globalPaused || env.config.creationPaused {
      return Err(ContractPaused);
    }
    var finalRate := if p.kind == CliffOnly then 0 else p.rate;
    var _ :- ValidateStreamParams(env.config, sender, p, finalRate, env.clock.now);
    var before := TakeSnapshot(env);
    ghost var l := env.View();
    r := PullAndPersist(env, sender, p);
    CreateKeepsInv(l, sender, p);
    if r.Err? {
      Undo(env, before, l);
      return;
    }
    ValidAt(env, Ledger.CreateStream(l, sender, p).0);
  }

  lemma PullKeepsIds(l: State, from: Address, n: nat)
    requires Inv(l) && CanPull(l, from, n)
    ensures IdsOk(Pull(l, from, n)) && 0 <= l.liabilities
  {
    TotalCovers(l.streams, l.clock);
  }

  lemma PersistFrame(l: State, sender: Address, p: Params)
    requires p.deposit > 0
    ensures SameFrame(l, PersistOne(l, sender, p).0)
  {
  }

  /** From the pull on; a failure after the pull has to be rolled back. */
  method PullAndPersist(env: Env, sender: Address, p: Params) returns (r: Result<int>)
    requires env.Valid() && sender != Contract && !env.config.globalPaused && !env.config.creationPaused
    requires Validate(env.config, env.clock.now, sender, p).Ok?
    modifies env
    ensures env.TablesOk() && SameFrame(old(env.View()), env.View())
    ensures r == Ledger.CreateStream(old(env.View()), sender, p).1
    ensures r.Ok? ==> env.View() == Ledger.CreateStream(old(env.View()), sender, p).0
  {
    ghost var l := env.View();
    CreateIsPersist(l, sender, p);
    var pulled := PullToken(env, sender, p.deposit);
    if !pulled {
      return Err(HostTrap);
    }
    PullKeepsIds(l, sender, p.deposit);
    PersistFrame(env.View(), sender, p);
    r := PersistNewStream(env, sender, p);
  }

  // ------------------------------------------------------------------ the batch: first pass

  /** The validation pass: the checked total, or the first fault. */
  method CheckBatch(config: Config, sender: Address, ps: seq<Params>, now: int) returns (r: Result<nat>)
    ensures r == FirstPass(config, now, sender, ps)
  {
    var total: nat, i := 0, 0;
    assert ps[..0] == [];
    while i < |ps|
      invariant 0 <= i <= |ps| && FirstPass(config, now, sender, ps[..i]) == Ok(total)
    {
      var finalRate := if ps[i].kind == CliffOnly then 0 else ps[i].rate;
      NextPass(config, now, sender, ps, i, total);
      var _ :- ValidateStreamParams(config, sender, ps[i], finalRate, now);
      var sum := Checked(total + ps[i].deposit);
      if sum == None {
        return Err(ArithmeticOverflow);
      }
      total := sum.value;
      i := i + 1;
    }
    assert ps[..i] == ps;
    return Ok(total);
  }

  // ------------------------------------------------------------------ the batch: second pass

  /** `list` names, once each, the streams of `r` in `after` that are not in `before`. */
  ghost predicate NewOf(list: seq<int>, before: map<int, Stream>, after: map<int, Stream>, r: Address) {
    Distinct(list) && forall id :: id in list <==> id in after && id !in before && after[id].recipient == r
  }

  /** What the recipient cache holds while the records are written: `after` extends `before`, and the
      cache lists exactly the additions. */
  ghost predicate CacheOk(cache: map<Address, seq<int>>, before: map<int, Stream>, after: map<int, Stream>) {
    && (forall id | id in before :: id in after && after[id] == before[id])
    && (forall r: Address :: NewOf(IndexOf(cache, r), before, after, r))
  }

  lemma CacheAppend(cache: map<Address, seq<int>>, before: map<int, Stream>, after: map<int, Stream>,
                    id: int, s: Stream)
    requires CacheOk(cache, before, after) && id !in after
    ensures CacheOk(cache[s.recipient := IndexOf(cache, s.recipient) + [id]], before, after[id := s])
  {
    var updated, more := cache[s.recipient := IndexOf(cache, s.recipient) + [id]], after[id := s];
    assert id !in before;
    forall r: Address ensures NewOf(IndexOf(updated, r), before, more, r) {
      assert NewOf(IndexOf(cache, r), before, after, r);
      assert id !in IndexOf(cache, r);
    }
  }

  lemma PersistNext(l: State, sender: Address, ps: seq<Params>, i: nat)
    requires i < |ps| && AllFunded(ps) && PersistAll(l, sender, ps[..i]).1.Ok?
    ensures AllFunded(ps[..i + 1])
    ensures var (m, ids) := PersistAll(l, sender, ps[..i]);
            var (n, id) := PersistOne(m, sender, ps[i]);
            PersistAll(l, sender, ps[..i + 1]) == (n, if id.Err? then Err(id.error) else Ok(ids.value + [id.value]))
  {
    assert ps[..i + 1][..i] == ps[..i];
  }

  /** One turn of the second pass. */
  method PersistCached(env: Env, sender: Address, p: Params, cache: map<Address, seq<int>>,
                       ghost before: map<int, Stream>)
      returns (r: Result<int>, updated: map<Address, seq<int>>)
    requires p.deposit > 0 && IdsOk(env.View())
    requires env.pausedCount == |PausedIds(env.streams)| && 0 <= env.totalLiabilities
    requires CacheOk(cache, before, env.streams)
    modifies env`nextId, env`reservations, env`streams, env`totalLiabilities, env`flows
    ensures (env.View(), r) == PersistOne(old(env.View()), sender, p)
    ensures IdsOk(env.View()) && env.pausedCount == |PausedIds(env.streams)| && 0 <= env.totalLiabilities
    ensures CacheOk(updated, before, env.streams)
  {
    ghost var streams := env.streams;
    r := PersistSkipIndex(env, sender, p);
    updated := cache;
    if r.Ok? {
      CacheAppend(cache, before, streams, r.value, NewStream(sender, p));
      updated := cache[p.recipient := IndexOf(cache, p.recipient) + [r.value]];
    }
  }

  /** The second pass: every record is written, the index is left for later, and the cache collects
      the new IDs by recipient. */
  method PersistEach(env: Env, sender: Address, ps: seq<Params>)
      returns (r: Result<seq<int>>, cache: map<Address, seq<int>>)
    requires AllFunded(ps) && IdsOk(env.View())
    requires env.pausedCount == |PausedIds(env.streams)| && 0 <= env.totalLiabilities
    modifies env`nextId, env`reservations, env`streams, env`totalLiabilities, env`flows
    ensures r == PersistAll(old(env.View()), sender, ps).1
    ensures r.Ok? ==> env.View() == PersistAll(old(env.View()), sender, ps).0
    ensures r.Ok? ==> CacheOk(cache, old(env.streams), env.streams) && env.pausedCount == |PausedIds(env.streams)|
  {
    ghost var l := env.View();
    var created, i := [], 0;
    cache := map[];
    while i < |ps|
      invariant 0 <= i <= |ps|
      invariant (env.View(), Ok(created)) == PersistAll(l, sender, ps[..i])
      invariant IdsOk(env.View()) && env.pausedCount == |PausedIds(env.streams)| && 0 <= env.totalLiabilities
      invariant CacheOk(cache, l.streams, env.streams)
    {
      PersistNext(l, sender, ps, i);
      var id;
      id, cache := PersistCached(env, sender, ps[i], cache, l.streams);
      if id.Err? {
        FailedPersist(l, sender, ps, i + 1);
        return Err(id.error), cache;
      }
      created := created + [id.value];
      i := i + 1;
    }
    assert ps[..i] == ps;
    return Ok(created), cache;
  }

  // ------------------------------------------------------------------ the batch: the flush

  /** The inner loop of the flush. */
  method InsertAll(list: seq<int>, ids: seq<int>) returns (merged: seq<int>)
    requires Sorted(list) && Distinct(ids) && forall id | id in ids :: id !in list
    ensures Sorted(merged) && forall x :: x in merged <==> x in list || x in ids
  {
    merged := list;
    var i := 0;
    while i < |ids|
      invariant 0 <= i <= |ids|
      invariant Sorted(merged) && forall x :: x in merged <==> x in list || x in ids[..i]
    {
      assert ids[i] !in ids[..i];
      InsertedIsSorted(merged, ids[i]);
      var at := Position(merged, ids[i]);
      merged := merged[..at] + [ids[i]] + merged[at..];
      assert ids[..i + 1] == ids[..i] + [ids[i]];
      i := i + 1;
    }
    assert ids[..i] == ids;
  }

  /** Merging a recipient's additions into its list makes the list right for the new table. */
  lemma MergedOk(list: seq<int>, ids: seq<int>, merged: seq<int>, before: map<int, Stream>, after: map<int, Stream>,
                 r: Address)
    requires ListOk(list, before, r) && NewOf(ids, before, after, r)
    requires forall id | id in before :: id in after && after[id] == before[id]
    requires Sorted(merged) && forall x :: x in merged <==> x in list || x in ids
    ensures ListOk(merged, after, r)
  {
  }

  /** One read and one write per recipient, in any order. */
  method FlushCache(env: Env, cache: map<Address, seq<int>>, ghost before: map<int, Stream>)
    requires IndexOk(env.index, before) && CacheOk(cache, before, env.streams)
    modifies env`index
    ensures IndexOk(env.index, env.streams)
  {
    ghost var index := env.index;
    var todo := cache.Keys;
    while todo != {}
      invariant todo <= cache.Keys
      invariant forall r: Address | r in todo :: IndexOf(env.index, r) == IndexOf(index, r)
      invariant forall r: Address | r !in todo :: r in cache.Keys ==> ListOk(IndexOf(env.index, r), env.streams, r)
      invariant forall r: Address | r !in cache.Keys :: IndexOf(env.index, r) == IndexOf(index, r)
    {
      var recipient :| recipient in todo;
      var list := IndexOf(env.index, recipient);
      assert ListOk(list, before, recipient) && NewOf(cache[recipient], before, env.streams, recipient) by {
        assert ListOk(IndexOf(index, recipient), before, recipient);
        assert NewOf(IndexOf(cache, recipient), before, env.streams, recipient);
      }
      var merged := InsertAll(list, cache[recipient]);
      MergedOk(list, cache[recipient], merged, before, env.streams, recipient);
      env.index := env.index[recipient := merged];
      todo := todo - {recipient};
    }
    forall r: Address ensures ListOk(IndexOf(env.index, r), env.streams, r) {
      if r !in cache.Keys {
        assert ListOk(IndexOf(index, r), before, r) && NewOf(IndexOf(cache, r), before, env.streams, r);
        MergedOk(IndexOf(index, r), [], IndexOf(index, r), before, env.streams, r);
      }
    }
  }

  // ------------------------------------------------------------------ the batch

  /** Write everything, then flush the cache. */
  method PersistAndFlush(env: Env, sender: Address, ps: seq<Params>) returns (r: Result<seq<int>>)
    requires AllFunded(ps) && IdsOk(env.View()) && env.TablesOk() && 0 <= env.totalLiabilities
    modifies env
    ensures r == PersistAll(old(env.View()), sender, ps).1
    ensures r.Ok? ==> env.View() == PersistAll(old(env.View()), sender, ps).0 && env.TablesOk()
    ensures SameFrame(old(env.View()), env.View())
  {
    ghost var before := env.streams;
    var cache;
    r, cache := PersistEach(env, sender, ps);
    if r.Ok? {
      FlushCache(env, cache, before);
    }
  }

  /** The pull and the second pass; a failure has to be rolled back. */
  method PullAndPersistAll(env: Env, sender: Address, ps: seq<Params>, total: nat) returns (r: Result<seq<int>>)
    requires env.Valid() && AllFunded(ps) && total == Sum(ps)
    modifies env
    ensures var l := old(env.View());
            if CanPull(l, sender, total) then
              var all := PersistAll(Pull(l, sender, total), sender, ps);
              r == all.1 && (r.Ok? ==> env.View() == all.0 && env.TablesOk())
            else r == Err(HostTrap)
    ensures SameFrame(old(env.View()), env.View())
  {
    ghost var l := env.View();
    var pulled := PullToken(env, sender, total);
    if !pulled {
      return Err(HostTrap);
    }
    PullKeepsIds(l, sender, total);
    r := PersistAndFlush(env, sender, ps);
  }

  /** `create_streams`, with its errors; by `BatchIsFold` it does what creating one by one does. */
  method CreateStreams(env: Env, sender: Address, ps: seq<Params>) returns (r: Result<seq<int>>)
    requires env.Valid()
    modifies env
    ensures env.Valid()
    ensures (env.View(), r) == BatchCreate(old(env.View()), sender, ps)
  {
    if |ps| == 0 {
      return Ok([]);
    }
    if sender == Contract {
      return Err(HostTrap);
    }
    if env.config.globalPaused || env.config.creationPaused {
      return Err(ContractPaused);
    }
    var total :- CheckBatch(env.config, sender, ps, env.clock.now);
    ghost var l := env.View();
    FirstPassIsSum(l.config, l.clock.now, sender, ps);
    BatchKeepsInv(l, sender, ps);
    var before := TakeSnapshot(env);
    r := PullAndPersistAll(env, sender, ps, total);
    if r.Err? {
      Undo(env, before, l);
      return;
    }
    ValidAt(env, BatchCreate(l, sender, ps).0);
  }

  lemma BatchKeepsInv(l: State, sender: Address, ps: seq<Params>)
    requires Inv(l)
    ensures Inv(BatchCreate(l, sender, ps).0)
  {
    TotalCovers(l.streams, l.clock);
    BatchIsFold(l, sender, ps);
    CreateStreamsKeepsInv(l, sender, ps);
  }
}
