/** The error that a failed `create_streams` reports, against the one that creating the streams one by
    one would report. */
module CreationErrors {
  import opened FixedWidth
  import opened Streams
  import opened StreamIds
  import opened Ledger
  import opened BulkCreation

  // ------------------------------------------------------------------ where one-by-one creation stops

  /** Creating the streams one by one gets through the first `k` and fails at the next one. */
  predicate StopsAt(l: State, sender: Address, ps: seq<Params>, k: nat) {
    k < |ps| && CreateStreams(l, sender, ps[..k]).1.Ok? && CreateStreams(l, sender, ps[..k + 1]).1.Err?
  }

  lemma {:induction false} FailedFold(l: State, sender: Address, ps: seq<Params>, k: nat)
    requires k <= |ps| && CreateStreams(l, sender, ps[..k]).1.Err?
    ensures CreateStreams(l, sender, ps) == CreateStreams(l, sender, ps[..k])
  {
    if k < |ps| {
      assert ps[..|ps| - 1][..k] == ps[..k];
      FailedFold(l, sender, ps[..|ps| - 1], k);
    } else {
      assert ps[..k] == ps;
    }
  }

  /** A failed creation stops somewhere. */
  lemma {:induction false} StopsSomewhere(l: State, sender: Address, ps: seq<Params>) returns (k: nat)
    requires CreateStreams(l, sender, ps).1.Err?
    ensures StopsAt(l, sender, ps, k)
  {
    var before := ps[..|ps| - 1];
    assert ps[..|ps|] == ps;
    if CreateStreams(l, sender, before).1.Err? {
      k := StopsSomewhere(l, sender, before);
      assert before[..k] == ps[..k] && before[..k + 1] == ps[..k + 1];
    } else {
      k := |ps| - 1;
    }
  }

  lemma StopsNoEarlier(l: State, sender: Address, ps: seq<Params>, j: nat, k: nat)
    requires j < |ps| && CreateStreams(l, sender, ps[..j + 1]).1.Err? && StopsAt(l, sender, ps, k)
    ensures k <= j
  {
    if j < k {
      assert ps[..k][..j + 1] == ps[..j + 1];
      FailedFold(l, sender, ps[..k], j + 1);
    }
  }

  /** And at one place only. */
  lemma StopsOnce(l: State, sender: Address, ps: seq<Params>, j: nat, k: nat)
    requires StopsAt(l, sender, ps, j) && StopsAt(l, sender, ps, k)
    ensures j == k
  {
    StopsNoEarlier(l, sender, ps, j, k);
    StopsNoEarlier(l, sender, ps, k, j);
  }

  lemma PrefixGrows(ps: seq<Params>, k: nat)
    requires k < |ps|
    ensures ps[..k + 1] == ps[..k] + [ps[k]]
  {
  }

  lemma FailsNext(l: State, sender: Address, before: seq<Params>, last: Params, next: seq<Params>, m: State)
    requires CreateStreams(l, sender, before).1.Ok? && m == CreateStreams(l, sender, before).0
    requires next == before + [last] && CreateStreams(l, sender, next).1.Err?
    ensures CreateRefusal(m, sender, last).Some?
    ensures CreateStreams(l, sender, next).1 == Err(CreateRefusal(m, sender, last).value)
  {
    LastCreation(l, sender, before, last);
    RefusalDecides(m, sender, last);
  }

  lemma RefusalDecides(m: State, sender: Address, p: Params)
    ensures CreateStream(m, sender, p).1.Err? <==> CreateRefusal(m, sender, p).Some?
    ensures CreateRefusal(m, sender, p).Some? ==> CreateStream(m, sender, p).1 == Err(CreateRefusal(m, sender, p).value)
  {
  }

  /** What it reports there. */
  lemma StoppingError(l: State, sender: Address, ps: seq<Params>, k: nat)
    requires StopsAt(l, sender, ps, k)
    ensures var m := CreateStreams(l, sender, ps[..k]).0;
            && CreateRefusal(m, sender, ps[k]).Some?
            && CreateStreams(l, sender, ps).1 == Err(CreateRefusal(m, sender, ps[k]).value)
  {
    PrefixGrows(ps, k);
    FailsNext(l, sender, ps[..k], ps[k], ps[..k + 1], CreateStreams(l, sender, ps[..k]).0);
    FailedFold(l, sender, ps, k + 1);
  }

  // ------------------------------------------------------------------ what the batch reports

  /** The state in which the entry at `k` is looked at, in terms of the whole pull. */
  lemma ReachedState(l: State, sender: Address, ps: seq<Params>, k: nat)
    requires l.balance <= I128_MAX && StopsAt(l, sender, ps, k)
    ensures Acceptable(l, sender, ps[..k]) && PulledAll(l, sender, ps[..k]) == CreateStreams(l, sender, ps[..k])
    ensures var m := CreateStreams(l, sender, ps[..k]).0; m.clock == l.clock && m.config == l.config
  {
    PersistIsFold(l, sender, ps[..k]);
    PersistAllFrame(Pull(l, sender, Sum(ps[..k])), sender, ps[..k]);
  }

  /** The first pass never reports a panic of its own. */
  lemma {:induction false} PassNeverTraps(config: Config, now: int, sender: Address, ps: seq<Params>)
    ensures FirstPass(config, now, sender, ps) != Err(HostTrap)
  {
    if |ps| > 0 {
      PassNeverTraps(config, now, sender, ps[..|ps| - 1]);
    }
  }

  /** An invalid entry that is reached is reported by the first pass as well. */
  lemma InvalidIsReported(l: State, sender: Address, ps: seq<Params>, k: nat)
    requires 0 <= l.balance && k < |ps| && Acceptable(l, sender, ps[..k])
    requires Validate(l.config, l.clock.now, sender, ps[k]).Err?
    ensures FirstPass(l.config, l.clock.now, sender, ps) == Err(Validate(l.config, l.clock.now, sender, ps[k]).error)
  {
    FirstPassIsSum(l.config, l.clock.now, sender, ps[..k]);
    NextPass(l.config, l.clock.now, sender, ps, k, Sum(ps[..k]));
  }

  lemma {:induction false} SumOfPrefix(ps: seq<Params>, k: nat)
    requires AllFunded(ps) && k < |ps|
    ensures AllFunded(ps[..k]) && Sum(ps[..k]) + ps[k].deposit <= Sum(ps)
  {
    if k < |ps| - 1 {
      SumOfPrefix(ps[..|ps| - 1], k);
      assert ps[..|ps| - 1][..k] == ps[..k];
    }
  }

  /** What `create_stream` says about an entry that it admits, and `persist_new_stream` too. */
  function WritingFault(ids: Allocator, sender: Address, p: Params): Option<Error> {
    if !MemoFits(p) then Some(InvalidParams) else if !CanAllocate(ids, sender) then Some(HostTrap) else None
  }

  /** A fault in writing the entry at `k` is what the second pass reports. */
  lemma SecondPassReports(y: State, sender: Address, ps: seq<Params>, k: nat, m: State, ids: seq<int>)
    requires AllFunded(ps) && k < |ps| && AllFunded(ps[..k]) && PersistAll(y, sender, ps[..k]) == (m, Ok(ids))
    requires WritingFault(m.ids, sender, ps[k]).Some?
    ensures PersistAll(y, sender, ps).1 == Err(WritingFault(m.ids, sender, ps[k]).value)
  {
    assert ps[..k + 1][..k] == ps[..k];
    assert PersistAll(y, sender, ps[..k + 1]).1 == Err(WritingFault(m.ids, sender, ps[k]).value);
    FailedPersist(y, sender, ps, k + 1);
  }

  /** The whole pull changes no allocation. */
  lemma WholePullAllocates(l: State, sender: Address, before: seq<Params>, rest: nat, m: State, ids: seq<int>)
    requires AllFunded(before) && CanPull(l, sender, Sum(before)) && CanPull(l, sender, Sum(before) + rest)
    requires PersistAll(Pull(l, sender, Sum(before)), sender, before) == (m, Ok(ids))
    ensures var (n, r) := PersistAll(Pull(l, sender, Sum(before) + rest), sender, before);
            r == Ok(ids) && n.ids == m.ids
  {
    PullFirst(l, sender, before, rest);
  }

  lemma AcceptedBatch(l: State, sender: Address, ps: seq<Params>)
    requires 0 <= l.balance && |ps| > 0 && Acceptable(l, sender, ps)
    ensures BatchCreate(l, sender, ps).1 == PulledAll(l, sender, ps).1
  {
    AcceptableIffPassed(l, sender, ps);
    FirstPassIsSum(l.config, l.clock.now, sender, ps);
  }

  /** One by one, an entry of an acceptable batch can only be stopped in writing. */
  lemma StopsInWriting(l: State, sender: Address, ps: seq<Params>, k: nat, m: State)
    requires l.balance <= I128_MAX && StopsAt(l, sender, ps, k) && Acceptable(l, sender, ps)
    requires m == CreateStreams(l, sender, ps[..k]).0
    ensures WritingFault(m.ids, sender, ps[k]).Some?
    ensures CreateStreams(l, sender, ps).1 == Err(WritingFault(m.ids, sender, ps[k]).value)
  {
    ReachedState(l, sender, ps, k);
    AdmittedAt(l, sender, ps, k, m);
    StoppingError(l, sender, ps, k);
    AdmittedFault(m, sender, ps[k]);
  }

  lemma AdmittedAt(l: State, sender: Address, ps: seq<Params>, k: nat, m: State)
    requires k < |ps| && Acceptable(l, sender, ps) && Acceptable(l, sender, ps[..k])
    requires m == PulledAll(l, sender, ps[..k]).0
    ensures Admits(m, sender, ps[k])
  {
    SumOfPrefix(ps, k);
    AdmitsLater(l, sender, ps[..k], ps[k]);
  }

  lemma PulledStopsInWriting(l: State, sender: Address, ps: seq<Params>, k: nat, m: State, ids: seq<int>)
    requires k < |ps| && Acceptable(l, sender, ps) && Acceptable(l, sender, ps[..k])
    requires PulledAll(l, sender, ps[..k]) == (m, Ok(ids)) && WritingFault(m.ids, sender, ps[k]).Some?
    ensures PulledAll(l, sender, ps).1 == Err(WritingFault(m.ids, sender, ps[k]).value)
  {
    SumOfPrefix(ps, k);
    var y, rest := Pull(l, sender, Sum(ps)), Sum(ps) - Sum(ps[..k]);
    WholePullAllocates(l, sender, ps[..k], rest, m, ids);
    var n := PersistAll(y, sender, ps[..k]).0;
    SecondPassReports(y, sender, ps, k, n, ids);
  }

  /** When the first pass and the pull succeed, both report the fault of the entry that stops them. */
  lemma WritingFaultIsReported(l: State, sender: Address, ps: seq<Params>, k: nat)
    requires 0 <= l.balance <= I128_MAX && StopsAt(l, sender, ps, k) && Acceptable(l, sender, ps)
    ensures BatchCreate(l, sender, ps).1 == CreateStreams(l, sender, ps).1
  {
    var (m, ids) := CreateStreams(l, sender, ps[..k]);
    ReachedState(l, sender, ps, k);
    StopsInWriting(l, sender, ps, k, m);
    PulledStopsInWriting(l, sender, ps, k, m, ids.value);
    AcceptedBatch(l, sender, ps);
  }

  lemma AdmittedFault(m: State, sender: Address, p: Params)
    requires Admits(m, sender, p)
    ensures CreateRefusal(m, sender, p) == WritingFault(m.ids, sender, p)
  {
  }

  // ------------------------------------------------------------------ when the errors agree

  /** The call is refused before any entry is looked at. */
  predicate RefusedOutright(l: State, sender: Address) {
    sender == Contract || l.config.globalPaused || l.config.creationPaused
  }

  /** Creation one by one stops at `p`, in state `m`, because of its memo. */
  predicate MemoStops(m: State, sender: Address, p: Params) {
    Admits(m, sender, p) && !MemoFits(p)
  }

  /** When the entry at which creation one by one stops is valid. */
  predicate AgreeOnValid(l: State, sender: Address, ps: seq<Params>, m: State, p: Params) {
    match FirstPass(l.config, l.clock.now, sender, ps)
    case Ok(total) => MemoStops(m, sender, p) ==> CanPull(l, sender, total)
    case Err(error) => MemoStops(m, sender, p) && error == InvalidParams
  }

  /** A failed batch reports the error of one-by-one creation exactly in these cases: the call is
      refused outright; the entry at which one-by-one creation stops is invalid; the first pass
      succeeds, and it is not the pull that fails where one by one it is a memo; or a memo that does not
      fit happens to meet an entry further on that fails with the same `InvalidParams`. */
  lemma ErrorsAgreeExactly(l: State, sender: Address, ps: seq<Params>, k: nat)
    requires 0 <= l.balance <= I128_MAX && StopsAt(l, sender, ps, k)
    ensures var m := CreateStreams(l, sender, ps[..k]).0;
            BatchCreate(l, sender, ps).1 == CreateStreams(l, sender, ps).1 <==>
              || RefusedOutright(l, sender)
              || Validate(l.config, l.clock.now, sender, ps[k]).Err?
              || AgreeOnValid(l, sender, ps, m, ps[k])
  {
    StoppingError(l, sender, ps, k);
    if RefusedOutright(l, sender) {
      OutrightAgrees(l, sender, ps, k);
    } else if Validate(l.config, l.clock.now, sender, ps[k]).Err? {
      ReachedState(l, sender, ps, k);
      InvalidIsReported(l, sender, ps, k);
    } else {
      ValidAgreesExactly(l, sender, ps, k);
    }
  }

  lemma OutrightAgrees(l: State, sender: Address, ps: seq<Params>, k: nat)
    requires l.balance <= I128_MAX && StopsAt(l, sender, ps, k) && RefusedOutright(l, sender)
    ensures BatchCreate(l, sender, ps).1 == CreateStreams(l, sender, ps).1
  {
    StoppingError(l, sender, ps, k);
    ReachedState(l, sender, ps, k);
  }

  lemma ValidAgreesExactly(l: State, sender: Address, ps: seq<Params>, k: nat)
    requires 0 <= l.balance <= I128_MAX && StopsAt(l, sender, ps, k) && !RefusedOutright(l, sender)
    requires Validate(l.config, l.clock.now, sender, ps[k]).Ok?
    ensures var m := CreateStreams(l, sender, ps[..k]).0;
            BatchCreate(l, sender, ps).1 == CreateStreams(l, sender, ps).1 <==> AgreeOnValid(l, sender, ps, m, ps[k])
  {
    var m := CreateStreams(l, sender, ps[..k]).0;
    ReachedState(l, sender, ps, k);
    StoppingError(l, sender, ps, k);
    PassNeverTraps(l.config, l.clock.now, sender, ps);
    FirstPassIsSum(l.config, l.clock.now, sender, ps);
    assert CreateStreams(l, sender, ps).1.error == if MemoStops(m, sender, ps[k]) then InvalidParams else HostTrap;
    if Acceptable(l, sender, ps) {
      WritingFaultIsReported(l, sender, ps, k);
    }
  }

  // ------------------------------------------------------------------ when only validation and funds can fail

  /** Every memo fits, and there are enough IDs. */
  predicate WritesFit(l: State, ps: seq<Params>) {
    l.ids.nextId + |ps| <= U64_MAX && forall i | 0 <= i < |ps| :: MemoFits(ps[i])
  }

  lemma {:induction false} WritingSucceeds(l: State, sender: Address, ps: seq<Params>)
    requires AllFunded(ps) && WritesFit(l, ps)
    ensures var (m, r) := PersistAll(l, sender, ps);
            r.Ok? && m.ids.nextId <= l.ids.nextId + |ps|
  {
    if |ps| > 0 {
      WritingSucceeds(l, sender, ps[..|ps| - 1]);
    }
  }

  /** Creation one by one gets exactly as far as validation and funds allow. */
  lemma StopsAtFirstUnacceptable(l: State, sender: Address, ps: seq<Params>, k: nat)
    requires l.balance <= I128_MAX && WritesFit(l, ps) && k < |ps|
    requires Acceptable(l, sender, ps[..k]) && !Acceptable(l, sender, ps[..k + 1])
    ensures StopsAt(l, sender, ps, k)
  {
    PersistIsFold(l, sender, ps[..k]);
    PersistIsFold(l, sender, ps[..k + 1]);
    WritingSucceeds(Pull(l, sender, Sum(ps[..k])), sender, ps[..k]);
  }

  /** Then the errors agree if and only if the first pass succeeds, or the first invalid entry is
      reached with money left to pull for all before it. */
  lemma ErrorsAgreeWhenWritesFit(l: State, sender: Address, ps: seq<Params>)
    requires 0 <= l.balance <= I128_MAX && !RefusedOutright(l, sender) && WritesFit(l, ps)
    requires CreateStreams(l, sender, ps).1.Err?
    ensures BatchCreate(l, sender, ps).1 == CreateStreams(l, sender, ps).1 <==>
              || FirstPass(l.config, l.clock.now, sender, ps).Ok?
              || exists k :: 0 <= k < |ps| && InvalidIsReached(l, sender, ps, k)
  {
    var k := StopsSomewhere(l, sender, ps);
    ErrorsAgreeExactly(l, sender, ps, k);
    ReachedState(l, sender, ps, k);
    assert !MemoStops(CreateStreams(l, sender, ps[..k]).0, sender, ps[k]);
    forall j | 0 <= j < |ps| && InvalidIsReached(l, sender, ps, j) ensures j == k {
      InvalidStops(l, sender, ps, j);
      StopsOnce(l, sender, ps, j, k);
    }
    assert Validate(l.config, l.clock.now, sender, ps[k]).Err? ==> InvalidIsReached(l, sender, ps, k);
  }

  /** The entries before `k` are valid and can be paid for, and the one at `k` is invalid. */
  predicate InvalidIsReached(l: State, sender: Address, ps: seq<Params>, k: int)
    requires 0 <= k < |ps|
  {
    Acceptable(l, sender, ps[..k]) && Validate(l.config, l.clock.now, sender, ps[k]).Err?
  }

  lemma InvalidStops(l: State, sender: Address, ps: seq<Params>, k: nat)
    requires l.balance <= I128_MAX && WritesFit(l, ps) && k < |ps| && InvalidIsReached(l, sender, ps, k)
    ensures StopsAt(l, sender, ps, k)
  {
    PrefixGrows(ps, k);
    AcceptableSplits(l, sender, ps[..k], ps[k]);
    StopsAtFirstUnacceptable(l, sender, ps, k);
  }
}
