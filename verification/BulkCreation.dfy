/** Creating many streams with one pull is creating them one by one. */
module BulkCreation {
  import opened FixedWidth
  import opened Streams
  import opened StreamIds
  import opened Ledger

  // ------------------------------------------------------------------ the fold without the pulls

  /** `persist_new_stream` on the values: the deposit is in the contract already. */
  function PersistOne(l: State, sender: Address, p: Params): (State, Result<int>)
    requires p.deposit > 0
  {
    if !MemoFits(p) then (l, Err(InvalidParams))
    else if !CanAllocate(l.ids, sender) then (l, Err(HostTrap))
    else
      var (m, id) := Persist(l, sender, p);
      (m, Ok(id))
  }

  predicate AllFunded(ps: seq<Params>) { forall i | 0 <= i < |ps| :: ps[i].deposit > 0 }

  function PersistAll(l: State, sender: Address, ps: seq<Params>): (State, Result<seq<int>>)
    requires AllFunded(ps)
  {
    if |ps| == 0 then (l, Ok([]))
    else
      var (m, ids) := PersistAll(l, sender, ps[..|ps| - 1]);
      if ids.Err? then (m, ids)
      else
        var (n, id) := PersistOne(m, sender, ps[|ps| - 1]);
        if id.Err? then (n, Err(id.error)) else (n, Ok(ids.value + [id.value]))
  }

  function Sum(ps: seq<Params>): nat
    requires AllFunded(ps)
  {
    if |ps| == 0 then 0 else Sum(ps[..|ps| - 1]) + ps[|ps| - 1].deposit
  }

  lemma PullTwice(l: State, from: Address, x: nat, y: nat)
    requires CanPull(l, from, x)
    ensures CanPull(Pull(l, from, x), from, y) <==> CanPull(l, from, x + y)
    ensures CanPull(l, from, x + y) ==> Pull(Pull(l, from, x), from, y) == Pull(l, from, x + y)
  {
    if CanPull(l, from, x + y) {
      assert l.spendable[from := l.spendable[from] - x][from := l.spendable[from] - x - y]
          == l.spendable[from := l.spendable[from] - (x + y)];
    }
  }

  /** Persisting a record and pulling money do not see each other. */
  lemma PersistThenPull(l: State, sender: Address, p: Params, n: nat)
    requires p.deposit > 0 && CanPull(l, sender, n)
    ensures var (m, r) := PersistOne(l, sender, p);
            && CanPull(m, sender, n) && PersistOne(Pull(l, sender, n), sender, p) == (Pull(m, sender, n), r)
  {
    if MemoFits(p) && CanAllocate(l.ids, sender) {
      RecordThenPull(l, sender, p, n);
    }
  }

  lemma RecordThenPull(l: State, sender: Address, p: Params, n: nat)
    requires p.deposit > 0 && CanPull(l, sender, n)
    ensures var (m, id) := Persist(l, sender, p);
            && CanPull(m, sender, n) && Persist(Pull(l, sender, n), sender, p) == (Pull(m, sender, n), id)
  {
    var (ids, id) := Allocate(l.ids, sender);
    var x := Pull(l, sender, n);
    assert x.ids == l.ids && x.streams == l.streams && x.flows == l.flows && x.liabilities == l.liabilities;
  }

  lemma {:induction false} PersistAllThenPull(l: State, sender: Address, ps: seq<Params>, n: nat)
    requires AllFunded(ps) && CanPull(l, sender, n)
    ensures var (m, r) := PersistAll(l, sender, ps);
            && CanPull(m, sender, n) && PersistAll(Pull(l, sender, n), sender, ps) == (Pull(m, sender, n), r)
  {
    if |ps| > 0 {
      PersistAllThenPull(l, sender, ps[..|ps| - 1], n);
      PersistThenPull(PersistAll(l, sender, ps[..|ps| - 1]).0, sender, ps[|ps| - 1], n);
    }
  }

  /** What a persisted record leaves alone. */
  lemma {:induction false} PersistAllFrame(l: State, sender: Address, ps: seq<Params>)
    requires AllFunded(ps)
    ensures var m := PersistAll(l, sender, ps).0;
            && m.clock == l.clock && m.config == l.config && m.autoClaim == l.autoClaim && m.pending == l.pending
            && m.nonces == l.nonces && m.balance == l.balance && m.spendable == l.spendable
  {
    if |ps| > 0 {
      PersistAllFrame(l, sender, ps[..|ps| - 1]);
    }
  }

  // ------------------------------------------------------------------ the batch is the fold

  predicate AllValid(config: Config, now: int, sender: Address, ps: seq<Params>) {
    forall i | 0 <= i < |ps| :: Validate(config, now, sender, ps[i]).Ok?
  }

  /** What the first pass of `create_streams` establishes, and the pull after it. */
  predicate Acceptable(l: State, sender: Address, ps: seq<Params>) {
    && (|ps| > 0 ==> sender != Contract && !l.config.globalPaused && !l.config.creationPaused)
    && AllFunded(ps)
    && AllValid(l.config, l.clock.now, sender, ps)
    && CanPull(l, sender, Sum(ps))
  }

  /** `create_stream` gets as far as the pull, and the pull succeeds. */
  predicate Admits(l: State, sender: Address, p: Params) {
    && sender != Contract && !l.config.globalPaused && !l.config.creationPaused
    && Validate(l.config, l.clock.now, sender, p).Ok? && CanPull(l, sender, p.deposit)
  }

  lemma CreateIsPersist(l: State, sender: Address, p: Params)
    ensures var r := CreateStream(l, sender, p);
            if Admits(l, sender, p) then
              var t := PersistOne(Pull(l, sender, p.deposit), sender, p);
              r.1 == t.1 && (r.1.Ok? ==> r == t)
            else r.1.Err?
  {
  }

  /** Pulling everything first admits the same creation. */
  lemma AdmitsLater(l: State, sender: Address, ps: seq<Params>, p: Params)
    requires Acceptable(l, sender, ps)
    ensures var m := PersistAll(Pull(l, sender, Sum(ps)), sender, ps).0;
            Admits(m, sender, p) <==>
              && sender != Contract && !l.config.globalPaused && !l.config.creationPaused
              && Validate(l.config, l.clock.now, sender, p).Ok? && CanPull(l, sender, Sum(ps) + p.deposit)
  {
    var x := Pull(l, sender, Sum(ps));
    PersistAllFrame(x, sender, ps);
  }

  /** Pulling earlier makes no difference to what is persisted. */
  lemma PullFirst(l: State, sender: Address, ps: seq<Params>, n: nat)
    requires AllFunded(ps) && CanPull(l, sender, Sum(ps)) && CanPull(l, sender, Sum(ps) + n)
    ensures var (m, r) := PersistAll(Pull(l, sender, Sum(ps)), sender, ps);
            && CanPull(m, sender, n)
            && PersistAll(Pull(l, sender, Sum(ps) + n), sender, ps) == (Pull(m, sender, n), r)
  {
    PullTwice(l, sender, Sum(ps), n);
    PersistAllThenPull(Pull(l, sender, Sum(ps)), sender, ps, n);
  }

  /** Pulling the whole sum and persisting all records. */
  function PulledAll(l: State, sender: Address, ps: seq<Params>): (State, Result<seq<int>>) {
    if Acceptable(l, sender, ps) then PersistAll(Pull(l, sender, Sum(ps)), sender, ps) else (l, Err(HostTrap))
  }

  /** That, against creating the streams one by one: both succeed or both fail, and when they succeed
      the IDs and the states are the same. */
  predicate SameOutcome(l: State, sender: Address, ps: seq<Params>) {
    var one, all := CreateStreams(l, sender, ps), PulledAll(l, sender, ps);
    one.1.Ok? == all.1.Ok? && (one.1.Ok? ==> one == all)
  }

  lemma FundedSplits(before: seq<Params>, last: Params)
    ensures AllFunded(before + [last]) <==> AllFunded(before) && last.deposit > 0
    ensures AllFunded(before + [last]) ==> Sum(before + [last]) == Sum(before) + last.deposit
  {
    var ps := before + [last];
    assert ps[..|ps| - 1] == before && ps[|before|] == last;
    if AllFunded(ps) {
      assert forall i | 0 <= i < |before| :: before[i] == ps[i];
    }
  }

  lemma ValidSplits(config: Config, now: int, sender: Address, before: seq<Params>, last: Params)
    ensures AllValid(config, now, sender, before + [last]) <==>
              AllValid(config, now, sender, before) && Validate(config, now, sender, last).Ok?
  {
    var ps := before + [last];
    assert ps[|before|] == last;
    if AllValid(config, now, sender, ps) {
      assert forall i | 0 <= i < |before| :: before[i] == ps[i];
    }
  }

  lemma AcceptableSplits(l: State, sender: Address, before: seq<Params>, last: Params)
    ensures Acceptable(l, sender, before + [last]) <==>
              && Acceptable(l, sender, before)
              && sender != Contract && !l.config.globalPaused && !l.config.creationPaused
              && Validate(l.config, l.clock.now, sender, last).Ok? && CanPull(l, sender, Sum(before) + last.deposit)
  {
    FundedSplits(before, last);
    ValidSplits(l.config, l.clock.now, sender, before, last);
  }

  lemma LastCreation(l: State, sender: Address, before: seq<Params>, last: Params)
    ensures var (m, ids) := CreateStreams(l, sender, before);
            var (n, id) := CreateStream(m, sender, last);
            CreateStreams(l, sender, before + [last])
            == if ids.Err? then (l, ids) else if id.Err? then (l, Err(id.error)) else (n, Ok(ids.value + [id.value]))
  {
    assert (before + [last])[..|before|] == before;
  }

  lemma LastPersist(l: State, sender: Address, before: seq<Params>, last: Params, m: State, r: Result<seq<int>>)
    requires AllFunded(before) && AllFunded(before + [last]) && last.deposit > 0
    requires PersistAll(l, sender, before) == (m, r)
    ensures var all, next := PersistAll(l, sender, before + [last]), PersistOne(m, sender, last);
            if r.Err? || next.1.Err? then all.1.Err? else all == (next.0, Ok(r.value + [next.1.value]))
  {
    assert (before + [last])[..|before|] == before;
  }

  /** What the whole pull makes of the last entry, given what it makes of those before. */
  lemma NextOfAll(l: State, sender: Address, before: seq<Params>, last: Params, m: State, r: Result<seq<int>>)
    requires Acceptable(l, sender, before) && Acceptable(l, sender, before + [last]) && last.deposit > 0
    requires PulledAll(l, sender, before) == (m, r)
    ensures CanPull(m, sender, last.deposit)
    ensures var all := PulledAll(l, sender, before + [last]);
            var next := PersistOne(Pull(m, sender, last.deposit), sender, last);
            if r.Err? || next.1.Err? then all.1.Err? else all == (next.0, Ok(r.value + [next.1.value]))
  {
    FundedSplits(before, last);
    AcceptableSplits(l, sender, before, last);
    PullFirst(l, sender, before, last.deposit);
    var y := Pull(l, sender, Sum(before) + last.deposit);
    LastPersist(y, sender, before, last, Pull(m, sender, last.deposit), r);
    assert PulledAll(l, sender, before + [last]) == PersistAll(y, sender, before + [last]);
  }

  lemma AcceptedStep(l: State, sender: Address, before: seq<Params>, last: Params)
    requires SameOutcome(l, sender, before) && Acceptable(l, sender, before) && Acceptable(l, sender, before + [last])
    ensures SameOutcome(l, sender, before + [last])
  {
    var (m, r) := PulledAll(l, sender, before);
    AcceptableSplits(l, sender, before, last);
    FundedSplits(before, last);
    LastCreation(l, sender, before, last);
    NextOfAll(l, sender, before, last, m, r);
    AdmitsLater(l, sender, before, last);
    CreateIsPersist(m, sender, last);
  }

  lemma RefusedStep(l: State, sender: Address, before: seq<Params>, last: Params)
    requires SameOutcome(l, sender, before) && !Acceptable(l, sender, before + [last])
    ensures SameOutcome(l, sender, before + [last])
  {
    AcceptableSplits(l, sender, before, last);
    LastCreation(l, sender, before, last);
    if Acceptable(l, sender, before) {
      AdmitsLater(l, sender, before, last);
      CreateIsPersist(PulledAll(l, sender, before).0, sender, last);
    }
  }

  lemma CreationStep(l: State, sender: Address, before: seq<Params>, last: Params)
    requires SameOutcome(l, sender, before)
    ensures SameOutcome(l, sender, before + [last])
  {
    AcceptableSplits(l, sender, before, last);
    if Acceptable(l, sender, before + [last]) {
      AcceptedStep(l, sender, before, last);
    } else {
      RefusedStep(l, sender, before, last);
    }
  }

  lemma {:induction false} PersistIsFold(l: State, sender: Address, ps: seq<Params>)
    requires l.balance <= I128_MAX
    ensures SameOutcome(l, sender, ps)
  {
    if |ps| == 0 {
      assert l.spendable[sender := l.spendable[sender]] == l.spendable;
    } else {
      PersistIsFold(l, sender, ps[..|ps| - 1]);
      CreationStep(l, sender, ps[..|ps| - 1], ps[|ps| - 1]);
      assert ps == ps[..|ps| - 1] + [ps[|ps| - 1]];
    }
  }

  // ------------------------------------------------------------------ the batch, with its own errors

  /** The first pass: the total, or the fault of the first entry that is invalid or overflows it. */
  function FirstPass(config: Config, now: int, sender: Address, ps: seq<Params>): Result<nat> {
    if |ps| == 0 then Ok(0)
    else
      var total :- FirstPass(config, now, sender, ps[..|ps| - 1]);
      var _ :- Validate(config, now, sender, ps[|ps| - 1]);
      if total + ps[|ps| - 1].deposit > I128_MAX then Err(ArithmeticOverflow) else Ok(total + ps[|ps| - 1].deposit)
  }

  lemma {:induction false} FirstPassIsSum(config: Config, now: int, sender: Address, ps: seq<Params>)
    ensures FirstPass(config, now, sender, ps).Ok? <==>
              AllValid(config, now, sender, ps) && AllFunded(ps) && Sum(ps) <= I128_MAX
    ensures FirstPass(config, now, sender, ps).Ok? ==> FirstPass(config, now, sender, ps).value == Sum(ps)
  {
    if |ps| > 0 {
      var before, last := ps[..|ps| - 1], ps[|ps| - 1];
      assert ps == before + [last];
      FirstPassIsSum(config, now, sender, before);
      FundedSplits(before, last);
      ValidSplits(config, now, sender, before, last);
    }
  }

  lemma {:induction false} FailedPass(config: Config, now: int, sender: Address, ps: seq<Params>, k: nat)
    requires k <= |ps| && FirstPass(config, now, sender, ps[..k]).Err?
    ensures FirstPass(config, now, sender, ps) == FirstPass(config, now, sender, ps[..k])
  {
    if k < |ps| {
      assert ps[..|ps| - 1][..k] == ps[..k];
      FailedPass(config, now, sender, ps[..|ps| - 1], k);
    } else {
      assert ps[..k] == ps;
    }
  }

  /** What the next entry means for the whole pass. */
  lemma NextPass(config: Config, now: int, sender: Address, ps: seq<Params>, i: nat, total: nat)
    requires i < |ps| && FirstPass(config, now, sender, ps[..i]) == Ok(total)
    ensures var v := Validate(config, now, sender, ps[i]);
            if v.Err? then FirstPass(config, now, sender, ps) == Err(v.error)
            else if total + ps[i].deposit > I128_MAX then FirstPass(config, now, sender, ps) == Err(ArithmeticOverflow)
            else ps[i].deposit > 0 && FirstPass(config, now, sender, ps[..i + 1]) == Ok(total + ps[i].deposit)
  {
    assert ps[..i + 1][..i] == ps[..i];
    if FirstPass(config, now, sender, ps[..i + 1]).Err? {
      FailedPass(config, now, sender, ps, i + 1);
    }
  }

  lemma {:induction false} FailedPersist(l: State, sender: Address, ps: seq<Params>, k: nat)
    requires k <= |ps| && AllFunded(ps) && PersistAll(l, sender, ps[..k]).1.Err?
    ensures PersistAll(l, sender, ps).1 == PersistAll(l, sender, ps[..k]).1
  {
    if k < |ps| {
      assert ps[..|ps| - 1][..k] == ps[..k];
      FailedPersist(l, sender, ps[..|ps| - 1], k);
    } else {
      assert ps[..k] == ps;
    }
  }

  /** `create_streams`: validate everything, pull the sum, write everything. */
  function BatchCreate(l: State, sender: Address, ps: seq<Params>): (State, Result<seq<int>>) {
    if |ps| == 0 then (l, Ok([]))
    else if sender == Contract then (l, Err(HostTrap))
    else if l.config.globalPaused || l.config.creationPaused then (l, Err(ContractPaused))
    else
      var total := FirstPass(l.config, l.clock.now, sender, ps);
      FirstPassIsSum(l.config, l.clock.now, sender, ps);
      if total.Err? then (l, Err(total.error))
      else if !CanPull(l, sender, total.value) then (l, Err(HostTrap))
      else
        var (m, ids) := PersistAll(Pull(l, sender, total.value), sender, ps);
        (if ids.Ok? then m else l, ids)
  }

  lemma {:induction false} FailedFoldKeeps(l: State, sender: Address, ps: seq<Params>)
    ensures CreateStreams(l, sender, ps).1.Err? ==> CreateStreams(l, sender, ps).0 == l
  {
    if |ps| > 0 {
      FailedFoldKeeps(l, sender, ps[..|ps| - 1]);
    }
  }

  lemma AcceptableIffPassed(l: State, sender: Address, ps: seq<Params>)
    requires 0 <= l.balance && |ps| > 0
    ensures Acceptable(l, sender, ps) <==>
              && sender != Contract && !l.config.globalPaused && !l.config.creationPaused
              && FirstPass(l.config, l.clock.now, sender, ps).Ok?
              && CanPull(l, sender, FirstPass(l.config, l.clock.now, sender, ps).value)
  {
    FirstPassIsSum(l.config, l.clock.now, sender, ps);
  }

  /** The batch succeeds exactly when creating the streams one by one does, with the same IDs and the
      same state; otherwise both leave the state alone. */
  lemma BatchIsFold(l: State, sender: Address, ps: seq<Params>)
    requires 0 <= l.balance <= I128_MAX
    ensures var batch, one := BatchCreate(l, sender, ps), CreateStreams(l, sender, ps);
            batch.0 == one.0 && batch.1.Ok? == one.1.Ok? && (batch.1.Ok? ==> batch == one)
  {
    if |ps| > 0 {
      PersistIsFold(l, sender, ps);
      FailedFoldKeeps(l, sender, ps);
      AcceptableIffPassed(l, sender, ps);
      FirstPassIsSum(l.config, l.clock.now, sender, ps);
    }
  }
}
