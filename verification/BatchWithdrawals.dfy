/** `batch_withdraw` and `batch_withdraw_to`: the loops over the stored state, with their running
    balance, against the fold of single items. */
module BatchWithdrawals {
  import opened FixedWidth
  import opened Streams
  import opened StreamRules
  import opened Ledger
  import opened LedgerInvariant
  import opened Storage
  import opened Withdrawals
  import LedgerRuns

  // ------------------------------------------------------------------ the checks on the request

  /** The quadratic scan for a repeated ID. */
  method AllDistinct(ids: seq<int>) returns (ok: bool)
    ensures ok == Distinct(ids)
  {
    var i := 0;
    while i < |ids|
      invariant 0 <= i <= |ids|
      invariant forall k, j | 0 <= k < i && k < j < |ids| :: ids[k] != ids[j]
    {
      var j := i + 1;
      while j < |ids|
        invariant i < j <= |ids|
        invariant forall k | i < k < j :: ids[i] != ids[k]
      {
        if ids[j] == ids[i] {
          return false;
        }
        j := j + 1;
      }
      i := i + 1;
    }
    return true;
  }

  lemma {:induction false} FaultSkips(ws: seq<WithdrawToParam>, i: nat)
    requires i <= |ws|
    requires forall k | 0 <= k < i :: ws[k].destination != Contract && !RepeatedLater(Ids(ws), k)
    ensures DirectedFault(ws, 0) == DirectedFault(ws, i)
  {
    if i > 0 {
      FaultSkips(ws, i - 1);
    }
  }

  /** The combined scan of `batch_withdraw_to`: a repeated ID fails an assertion. */
  method CheckDirected(ws: seq<WithdrawToParam>) returns (fault: Option<Error>)
    ensures fault == DirectedFault(ws, 0)
  {
    var i := 0;
    while i < |ws|
      invariant 0 <= i <= |ws|
      invariant forall k | 0 <= k < i :: ws[k].destination != Contract && !RepeatedLater(Ids(ws), k)
    {
      FaultSkips(ws, i);
      if ws[i].destination == Contract {
        return Some(InvalidParams);
      }
      var j := i + 1;
      while j < |ws|
        invariant i < j <= |ws|
        invariant forall k | i < k < j :: Ids(ws)[k] != ws[i].id
      {
        if ws[j].id == ws[i].id {
          assert Ids(ws)[j] == Ids(ws)[i];
          return Some(HostTrap);
        }
        j := j + 1;
      }
      i := i + 1;
    }
    FaultSkips(ws, i);
    return None;
  }

  // ------------------------------------------------------------------ one stream of a batch

  /** One turn of either loop up to the point where it writes; `payee` is `None` in
      `batch_withdraw`, which alone enforces the frequency limit, stamps the record and lowers the
      liability counter. */
  method CheckItem(stream: Stream, clock: Clock, recipient: Address, item: Item, running: int)
      returns (r: Result<Effect>)
    requires StreamOk(stream, clock) && ClockOk(clock) && Owed(stream) <= running
    ensures r == ItemRule(stream, clock, recipient, item)
  {
    if stream.recipient != recipient {
      return Err(Unauthorized);
    }
    if item.payee == None && MinusUnsigned(clock.sequence, stream.lastWithdraw) < MIN_WITHDRAW_INTERVAL_LEDGERS {
      return Err(WithdrawalTooFrequent);
    }
    if stream.status == Paused && !IsTerminal(stream, clock.now) {
      return Err(InvalidState);
    }
    var withdrawable := 0;
    if stream.status != Completed {
      MachineClaim(stream, clock);
      var effectiveNow := clock.now;
      if stream.status == Cancelled {
        if stream.cancelledAt == None {
          return Err(InvalidState);
        }
        effectiveNow := stream.cancelledAt.value;
      }
      withdrawable := Max(Minus(AccruedAt(stream, effectiveNow), stream.withdrawn), 0);
    }
    withdrawable := Min(withdrawable, running);
    if withdrawable > 0 && withdrawable < stream.dust && !IsTerminal(stream, clock.now)
       && Plus(stream.withdrawn, withdrawable) < stream.deposit {
      withdrawable := 0;
    }
    if withdrawable <= 0 {
      return Ok(Keep);
    }
    var saved := stream.(withdrawn := Plus(stream.withdrawn, withdrawable),
                         lastWithdraw := if item.payee == None then clock.sequence else stream.lastWithdraw);
    if (stream.status == Active || stream.status == Paused) && saved.withdrawn == saved.deposit {
      saved := saved.(status := Completed);
    }
    var to := if item.payee.Some? then item.payee.value else saved.recipient;
    return Ok(Paying(saved, withdrawable, to, item.payee == None));
  }

  /** What one item leaves for the following ones. */
  lemma ItemPays(l: State, recipient: Address, item: Item, e: Effect, running: int)
    requires Inv(l) && item.id in l.streams && Total(l.streams) <= running
    requires ItemRule(l.streams[item.id], l.clock, recipient, item) == Ok(e) && e.Write?
    ensures e.fund == 0 && EffectOk(l.streams[item.id], e, l.clock)
    ensures var m := Commit(l, item.id, e);
            && WithdrawItem(l, recipient, item) == (m, Ok(e.pay))
            && Inv(m) && Total(m.streams) <= running - e.pay && SameFrame(l, m)
  {
    ItemOk(l, recipient, item);
    LedgerRuns.ItemIsNotFunded(l.streams[item.id], l.clock, recipient, item);
    CommitKeepsInv(l, item.id, e);
    PaymentFrame(l, item.id, e);
    ItemCommits(l, recipient, item, e);
  }

  lemma PaymentFrame(l: State, id: int, e: Effect)
    requires e.Write? && e.fund == 0
    ensures SameFrame(l, Commit(l, id, e))
  {
  }

  lemma ItemCommits(l: State, recipient: Address, item: Item, e: Effect)
    requires item.id in l.streams && ItemRule(l.streams[item.id], l.clock, recipient, item) == Ok(e)
    requires e.Write? && e.fund == 0
    ensures WithdrawItem(l, recipient, item) == (Commit(l, item.id, e), Ok(e.pay))
  {
  }

  method WriteItem(env: Env, ghost recipient: Address, item: Item, e: Effect, ghost running: int)
    requires env.Valid() && item.id in env.streams && Total(env.streams) <= running
    requires ItemRule(env.streams[item.id], env.clock, recipient, item) == Ok(e) && e.Write?
    requires e == Paying(e.stream, e.pay, e.payee, item.payee == None)
    modifies env
    ensures env.Valid() && Total(env.streams) <= running - e.pay && SameFrame(old(env.View()), env.View())
    ensures (env.View(), Ok(e.pay)) == WithdrawItem(old(env.View()), recipient, item)
  {
    ghost var l := env.View();
    ItemPays(l, recipient, item, e, running);
    PayoutIsCovered(l, item.id, e);
    PayOut(env, item.id, e.stream, e.pay, e.payee, item.payee == None);
    ghost var m := env.View();
    assert m == Commit(l, item.id, e);
    assert m.streams == env.streams;
    ValidAt(env, Commit(l, item.id, e));
  }

  /** One turn of the loop. */
  method PayItem(env: Env, recipient: Address, item: Item, running: int) returns (r: Result<int>)
    requires env.Valid() && Total(env.streams) <= running
    modifies env
    ensures (env.View(), r) == WithdrawItem(old(env.View()), recipient, item) && SameFrame(old(env.View()), env.View())
    ensures env.Valid() && Total(env.streams) <= running - if r.Ok? then r.value else 0
  {
    if item.id !in env.streams {
      return Err(StreamNotFound);
    }
    TotalCovers(env.streams, env.clock);
    var effect :- CheckItem(env.streams[item.id], env.clock, recipient, item, running);
    if effect == Keep {
      return Ok(0);
    }
    WriteItem(env, recipient, item, effect, running);
    return Ok(effect.pay);
  }

  // ------------------------------------------------------------------ the loops

  lemma {:induction false} FailedPrefix(l: State, recipient: Address, items: seq<Item>, k: nat)
    requires k <= |items| && WithdrawItems(l, recipient, items[..k]).1.Err?
    ensures WithdrawItems(l, recipient, items) == WithdrawItems(l, recipient, items[..k])
  {
    if k < |items| {
      assert items[..|items| - 1][..k] == items[..k];
      FailedPrefix(l, recipient, items[..|items| - 1], k);
    } else {
      assert items[..k] == items;
    }
  }

  lemma OneMore(l: State, recipient: Address, items: seq<Item>, i: nat)
    requires i < |items| && WithdrawItems(l, recipient, items[..i]).1.Ok?
    ensures var (m, paid) := WithdrawItems(l, recipient, items[..i]);
            var (n, amount) := WithdrawItem(m, recipient, items[i]);
            WithdrawItems(l, recipient, items[..i + 1])
            == if amount.Err? then (l, Err(amount.error)) else (n, Ok(paid.value + [amount.value]))
  {
    assert items[..i + 1][..i] == items[..i];
  }

  /** What the outcome of the next item means for the whole batch. */
  lemma NextOutcome(l: State, recipient: Address, items: seq<Item>, i: nat, m: State, paid: seq<int>)
    requires i < |items| && (m, Ok(paid)) == WithdrawItems(l, recipient, items[..i])
    ensures var (n, amount) := WithdrawItem(m, recipient, items[i]);
            if amount.Ok? then (n, Ok(paid + [amount.value])) == WithdrawItems(l, recipient, items[..i + 1])
            else (l, Err(amount.error)) == WithdrawItems(l, recipient, items)
  {
    OneMore(l, recipient, items, i);
    if WithdrawItem(m, recipient, items[i]).1.Err? {
      FailedPrefix(l, recipient, items, i + 1);
    }
  }

  /** Both loops: they agree with the fold, and the running balance covers what is still owed. */
  method PayItems(env: Env, recipient: Address, items: seq<Item>) returns (r: Result<seq<int>>)
    requires env.Valid()
    modifies env
    ensures env.Valid()
    ensures (env.View(), r) == WithdrawItems(old(env.View()), recipient, items)
  {
    ghost var l := env.View();
    ghost var m := l;
    var before := TakeSnapshot(env);
    var running, results, i := env.balance, [], 0;
    assert items[..0] == [];
    while i < |items|
      invariant 0 <= i <= |items|
      invariant env.Valid() && env.View() == m && Total(env.streams) <= running
      invariant (m, Ok(results)) == WithdrawItems(l, recipient, items[..i]) && SameFrame(l, m)
    {
      NextOutcome(l, recipient, items, i, m, results);
      m := WithdrawItem(m, recipient, items[i]).0;
      var amount := PayItem(env, recipient, items[i], running);
      if amount.Err? {
        Undo(env, before, l);
        return Err(amount.error);
      }
      running := running - amount.value;
      results := results + [amount.value];
      i := i + 1;
    }
    assert items[..i] == items;
    return Ok(results);
  }

  method BatchWithdraw(env: Env, recipient: Address, ids: seq<int>) returns (r: Result<seq<int>>)
    requires env.Valid()
    modifies env
    ensures env.Valid()
    ensures (env.View(), r) == Ledger.BatchWithdraw(old(env.View()), recipient, ids)
  {
    if env.config.globalPaused {
      return Err(ContractPaused);
    }
    var distinct := AllDistinct(ids);
    if !distinct {
      return Err(DuplicateStreamId);
    }
    r := PayItems(env, recipient, Plain(ids));
  }

  method BatchWithdrawTo(env: Env, recipient: Address, ws: seq<WithdrawToParam>) returns (r: Result<seq<int>>)
    requires env.Valid()
    modifies env
    ensures env.Valid()
    ensures (env.View(), r) == Ledger.BatchWithdrawTo(old(env.View()), recipient, ws)
  {
    if env.config.globalPaused {
      return Err(ContractPaused);
    }
    var fault := CheckDirected(ws);
    if fault.Some? {
      return Err(fault.value);
    }
    r := PayItems(env, recipient, Directed(ws));
  }
}
