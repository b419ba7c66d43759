/** The forecast `get_claimable_at` against the withdrawal it predicts, over runs in which the
    stream itself is at most paused and resumed. */
module Forecast {
  import opened FixedWidth
  import opened Streams
  import opened StreamRules
  import opened Ledger
  import opened LedgerInvariant
  import LedgerRuns

  /** The same record up to pausing and a change of recipient. */
  predicate SameTerms(s: Stream, t: Stream) {
    && t == s.(status := t.status, lastPauseToggle := t.lastPauseToggle, recipient := t.recipient)
    && (t.status == s.status || (Live(s) && Live(t)))
  }

  ghost predicate KeepsTerms(l: State, m: State, id: int) {
    id in l.streams ==> id in m.streams && SameTerms(l.streams[id], m.streams[id])
  }

  /** A step that does not withdraw from, re-price, cancel or close stream `id`. */
  predicate Spares(op: Op, id: int) {
    match op
    case On(i, o) => i != id || o.Pause? || o.Resume?
    case WithdrawBatch(_, ids) => id !in ids
    case WithdrawBatchTo(_, ws) => id !in Ids(ws)
    case CancelBatch(_, ids) => id !in ids
    case CloseStream(i, _) => i != id
    case _ => true
  }

  /** A call that might touch a stream, and that is refused. */
  ghost predicate Rejected(l: State, op: Op) {
    match op
    case On(i, o) => StreamStep(l, i, o).1.Err?
    case WithdrawBatch(recipient, ids) => BatchWithdraw(l, recipient, ids).1.Err?
    case WithdrawBatchTo(recipient, ws) => BatchWithdrawTo(l, recipient, ws).1.Err?
    case CancelBatch(sender, ids) => BulkCancel(l, sender, ids).1.Err?
    case CloseStream(i, completedToo) => Close(l, i, completedToo).1.Err?
    case _ => false
  }

  /** The run leaves the terms of stream `id` alone; calls that are refused do not matter. */
  ghost predicate RunSpares(l: State, ops: seq<Op>, id: int) {
    |ops| > 0 ==>
      var op := ops[|ops| - 1];
      RunSpares(l, ops[..|ops| - 1], id) && (Spares(op, id) || Rejected(Run(l, ops[..|ops| - 1]), op))
  }

  lemma RejectedBatchStays(l: State, op: Op)
    requires Rejected(l, op) && (op.WithdrawBatch? || op.WithdrawBatchTo? || op.CancelBatch?)
    ensures Step(l, op) == l
  {
  }

  lemma RejectedStays(l: State, op: Op)
    requires Rejected(l, op)
    ensures Step(l, op) == l
  {
    if op.On? {
      LedgerRuns.RefusedStays(l, op.id, op.op);
    } else if !op.CloseStream? {
      RejectedBatchStays(l, op);
    }
  }

  lemma ApplyElsewhere(l: State, i: int, r: Result<Effect>, id: int)
    requires i != id && id in l.streams
    ensures id in Apply(l, i, r).0.streams && Apply(l, i, r).0.streams[id] == l.streams[id]
  {
  }

  lemma StreamStepElsewhere(l: State, i: int, o: StreamOp, id: int)
    requires i != id && id in l.streams
    ensures id in StreamStep(l, i, o).0.streams && StreamStep(l, i, o).0.streams[id] == l.streams[id]
  {
    if Refusal(l, o) == None && i in l.streams {
      ApplyElsewhere(l, i, Rule(l, i, o), id);
    }
  }

  lemma TogglesKeepTerms(s: Stream, c: Clock)
    ensures StreamRules.Pause(s, c).Ok? ==> SameTerms(s, StreamRules.Pause(s, c).value.stream)
    ensures StreamRules.Resume(s, c).Ok? ==> SameTerms(s, StreamRules.Resume(s, c).value.stream)
  {
  }

  lemma RewriteKeepsTerms(l: State, id: int, t: Stream)
    requires id in l.streams && SameTerms(l.streams[id], t)
    ensures KeepsTerms(l, Apply(l, id, Ok(Rewrite(t))).0, id)
  {
  }

  lemma PausingKeepsTerms(l: State, id: int, o: StreamOp)
    requires o.Pause? || o.Resume?
    ensures KeepsTerms(l, StreamStep(l, id, o).0, id)
  {
    if Refusal(l, o) == None && id in l.streams && Rule(l, id, o).Ok? {
      TogglesKeepTerms(l.streams[id], l.clock);
      RewriteKeepsTerms(l, id, Rule(l, id, o).value.stream);
    }
  }

  lemma StreamStepKeepsTerms(l: State, i: int, o: StreamOp, id: int)
    requires i != id || o.Pause? || o.Resume?
    ensures KeepsTerms(l, StreamStep(l, i, o).0, id)
  {
    if i == id {
      PausingKeepsTerms(l, id, o);
    } else if id in l.streams {
      StreamStepElsewhere(l, i, o, id);
    }
  }

  lemma CreatedElsewhere(l: State, sender: Address, p: Params, id: int)
    requires Inv(l)
    ensures KeepsTerms(l, CreateStream(l, sender, p).0, id)
  {
    CreateKeepsInv(l, sender, p);
  }

  lemma TermsTransitive(l: State, m: State, n: State, id: int)
    requires KeepsTerms(l, m, id) && KeepsTerms(m, n, id)
    ensures KeepsTerms(l, n, id)
  {
  }

  lemma {:induction false} CreationsKeepTerms(l: State, sender: Address, ps: seq<Params>, id: int)
    requires Inv(l)
    ensures KeepsTerms(l, CreateStreams(l, sender, ps).0, id)
  {
    if |ps| > 0 {
      var m, last := CreateStreams(l, sender, ps[..|ps| - 1]).0, ps[|ps| - 1];
      CreationsKeepTerms(l, sender, ps[..|ps| - 1], id);
      CreateStreamsKeepsInv(l, sender, ps[..|ps| - 1]);
      CreatedElsewhere(m, sender, last, id);
      TermsTransitive(l, m, CreateStream(m, sender, last).0, id);
    }
  }

  lemma SettlingElsewhere(l: State, i: int, id: int)
    requires i != id && i in l.streams && Live(l.streams[i])
    ensures KeepsTerms(l, SettleAndCancel(l, i), id)
  {
  }

  lemma {:induction false} SettlingKeepsTerms(l: State, ids: seq<int>, id: int)
    requires id !in ids
    ensures KeepsTerms(l, SettleAndCancelAll(l, ids), id)
  {
    if |ids| > 0 {
      var m, i := SettleAndCancelAll(l, ids[..|ids| - 1]), ids[|ids| - 1];
      SettlingKeepsTerms(l, ids[..|ids| - 1], id);
      if i in m.streams && Live(m.streams[i]) {
        SettlingElsewhere(m, i, id);
      }
    }
  }

  lemma ItemElsewhere(l: State, recipient: Address, item: Item, id: int)
    requires item.id != id && id in l.streams
    ensures id in WithdrawItem(l, recipient, item).0.streams
    ensures WithdrawItem(l, recipient, item).0.streams[id] == l.streams[id]
  {
    if item.id in l.streams {
      ApplyElsewhere(l, item.id, ItemRule(l.streams[item.id], l.clock, recipient, item), id);
    }
  }

  lemma {:induction false} ItemsKeepTerms(l: State, recipient: Address, items: seq<Item>, id: int)
    requires id in l.streams && forall i | 0 <= i < |items| :: items[i].id != id
    ensures id in WithdrawItems(l, recipient, items).0.streams
    ensures WithdrawItems(l, recipient, items).0.streams[id] == l.streams[id]
  {
    if |items| > 0 {
      ItemsKeepTerms(l, recipient, items[..|items| - 1], id);
      ItemElsewhere(WithdrawItems(l, recipient, items[..|items| - 1]).0, recipient, items[|items| - 1], id);
    }
  }

  lemma BatchKeepsTerms(l: State, op: Op, id: int)
    requires Spares(op, id) && (op.WithdrawBatch? || op.WithdrawBatchTo? || op.CancelBatch?)
    ensures KeepsTerms(l, Step(l, op), id)
  {
    match op
    case WithdrawBatch(recipient, ids) =>
      if id in l.streams {
        ItemsKeepTerms(l, recipient, Plain(ids), id);
      }
    case WithdrawBatchTo(recipient, ws) =>
      if id in l.streams {
        assert forall i | 0 <= i < |ws| :: Ids(ws)[i] == ws[i].id;
        ItemsKeepTerms(l, recipient, Directed(ws), id);
      }
    case CancelBatch(_, ids) => SettlingKeepsTerms(l, ids, id);
  }

  lemma CreationKeepsTerms(l: State, op: Op, id: int)
    requires Inv(l) && (op.Create? || op.CreateBatch?)
    ensures KeepsTerms(l, Step(l, op), id)
  {
    match op
    case Create(sender, p) => CreatedElsewhere(l, sender, p, id);
    case CreateBatch(sender, ps) => CreationsKeepTerms(l, sender, ps, id);
  }

  lemma OutsideKeepsTerms(l: State, op: Op, id: int)
    requires op.Tick? || op.Donate? || op.Allow? || op.Configure?
          || op.ReserveRange? || op.ReleaseRange? || op.ReclaimRange?
    ensures KeepsTerms(l, Step(l, op), id)
  {
    LedgerRuns.OutsideIsQuiet(l, op);
  }

  lemma SideStepKeepsTerms(l: State, op: Op, id: int)
    requires Spares(op, id)
    requires op.CloseStream? || op.Propose? || op.Accept? || op.Retract? || op.AutoClaim? || op.SweepExcess?
    ensures KeepsTerms(l, Step(l, op), id)
  {
    match op
    case CloseStream(i, completedToo) => CloseKeepsTerms(l, i, completedToo, id);
    case Accept(caller, i) => AcceptKeepsTerms(l, caller, i, id);
    case _ => LedgerRuns.SideStepIsQuiet(l, op);
  }

  lemma CloseKeepsTerms(l: State, i: int, completedToo: bool, id: int)
    requires i != id
    ensures KeepsTerms(l, Close(l, i, completedToo).0, id)
  {
  }

  lemma AcceptKeepsTerms(l: State, caller: Address, i: int, id: int)
    ensures KeepsTerms(l, AcceptRecipient(l, caller, i).0, id)
  {
  }

  lemma StepKeepsTerms(l: State, op: Op, id: int)
    requires Inv(l) && Spares(op, id)
    ensures KeepsTerms(l, Step(l, op), id)
  {
    match op
    case On(i, o) => StreamStepKeepsTerms(l, i, o, id);
    case _ =>
      if op.Create? || op.CreateBatch? {
        CreationKeepsTerms(l, op, id);
      } else if op.WithdrawBatch? || op.WithdrawBatchTo? || op.CancelBatch? {
        BatchKeepsTerms(l, op, id);
      } else if op.CloseStream? || op.Propose? || op.Accept? || op.Retract? || op.AutoClaim? || op.SweepExcess? {
        SideStepKeepsTerms(l, op, id);
      } else {
        OutsideKeepsTerms(l, op, id);
      }
  }

  lemma {:induction false} RunKeepsTerms(l: State, ops: seq<Op>, id: int)
    requires Inv(l) && RunSpares(l, ops, id)
    ensures KeepsTerms(l, Run(l, ops), id)
  {
    if |ops| > 0 {
      var m, op := Run(l, ops[..|ops| - 1]), ops[|ops| - 1];
      RunKeepsTerms(l, ops[..|ops| - 1], id);
      LedgerRuns.RunKeepsInv(l, ops[..|ops| - 1]);
      if Rejected(m, op) {
        RejectedStays(m, op);
      } else {
        StepKeepsTerms(m, op, id);
        TermsTransitive(l, m, Step(m, op), id);
      }
    }
  }

  /** The forecast comes true.  Whatever happens to the rest of the contract, the amount forecast
      for the time `m.clock.now` is what `withdraw` pays then, or nothing if the dust rule applies;
      from the end of the stream on, the dust rule never applies. */
  lemma ForecastComesTrue(l: State, ops: seq<Op>, id: int)
    requires Inv(l) && id in l.streams && RunSpares(l, ops, id)
    requires !Run(l, ops).config.globalPaused && id in Run(l, ops).streams
    requires var s, c := Run(l, ops).streams[id], Run(l, ops).clock;
             s.status != Completed && !Frozen(s, c) && !TooSoon(s, c)
    ensures var m := Run(l, ops);
            var s, c := m.streams[id], m.clock;
            && StreamStep(m, id, Withdraw(s.recipient)).1
               == (if DustBlocked(s, c) then Ok(0) else ClaimableAt(l, id, c.now))
            && (c.now >= s.end ==> !DustBlocked(s, c))
  {
    var m := Run(l, ops);
    RunKeepsTerms(l, ops, id);
    LedgerRuns.RunKeepsInv(l, ops);
    OwedBounds(m.streams[id], m.clock);
    ForecastIsClaim(l, m, id);
    WithdrawPaysClaim(m, id);
  }

  lemma ForecastIsClaim(l: State, m: State, id: int)
    requires Inv(l) && Inv(m) && id in l.streams && KeepsTerms(l, m, id) && l.clock.now <= m.clock.now
    requires m.streams[id].status != Completed
    ensures ClaimableAt(l, id, m.clock.now) == Ok(Claim(m.streams[id], m.clock))
  {
    OwedBounds(m.streams[id], m.clock);
  }

  lemma WithdrawPaysClaim(m: State, id: int)
    requires Inv(m) && id in m.streams && !m.config.globalPaused
    requires var s, c := m.streams[id], m.clock; s.status != Completed && !Frozen(s, c) && !TooSoon(s, c)
    ensures var s, c := m.streams[id], m.clock;
            StreamStep(m, id, Withdraw(s.recipient)).1 == Ok(if DustBlocked(s, c) then 0 else Claim(s, c))
  {
    OwedBounds(m.streams[id], m.clock);
  }
}
