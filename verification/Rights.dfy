/** Who may touch what: of all calls, only the calls of the entitled change anything about a stream, its
    hand-over or its auto-claim, or take anybody's tokens; and a paused stream holds its money back. */
module Rights {
  import opened FixedWidth
  import opened Accrual
  import opened Streams
  import opened Ledger
  import opened LedgerInvariant
  import opened StreamCalls
  import opened StreamTerms
  import opened BatchCalls
  import BatchTheorems
  import IdCounter
  import LedgerRuns
  import Promises
  import StreamRules

  // ------------------------------------------------------------------ the rest of the life cycle

  /** Closing: a completed stream, where allowed, or a cancelled one whose claim has been paid. */
  lemma CloseMeans(l: State, id: int, completedToo: bool)
    requires Inv(l)
    ensures var (m, r) := Close(l, id, completedToo);
            && (r.Ok? <==> id in l.streams
                           && var s := l.streams[id];
                              || (s.status == Cancelled && s.withdrawn == Accrued(s, l.clock.now))
                              || (completedToo && s.status == Completed))
            && m == if r.Ok? then l.(streams := l.streams - {id}) else l
  {
    if id in l.streams {
      OwedBounds(l.streams[id], l.clock);
    }
  }

  /** A hand-over is proposed by the sender, one at a time, to somebody new; it is accepted by the present
      recipient, and may be withdrawn by the sender until then. */
  lemma HandOverMeans(l: State, caller: Address, id: int, to: Address)
    ensures var (m, r) := ProposeRecipient(l, caller, id, to);
            && (r.Ok? <==> && !l.config.globalPaused && id in l.streams && l.streams[id].sender == caller
                           && l.streams[id].recipient != to && id !in l.pending)
            && m == if r.Ok? then l.(pending := l.pending[id := to]) else l
    ensures var (m, r) := AcceptRecipient(l, caller, id);
            && (r.Ok? <==> && !l.config.globalPaused && id in l.streams && l.streams[id].recipient == caller
                           && id in l.pending)
            && m == if r.Ok? then l.(streams := l.streams[id := l.streams[id].(recipient := l.pending[id])],
                                     pending := l.pending - {id}) else l
    ensures var (m, r) := WithdrawProposal(l, caller, id);
            && (r.Ok? <==> id in l.streams && l.streams[id].sender == caller && id in l.pending)
            && m == if r.Ok? then l.(pending := l.pending - {id}) else l
  {
  }

  /** The destination of auto-claims is set and cleared by the recipient. */
  lemma AutoClaimSetMeans(l: State, caller: Address, id: int, to: Option<Address>)
    ensures var (m, r) := SetAutoClaim(l, caller, id, to);
            && (r.Ok? <==> id in l.streams && l.streams[id].recipient == caller && to != Some(Contract))
            && m == if r.Err? then l
                    else if to.Some? then l.(autoClaim := l.autoClaim[id := to.value])
                    else l.(autoClaim := l.autoClaim - {id})
  {
  }

  /** A sweep: by the administrator alone, of what lies beyond the liability counter, to the address given. */
  lemma SweepMeans(l: State, caller: Address, to: Address)
    requires Inv(l)
    ensures var (m, r) := Sweep(l, caller, to);
            && (r.Ok? <==> caller == l.config.admin)
            && (r.Err? ==> m == l)
            && (r.Ok? ==> && r.value == Max(l.balance - l.liabilities, 0)
                          && m == l.(balance := if to == Contract then l.balance else l.balance - r.value,
                                     sent := l.sent[to := l.sent[to] + r.value]))
  {
    AddZero(l.sent, to);
  }

  // ------------------------------------------------------------------ who may touch a stream

  /** Calls on one stream: payments by the recipient or on its signature, auto-claims to the destination
      it has set, terms by the sender, stops by the sender or the administrator, top-ups by anybody. */
  predicate MayCall(l: State, id: int, o: StreamOp)
    requires id in l.streams
  {
    var s := l.streams[id];
    match o
    case Withdraw(caller) => caller == s.recipient
    case WithdrawTo(caller, _) => caller == s.recipient
    case DelegatedWithdraw(d) => d.genuine && Account(d.key) == s.recipient
    case TriggerAutoClaim => id in l.autoClaim && l.clock.now >= s.end
    case UpdateRate(caller, _) => caller == s.sender
    case DecreaseRate(caller, _) => caller == s.sender
    case Shorten(caller, _) => caller == s.sender
    case Extend(caller, _) => caller == s.sender
    case TopUp(funder, _) => true
    case Pause(caller, _) => caller == s.sender || caller == l.config.admin
    case Resume(caller, _) => caller == s.sender || caller == l.config.admin
    case Cancel(caller, _) => caller == s.sender || caller == l.config.admin
  }

  /** The calls that may change the record or the books of stream `id`. */
  predicate MayTouch(l: State, op: Op, id: int)
    requires id in l.streams
  {
    var s := l.streams[id];
    match op
    case On(i, o) => i == id && MayCall(l, id, o)
    case WithdrawBatch(recipient, ids) => recipient == s.recipient && id in ids
    case WithdrawBatchTo(recipient, ws) => recipient == s.recipient && exists i :: 0 <= i < |ws| && ws[i].id == id
    case CancelBatch(sender, ids) => sender == s.sender && id in ids
    case Accept(caller, i) => i == id && caller == s.recipient && id in l.pending
    case CloseStream(i, _) => i == id
    case _ => false
  }

  /** Record and books of stream `id` are as they were. */
  ghost predicate Same(l: State, m: State, id: int)
    requires id in l.streams && id in l.flows
  {
    id in m.streams && m.streams[id] == l.streams[id] && id in m.flows && m.flows[id] == l.flows[id]
  }

  lemma WithdrawalsRefused(l: State, id: int, o: StreamOp)
    requires Inv(l) && id in l.streams && !MayCall(l, id, o)
    requires o.Withdraw? || o.WithdrawTo? || o.DelegatedWithdraw? || o.TriggerAutoClaim?
    ensures StreamStep(l, id, o).1.Err?
  {
    if o.Withdraw? {
      WithdrawAccepted(l, id, o.caller);
    } else if o.WithdrawTo? {
      WithdrawToAccepted(l, id, o.caller, o.destination);
    } else if o.DelegatedWithdraw? {
      DelegatedAccepted(l, id, o.request);
    } else {
      AutoClaimAccepted(l, id);
    }
  }

  lemma TermsRefused(l: State, id: int, o: StreamOp)
    requires Inv(l) && id in l.streams && !MayCall(l, id, o)
    requires o.UpdateRate? || o.DecreaseRate? || o.Shorten? || o.Extend?
    ensures StreamStep(l, id, o).1.Err?
  {
    if o.UpdateRate? {
      UpdateRateAccepted(l, id, o.caller, o.rate);
    } else if o.DecreaseRate? {
      DecreaseRateAccepted(l, id, o.caller, o.rate);
    } else if o.Shorten? {
      ShortenAccepted(l, id, o.caller, o.end);
    } else {
      ExtendAccepted(l, id, o.caller, o.end);
    }
  }

  lemma StopsRefused(l: State, id: int, o: StreamOp)
    requires Inv(l) && id in l.streams && !MayCall(l, id, o) && (o.Pause? || o.Resume? || o.Cancel?)
    ensures StreamStep(l, id, o).1.Err?
  {
    if o.Cancel? {
      CancelAccepted(l, id, o.caller, o.asAdmin);
    } else {
      PauseAccepted(l, id, o.caller, o.asAdmin);
    }
  }

  lemma OthersRefused(l: State, id: int, o: StreamOp)
    requires Inv(l) && id in l.streams && !MayCall(l, id, o)
    ensures StreamStep(l, id, o).1.Err? && StreamStep(l, id, o).0 == l
  {
    if o.Pause? || o.Resume? || o.Cancel? {
      StopsRefused(l, id, o);
    } else if o.UpdateRate? || o.DecreaseRate? || o.Shorten? || o.Extend? {
      TermsRefused(l, id, o);
    } else {
      WithdrawalsRefused(l, id, o);
    }
    LedgerRuns.RefusedStays(l, id, o);
  }

  lemma AppliedElsewhere(l: State, i: int, r: Result<StreamRules.Effect>, id: int)
    requires i != id && id in l.streams && id in l.flows
    ensures Same(l, Apply(l, i, r).0, id)
  {
  }

  lemma CalledElsewhere(l: State, i: int, o: StreamOp, id: int)
    requires i != id && id in l.streams && id in l.flows
    ensures Same(l, StreamStep(l, i, o).0, id)
  {
    if Refusal(l, o) == None && i in l.streams {
      AppliedElsewhere(l, i, Rule(l, i, o), id);
    }
  }

  lemma CallTouches(l: State, op: Op, id: int)
    requires Inv(l) && id in l.streams && op.On? && !MayTouch(l, op, id)
    ensures Same(l, Step(l, op), id)
  {
    if op.id == id {
      OthersRefused(l, id, op.op);
    } else {
      CalledElsewhere(l, op.id, op.op, id);
    }
  }

  lemma CreationTouches(l: State, op: Op, id: int)
    requires Inv(l) && id in l.streams && (op.Create? || op.CreateBatch?)
    ensures Same(l, Step(l, op), id)
  {
    if op.Create? {
      Promises.CreationMeans(l, op.sender, op.params);
    } else {
      var (m, r) := CreateStreams(l, op.sender, op.batch);
      if r.Ok? {
        Promises.BatchMeans(l, op.sender, op.batch, m, r.value);
      } else {
        IdCounter.RefusedBatchKeepsIds(l, op.sender, op.batch);
      }
    }
  }

  /** An accepted batch names streams of its caller's only. */
  lemma PlainIsOwn(l: State, recipient: Address, ids: seq<int>, id: int)
    requires Inv(l) && BatchWithdraw(l, recipient, ids).1.Ok? && BatchTheorems.Names(Plain(ids), id)
    ensures id in ids && id in l.streams && l.streams[id].recipient == recipient
  {
    BatchWithdrawMeans(l, recipient, ids);
    var i :| 0 <= i < |Plain(ids)| && Plain(ids)[i].id == id;
    assert ids[i] == id && Fits(l, recipient, Item(ids[i], None));
  }

  lemma WithdrawBatchTouches(l: State, op: Op, id: int)
    requires Inv(l) && id in l.streams && op.WithdrawBatch? && !MayTouch(l, op, id)
    ensures Same(l, Step(l, op), id)
  {
    BatchWithdrawMeans(l, op.recipient, op.ids);
    if BatchWithdraw(l, op.recipient, op.ids).1.Ok? && BatchTheorems.Names(Plain(op.ids), id) {
      PlainIsOwn(l, op.recipient, op.ids, id);
    }
  }

  lemma DirectedIsOwn(l: State, recipient: Address, ws: seq<WithdrawToParam>, id: int)
    requires Inv(l) && BatchWithdrawTo(l, recipient, ws).1.Ok? && BatchTheorems.Names(Directed(ws), id)
    ensures exists i :: 0 <= i < |ws| && ws[i].id == id
    ensures id in l.streams && l.streams[id].recipient == recipient
  {
    BatchWithdrawToMeans(l, recipient, ws);
    var i :| 0 <= i < |Directed(ws)| && Directed(ws)[i].id == id;
    assert ws[i].id == id && Fits(l, recipient, Item(ws[i].id, Some(ws[i].destination)));
  }

  lemma DirectedBatchTouches(l: State, op: Op, id: int)
    requires Inv(l) && id in l.streams && op.WithdrawBatchTo? && !MayTouch(l, op, id)
    ensures Same(l, Step(l, op), id)
  {
    BatchWithdrawToMeans(l, op.recipient, op.directed);
    if BatchWithdrawTo(l, op.recipient, op.directed).1.Ok? && BatchTheorems.Names(Directed(op.directed), id) {
      DirectedIsOwn(l, op.recipient, op.directed, id);
    }
  }

  lemma BulkIsOwn(l: State, sender: Address, ids: seq<int>, id: int)
    requires Inv(l) && BulkCancel(l, sender, ids).1.Ok? && id in ids
    ensures id in l.streams && l.streams[id].sender == sender
  {
    BulkCancelMeans(l, sender, ids);
    var i :| 0 <= i < |ids| && ids[i] == id;
    assert MayCancel(l, sender, ids[i]);
  }

  lemma BulkCancelTouches(l: State, op: Op, id: int)
    requires Inv(l) && id in l.streams && op.CancelBatch? && !MayTouch(l, op, id)
    ensures Same(l, Step(l, op), id)
  {
    BulkCancelMeans(l, op.sender, op.ids);
    if BulkCancel(l, op.sender, op.ids).1.Ok? && id in op.ids {
      BulkIsOwn(l, op.sender, op.ids, id);
    }
  }

  lemma CloseOrAcceptTouches(l: State, op: Op, id: int)
    requires Inv(l) && id in l.streams && !MayTouch(l, op, id) && (op.CloseStream? || op.Accept?)
    ensures Same(l, Step(l, op), id)
  {
    if op.CloseStream? {
      CloseMeans(l, op.id, op.completedToo);
    } else {
      HandOverMeans(l, op.caller, op.id, op.caller);
    }
  }

  lemma ProposalTouches(l: State, op: Op, id: int)
    requires Inv(l) && id in l.streams && (op.Propose? || op.Retract?)
    ensures Same(l, Step(l, op), id)
  {
    if op.Propose? {
      HandOverMeans(l, op.caller, op.id, op.to);
    } else {
      HandOverMeans(l, op.caller, op.id, op.caller);
    }
  }

  lemma SideStepTouches(l: State, op: Op, id: int)
    requires Inv(l) && id in l.streams && (op.AutoClaim? || op.SweepExcess?)
    ensures Same(l, Step(l, op), id)
  {
    if op.AutoClaim? {
      AutoClaimSetMeans(l, op.caller, op.id, op.destination);
    } else {
      SweepMeans(l, op.caller, op.to);
    }
  }

  lemma WorldTouches(l: State, op: Op, id: int)
    requires Inv(l) && id in l.streams && (op.Tick? || op.Donate? || op.Allow? || op.Configure?)
    ensures Same(l, Step(l, op), id)
  {
  }

  lemma RangeLeaves(l: State, op: Op)
    requires op.ReserveRange? || op.ReleaseRange? || op.ReclaimRange?
    ensures Step(l, op) == l.(ids := Step(l, op).ids)
  {
  }

  /** Of all calls, only these change the record or the books of a stream, or remove it. */
  lemma OnlyTheEntitledTouch(l: State, op: Op, id: int)
    requires Inv(l) && id in l.streams && !MayTouch(l, op, id)
    ensures id in l.flows && Same(l, Step(l, op), id)
  {
    if op.On? {
      CallTouches(l, op, id);
    } else if op.Create? || op.CreateBatch? {
      CreationTouches(l, op, id);
    } else if op.WithdrawBatch? {
      WithdrawBatchTouches(l, op, id);
    } else if op.WithdrawBatchTo? {
      DirectedBatchTouches(l, op, id);
    } else if op.CancelBatch? {
      BulkCancelTouches(l, op, id);
    } else if op.CloseStream? || op.Accept? {
      CloseOrAcceptTouches(l, op, id);
    } else if op.Propose? || op.Retract? {
      ProposalTouches(l, op, id);
    } else if op.AutoClaim? || op.SweepExcess? {
      SideStepTouches(l, op, id);
    } else if op.Tick? || op.Donate? || op.Allow? || op.Configure? {
      WorldTouches(l, op, id);
    } else {
      RangeLeaves(l, op);
    }
  }

  // ------------------------------------------------------------------ who may arrange and who pays

  /** The calls that may change the pending hand-over of stream `id`. */
  predicate MayHandOver(l: State, op: Op, id: int) {
    match op
    case Propose(caller, i, _) => i == id && id in l.streams && caller == l.streams[id].sender
    case Retract(caller, i) => i == id && id in l.streams && caller == l.streams[id].sender
    case Accept(caller, i) => i == id && id in l.streams && caller == l.streams[id].recipient
    case _ => false
  }

  predicate MayDirect(l: State, op: Op, id: int) {
    op.AutoClaim? && op.id == id && id in l.streams && op.caller == l.streams[id].recipient
  }

  /** The calls that may take tokens from `a`: its own creations and top-ups; `Allow` is the owner's own
      decision about what the contract may take. */
  predicate MayPull(op: Op, a: Address) {
    match op
    case Create(sender, _) => sender == a
    case CreateBatch(sender, _) => sender == a
    case On(_, TopUp(funder, _)) => funder == a
    case Allow(owner, _) => owner == a
    case _ => false
  }

  predicate SameEntry(x: map<int, Address>, y: map<int, Address>, id: int) {
    (id in x <==> id in y) && (id in x ==> x[id] == y[id])
  }

  /** Hand-overs and auto-claims are as they were, and `a` has all its tokens unless the call may pull them. */
  ghost predicate Undirected(l: State, m: State, op: Op, a: Address) {
    && m.pending == l.pending && m.autoClaim == l.autoClaim
    && (!MayPull(op, a) ==> m.spendable[a] >= l.spendable[a])
  }

  lemma CommitPulls(l: State, id: int, e: StreamRules.Effect, a: Address)
    requires Funded(l, e)
    ensures var m := Commit(l, id, e);
            && m.pending == l.pending && m.autoClaim == l.autoClaim
            && (m.spendable[a] == l.spendable[a] || (e.Write? && e.fund > 0 && e.funder == a))
  {
  }

  lemma CallPulls(l: State, op: Op, a: Address)
    requires Inv(l) && op.On?
    ensures Undirected(l, Step(l, op), op, a)
  {
    var id, o := op.id, op.op;
    if StreamStep(l, id, o).1.Err? {
      LedgerRuns.RefusedStays(l, id, o);
    } else {
      var e := AcceptedCommits(l, id, o);
      if e.Write? {
        LedgerRuns.RuleCounts(l, id, o);
      }
      if o.TopUp? {
        TopUpWrites(l, id, o.funder, o.amount, e);
      }
      CommitPulls(l, id, e, a);
    }
  }

  lemma CreationPulls(l: State, op: Op, a: Address)
    requires Inv(l) && (op.Create? || op.CreateBatch?)
    ensures Undirected(l, Step(l, op), op, a)
  {
    if op.Create? {
      Promises.CreationMeans(l, op.sender, op.params);
    } else {
      var (m, r) := CreateStreams(l, op.sender, op.batch);
      if r.Ok? {
        Promises.BatchMeans(l, op.sender, op.batch, m, r.value);
      } else {
        IdCounter.RefusedBatchKeepsIds(l, op.sender, op.batch);
      }
    }
  }

  lemma {:induction false} ItemsPullNothing(l: State, recipient: Address, items: seq<Item>)
    ensures var m := WithdrawItems(l, recipient, items).0;
            m.pending == l.pending && m.autoClaim == l.autoClaim && m.spendable == l.spendable
  {
    if |items| > 0 {
      var m := WithdrawItems(l, recipient, items[..|items| - 1]).0;
      ItemsPullNothing(l, recipient, items[..|items| - 1]);
      ItemPullsNothing(m, recipient, items[|items| - 1]);
      LedgerRuns.ItemsEitherWay(l, recipient, items);
    }
  }

  lemma UnfundedPulls(l: State, id: int, r: Result<StreamRules.Effect>)
    requires r.Ok? && r.value.Write? ==> r.value.fund == 0
    ensures var m := Apply(l, id, r).0;
            m.pending == l.pending && m.autoClaim == l.autoClaim && m.spendable == l.spendable
  {
  }

  lemma ItemPullsNothing(l: State, recipient: Address, item: Item)
    ensures var m := WithdrawItem(l, recipient, item).0;
            m.pending == l.pending && m.autoClaim == l.autoClaim && m.spendable == l.spendable
  {
    if item.id in l.streams {
      var r := ItemRule(l.streams[item.id], l.clock, recipient, item);
      if r.Ok? && r.value.Write? {
        LedgerRuns.ItemIsNotFunded(l.streams[item.id], l.clock, recipient, item);
      }
      UnfundedPulls(l, item.id, r);
    }
  }

  lemma BatchWithdrawsPull(l: State, recipient: Address, ids: seq<int>, ws: seq<WithdrawToParam>)
    ensures var m := BatchWithdraw(l, recipient, ids).0;
            m.pending == l.pending && m.autoClaim == l.autoClaim && m.spendable == l.spendable
    ensures var m := BatchWithdrawTo(l, recipient, ws).0;
            m.pending == l.pending && m.autoClaim == l.autoClaim && m.spendable == l.spendable
  {
    ItemsPullNothing(l, recipient, Plain(ids));
    ItemsPullNothing(l, recipient, Directed(ws));
  }

  lemma BulkCancelPulls(l: State, sender: Address, ids: seq<int>)
    requires Inv(l)
    ensures var m := BulkCancel(l, sender, ids).0;
            m.pending == l.pending && m.autoClaim == l.autoClaim && m.spendable == l.spendable
  {
    BulkCancelMeans(l, sender, ids);
  }

  lemma BatchPulls(l: State, op: Op, a: Address)
    requires Inv(l) && (op.WithdrawBatch? || op.WithdrawBatchTo? || op.CancelBatch?)
    ensures Undirected(l, Step(l, op), op, a)
  {
    if op.WithdrawBatch? {
      BatchWithdrawsPull(l, op.recipient, op.ids, []);
    } else if op.WithdrawBatchTo? {
      BatchWithdrawsPull(l, op.recipient, [], op.directed);
    } else {
      BulkCancelPulls(l, op.sender, op.ids);
    }
  }

  lemma OutsidePulls(l: State, op: Op, a: Address)
    requires op.Tick? || op.Donate? || op.Allow? || op.Configure?
    ensures Undirected(l, Step(l, op), op, a)
  {
  }

  lemma ClosePulls(l: State, op: Op, a: Address)
    requires Inv(l) && op.CloseStream?
    ensures Undirected(l, Step(l, op), op, a)
  {
    CloseMeans(l, op.id, op.completedToo);
  }

  lemma HandOverDirects(l: State, op: Op, id: int)
    requires op.Propose? || op.Retract? || op.Accept?
    ensures var m := Step(l, op);
            && (!MayHandOver(l, op, id) ==> SameEntry(l.pending, m.pending, id))
            && m.autoClaim == l.autoClaim && m.spendable == l.spendable
  {
    if op.Propose? {
      HandOverMeans(l, op.caller, op.id, op.to);
    } else {
      HandOverMeans(l, op.caller, op.id, op.caller);
    }
  }

  lemma AutoClaimDirects(l: State, op: Op, id: int)
    requires op.AutoClaim?
    ensures var m := Step(l, op);
            && (!MayDirect(l, op, id) ==> SameEntry(l.autoClaim, m.autoClaim, id))
            && m.pending == l.pending && m.spendable == l.spendable
  {
    AutoClaimSetMeans(l, op.caller, op.id, op.destination);
  }

  lemma SweepDirects(l: State, op: Op)
    requires Inv(l) && op.SweepExcess?
    ensures var m := Step(l, op);
            m.pending == l.pending && m.autoClaim == l.autoClaim && m.spendable == l.spendable
  {
    SweepMeans(l, op.caller, op.to);
  }

  lemma OthersDirectNothing(l: State, op: Op, a: Address)
    requires Inv(l) && !op.Propose? && !op.Retract? && !op.Accept? && !op.AutoClaim? && !op.SweepExcess?
    ensures Undirected(l, Step(l, op), op, a)
  {
    if op.On? {
      CallPulls(l, op, a);
    } else if op.Create? || op.CreateBatch? {
      CreationPulls(l, op, a);
    } else if op.WithdrawBatch? || op.WithdrawBatchTo? || op.CancelBatch? {
      BatchPulls(l, op, a);
    } else if op.ReserveRange? || op.ReleaseRange? || op.ReclaimRange? {
      RangeLeaves(l, op);
    } else if op.CloseStream? {
      ClosePulls(l, op, a);
    } else {
      OutsidePulls(l, op, a);
    }
  }

  /** Of all calls, only the sender's and the recipient's own change a hand-over, only the recipient's the
      destination of auto-claims, and only an owner's own calls take that owner's tokens. */
  lemma OnlyTheEntitledDirect(l: State, op: Op, id: int, a: Address)
    requires Inv(l)
    ensures !MayHandOver(l, op, id) ==> SameEntry(l.pending, Step(l, op).pending, id)
    ensures !MayDirect(l, op, id) ==> SameEntry(l.autoClaim, Step(l, op).autoClaim, id)
    ensures !MayPull(op, a) ==> Step(l, op).spendable[a] >= l.spendable[a]
  {
    if op.Propose? || op.Retract? || op.Accept? {
      HandOverDirects(l, op, id);
    } else if op.AutoClaim? {
      AutoClaimDirects(l, op, id);
    } else if op.SweepExcess? {
      SweepDirects(l, op);
    } else {
      OthersDirectNothing(l, op, a);
    }
  }

  // ------------------------------------------------------------------ a paused stream

  /** Nothing has been paid out of stream `id`, and it is still paused. */
  ghost predicate PaidNothing(l: State, m: State, id: int)
    requires id in l.streams && id in m.streams && id in l.flows && id in m.flows
  {
    && m.streams[id].status == Paused && m.streams[id].withdrawn == l.streams[id].withdrawn
    && m.flows[id].paid == l.flows[id].paid
  }

  lemma TermsPayNothing(l: State, id: int, o: StreamOp)
    requires Inv(l) && id in l.streams && l.streams[id].status == Paused
    requires o.UpdateRate? || o.DecreaseRate? || o.Shorten? || o.Extend? || o.TopUp?
    ensures id in l.flows && id in StreamStep(l, id, o).0.streams && id in StreamStep(l, id, o).0.flows
    ensures PaidNothing(l, StreamStep(l, id, o).0, id)
  {
    if StreamStep(l, id, o).1.Err? {
      LedgerRuns.RefusedStays(l, id, o);
    } else if o.UpdateRate? {
      UpdateRateMeans(l, id, o.caller, o.rate, 0);
    } else if o.DecreaseRate? {
      DecreaseRateMeans(l, id, o.caller, o.rate, 0);
    } else if o.Shorten? {
      ShortenMeans(l, id, o.caller, o.end, 0);
    } else if o.Extend? {
      ExtendMeans(l, id, o.caller, o.end, 0);
    } else {
      TopUpMeans(l, id, o.funder, o.amount, 0);
    }
  }

  lemma HeldBackRefuses(l: State, id: int, o: StreamOp)
    requires Inv(l) && id in l.streams && HeldBack(l.streams[id], l.clock)
    requires o.Withdraw? || o.WithdrawTo? || o.DelegatedWithdraw? || o.TriggerAutoClaim? || o.Pause?
    ensures StreamStep(l, id, o).1.Err? && StreamStep(l, id, o).0 == l
  {
    if o.Withdraw? {
      WithdrawAccepted(l, id, o.caller);
    } else if o.WithdrawTo? {
      WithdrawToAccepted(l, id, o.caller, o.destination);
    } else if o.DelegatedWithdraw? {
      DelegatedAccepted(l, id, o.request);
    } else if o.TriggerAutoClaim? {
      AutoClaimAccepted(l, id);
    } else {
      PauseAccepted(l, id, o.caller, o.asAdmin);
    }
    LedgerRuns.RefusedStays(l, id, o);
  }

  /** Neither batch of withdrawals that names the stream is accepted. */
  lemma HeldBackRefusesBatches(l: State, id: int, recipient: Address, ids: seq<int>, ws: seq<WithdrawToParam>)
    requires Inv(l) && id in l.streams && HeldBack(l.streams[id], l.clock)
    ensures id in ids ==> BatchWithdraw(l, recipient, ids).1.Err?
    ensures (exists i :: 0 <= i < |ws| && ws[i].id == id) ==> BatchWithdrawTo(l, recipient, ws).1.Err?
  {
    if id in ids {
      var i :| 0 <= i < |ids| && ids[i] == id;
      assert !Fits(l, recipient, Item(ids[i], None));
      BatchWithdrawMeans(l, recipient, ids);
    }
    if exists i :: 0 <= i < |ws| && ws[i].id == id {
      var i :| 0 <= i < |ws| && ws[i].id == id;
      assert !Fits(l, recipient, Item(ws[i].id, Some(ws[i].destination)));
      BatchWithdrawToMeans(l, recipient, ws);
    }
  }

  /** A call that resumes the stream. */
  ghost predicate Resumes(l: State, op: Op, id: int) {
    op.On? && op.id == id && op.op.Resume? && StreamStep(l, id, op.op).1.Ok?
  }

  lemma HeldCall(l: State, op: Op, id: int)
    requires Inv(l) && id in l.streams && HeldBack(l.streams[id], l.clock) && op.On? && op.id == id
    requires !Resumes(l, op, id) && id in Step(l, op).streams && Step(l, op).streams[id].status != Cancelled
    ensures id in l.flows && id in Step(l, op).flows && PaidNothing(l, Step(l, op), id)
  {
    var o := op.op;
    if o.UpdateRate? || o.DecreaseRate? || o.Shorten? || o.Extend? || o.TopUp? {
      TermsPayNothing(l, id, o);
    } else if o.Resume? {
      LedgerRuns.RefusedStays(l, id, o);
    } else if o.Cancel? {
      HeldCancel(l, id, o);
    } else {
      HeldBackRefuses(l, id, o);
    }
  }

  lemma HeldCancel(l: State, id: int, o: StreamOp)
    requires Inv(l) && id in l.streams && o.Cancel? && id in StreamStep(l, id, o).0.streams
    requires StreamStep(l, id, o).0.streams[id].status != Cancelled
    ensures StreamStep(l, id, o).0 == l
  {
    if StreamStep(l, id, o).1.Ok? {
      CancelMeans(l, id, o.caller, o.asAdmin, 0);
    } else {
      LedgerRuns.RefusedStays(l, id, o);
    }
  }

  lemma HeldBatch(l: State, op: Op, id: int)
    requires Inv(l) && id in l.streams && HeldBack(l.streams[id], l.clock)
    requires op.WithdrawBatch? || op.WithdrawBatchTo? || op.CancelBatch?
    requires id in Step(l, op).streams && Step(l, op).streams[id].status != Cancelled
    ensures id in l.flows && Same(l, Step(l, op), id)
  {
    if !MayTouch(l, op, id) {
      OnlyTheEntitledTouch(l, op, id);
    } else if op.WithdrawBatch? {
      HeldBackRefusesBatches(l, id, op.recipient, op.ids, []);
    } else if op.WithdrawBatchTo? {
      HeldBackRefusesBatches(l, id, op.recipient, [], op.directed);
    } else {
      BulkCancelMeans(l, op.sender, op.ids);
    }
  }

  /** A step on a paused stream that has not ended: unless the call resumes or cancels it, nothing is paid
      out of it, and it stays paused. */
  lemma HeldStep(l: State, op: Op, id: int)
    requires Inv(l) && id in l.streams && HeldBack(l.streams[id], l.clock) && !Resumes(l, op, id)
    requires id in Step(l, op).streams && Step(l, op).streams[id].status != Cancelled
    ensures id in l.flows && id in Step(l, op).flows && PaidNothing(l, Step(l, op), id)
  {
    if op.On? && op.id == id {
      HeldCall(l, op, id);
    } else if op.WithdrawBatch? || op.WithdrawBatchTo? || op.CancelBatch? {
      HeldBatch(l, op, id);
    } else if op.Accept? && op.id == id {
      HandOverMeans(l, op.caller, id, op.caller);
    } else if op.CloseStream? && op.id == id {
      CloseMeans(l, id, op.completedToo);
    } else {
      OnlyTheEntitledTouch(l, op, id);
    }
  }

  /** Throughout the run the stream is there, not cancelled, completed or past its end, and not resumed. */
  ghost predicate NeitherResumedNorOver(l: State, ops: seq<Op>, id: int) {
    var m := Run(l, ops);
    && id in m.streams && m.streams[id].status != Cancelled && m.streams[id].status != Completed
    && m.clock.now < m.streams[id].end
    && (|ops| > 0 ==> var before := ops[..|ops| - 1];
                      NeitherResumedNorOver(l, before, id) && !Resumes(Run(l, before), ops[|ops| - 1], id))
  }

  /** After an accepted pause, no call of any run pays anything out of the stream until it is resumed,
      cancelled or past its end. */
  lemma {:induction false} PausedPaysNothing(l: State, ops: seq<Op>, id: int)
    requires Inv(l) && id in l.streams && l.streams[id].status == Paused && NeitherResumedNorOver(l, ops, id)
    ensures id in l.flows && id in Run(l, ops).flows && PaidNothing(l, Run(l, ops), id)
  {
    if |ops| > 0 {
      var before, op := ops[..|ops| - 1], ops[|ops| - 1];
      PausedPaysNothing(l, before, id);
      LedgerRuns.RunKeepsInv(l, before);
      HeldStep(Run(l, before), op, id);
    }
  }
}
