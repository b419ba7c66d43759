/** What each call on a stream means to its caller: exactly when it is accepted, and everything an
    accepted call changes, in the fields of the record, the balances and the accrual of the moment. */
module StreamCalls {
  import opened FixedWidth
  import opened Accrual
  import opened Streams
  import opened Ledger
  import opened LedgerInvariant
  import StreamRules

  // ------------------------------------------------------------------ what moves

  /** Stream `id` has the record `t` now, and `n` tokens have gone to `to` on its account; `counted`
      says whether the liability counter was lowered. */
  ghost predicate Pays(l: State, m: State, id: int, t: Stream, to: Address, n: int, counted: bool) {
    && 0 <= n && id in l.flows
    && m == l.(streams := l.streams[id := t],
               balance := if to == Contract then l.balance else l.balance - n,
               sent := l.sent[to := l.sent[to] + n],
               liabilities := if counted then l.liabilities - n else l.liabilities,
               flows := l.flows[id := l.flows[id].(paid := l.flows[id].paid + n)],
               nonces := m.nonces)
  }

  /** The same for `n` tokens that have gone back to the sender. */
  ghost predicate Refunds(l: State, m: State, id: int, t: Stream, n: int, counted: bool) {
    && 0 <= n && id in l.flows
    && m == l.(streams := l.streams[id := t],
               balance := l.balance - n,
               sent := l.sent[t.sender := l.sent[t.sender] + n],
               liabilities := if counted then l.liabilities - n else l.liabilities,
               flows := l.flows[id := l.flows[id].(refunded := l.flows[id].refunded + n)])
  }

  /** Only the record has changed. */
  predicate Rewrites(l: State, m: State, id: int, t: Stream) { m == l.(streams := l.streams[id := t]) }

  /** `n` tokens have been pulled from `from` for the stream. */
  ghost predicate Funds(l: State, m: State, id: int, t: Stream, from: Address, n: int) {
    && 0 <= n <= l.spendable[from] && id in l.flows
    && m == l.(streams := l.streams[id := t],
               balance := l.balance + n,
               spendable := l.spendable[from := l.spendable[from] - n],
               liabilities := Min(l.liabilities + n, I128_MAX),
               flows := l.flows[id := l.flows[id].(funded := l.flows[id].funded + n)])
  }

  lemma AddZero(m: multiset<Address>, a: Address)
    ensures m[a := m[a] + 0] == m
  {
  }

  lemma CommitPays(l: State, id: int, e: StreamRules.Effect, counted: bool)
    requires Inv(l) && id in l.streams && e.Write? && e.fund == 0 && e.refund == 0
    requires e.liability == if counted then 0 - e.pay else 0
    ensures Pays(l, Commit(l, id, e), id, e.stream, e.payee, e.pay, counted) && Commit(l, id, e).nonces == l.nonces
  {
    AddZero(Add(l.sent, e.payee, e.pay), e.stream.sender);
  }

  lemma CommitRefunds(l: State, id: int, e: StreamRules.Effect, counted: bool)
    requires Inv(l) && id in l.streams && e.Write? && e.fund == 0 && e.pay == 0 && e.stream.sender != Contract
    requires e.liability == if counted then 0 - e.refund else 0
    ensures Refunds(l, Commit(l, id, e), id, e.stream, e.refund, counted)
  {
    AddZero(l.sent, e.payee);
  }

  lemma RefundOfNothing(l: State, m: State, id: int, t: Stream, counted: bool)
    requires Refunds(l, m, id, t, 0, counted)
    ensures Rewrites(l, m, id, t)
  {
    AddZero(l.sent, t.sender);
    assert l.flows[id := l.flows[id]] == l.flows;
  }

  lemma CommitFunds(l: State, id: int, e: StreamRules.Effect)
    requires Inv(l) && id in l.streams && e.Write? && e.fund == e.liability > 0 && e.pay == 0 == e.refund
    requires Funded(l, e)
    ensures Funds(l, Commit(l, id, e), id, e.stream, e.funder, e.fund)
  {
    AddZero(l.sent, e.payee);
    AddZero(l.sent, e.stream.sender);
  }

  /** A call that pays nothing leaves everything alone. */
  lemma KeepPays(l: State, id: int, to: Address, counted: bool)
    requires Inv(l) && id in l.streams
    ensures Pays(l, l, id, l.streams[id], to, 0, counted)
  {
    AddZero(l.sent, to);
    assert l.streams[id := l.streams[id]] == l.streams && l.flows[id := l.flows[id]] == l.flows;
  }

  // ------------------------------------------------------------------ the withdrawals

  /** A stream that is paused holds its money back until its end. */
  predicate HeldBack(s: Stream, c: Clock) { s.status == Paused && c.now < s.end }

  /** What the recipient could take: what has accrued and has not been withdrawn. */
  function Open(s: Stream, c: Clock): int { Accrued(s, c.now) - s.withdrawn }

  /** Less than the dust threshold is not paid while a live stream runs, unless it is the last of it. */
  function Payable(s: Stream, c: Clock): int {
    if Open(s, c) < s.dust && s.status in {Active, Paused} && c.now < s.end && Accrued(s, c.now) < s.deposit then 0
    else Open(s, c)
  }

  /** The record after `n` tokens have been paid: complete once the whole deposit is. */
  function Drawn(s: Stream, n: int, stamp: int): Stream {
    if n == 0 then s
    else
      s.(withdrawn := s.withdrawn + n, lastWithdraw := stamp,
         status := if s.status in {Active, Paused} && s.withdrawn + n == s.deposit then Completed else s.status)
  }

  /** `m` is what a payment of `n` tokens from stream `id` makes of `l`. */
  ghost predicate Draws(l: State, m: State, id: int, to: Address, n: int, stamp: int, counted: bool)
    requires id in l.streams
  {
    Pays(l, m, id, Drawn(l.streams[id], n, stamp), to, n, counted) && m.nonces == l.nonces
  }

  lemma PayoutWrites(s: Stream, c: Clock, to: Address, counted: bool, stamp: int)
    requires StreamOk(s, c) && s.status != Completed
    ensures 0 <= Open(s, c)
    ensures StreamRules.Payout(s, c, to, counted, stamp)
         == if Open(s, c) == 0 then StreamRules.Keep
            else StreamRules.Write(Drawn(s, Open(s, c), stamp), if counted then -Open(s, c) else 0, Open(s, c), to,
                                   0, 0, s.sender)
  {
    OwedBounds(s, c);
  }

  lemma PayoutDraws(l: State, id: int, to: Address, counted: bool, stamp: int, e: StreamRules.Effect)
    requires Inv(l) && id in l.streams && l.streams[id].status != Completed
    requires e == StreamRules.Payout(l.streams[id], l.clock, to, counted, stamp)
    ensures var n := Open(l.streams[id], l.clock);
            && 0 <= n && Funded(l, e) && (if e.Write? then e.pay == n else n == 0)
            && Draws(l, Commit(l, id, e), id, to, n, stamp, counted)
  {
    PayoutWrites(l.streams[id], l.clock, to, counted, stamp);
    if e.Write? {
      CommitPays(l, id, e, counted);
    } else {
      KeepPays(l, id, to, counted);
    }
  }

  lemma DustDraws(l: State, id: int, to: Address, counted: bool, stamp: int, e: StreamRules.Effect)
    requires Inv(l) && id in l.streams && l.streams[id].status != Completed
    requires e == StreamRules.PayoutUnlessDust(l.streams[id], l.clock, to, counted, stamp)
    ensures var n := Payable(l.streams[id], l.clock);
            && 0 <= n && Funded(l, e) && (if e.Write? then e.pay == n else n == 0)
            && Draws(l, Commit(l, id, e), id, to, n, stamp, counted)
  {
    if StreamRules.DustBlocked(l.streams[id], l.clock) {
      OwedBounds(l.streams[id], l.clock);
      KeepPays(l, id, to, counted);
    } else {
      PayoutDraws(l, id, to, counted, stamp, e);
    }
  }

  /** An accepted call commits the effect of its rule. */
  lemma AcceptedCommits(l: State, id: int, op: StreamOp) returns (e: StreamRules.Effect)
    requires StreamStep(l, id, op).1.Ok?
    ensures id in l.streams && Refusal(l, op) == None && Rule(l, id, op) == Ok(e) && Funded(l, e)
    ensures StreamStep(l, id, op).1.value == if e.Write? then e.pay else 0
    ensures var m, n := StreamStep(l, id, op).0, Commit(l, id, e);
            m == n.(nonces := if op.DelegatedWithdraw? && e.Write? then Add(n.nonces, l.streams[id].recipient, 1)
                              else n.nonces)
  {
    e := Rule(l, id, op).value;
  }

  lemma WithdrawAccepted(l: State, id: int, caller: Address)
    ensures StreamStep(l, id, Withdraw(caller)).1.Ok? <==>
              && !l.config.globalPaused && id in l.streams && l.streams[id].recipient == caller
              && l.clock.sequence > l.streams[id].lastWithdraw
              && l.streams[id].status != Completed && !HeldBack(l.streams[id], l.clock)
  {
  }

  /** `withdraw`: by the recipient, once per ledger number, to the recipient. */
  lemma WithdrawMeans(l: State, id: int, caller: Address)
    requires Inv(l)
    ensures var (m, r) := StreamStep(l, id, Withdraw(caller));
            && (r.Ok? <==> && !l.config.globalPaused && id in l.streams && l.streams[id].recipient == caller
                           && l.clock.sequence > l.streams[id].lastWithdraw
                           && l.streams[id].status != Completed && !HeldBack(l.streams[id], l.clock))
            && (r.Ok? ==> var n := Payable(l.streams[id], l.clock);
                          r.value == n && Draws(l, m, id, l.streams[id].recipient, n, l.clock.sequence, true))
  {
    WithdrawAccepted(l, id, caller);
    if StreamStep(l, id, Withdraw(caller)).1.Ok? {
      var e := AcceptedCommits(l, id, Withdraw(caller));
      DustDraws(l, id, l.streams[id].recipient, true, l.clock.sequence, e);
    }
  }

  lemma WithdrawToAccepted(l: State, id: int, caller: Address, to: Address)
    ensures StreamStep(l, id, WithdrawTo(caller, to)).1.Ok? <==>
              && !l.config.globalPaused && id in l.streams && l.streams[id].recipient == caller && to != Contract
              && l.streams[id].status != Completed && !HeldBack(l.streams[id], l.clock)
  {
  }

  /** `withdraw_to`: by the recipient, as often as wanted, to the destination it names. */
  lemma WithdrawToMeans(l: State, id: int, caller: Address, to: Address)
    requires Inv(l)
    ensures var (m, r) := StreamStep(l, id, WithdrawTo(caller, to));
            && (r.Ok? <==> && !l.config.globalPaused && id in l.streams && l.streams[id].recipient == caller
                           && to != Contract
                           && l.streams[id].status != Completed && !HeldBack(l.streams[id], l.clock))
            && (r.Ok? ==> var n := Payable(l.streams[id], l.clock);
                          r.value == n && Draws(l, m, id, to, n, l.streams[id].lastWithdraw, true))
  {
    WithdrawToAccepted(l, id, caller, to);
    if StreamStep(l, id, WithdrawTo(caller, to)).1.Ok? {
      var e := AcceptedCommits(l, id, WithdrawTo(caller, to));
      DustDraws(l, id, to, true, l.streams[id].lastWithdraw, e);
    }
  }

  /** A request that its key's owner has signed for now and for this amount. */
  predicate InOrder(l: State, s: Stream, d: StreamRules.Delegation) {
    && s.recipient == Account(d.key) && d.genuine && l.clock.now <= d.deadline
    && d.nonce == l.nonces[Account(d.key)] && Open(s, l.clock) >= d.minimum
    && (Open(s, l.clock) > 0 ==> d.nonce < U64_MAX)
  }

  lemma DelegatedAccepted(l: State, id: int, d: StreamRules.Delegation)
    ensures StreamStep(l, id, DelegatedWithdraw(d)).1.Ok? <==>
              && !l.config.globalPaused && id in l.streams && InOrder(l, l.streams[id], d)
              && l.clock.sequence > l.streams[id].lastWithdraw
              && l.streams[id].status != Completed && !HeldBack(l.streams[id], l.clock)
  {
  }

  lemma NonceCounted(l: State, n: State, id: int, d: StreamRules.Delegation, s: Stream, amount: int, m: State)
    requires id in l.streams && s == l.streams[id] && d.nonce == l.nonces[s.recipient]
    requires Draws(l, n, id, s.recipient, amount, l.clock.sequence, false)
    requires m == n.(nonces := if amount > 0 then Add(n.nonces, s.recipient, 1) else n.nonces)
    ensures Pays(l, m, id, Drawn(s, amount, l.clock.sequence), s.recipient, amount, false)
    ensures m.nonces == if amount > 0 then l.nonces[s.recipient := d.nonce + 1] else l.nonces
  {
  }

  lemma DelegatedRule(l: State, id: int, d: StreamRules.Delegation)
    requires id in l.streams && Refusal(l, DelegatedWithdraw(d)) == None && Rule(l, id, DelegatedWithdraw(d)).Ok?
    ensures Rule(l, id, DelegatedWithdraw(d)).value
         == StreamRules.Payout(l.streams[id], l.clock, l.streams[id].recipient, false, l.clock.sequence)
  {
  }

  lemma DelegatedPays(l: State, id: int, d: StreamRules.Delegation)
    requires Inv(l) && StreamStep(l, id, DelegatedWithdraw(d)).1.Ok?
    ensures var (m, r) := StreamStep(l, id, DelegatedWithdraw(d));
            var s, n := l.streams[id], Open(l.streams[id], l.clock);
            && r.value == n && Pays(l, m, id, Drawn(s, n, l.clock.sequence), s.recipient, n, false)
            && m.nonces == if n > 0 then l.nonces[s.recipient := d.nonce + 1] else l.nonces
  {
    var s := l.streams[id];
    DelegatedAccepted(l, id, d);
    var e := AcceptedCommits(l, id, DelegatedWithdraw(d));
    DelegatedRule(l, id, d);
    PayoutDraws(l, id, s.recipient, false, l.clock.sequence, e);
    NonceCounted(l, Commit(l, id, e), id, d, s, Open(s, l.clock), StreamStep(l, id, DelegatedWithdraw(d)).0);
  }

  /** A relayed withdrawal: signed by the key of the recipient, with its current nonce, in time, for at
      least the signed minimum; it pays the recipient, and the nonce goes up by one if it pays anything. */
  lemma DelegatedWithdrawMeans(l: State, id: int, d: StreamRules.Delegation)
    requires Inv(l)
    ensures var (m, r) := StreamStep(l, id, DelegatedWithdraw(d));
            && (r.Ok? <==> && !l.config.globalPaused && id in l.streams && InOrder(l, l.streams[id], d)
                           && l.clock.sequence > l.streams[id].lastWithdraw
                           && l.streams[id].status != Completed && !HeldBack(l.streams[id], l.clock))
            && (r.Ok? ==> var s, n := l.streams[id], Open(l.streams[id], l.clock);
                          && r.value == n && Pays(l, m, id, Drawn(s, n, l.clock.sequence), s.recipient, n, false)
                          && m.nonces == if n > 0 then l.nonces[s.recipient := d.nonce + 1] else l.nonces)
  {
    DelegatedAccepted(l, id, d);
    if StreamStep(l, id, DelegatedWithdraw(d)).1.Ok? {
      DelegatedPays(l, id, d);
    }
  }

  lemma AutoClaimAccepted(l: State, id: int)
    ensures StreamStep(l, id, TriggerAutoClaim).1.Ok? <==>
              && !l.config.globalPaused && id in l.streams && l.streams[id].status in {Active, Paused}
              && l.clock.now >= l.streams[id].end && id in l.autoClaim && l.autoClaim[id] != Contract
  {
  }

  /** An auto-claim: by anybody, once a live stream has ended, to the destination on record. */
  lemma AutoClaimMeans(l: State, id: int)
    requires Inv(l)
    ensures var (m, r) := StreamStep(l, id, TriggerAutoClaim);
            && (r.Ok? <==> && !l.config.globalPaused && id in l.streams && l.streams[id].status in {Active, Paused}
                           && l.clock.now >= l.streams[id].end && id in l.autoClaim && l.autoClaim[id] != Contract)
            && (r.Ok? ==> var n := Open(l.streams[id], l.clock);
                          r.value == n && Draws(l, m, id, l.autoClaim[id], n, l.streams[id].lastWithdraw, false))
  {
    AutoClaimAccepted(l, id);
    if StreamStep(l, id, TriggerAutoClaim).1.Ok? {
      var e := AcceptedCommits(l, id, TriggerAutoClaim);
      PayoutDraws(l, id, l.autoClaim[id], false, l.streams[id].lastWithdraw, e);
    }
  }
}
