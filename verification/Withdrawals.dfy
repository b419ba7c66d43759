/** The withdrawal entry points over the stored state.  Each caps what it pays by the contract's
    balance, computes in machine integers and adjusts the counters defensively; each is proved to do
    exactly what the corresponding rule of the value model says. */
module Withdrawals {
  import opened FixedWidth
  import opened Accrual
  import opened Streams
  import opened StreamRules
  import opened Ledger
  import opened LedgerInvariant
  import opened Storage

  /** `calculate_accrued`. */
  function CalculateAccrued(s: Stream, now: int): Result<int> {
    if s.status == Completed then Ok(s.deposit)
    else if s.status == Cancelled then
      if s.cancelledAt == None then Err(InvalidState) else Ok(AccruedAt(s, s.cancelledAt.value))
    else Ok(AccruedAt(s, now))
  }

  /** What a payout saves and sends. */
  function Paying(s: Stream, amount: nat, to: Address, tracked: bool): Effect {
    Write(s, if tracked then 0 - amount else 0, amount, to, 0, 0, s.sender)
  }

  /** On a valid record the machine arithmetic is exact. */
  lemma MachineClaim(s: Stream, c: Clock)
    requires StreamOk(s, c) && ClockOk(c) && s.status != Completed
    ensures CalculateAccrued(s, c.now) == Ok(Accrued(s, c.now))
    ensures 0 <= Claim(s, c) <= Owed(s) && 0 <= s.withdrawn <= Accrued(s, c.now) <= s.deposit
  {
    OwedBounds(s, c);
    FixedWidthIsExact(Checkpoint(s), s.rate, AccrualTime(s, c.now));
  }

  /** The balance and the liability counter cover every lawful payout. */
  lemma PayoutIsCovered(l: State, id: int, e: Effect)
    requires Inv(l) && id in l.streams && e.Write? && EffectOk(l.streams[id], e, l.clock) && e.fund == 0
    ensures e.pay <= l.balance && e.pay <= l.liabilities <= I128_MAX
    ensures forall k | k in l.streams :: 0 <= k < U64_MAX
  {
    ClaimIsPayable(l, id);
    OwedBounds(e.stream, l.clock);
  }

  /** A payout in the order in which the code performs it. */
  lemma PayingCommits(l: State, id: int, s: Stream, amount: nat, to: Address, tracked: bool)
    requires l.liabilities <= I128_MAX
    ensures Commit(l, id, Paying(s, amount, to, tracked))
         == Record(Send(l.(streams := l.streams[id := s],
                           liabilities := if tracked then l.liabilities - amount else l.liabilities), to, amount),
                   id, 0, amount, 0)
  {
    var saved := l.(streams := l.streams[id := s],
                    liabilities := if tracked then l.liabilities - amount else l.liabilities);
    SendZero(Send(saved, to, amount), s.sender);
  }

  /** The end of every payout: the record is saved, the counter of paused streams and, where the
      entry point does so, the liability counter are adjusted, and the tokens are sent. */
  method PayOut(env: Env, id: int, s: Stream, amount: nat, to: Address, tracked: bool)
    requires env.TablesOk() && forall k | k in env.streams :: 0 <= k < U64_MAX
    requires id in env.streams && s.recipient == env.streams[id].recipient
    requires amount <= env.balance && amount <= env.totalLiabilities <= I128_MAX
    modifies env
    ensures env.TablesOk()
    ensures env.View() == Commit(old(env.View()), id, Paying(s, amount, to, tracked))
  {
    PayingCommits(env.View(), id, s, amount, to, tracked);
    SaveStream(env, id, s);
    if tracked {
      LowerTotalLiabilities(env, amount);
    }
    PushToken(env, to, amount);
    Book(env, id, 0, amount, 0);
  }

  /** A lawful payout of an entry point, from the checks to the reply. */
  method PayStep(env: Env, id: int, ghost op: StreamOp, e: Effect, tracked: bool)
    requires env.Valid() && id in env.streams
    requires Refusal(env.View(), op) == None && Rule(env.View(), id, op) == Ok(e) && !op.DelegatedWithdraw?
    requires e.Write? && e == Paying(e.stream, e.pay, e.payee, tracked)
    modifies env
    ensures env.Valid()
    ensures (env.View(), Ok(e.pay)) == StreamStep(old(env.View()), id, op)
  {
    ghost var l := env.View();
    RuleOk(l, id, op);
    StreamStepKeepsInv(l, id, op);
    PayoutIsCovered(l, id, e);
    PayOut(env, id, e.stream, e.pay, e.payee, tracked);
    ValidAt(env, StreamStep(l, id, op).0);
  }

  // ------------------------------------------------------------------ by the recipient

  /** `withdraw` with its cap by the contract's balance. */
  function CappedWithdraw(s: Stream, c: Clock, caller: Address, balance: int): Result<Effect> {
    var amount := Min(Claim(s, c), balance);
    if caller != s.recipient then Err(HostTrap)
    else if TooSoon(s, c) then Err(WithdrawalTooFrequent)
    else if s.status == Completed || Frozen(s, c) then Err(InvalidState)
    else if amount <= 0 || (amount < s.dust && !IsTerminal(s, c.now) && s.withdrawn + amount < s.deposit) then Ok(Keep)
    else Ok(Paying(PaidOut(s, amount, c.sequence), amount, s.recipient, true))
  }

  /** `withdraw` up to the point where it writes: the refusals, the claim and its caps.  When the
      balance covers what is owed, as it does in every run, the cap makes no difference. */
  method CheckWithdraw(stream: Stream, clock: Clock, caller: Address, balance: int) returns (r: Result<Effect>)
    requires StreamOk(stream, clock) && ClockOk(clock) && 0 <= balance
    ensures r == CappedWithdraw(stream, clock, caller, balance)
    ensures Owed(stream) <= balance ==> r == StreamRules.Withdraw(stream, clock, caller)
  {
    if caller != stream.recipient {
      return Err(HostTrap);
    }
    if MinusUnsigned(clock.sequence, stream.lastWithdraw) < MIN_WITHDRAW_INTERVAL_LEDGERS {
      return Err(WithdrawalTooFrequent);
    }
    if stream.status == Completed {
      return Err(InvalidState);
    }
    if stream.status == Paused && !IsTerminal(stream, clock.now) {
      return Err(InvalidState);
    }
    MachineClaim(stream, clock);
    var accrued := CalculateAccrued(stream, clock.now).value;
    var withdrawable := Min(Minus(accrued, stream.withdrawn), balance);
    if withdrawable <= 0 {
      return Ok(Keep);
    }
    if withdrawable < stream.dust && !IsTerminal(stream, clock.now)
       && Plus(stream.withdrawn, withdrawable) < stream.deposit {
      return Ok(Keep);
    }
    var saved := stream.(withdrawn := Plus(stream.withdrawn, withdrawable), lastWithdraw := clock.sequence);
    if (stream.status == Active || stream.status == Paused) && saved.withdrawn == saved.deposit {
      saved := saved.(status := Completed);
    }
    return Ok(Paying(saved, withdrawable, saved.recipient, true));
  }

  method Withdraw(env: Env, caller: Address, id: int) returns (r: Result<int>)
    requires env.Valid()
    modifies env
    ensures env.Valid()
    ensures (env.View(), r) == StreamStep(old(env.View()), id, StreamOp.Withdraw(caller))
  {
    if env.config.globalPaused {
      return Err(ContractPaused);
    }
    if id !in env.streams {
      return Err(StreamNotFound);
    }
    ClaimIsPayable(env.View(), id);
    var effect :- CheckWithdraw(env.streams[id], env.clock, caller, env.balance);
    if effect == Keep {
      return Ok(0);
    }
    PayStep(env, id, StreamOp.Withdraw(caller), effect, true);
    return Ok(effect.pay);
  }

  /** `withdraw_to`: no frequency limit, and the record's withdrawal stamp stays as it was. */
  method CheckWithdrawTo(stream: Stream, clock: Clock, caller: Address, destination: Address, balance: int)
      returns (r: Result<Effect>)
    requires StreamOk(stream, clock) && ClockOk(clock) && Owed(stream) <= balance
    ensures r == StreamRules.WithdrawTo(stream, clock, caller, destination)
  {
    if caller != stream.recipient {
      return Err(HostTrap);
    }
    if destination == Contract {
      return Err(InvalidParams);
    }
    if stream.status == Completed {
      return Err(InvalidState);
    }
    if stream.status == Paused && !IsTerminal(stream, clock.now) {
      return Err(InvalidState);
    }
    MachineClaim(stream, clock);
    var accrued := CalculateAccrued(stream, clock.now).value;
    var withdrawable := Min(Minus(accrued, stream.withdrawn), balance);
    if withdrawable <= 0 {
      return Ok(Keep);
    }
    if withdrawable < stream.dust && !IsTerminal(stream, clock.now)
       && Plus(stream.withdrawn, withdrawable) < stream.deposit {
      return Ok(Keep);
    }
    var saved := stream.(withdrawn := Plus(stream.withdrawn, withdrawable));
    if (stream.status == Active || stream.status == Paused) && saved.withdrawn == saved.deposit {
      saved := saved.(status := Completed);
    }
    return Ok(Paying(saved, withdrawable, destination, true));
  }

  method WithdrawTo(env: Env, caller: Address, id: int, destination: Address) returns (r: Result<int>)
    requires env.Valid()
    modifies env
    ensures env.Valid()
    ensures (env.View(), r) == StreamStep(old(env.View()), id, StreamOp.WithdrawTo(caller, destination))
  {
    if env.config.globalPaused {
      return Err(ContractPaused);
    }
    if id !in env.streams {
      return Err(StreamNotFound);
    }
    ClaimIsPayable(env.View(), id);
    var effect :- CheckWithdrawTo(env.streams[id], env.clock, caller, destination, env.balance);
    if effect == Keep {
      return Ok(0);
    }
    PayStep(env, id, StreamOp.WithdrawTo(caller, destination), effect, true);
    return Ok(effect.pay);
  }

  // ------------------------------------------------------------------ by anybody

  /** `delegated_withdraw` after the deadline check.  There is no dust rule here; the caller's
      minimum takes its place. */
  method CheckDelegatedWithdraw(stream: Stream, clock: Clock, request: Delegation, nonce: int, balance: int)
      returns (r: Result<Effect>)
    requires StreamOk(stream, clock) && ClockOk(clock) && Owed(stream) <= balance
    ensures r == StreamRules.DelegatedWithdraw(stream, clock, request, nonce)
  {
    if MinusUnsigned(clock.sequence, stream.lastWithdraw) < MIN_WITHDRAW_INTERVAL_LEDGERS {
      return Err(WithdrawalTooFrequent);
    }
    if request.nonce != nonce {
      return Err(InvalidSignature);
    }
    if Account(request.key) != stream.recipient {
      return Err(InvalidSignature);
    }
    if !request.genuine {
      return Err(HostTrap);
    }
    if stream.status == Completed {
      return Err(InvalidState);
    }
    if stream.status == Paused && !IsTerminal(stream, clock.now) {
      return Err(InvalidState);
    }
    MachineClaim(stream, clock);
    var accrued := CalculateAccrued(stream, clock.now).value;
    var withdrawable := Min(Minus(accrued, stream.withdrawn), balance);
    if withdrawable < request.minimum {
      return Err(BelowMinimumAmount);
    }
    if withdrawable <= 0 {
      return Ok(Keep);
    }
    var saved := stream.(withdrawn := Plus(stream.withdrawn, withdrawable), lastWithdraw := clock.sequence);
    if (stream.status == Active || stream.status == Paused) && saved.withdrawn == saved.deposit {
      saved := saved.(status := Completed);
    }
    return Ok(Paying(saved, withdrawable, saved.recipient, false));
  }

  /** `increment_delegated_nonce`: traps at the end of the `u64` range. */
  method IncrementNonce(env: Env, recipient: Address)
    requires env.nonces[recipient] < U64_MAX
    modifies env`nonces
    ensures env.View() == old(env.View()).(nonces := Add(old(env.nonces), recipient, 1))
  {
    env.nonces := Add(env.nonces, recipient, 1);
  }

  /** What a delegated withdrawal that pays does to the whole state. */
  lemma DelegatedPays(l: State, id: int, request: Delegation, e: Effect)
    requires id in l.streams && e.Write? && e.fund == 0
    requires var op := StreamOp.DelegatedWithdraw(request);
             Refusal(l, op) == None && Rule(l, id, op) == Ok(e)
    ensures l.nonces[l.streams[id].recipient] < U64_MAX
    ensures StreamStep(l, id, StreamOp.DelegatedWithdraw(request))
         == (Commit(l, id, e).(nonces := Add(l.nonces, l.streams[id].recipient, 1)), Ok(e.pay))
  {
    assert Commit(l, id, e).nonces == l.nonces;
  }

  /** The payout of a delegated withdrawal, which also uses up the nonce. */
  method PayDelegated(env: Env, id: int, ghost request: Delegation, e: Effect)
    requires env.Valid() && id in env.streams
    requires var op := StreamOp.DelegatedWithdraw(request);
             Refusal(env.View(), op) == None && Rule(env.View(), id, op) == Ok(e)
    requires e.Write? && e == Paying(e.stream, e.pay, e.payee, false)
    modifies env
    ensures env.Valid()
    ensures (env.View(), Ok(e.pay)) == StreamStep(old(env.View()), id, StreamOp.DelegatedWithdraw(request))
  {
    ghost var l, op := env.View(), StreamOp.DelegatedWithdraw(request);
    var recipient := env.streams[id].recipient;
    RuleOk(l, id, op);
    DelegatedPays(l, id, request, e);
    StreamStepKeepsInv(l, id, op);
    PayoutIsCovered(l, id, e);
    PayOut(env, id, e.stream, e.pay, e.payee, false);
    assert env.View() == Commit(l, id, e);
    assert env.View().nonces == l.nonces;
    IncrementNonce(env, recipient);
    ValidAt(env, StreamStep(l, id, op).0);
  }

  method DelegatedWithdraw(env: Env, id: int, request: Delegation) returns (r: Result<int>)
    requires env.Valid()
    modifies env
    ensures env.Valid()
    ensures (env.View(), r) == StreamStep(old(env.View()), id, StreamOp.DelegatedWithdraw(request))
  {
    if env.config.globalPaused {
      return Err(ContractPaused);
    }
    if env.clock.now > request.deadline {
      return Err(SignatureDeadlineExpired);
    }
    if id !in env.streams {
      return Err(StreamNotFound);
    }
    var stream := env.streams[id];
    ClaimIsPayable(env.View(), id);
    var effect :- CheckDelegatedWithdraw(stream, env.clock, request, env.nonces[stream.recipient], env.balance);
    if effect == Keep {
      return Ok(0);
    }
    if env.nonces[stream.recipient] >= U64_MAX {
      return Err(HostTrap);
    }
    PayDelegated(env, id, request, effect);
    return Ok(effect.pay);
  }

  /** `trigger_auto_claim`: not capped by the balance, and saturating where the others trap. */
  method CheckAutoClaim(stream: Stream, clock: Clock, destination: Option<Address>) returns (r: Result<Effect>)
    requires StreamOk(stream, clock) && ClockOk(clock)
    ensures r == StreamRules.TriggerAutoClaim(stream, clock, destination)
  {
    if stream.status == Completed || stream.status == Cancelled {
      return Err(InvalidState);
    }
    if clock.now < stream.end {
      return Err(InvalidState);
    }
    if destination == None {
      return Err(InvalidParams);
    }
    if destination.value == Contract {
      return Err(InvalidParams);
    }
    MachineClaim(stream, clock);
    var accrued := AccruedAt(stream, clock.now);
    var withdrawable := Max(SaturatingSub(accrued, stream.withdrawn), 0);
    if withdrawable == 0 {
      return Ok(Keep);
    }
    var total := Checked(stream.withdrawn + withdrawable);
    var saved := stream.(withdrawn := if total.Some? then total.value else I128_MAX);
    if saved.withdrawn >= saved.deposit {
      saved := saved.(status := Completed);
    }
    return Ok(Paying(saved, withdrawable, destination.value, false));
  }

  method TriggerAutoClaim(env: Env, id: int) returns (r: Result<int>)
    requires env.Valid()
    modifies env
    ensures env.Valid()
    ensures (env.View(), r) == StreamStep(old(env.View()), id, StreamOp.TriggerAutoClaim)
  {
    if env.config.globalPaused {
      return Err(ContractPaused);
    }
    if id !in env.streams {
      return Err(StreamNotFound);
    }
    var destination := if id in env.autoClaim then Some(env.autoClaim[id]) else None;
    var effect :- CheckAutoClaim(env.streams[id], env.clock, destination);
    if effect == Keep {
      return Ok(0);
    }
    PayStep(env, id, StreamOp.TriggerAutoClaim, effect, false);
    return Ok(effect.pay);
  }

  /** `get_claimable_at`. */
  method GetClaimableAt(env: Env, id: int, timestamp: u64) returns (r: Result<int>)
    requires env.Valid()
    ensures r == ClaimableAt(env.View(), id, timestamp)
  {
    if id !in env.streams {
      return Err(StreamNotFound);
    }
    var stream := env.streams[id];
    if stream.status == Completed {
      return Ok(0);
    }
    var effectiveTime := timestamp;
    if stream.status == Cancelled {
      if stream.cancelledAt == None {
        return Err(InvalidState);
      }
      effectiveTime := Min(timestamp, stream.cancelledAt.value);
    }
    FixedWidthIsExact(Checkpoint(stream), stream.rate, effectiveTime);
    EntitlementBounds(Checkpoint(stream), stream.rate, effectiveTime);
    var claimable := Minus(AccruedAt(stream, effectiveTime), stream.withdrawn);
    return Ok(if claimable > 0 then claimable else 0);
  }
}
