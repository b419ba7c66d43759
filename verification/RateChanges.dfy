/** The entry points that re-price, re-schedule, fund or pause one stream, over the stored state. */
module RateChanges {
  import opened FixedWidth
  import opened Accrual
  import opened Streams
  import opened StreamRules
  import opened Ledger
  import opened LedgerInvariant
  import opened Storage

  // ------------------------------------------------------------------ saving and refunding

  /** What a change saves, and what it sends back to the sender. */
  function Refunding(s: Stream, refund: nat, lowers: bool): Effect {
    Write(s, if lowers then 0 - refund else 0, 0, s.recipient, refund, 0, s.sender)
  }

  /** On a live record the machine accrual is the entitlement. */
  lemma MachineAccrual(s: Stream, c: Clock)
    requires StreamOk(s, c) && ClockOk(c) && Live(s)
    ensures AccruedAt(s, c.now) == Accrued(s, c.now)
    ensures 0 <= s.withdrawn <= Accrued(s, c.now) <= s.deposit
  {
    OwedBounds(s, c);
    FixedWidthIsExact(Checkpoint(s), s.rate, c.now);
  }

  lemma RefundingCommits(l: State, id: int, s: Stream, refund: nat, lowers: bool)
    requires l.liabilities <= I128_MAX
    ensures Commit(l, id, Refunding(s, refund, lowers))
         == Record(Send(l.(streams := l.streams[id := s],
                           liabilities := if lowers then l.liabilities - refund else l.liabilities), s.sender, refund),
                   id, 0, 0, refund)
  {
    var saved := l.(streams := l.streams[id := s],
                    liabilities := if lowers then l.liabilities - refund else l.liabilities);
    SendZero(saved, s.recipient);
  }

  lemma RefundIsCovered(l: State, id: int, e: Effect)
    requires Inv(l) && id in l.streams && e.Write? && EffectOk(l.streams[id], e, l.clock) && e.fund == 0
    ensures e.refund <= l.balance && e.refund <= l.liabilities <= I128_MAX
    ensures forall k | k in l.streams :: 0 <= k < U64_MAX
  {
    ClaimIsPayable(l, id);
    OwedBounds(e.stream, l.clock);
  }

  /** The end of every change: the record is saved, the paused streams are recounted, and a refund,
      if there is one, leaves the liability counter and the contract. */
  method SaveAndRefund(env: Env, id: int, s: Stream, refund: nat, lowers: bool)
    requires env.TablesOk() && forall k | k in env.streams :: 0 <= k < U64_MAX
    requires id in env.streams && s.recipient == env.streams[id].recipient
    requires refund <= env.balance && refund <= env.totalLiabilities <= I128_MAX
    modifies env
    ensures env.TablesOk()
    ensures env.View() == Commit(old(env.View()), id, Refunding(s, refund, lowers))
  {
    RefundingCommits(env.View(), id, s, refund, lowers);
    SendZero(env.View().(streams := env.streams[id := s]), s.sender);
    SaveStream(env, id, s);
    if refund > 0 {
      if lowers {
        LowerTotalLiabilities(env, refund);
      }
      PushToken(env, s.sender, refund);
    }
    Book(env, id, 0, 0, refund);
  }

  /** A lawful change of an entry point, from the checks to the reply. */
  method ChangeStep(env: Env, id: int, ghost op: StreamOp, e: Effect, lowers: bool)
    requires env.Valid() && id in env.streams
    requires Refusal(env.View(), op) == None && Rule(env.View(), id, op) == Ok(e) && !op.DelegatedWithdraw?
    requires e.Write? && e == Refunding(e.stream, e.refund, lowers)
    modifies env
    ensures env.Valid()
    ensures (env.View(), Ok(0)) == StreamStep(old(env.View()), id, op)
  {
    ghost var l := env.View();
    RuleOk(l, id, op);
    StreamStepKeepsInv(l, id, op);
    RefundIsCovered(l, id, e);
    SaveAndRefund(env, id, e.stream, e.refund, lowers);
    ValidAt(env, StreamStep(l, id, op).0);
  }

  // ------------------------------------------------------------------ re-pricing

  method CheckUpdateRate(stream: Stream, clock: Clock, caller: Address, rate: i128, maxRate: int)
      returns (r: Result<Effect>)
    requires StreamOk(stream, clock) && ClockOk(clock)
    ensures r == StreamRules.UpdateRate(stream, clock, caller, rate, maxRate)
  {
    if stream.kind == CliffOnly {
      return Err(UnsupportedStreamKind);
    }
    if caller != stream.sender {
      return Err(HostTrap);
    }
    if stream.status != Active && stream.status != Paused {
      return Err(InvalidState);
    }
    if rate <= 0 {
      return Err(InvalidParams);
    }
    if rate <= stream.rate {
      return Err(InvalidParams);
    }
    if rate > maxRate {
      return Err(RateCapExceeded);
    }
    var duration := MinusUnsigned(stream.end, stream.start);
    MulMonotone(0, duration, rate);
    assert duration * rate == rate * duration;
    var streamable := CheckedMul(rate, duration);
    if streamable == None {
      return Err(ArithmeticOverflow);
    }
    if stream.deposit < streamable.value {
      return Err(InsufficientDeposit);
    }
    MachineAccrual(stream, clock);
    var accruedNow := AccruedAt(stream, clock.now);
    return Ok(Refunding(stream.(checkpointed := accruedNow, checkpointedAt := clock.now, rate := rate), 0, false));
  }

  method UpdateRatePerSecond(env: Env, caller: Address, id: int, rate: i128) returns (r: Result<int>)
    requires env.Valid()
    modifies env
    ensures env.Valid()
    ensures (env.View(), r) == StreamStep(old(env.View()), id, StreamOp.UpdateRate(caller, rate))
  {
    if env.config.globalPaused {
      return Err(ContractPaused);
    }
    if id !in env.streams {
      return Err(StreamNotFound);
    }
    var effect :- CheckUpdateRate(env.streams[id], env.clock, caller, rate, env.config.maxRate);
    ChangeStep(env, id, StreamOp.UpdateRate(caller, rate), effect, false);
    return Ok(0);
  }

  /** The liability counter is not lowered by the refund of a decrease. */
  method CheckDecreaseRate(stream: Stream, clock: Clock, caller: Address, rate: i128) returns (r: Result<Effect>)
    requires StreamOk(stream, clock) && ClockOk(clock)
    ensures r == StreamRules.DecreaseRate(stream, clock, caller, rate)
    ensures r.Ok? ==> r.value == Refunding(r.value.stream, r.value.refund, false)
  {
    if stream.kind == CliffOnly {
      return Err(UnsupportedStreamKind);
    }
    if caller != stream.sender {
      return Err(HostTrap);
    }
    if stream.status == Completed || stream.status == Cancelled {
      return Err(StreamTerminalState);
    }
    if clock.now >= stream.end {
      return Err(InvalidState);
    }
    if rate <= 0 {
      return Err(InvalidParams);
    }
    if rate >= stream.rate {
      return Err(InvalidParams);
    }
    MachineAccrual(stream, clock);
    var accruedNow := AccruedAt(stream, clock.now);
    var remaining := MinusUnsigned(stream.end, clock.now);
    MulMonotone(0, remaining, rate);
    assert remaining * rate == rate * remaining;
    var futureAccrual := CheckedMul(rate, remaining);
    if futureAccrual == None {
      return Err(ArithmeticOverflow);
    }
    var newDeposit := Checked(accruedNow + futureAccrual.value);
    if newDeposit == None {
      return Err(ArithmeticOverflow);
    }
    var refund := Checked(stream.deposit - newDeposit.value);
    if refund == None {
      return Err(ArithmeticOverflow);
    }
    if refund.value < 0 {
      return Err(InvalidState);
    }
    var saved := stream.(checkpointed := accruedNow, checkpointedAt := clock.now, rate := rate,
                         deposit := newDeposit.value);
    return Ok(Refunding(saved, refund.value, false));
  }

  method DecreaseRatePerSecond(env: Env, caller: Address, id: int, rate: i128) returns (r: Result<int>)
    requires env.Valid()
    modifies env
    ensures env.Valid()
    ensures (env.View(), r) == StreamStep(old(env.View()), id, StreamOp.DecreaseRate(caller, rate))
  {
    if env.config.globalPaused {
      return Err(ContractPaused);
    }
    if id !in env.streams {
      return Err(StreamNotFound);
    }
    var effect :- CheckDecreaseRate(env.streams[id], env.clock, caller, rate);
    ChangeStep(env, id, StreamOp.DecreaseRate(caller, rate), effect, false);
    return Ok(0);
  }

  // ------------------------------------------------------------------ re-scheduling

  method CheckShorten(stream: Stream, clock: Clock, caller: Address, end: u64) returns (r: Result<Effect>)
    requires StreamOk(stream, clock) && ClockOk(clock)
    ensures r == StreamRules.Shorten(stream, clock, caller, end)
  {
    if stream.kind == CliffOnly {
      return Err(UnsupportedStreamKind);
    }
    if caller != stream.sender {
      return Err(HostTrap);
    }
    if stream.status != Active && stream.status != Paused {
      return Err(InvalidState);
    }
    if end <= clock.now || end <= stream.start || end < stream.cliff || end >= stream.end {
      return Err(InvalidParams);
    }
    var duration := MinusUnsigned(end, stream.start);
    MulMonotone(0, duration, stream.rate);
    assert duration * stream.rate == stream.rate * duration;
    var streamable := CheckedMul(stream.rate, duration);
    if streamable == None {
      return Err(ArithmeticOverflow);
    }
    MachineAccrual(stream, clock);
    var newDeposit := Max(streamable.value, AccruedAt(stream, clock.now));
    if newDeposit > stream.deposit {
      return Err(InvalidParams);
    }
    var refund := Minus(stream.deposit, newDeposit);
    return Ok(Refunding(stream.(end := end, deposit := newDeposit), refund, true));
  }

  method ShortenStreamEndTime(env: Env, caller: Address, id: int, end: u64) returns (r: Result<int>)
    requires env.Valid()
    modifies env
    ensures env.Valid()
    ensures (env.View(), r) == StreamStep(old(env.View()), id, StreamOp.Shorten(caller, end))
  {
    if env.config.globalPaused {
      return Err(ContractPaused);
    }
    if id !in env.streams {
      return Err(StreamNotFound);
    }
    var effect :- CheckShorten(env.streams[id], env.clock, caller, end);
    ChangeStep(env, id, StreamOp.Shorten(caller, end), effect, true);
    return Ok(0);
  }

  method CheckExtend(stream: Stream, clock: Clock, caller: Address, end: u64) returns (r: Result<Effect>)
    requires StreamOk(stream, clock) && ClockOk(clock)
    ensures r == StreamRules.Extend(stream, clock, caller, end)
  {
    if stream.kind == CliffOnly {
      return Err(UnsupportedStreamKind);
    }
    if caller != stream.sender {
      return Err(HostTrap);
    }
    if stream.status != Active && stream.status != Paused {
      return Err(InvalidState);
    }
    if end <= stream.end || end <= stream.start || end < stream.cliff || end < clock.now {
      return Err(InvalidParams);
    }
    var duration := MinusUnsigned(end, stream.start);
    MulMonotone(0, duration, stream.rate);
    assert duration * stream.rate == stream.rate * duration;
    var streamable := CheckedMul(stream.rate, duration);
    if streamable == None {
      return Err(ArithmeticOverflow);
    }
    if streamable.value > stream.deposit {
      return Err(InsufficientDeposit);
    }
    return Ok(Refunding(stream.(end := end), 0, false));
  }

  method ExtendStreamEndTime(env: Env, caller: Address, id: int, end: u64) returns (r: Result<int>)
    requires env.Valid()
    modifies env
    ensures env.Valid()
    ensures (env.View(), r) == StreamStep(old(env.View()), id, StreamOp.Extend(caller, end))
  {
    if env.config.globalPaused {
      return Err(ContractPaused);
    }
    if id !in env.streams {
      return Err(StreamNotFound);
    }
    var effect :- CheckExtend(env.streams[id], env.clock, caller, end);
    ChangeStep(env, id, StreamOp.Extend(caller, end), effect, false);
    return Ok(0);
  }

  // ------------------------------------------------------------------ topping up

  method CheckTopUp(stream: Stream, clock: Clock, funder: Address, amount: i128) returns (r: Result<Effect>)
    requires StreamOk(stream, clock) && ClockOk(clock) && amount > 0
    ensures r == StreamRules.TopUp(stream, clock, funder, amount)
  {
    if stream.kind == CliffOnly {
      return Err(UnsupportedStreamKind);
    }
    if stream.status != Active && stream.status != Paused {
      return Err(InvalidState);
    }
    if clock.now >= stream.end {
      return Err(InvalidState);
    }
    if funder == Contract {
      return Err(HostTrap);
    }
    var newDeposit := Checked(stream.deposit + amount);
    if newDeposit == None {
      return Err(ArithmeticOverflow);
    }
    return Ok(Write(stream.(deposit := newDeposit.value), amount, 0, stream.recipient, 0, amount, funder));
  }

  lemma FundingCommits(l: State, id: int, s: Stream, amount: nat, funder: Address)
    requires amount > 0 && CanPull(l, funder, amount)
    ensures Commit(l, id, Write(s, amount, 0, s.recipient, 0, amount, funder))
         == Record(Pull(l.(streams := l.streams[id := s]), funder, amount)
                   .(liabilities := Min(l.liabilities + amount, I128_MAX)), id, amount, 0, 0)
  {
    var pulled := Pull(l.(streams := l.streams[id := s]), funder, amount)
                  .(liabilities := Min(l.liabilities + amount, I128_MAX));
    SendZero(pulled, s.recipient);
    SendZero(pulled, s.sender);
  }

  /** What the step does, in terms of the pull. */
  lemma TopUpSteps(l: State, id: int, funder: Address, amount: i128, s: Stream)
    requires id in l.streams && amount > 0 && !l.config.globalPaused
    requires StreamRules.TopUp(l.streams[id], l.clock, funder, amount)
          == Ok(Write(s, amount, 0, s.recipient, 0, amount, funder))
    ensures StreamStep(l, id, StreamOp.TopUp(funder, amount))
         == if CanPull(l, funder, amount)
            then (Commit(l, id, Write(s, amount, 0, s.recipient, 0, amount, funder)), Ok(0))
            else (l, Err(HostTrap))
  {
  }

  /** The record is saved before the tokens are pulled; when the pull fails, the host undoes both. */
  method SaveAndPull(env: Env, id: int, s: Stream, funder: Address, amount: nat) returns (ok: bool)
    requires env.TablesOk() && forall k | k in env.streams :: 0 <= k < U64_MAX
    requires id in env.streams && s.recipient == env.streams[id].recipient
    modifies env
    ensures env.TablesOk() && ok == CanPull(old(env.View()), funder, amount)
    ensures env.View() == if ok then Pull(old(env.View()).(streams := old(env.streams)[id := s]), funder, amount)
                          else old(env.View())
  {
    var previous := env.streams[id];
    SaveStream(env, id, s);
    ok := PullToken(env, funder, amount);
    if !ok {
      SaveStream(env, id, previous);
      assert env.streams == old(env.streams);
    }
  }

  /** `top_up_stream` from the save on. */
  method SaveAndFund(env: Env, id: int, s: Stream, funder: Address, amount: nat) returns (ok: bool)
    requires env.TablesOk() && forall k | k in env.streams :: 0 <= k < U64_MAX
    requires id in env.streams && s.recipient == env.streams[id].recipient
    requires amount > 0 && 0 <= env.totalLiabilities
    modifies env
    ensures env.TablesOk() && ok == CanPull(old(env.View()), funder, amount)
    ensures env.View() == if ok then Commit(old(env.View()), id, Write(s, amount, 0, s.recipient, 0, amount, funder))
                          else old(env.View())
  {
    ghost var l := env.View();
    ok := SaveAndPull(env, id, s, funder, amount);
    if ok {
      FundingCommits(l, id, s, amount, funder);
      RaiseTotalLiabilities(env, amount);
      Book(env, id, amount, 0, 0);
    }
  }

  method FundStep(env: Env, id: int, funder: Address, amount: i128, s: Stream) returns (ok: bool)
    requires env.Valid() && id in env.streams && amount > 0 && !env.config.globalPaused
    requires StreamRules.TopUp(env.streams[id], env.clock, funder, amount)
          == Ok(Write(s, amount, 0, s.recipient, 0, amount, funder))
    modifies env
    ensures env.Valid()
    ensures (env.View(), if ok then Ok(0) else Err(HostTrap))
         == StreamStep(old(env.View()), id, StreamOp.TopUp(funder, amount))
  {
    ghost var l, op := env.View(), StreamOp.TopUp(funder, amount);
    TopUpSteps(l, id, funder, amount, s);
    StreamStepKeepsInv(l, id, op);
    ClaimIsPayable(l, id);
    ok := SaveAndFund(env, id, s, funder, amount);
    ValidAt(env, StreamStep(l, id, op).0);
  }

  method TopUpStream(env: Env, id: int, funder: Address, amount: i128) returns (r: Result<int>)
    requires env.Valid()
    modifies env
    ensures env.Valid()
    ensures (env.View(), r) == StreamStep(old(env.View()), id, StreamOp.TopUp(funder, amount))
  {
    if env.config.globalPaused {
      return Err(ContractPaused);
    }
    if amount <= 0 {
      return Err(InvalidParams);
    }
    if id !in env.streams {
      return Err(StreamNotFound);
    }
    var effect :- CheckTopUp(env.streams[id], env.clock, funder, amount);
    var ok := FundStep(env, id, funder, amount, effect.stream);
    return if ok then Ok(0) else Err(HostTrap);
  }

  // ------------------------------------------------------------------ pausing

  method CheckPause(stream: Stream, clock: Clock) returns (r: Result<Effect>)
    requires StreamOk(stream, clock) && ClockOk(clock)
    ensures r == StreamRules.Pause(stream, clock)
  {
    if stream.status == Paused {
      return Err(StreamAlreadyPaused);
    }
    if IsTerminal(stream, clock.now) {
      return Err(StreamTerminalState);
    }
    if stream.status != Active {
      return Err(InvalidState);
    }
    if SaturatingSubU64(clock.sequence, stream.lastPauseToggle) < MIN_PAUSE_INTERVAL_LEDGERS {
      return Err(PauseCooldownActive);
    }
    return Ok(Refunding(stream.(status := Paused, lastPauseToggle := clock.sequence), 0, false));
  }

  method CheckResume(stream: Stream, clock: Clock) returns (r: Result<Effect>)
    requires StreamOk(stream, clock) && ClockOk(clock)
    ensures r == StreamRules.Resume(stream, clock)
  {
    if stream.status == Active {
      return Err(StreamNotPaused);
    }
    if IsTerminal(stream, clock.now) {
      return Err(StreamTerminalState);
    }
    if stream.status != Paused {
      return Err(StreamNotPaused);
    }
    if SaturatingSubU64(clock.sequence, stream.lastPauseToggle) < MIN_PAUSE_INTERVAL_LEDGERS {
      return Err(PauseCooldownActive);
    }
    return Ok(Refunding(stream.(status := Active, lastPauseToggle := clock.sequence), 0, false));
  }

  /** `pause_stream` and `pause_stream_as_admin`. */
  method PauseStream(env: Env, caller: Address, asAdmin: bool, id: int) returns (r: Result<int>)
    requires env.Valid()
    modifies env
    ensures env.Valid()
    ensures (env.View(), r) == StreamStep(old(env.View()), id, StreamOp.Pause(caller, asAdmin))
  {
    if asAdmin && caller != env.config.admin {
      return Err(HostTrap);
    }
    if id !in env.streams {
      return Err(StreamNotFound);
    }
    if !asAdmin && caller != env.streams[id].sender {
      return Err(HostTrap);
    }
    var effect :- CheckPause(env.streams[id], env.clock);
    ChangeStep(env, id, StreamOp.Pause(caller, asAdmin), effect, false);
    return Ok(0);
  }

  /** `resume_stream` and `resume_stream_as_admin`. */
  method ResumeStream(env: Env, caller: Address, asAdmin: bool, id: int) returns (r: Result<int>)
    requires env.Valid()
    modifies env
    ensures env.Valid()
    ensures (env.View(), r) == StreamStep(old(env.View()), id, StreamOp.Resume(caller, asAdmin))
  {
    if asAdmin && caller != env.config.admin {
      return Err(HostTrap);
    }
    if id !in env.streams {
      return Err(StreamNotFound);
    }
    if !asAdmin && caller != env.streams[id].sender {
      return Err(HostTrap);
    }
    var effect :- CheckResume(env.streams[id], env.clock);
    ChangeStep(env, id, StreamOp.Resume(caller, asAdmin), effect, false);
    return Ok(0);
  }
}
