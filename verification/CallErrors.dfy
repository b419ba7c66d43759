/** What an error tells the caller: every error that a call on a stream or a creation reports names a
    condition that holds.  When a call is accepted is said elsewhere. */
module CallErrors {
  import opened FixedWidth
  import opened Accrual
  import opened Streams
  import opened Ledger
  import opened LedgerInvariant
  import opened StreamCalls
  import opened StreamTerms
  import LedgerRuns

  /** The errors of the withdrawals, once the stream is there. */
  predicate WithdrawalNames(l: State, id: int, s: Stream, op: StreamOp, error: Error)
    requires op.Withdraw? || op.WithdrawTo? || op.DelegatedWithdraw? || op.TriggerAutoClaim?
  {
    match op
    case Withdraw(caller) =>
      || (error == HostTrap && caller != s.recipient)
      || (error == WithdrawalTooFrequent && l.clock.sequence <= s.lastWithdraw)
      || (error == InvalidState && (s.status == Completed || HeldBack(s, l.clock)))
    case WithdrawTo(caller, to) =>
      || (error == HostTrap && caller != s.recipient)
      || (error == InvalidParams && to == Contract)
      || (error == InvalidState && (s.status == Completed || HeldBack(s, l.clock)))
    case DelegatedWithdraw(d) =>
      || (error == WithdrawalTooFrequent && l.clock.sequence <= s.lastWithdraw)
      || (error == InvalidSignature && (d.nonce != l.nonces[s.recipient] || Account(d.key) != s.recipient))
      || (error == HostTrap && (!d.genuine || l.nonces[s.recipient] >= U64_MAX))
      || (error == InvalidState && (s.status == Completed || HeldBack(s, l.clock)))
      || (error == BelowMinimumAmount && Open(s, l.clock) < d.minimum)
    case TriggerAutoClaim =>
      || (error == InvalidState && (!IsLive(s) || l.clock.now < s.end))
      || (error == InvalidParams && (id !in l.autoClaim || l.autoClaim[id] == Contract))
  }

  /** The errors of a change of the rate. */
  predicate RateNames(l: State, s: Stream, op: StreamOp, error: Error)
    requires op.UpdateRate? || op.DecreaseRate?
  {
    || (error == UnsupportedStreamKind && s.kind == CliffOnly)
    || (error == HostTrap && op.caller != s.sender)
    || (if op.UpdateRate? then
          || (error == InvalidState && !IsLive(s))
          || (error == InvalidParams && op.rate <= s.rate)
          || (error == RateCapExceeded && op.rate > l.config.maxRate)
          || (error == ArithmeticOverflow && op.rate * (s.end - s.start) > I128_MAX)
          || (error == InsufficientDeposit && op.rate * (s.end - s.start) > s.deposit)
        else
          var needed := Accrued(s, l.clock.now) + op.rate * (s.end - l.clock.now);
          || (error == StreamTerminalState && !IsLive(s))
          || (error == InvalidState && (l.clock.now >= s.end || needed > s.deposit))
          || (error == InvalidParams && !(0 < op.rate < s.rate))
          || (error == ArithmeticOverflow && needed > I128_MAX))
  }

  /** The errors of a change of the end. */
  predicate EndNames(l: State, s: Stream, op: StreamOp, error: Error)
    requires op.Shorten? || op.Extend?
  {
    || (error == UnsupportedStreamKind && s.kind == CliffOnly)
    || (error == HostTrap && op.caller != s.sender)
    || (error == InvalidState && !IsLive(s))
    || (error == ArithmeticOverflow && Schedule(s, op.end) > I128_MAX)
    || (if op.Shorten? then
          error == InvalidParams &&
            (|| !(l.clock.now < op.end < s.end && s.start < op.end && s.cliff <= op.end)
             || Schedule(s, op.end) > s.deposit)
        else
          || (error == InvalidParams && (op.end <= s.end || op.end < l.clock.now))
          || (error == InsufficientDeposit && Schedule(s, op.end) > s.deposit))
  }

  predicate TopUpNames(l: State, s: Stream, op: StreamOp, error: Error)
    requires op.TopUp?
  {
    || (error == UnsupportedStreamKind && s.kind == CliffOnly)
    || (error == InvalidState && (!IsLive(s) || l.clock.now >= s.end))
    || (error == HostTrap && (op.funder == Contract || op.amount > l.spendable[op.funder]
                              || l.balance + op.amount > I128_MAX))
    || (error == ArithmeticOverflow && s.deposit + op.amount > I128_MAX)
  }

  /** The errors of stops and restarts. */
  predicate StopNames(l: State, s: Stream, op: StreamOp, error: Error)
    requires op.Pause? || op.Resume? || op.Cancel?
  {
    || (error == HostTrap && op.caller != if op.asAdmin then l.config.admin else s.sender)
    || (if op.Cancel? then error == InvalidState && !IsLive(s)
        else
          || (error == StreamAlreadyPaused && op.Pause? && s.status == Paused)
          || (error == StreamNotPaused && op.Resume? && s.status == Active)
          || (error == StreamTerminalState && (!IsLive(s) || l.clock.now >= s.end))
          || (error == PauseCooldownActive && l.clock.sequence < s.lastPauseToggle + 17))
  }

  /** The errors that do not depend on the stream, and that there is none. */
  predicate EarlyNames(l: State, id: int, op: StreamOp, error: Error) {
    || (error == ContractPaused && l.config.globalPaused)
    || (error == SignatureDeadlineExpired && op.DelegatedWithdraw? && l.clock.now > op.request.deadline)
    || (error == InvalidParams && op.TopUp? && op.amount <= 0)
    || (error == HostTrap && (op.Pause? || op.Resume? || op.Cancel?) && op.asAdmin && op.caller != l.config.admin)
    || (error == StreamNotFound && id !in l.streams)
  }

  /** What the error of a call on a stream says once the stream is there. */
  predicate LoadedNames(l: State, id: int, s: Stream, op: StreamOp, error: Error) {
    if op.UpdateRate? || op.DecreaseRate? then RateNames(l, s, op, error)
    else if op.Shorten? || op.Extend? then EndNames(l, s, op, error)
    else if op.TopUp? then TopUpNames(l, s, op, error)
    else if op.Pause? || op.Resume? || op.Cancel? then StopNames(l, s, op, error)
    else WithdrawalNames(l, id, s, op, error)
  }

  lemma WithdrawErrors(l: State, id: int, op: StreamOp)
    requires Inv(l) && id in l.streams && Refusal(l, op) == None && Rule(l, id, op).Err? && op.Withdraw?
    ensures WithdrawalNames(l, id, l.streams[id], op, Rule(l, id, op).error)
  {
  }

  lemma WithdrawToErrors(l: State, id: int, op: StreamOp)
    requires Inv(l) && id in l.streams && Refusal(l, op) == None && Rule(l, id, op).Err? && op.WithdrawTo?
    ensures WithdrawalNames(l, id, l.streams[id], op, Rule(l, id, op).error)
  {
  }

  lemma DelegatedErrors(l: State, id: int, op: StreamOp)
    requires Inv(l) && id in l.streams && Refusal(l, op) == None && Rule(l, id, op).Err? && op.DelegatedWithdraw?
    ensures WithdrawalNames(l, id, l.streams[id], op, Rule(l, id, op).error)
  {
  }

  lemma AutoClaimErrors(l: State, id: int, op: StreamOp)
    requires Inv(l) && id in l.streams && Refusal(l, op) == None && Rule(l, id, op).Err? && op.TriggerAutoClaim?
    ensures WithdrawalNames(l, id, l.streams[id], op, Rule(l, id, op).error)
  {
  }

  lemma UpdateErrors(l: State, id: int, op: StreamOp)
    requires Inv(l) && id in l.streams && Refusal(l, op) == None && Rule(l, id, op).Err? && op.UpdateRate?
    ensures RateNames(l, l.streams[id], op, Rule(l, id, op).error)
  {
  }

  lemma DecreaseErrors(l: State, id: int, op: StreamOp)
    requires Inv(l) && id in l.streams && Refusal(l, op) == None && Rule(l, id, op).Err? && op.DecreaseRate?
    ensures RateNames(l, l.streams[id], op, Rule(l, id, op).error)
  {
    OwedBounds(l.streams[id], l.clock);
  }

  lemma ShortenErrors(l: State, id: int, op: StreamOp)
    requires Inv(l) && id in l.streams && Refusal(l, op) == None && Rule(l, id, op).Err? && op.Shorten?
    ensures EndNames(l, l.streams[id], op, Rule(l, id, op).error)
  {
    OwedBounds(l.streams[id], l.clock);
  }

  lemma ExtendErrors(l: State, id: int, op: StreamOp)
    requires Inv(l) && id in l.streams && Refusal(l, op) == None && Rule(l, id, op).Err? && op.Extend?
    ensures EndNames(l, l.streams[id], op, Rule(l, id, op).error)
  {
  }

  lemma TopUpErrors(l: State, id: int, op: StreamOp)
    requires Inv(l) && id in l.streams && Refusal(l, op) == None && Rule(l, id, op).Err? && op.TopUp?
    ensures TopUpNames(l, l.streams[id], op, Rule(l, id, op).error)
  {
  }

  lemma PauseErrors(l: State, id: int, op: StreamOp)
    requires Inv(l) && id in l.streams && Refusal(l, op) == None && Rule(l, id, op).Err? && op.Pause?
    ensures StopNames(l, l.streams[id], op, Rule(l, id, op).error)
  {
  }

  lemma ResumeErrors(l: State, id: int, op: StreamOp)
    requires Inv(l) && id in l.streams && Refusal(l, op) == None && Rule(l, id, op).Err? && op.Resume?
    ensures StopNames(l, l.streams[id], op, Rule(l, id, op).error)
  {
  }

  lemma CancelErrors(l: State, id: int, op: StreamOp)
    requires Inv(l) && id in l.streams && Refusal(l, op) == None && Rule(l, id, op).Err? && op.Cancel?
    ensures StopNames(l, l.streams[id], op, Rule(l, id, op).error)
  {
  }

  lemma RuleErrors(l: State, id: int, op: StreamOp)
    requires Inv(l) && id in l.streams && Refusal(l, op) == None && Rule(l, id, op).Err?
    ensures LoadedNames(l, id, l.streams[id], op, Rule(l, id, op).error)
  {
    match op
    case Withdraw(_) => WithdrawErrors(l, id, op);
    case WithdrawTo(_, _) => WithdrawToErrors(l, id, op);
    case DelegatedWithdraw(_) => DelegatedErrors(l, id, op);
    case TriggerAutoClaim => AutoClaimErrors(l, id, op);
    case UpdateRate(_, _) => UpdateErrors(l, id, op);
    case DecreaseRate(_, _) => DecreaseErrors(l, id, op);
    case Shorten(_, _) => ShortenErrors(l, id, op);
    case Extend(_, _) => ExtendErrors(l, id, op);
    case TopUp(_, _) => TopUpErrors(l, id, op);
    case Pause(_, _) => PauseErrors(l, id, op);
    case Resume(_, _) => ResumeErrors(l, id, op);
    case Cancel(_, _) => CancelErrors(l, id, op);
  }

  lemma EarlyErrors(l: State, id: int, op: StreamOp)
    requires Refusal(l, op).Some? || id !in l.streams
    ensures StreamStep(l, id, op).1.Err? && EarlyNames(l, id, op, StreamStep(l, id, op).1.error)
  {
  }

  /** Only a pull can fail once the rule has been passed. */
  lemma PullErrors(l: State, id: int, op: StreamOp)
    requires Inv(l) && id in l.streams && Refusal(l, op) == None && Rule(l, id, op).Ok? && StreamStep(l, id, op).1.Err?
    ensures op.TopUp? && StreamStep(l, id, op).1 == Err(HostTrap)
    ensures op.amount > l.spendable[op.funder] || l.balance + op.amount > I128_MAX
  {
    LedgerRuns.StepApplies(l, id, op);
    if Rule(l, id, op).value.Write? {
      LedgerRuns.RuleCounts(l, id, op);
    }
    if op.TopUp? {
      TopUpWrites(l, id, op.funder, op.amount, Rule(l, id, op).value);
    }
  }

  lemma LateErrors(l: State, id: int, op: StreamOp)
    requires id in l.streams && Refusal(l, op) == None && Rule(l, id, op).Err?
    ensures StreamStep(l, id, op).1 == Err(Rule(l, id, op).error)
  {
  }

  /** A refused call on a stream changes nothing, and its error names something that is so. */
  lemma ErrorsNameTheCause(l: State, id: int, op: StreamOp)
    requires Inv(l) && StreamStep(l, id, op).1.Err?
    ensures StreamStep(l, id, op).0 == l
    ensures var error := StreamStep(l, id, op).1.error;
            EarlyNames(l, id, op, error) || (id in l.streams && LoadedNames(l, id, l.streams[id], op, error))
  {
    LedgerRuns.RefusedStays(l, id, op);
    if Refusal(l, op).Some? || id !in l.streams {
      EarlyErrors(l, id, op);
    } else if Rule(l, id, op).Err? {
      RuleErrors(l, id, op);
      LateErrors(l, id, op);
    } else {
      PullErrors(l, id, op);
    }
  }

  /** The same for a creation. */
  lemma CreationErrorsNameTheCause(l: State, sender: Address, p: Params)
    requires Inv(l) && CreateStream(l, sender, p).1.Err?
    ensures match CreateStream(l, sender, p).1.error
            case ContractPaused => l.config.globalPaused || l.config.creationPaused
            case StartTimeInPast => p.start < l.clock.now
            case InsufficientDeposit => p.kind == Linear && p.deposit < p.rate * (p.end - p.start)
            case InvalidParams =>
              || p.deposit <= 0 || p.recipient == sender || p.start >= p.end || p.cliff < p.start || p.cliff > p.end
              || (p.kind == Linear && (p.rate <= 0 || p.rate > l.config.maxRate
                                       || p.rate * (p.end - p.start) > I128_MAX))
              || (p.memo.Some? && |p.memo.value| > 256)
            case HostTrap =>
              || sender == Contract || p.deposit > l.spendable[sender] || l.balance + p.deposit > I128_MAX
              || (sender !in l.ids.reservations && l.ids.nextId >= U64_MAX)
            case _ => false
  {
  }
}
