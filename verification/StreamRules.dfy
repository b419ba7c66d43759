/** What each entry point does to the one stream it loads: a refusal, or an `Effect` (the record
    that is saved, the tokens that move, the change of the liability counter).  Amounts are
    unbounded integers and the contract balance is never consulted; the methods over `Env` show
    that the machine arithmetic and the balance caps of the source make no difference. */
module StreamRules {
  import opened FixedWidth
  import opened Accrual
  import opened Streams

  const MIN_PAUSE_INTERVAL_LEDGERS := 17
  const MIN_WITHDRAW_INTERVAL_LEDGERS := 1

  datatype Effect =
    | Keep
    | Write(stream: Stream, liability: int, pay: nat, payee: Address, refund: nat, fund: nat, funder: Address)

  function Rewrite(s: Stream): Effect { Write(s, 0, 0, s.recipient, 0, 0, s.sender) }

  /** The law every effect obeys: the record stays valid, what is owed changes by exactly the
      tokens that move, the recipient's accrual does not shrink, what was paid is recorded, and the
      liability counter is lowered by no more than the tokens that leave. */
  predicate EffectOk(s: Stream, e: Effect, c: Clock) {
    e.Write? ==>
      && StreamOk(e.stream, c)
      && Owed(e.stream) == Owed(s) + e.fund - e.pay - e.refund
      && Accrued(e.stream, c.now) >= Accrued(s, c.now)
      && e.stream.withdrawn == s.withdrawn + e.pay
      && -(e.pay + e.refund) <= e.liability - e.fund <= 0
      && e.stream.sender == s.sender && e.stream.recipient == s.recipient
      && (e.fund > 0 ==> e.liability == e.fund && e.funder != Contract)
  }

  // ------------------------------------------------------------------ withdrawals

  function Claim(s: Stream, c: Clock): int { Accrued(s, c.now) - s.withdrawn }

  predicate Frozen(s: Stream, c: Clock) { s.status == Paused && !IsTerminal(s, c.now) }

  predicate TooSoon(s: Stream, c: Clock) {
    c.sequence - s.lastWithdraw < MIN_WITHDRAW_INTERVAL_LEDGERS
  }

  predicate DustBlocked(s: Stream, c: Clock) {
    Claim(s, c) < s.dust && !IsTerminal(s, c.now) && s.withdrawn + Claim(s, c) < s.deposit
  }

  /** The record after `amount` has been paid: a live stream that is paid in full is completed. */
  function PaidOut(s: Stream, amount: int, stamp: int): Stream {
    s.(withdrawn := s.withdrawn + amount,
       lastWithdraw := stamp,
       status := if Live(s) && s.withdrawn + amount == s.deposit then Completed else s.status)
  }

  function Payout(s: Stream, c: Clock, payee: Address, tracked: bool, stamp: int): Effect {
    var amount := Claim(s, c);
    if amount <= 0 then Keep
    else Write(PaidOut(s, amount, stamp), if tracked then -amount else 0, amount, payee, 0, 0, s.sender)
  }

  function PayoutUnlessDust(s: Stream, c: Clock, payee: Address, tracked: bool, stamp: int): Effect {
    if DustBlocked(s, c) then Keep else Payout(s, c, payee, tracked, stamp)
  }

  function Withdraw(s: Stream, c: Clock, caller: Address): Result<Effect> {
    if caller != s.recipient then Err(HostTrap)
    else if TooSoon(s, c) then Err(WithdrawalTooFrequent)
    else if s.status == Completed || Frozen(s, c) then Err(InvalidState)
    else Ok(PayoutUnlessDust(s, c, s.recipient, true, c.sequence))
  }

  function WithdrawTo(s: Stream, c: Clock, caller: Address, destination: Address): Result<Effect> {
    if caller != s.recipient then Err(HostTrap)
    else if destination == Contract then Err(InvalidParams)
    else if s.status == Completed || Frozen(s, c) then Err(InvalidState)
    else Ok(PayoutUnlessDust(s, c, destination, true, s.lastWithdraw))
  }

  /** A relayer's request; `key` is the account of the public key supplied, and `genuine` is the
      verdict of the host's signature check. */
  datatype Delegation = Delegation(key: nat, nonce: int, deadline: int, minimum: int, genuine: bool)

  function DelegatedWithdraw(s: Stream, c: Clock, d: Delegation, nonce: int): Result<Effect> {
    if TooSoon(s, c) then Err(WithdrawalTooFrequent)
    else if d.nonce != nonce || Account(d.key) != s.recipient then Err(InvalidSignature)
    else if !d.genuine then Err(HostTrap)
    else if s.status == Completed || Frozen(s, c) then Err(InvalidState)
    else if Claim(s, c) < d.minimum then Err(BelowMinimumAmount)
    else Ok(Payout(s, c, s.recipient, false, c.sequence))
  }

  function TriggerAutoClaim(s: Stream, c: Clock, destination: Option<Address>): Result<Effect> {
    if !Live(s) || c.now < s.end then Err(InvalidState)
    else if destination == None || destination == Some(Contract) then Err(InvalidParams)
    else Ok(Payout(s, c, destination.value, false, s.lastWithdraw))
  }

  function BatchWithdrawItem(s: Stream, c: Clock, recipient: Address): Result<Effect> {
    if s.recipient != recipient then Err(Unauthorized)
    else if TooSoon(s, c) then Err(WithdrawalTooFrequent)
    else if Frozen(s, c) then Err(InvalidState)
    else if s.status == Completed then Ok(Keep)
    else Ok(PayoutUnlessDust(s, c, recipient, true, c.sequence))
  }

  function BatchWithdrawToItem(s: Stream, c: Clock, recipient: Address, destination: Address): Result<Effect> {
    if s.recipient != recipient then Err(Unauthorized)
    else if Frozen(s, c) then Err(InvalidState)
    else if s.status == Completed then Ok(Keep)
    else Ok(PayoutUnlessDust(s, c, destination, false, s.lastWithdraw))
  }

  // ------------------------------------------------------------------ re-pricing and re-scheduling

  /** Everything earned so far becomes the base of a new epoch starting now. */
  function Rebased(s: Stream, c: Clock, rate: int): Stream {
    s.(checkpointed := Accrued(s, c.now), checkpointedAt := c.now, rate := rate)
  }

  function UpdateRate(s: Stream, c: Clock, caller: Address, rate: int, maxRate: int): Result<Effect> {
    if s.kind == CliffOnly then Err(UnsupportedStreamKind)
    else if caller != s.sender then Err(HostTrap)
    else if !Live(s) then Err(InvalidState)
    else if rate <= 0 || rate <= s.rate then Err(InvalidParams)
    else if rate > maxRate then Err(RateCapExceeded)
    else if rate * (s.end - s.start) > I128_MAX then Err(ArithmeticOverflow)
    else if s.deposit < rate * (s.end - s.start) then Err(InsufficientDeposit)
    else Ok(Rewrite(Rebased(s, c, rate)))
  }

  /** The most that can still be earned once the rate is `rate` from now on. */
  function Ceiling(s: Stream, c: Clock, rate: int): int {
    Accrued(s, c.now) + rate * (s.end - c.now)
  }

  function DecreaseRate(s: Stream, c: Clock, caller: Address, rate: int): Result<Effect> {
    if s.kind == CliffOnly then Err(UnsupportedStreamKind)
    else if caller != s.sender then Err(HostTrap)
    else if !Live(s) then Err(StreamTerminalState)
    else if c.now >= s.end then Err(InvalidState)
    else if rate <= 0 || rate >= s.rate then Err(InvalidParams)
    else if rate * (s.end - c.now) > I128_MAX || Ceiling(s, c, rate) > I128_MAX then Err(ArithmeticOverflow)
    else if s.deposit < Ceiling(s, c, rate) then Err(InvalidState)
    else Ok(Write(Rebased(s, c, rate).(deposit := Ceiling(s, c, rate)), 0, 0, s.recipient,
                  s.deposit - Ceiling(s, c, rate), 0, s.sender))
  }

  function Shorten(s: Stream, c: Clock, caller: Address, end: int): Result<Effect> {
    if s.kind == CliffOnly then Err(UnsupportedStreamKind)
    else if caller != s.sender then Err(HostTrap)
    else if !Live(s) then Err(InvalidState)
    else if end <= c.now || end <= s.start || end < s.cliff || end >= s.end then Err(InvalidParams)
    else if s.rate * (end - s.start) > I128_MAX then Err(ArithmeticOverflow)
    else
      var deposit := Max(s.rate * (end - s.start), Accrued(s, c.now));
      if deposit > s.deposit then Err(InvalidParams)
      else Ok(Write(s.(end := end, deposit := deposit), -(s.deposit - deposit), 0, s.recipient,
                    s.deposit - deposit, 0, s.sender))
  }

  function Extend(s: Stream, c: Clock, caller: Address, end: int): Result<Effect> {
    if s.kind == CliffOnly then Err(UnsupportedStreamKind)
    else if caller != s.sender then Err(HostTrap)
    else if !Live(s) then Err(InvalidState)
    else if end <= s.end || end <= s.start || end < s.cliff || end < c.now then Err(InvalidParams)
    else if s.rate * (end - s.start) > I128_MAX then Err(ArithmeticOverflow)
    else if s.rate * (end - s.start) > s.deposit then Err(InsufficientDeposit)
    else Ok(Rewrite(s.(end := end)))
  }

  function TopUp(s: Stream, c: Clock, funder: Address, amount: int): Result<Effect>
    requires amount > 0
  {
    if s.kind == CliffOnly then Err(UnsupportedStreamKind)
    else if !Live(s) || c.now >= s.end then Err(InvalidState)
    else if funder == Contract then Err(HostTrap)
    else if s.deposit + amount > I128_MAX then Err(ArithmeticOverflow)
    else Ok(Write(s.(deposit := s.deposit + amount), amount, 0, s.recipient, 0, amount, funder))
  }

  // ------------------------------------------------------------------ pausing and cancelling

  predicate CoolingDown(s: Stream, c: Clock) {
    SaturatingSubU64(c.sequence, s.lastPauseToggle) < MIN_PAUSE_INTERVAL_LEDGERS
  }

  function Pause(s: Stream, c: Clock): Result<Effect> {
    if s.status == Paused then Err(StreamAlreadyPaused)
    else if IsTerminal(s, c.now) then Err(StreamTerminalState)
    else if CoolingDown(s, c) then Err(PauseCooldownActive)
    else Ok(Rewrite(s.(status := Paused, lastPauseToggle := c.sequence)))
  }

  function Resume(s: Stream, c: Clock): Result<Effect> {
    if s.status == Active then Err(StreamNotPaused)
    else if IsTerminal(s, c.now) then Err(StreamTerminalState)
    else if CoolingDown(s, c) then Err(PauseCooldownActive)
    else Ok(Rewrite(s.(status := Active, lastPauseToggle := c.sequence)))
  }

  function Cancelling(s: Stream, c: Clock): Stream {
    s.(status := Cancelled, cancelledAt := Some(c.now))
  }

  function Cancel(s: Stream, c: Clock): Result<Effect> {
    if !Live(s) then Err(InvalidState)
    else
      var refund := Max(s.deposit - Accrued(s, c.now), 0);
      Ok(Write(Cancelling(s, c), -refund, 0, s.recipient, refund, 0, s.sender))
  }

  /** The first half of a bulk cancellation: the recipient is paid up to date, whatever the
      frequency and dust rules say, and the stream stays live. */
  function PayUpToDate(s: Stream, c: Clock): Effect {
    var amount := Max(Claim(s, c), 0);
    Write(s.(withdrawn := s.withdrawn + amount), -amount, amount, s.recipient, 0, 0, s.sender)
  }

  // ------------------------------------------------------------------ every rule obeys the law

  lemma PayoutOk(s: Stream, c: Clock, payee: Address, tracked: bool, stamp: int)
    requires StreamOk(s, c) && s.status != Completed && 0 <= stamp <= c.sequence
    ensures EffectOk(s, Payout(s, c, payee, tracked, stamp), c)
    ensures EffectOk(s, PayoutUnlessDust(s, c, payee, tracked, stamp), c)
  {
    OwedBounds(s, c);
  }

  lemma WithdrawOk(s: Stream, c: Clock, caller: Address)
    requires StreamOk(s, c) && ClockOk(c) && Withdraw(s, c, caller).Ok?
    ensures EffectOk(s, Withdraw(s, c, caller).value, c)
  {
    PayoutOk(s, c, s.recipient, true, c.sequence);
  }

  lemma WithdrawToOk(s: Stream, c: Clock, caller: Address, to: Address)
    requires StreamOk(s, c) && ClockOk(c) && WithdrawTo(s, c, caller, to).Ok?
    ensures EffectOk(s, WithdrawTo(s, c, caller, to).value, c)
  {
    PayoutOk(s, c, to, true, s.lastWithdraw);
  }

  lemma DelegatedWithdrawOk(s: Stream, c: Clock, d: Delegation, n: int)
    requires StreamOk(s, c) && ClockOk(c) && DelegatedWithdraw(s, c, d, n).Ok?
    ensures EffectOk(s, DelegatedWithdraw(s, c, d, n).value, c)
  {
    PayoutOk(s, c, s.recipient, false, c.sequence);
  }

  lemma TriggerAutoClaimOk(s: Stream, c: Clock, a: Option<Address>)
    requires StreamOk(s, c) && ClockOk(c) && TriggerAutoClaim(s, c, a).Ok?
    ensures EffectOk(s, TriggerAutoClaim(s, c, a).value, c)
  {
    PayoutOk(s, c, a.value, false, s.lastWithdraw);
  }

  lemma BatchWithdrawItemOk(s: Stream, c: Clock, recipient: Address)
    requires StreamOk(s, c) && ClockOk(c) && BatchWithdrawItem(s, c, recipient).Ok?
    ensures EffectOk(s, BatchWithdrawItem(s, c, recipient).value, c)
  {
    if s.status != Completed {
      PayoutOk(s, c, recipient, true, c.sequence);
    }
  }

  lemma BatchWithdrawToItemOk(s: Stream, c: Clock, recipient: Address, to: Address)
    requires StreamOk(s, c) && ClockOk(c) && BatchWithdrawToItem(s, c, recipient, to).Ok?
    ensures EffectOk(s, BatchWithdrawToItem(s, c, recipient, to).value, c)
  {
    if s.status != Completed {
      PayoutOk(s, c, to, false, s.lastWithdraw);
    }
  }

  /** Starting a new epoch moves nothing: accrual at the present instant is what it was. */
  lemma RebasedAccrual(s: Stream, c: Clock, rate: int, deposit: int)
    requires StreamOk(s, c) && ClockOk(c) && Live(s) && s.kind == Linear && 0 < rate
    requires Accrued(s, c.now) <= deposit && 0 < deposit
    ensures Accrued(Rebased(s, c, rate).(deposit := deposit), c.now) == Accrued(s, c.now)
  {
    var t := Rebased(s, c, rate).(deposit := deposit);
    assert Elapsed(Checkpoint(t), c.now) == 0;
    assert 0 * rate == 0;
    EntitlementBounds(Checkpoint(s), s.rate, c.now);
  }

  lemma UpdateRateOk(s: Stream, c: Clock, caller: Address, rate: int, maxRate: int)
    requires StreamOk(s, c) && ClockOk(c)
    requires UpdateRate(s, c, caller, rate, maxRate).Ok? && maxRate <= I128_MAX
    ensures EffectOk(s, UpdateRate(s, c, caller, rate, maxRate).value, c)
    ensures Accrued(UpdateRate(s, c, caller, rate, maxRate).value.stream, c.now) == Accrued(s, c.now)
  {
    OwedBounds(s, c);
    RebasedAccrual(s, c, rate, s.deposit);
    assert Rebased(s, c, rate) == Rebased(s, c, rate).(deposit := s.deposit);
  }

  /** A decrease leaves the recipient's accrual alone and cuts the deposit to exactly what the
      stream can still accrue by its end. */
  lemma DecreaseRateOk(s: Stream, c: Clock, caller: Address, rate: int)
    requires StreamOk(s, c) && ClockOk(c)
    requires DecreaseRate(s, c, caller, rate).Ok?
    ensures var e := DecreaseRate(s, c, caller, rate).value;
            && EffectOk(s, e, c)
            && Accrued(e.stream, c.now) == Accrued(s, c.now)
            && Accrued(e.stream, s.end) == e.stream.deposit
            && e.stream.deposit + e.refund == s.deposit
  {
    OwedBounds(s, c);
    MulMonotone(1, s.end - c.now, rate);
    assert rate * (s.end - c.now) == (s.end - c.now) * rate;
    RebasedAccrual(s, c, rate, Ceiling(s, c, rate));
  }

  /** The cut: below the new ceiling, the old clamp and the new one agree. */
  lemma ShortenedAccrual(s: Stream, c: Clock, end: int, deposit: int)
    requires StreamOk(s, c) && Live(s) && s.kind == Linear
    requires c.now < end < s.end && s.start < end && s.cliff <= end
    requires Accrued(s, c.now) <= deposit <= s.deposit && 0 < deposit
    ensures Accrued(s.(end := end, deposit := deposit), c.now) == Accrued(s, c.now)
  {
    var t := s.(end := end, deposit := deposit);
    assert Elapsed(Checkpoint(t), c.now) == Elapsed(Checkpoint(s), c.now);
  }

  lemma ShortenOk(s: Stream, c: Clock, caller: Address, end: int)
    requires StreamOk(s, c) && ClockOk(c)
    requires Shorten(s, c, caller, end).Ok?
    ensures EffectOk(s, Shorten(s, c, caller, end).value, c)
    ensures Accrued(Shorten(s, c, caller, end).value.stream, c.now) == Accrued(s, c.now)
  {
    OwedBounds(s, c);
    var deposit := Max(s.rate * (end - s.start), Accrued(s, c.now));
    MulMonotone(1, end - s.start, s.rate);
    assert s.rate * (end - s.start) == (end - s.start) * s.rate;
    ShortenedAccrual(s, c, end, deposit);
  }

  /** Raising the end or the deposit can only raise accrual. */
  lemma WidenedAccrual(s: Stream, now: int, end: int, deposit: int)
    requires s.end <= end && s.deposit <= deposit && Live(s) && s.rate >= 0
    ensures Accrued(s, now) <= Accrued(s.(end := end, deposit := deposit), now)
  {
    var t := s.(end := end, deposit := deposit);
    MulMonotone(Elapsed(Checkpoint(s), now), Elapsed(Checkpoint(t), now), s.rate);
  }

  lemma ExtendOk(s: Stream, c: Clock, caller: Address, end: int)
    requires StreamOk(s, c) && ClockOk(c) && IsU64(end)
    requires Extend(s, c, caller, end).Ok?
    ensures EffectOk(s, Extend(s, c, caller, end).value, c)
  {
    OwedBounds(s, c);
    WidenedAccrual(s, c.now, end, s.deposit);
    assert s.(end := end, deposit := s.deposit) == s.(end := end);
  }

  lemma LongerAccrual(s: Stream, now: int, end: int)
    requires Live(s) && s.kind == Linear && 0 < s.rate && 0 < s.deposit && 0 <= s.checkpointed
    requires s.cliff <= s.end < end && now <= end
    ensures Accrued(s.(end := end), now) == Accrued(s, now) <==>
              now <= s.end || now <= s.checkpointedAt || Accrued(s, now) == s.deposit
  {
    var x, y := Elapsed(Checkpoint(s), now), Elapsed(Checkpoint(s.(end := end)), now);
    MulMonotone(0, x, s.rate);
    if now > s.end && now > s.checkpointedAt {
      MulMonotone(x + 1, y, s.rate);
      assert (x + 1) * s.rate == x * s.rate + s.rate;
    } else {
      assert x == y;
    }
  }

  /** Extending leaves the accrual at the present instant alone, except that a stream whose end has
      passed and that is not fully accrued jumps to what the longer schedule has earned by now. */
  lemma ExtendKeepsAccrualExactly(s: Stream, c: Clock, caller: Address, end: int)
    requires StreamOk(s, c) && ClockOk(c) && IsU64(end)
    requires Extend(s, c, caller, end).Ok?
    ensures Accrued(Extend(s, c, caller, end).value.stream, c.now) == Accrued(s, c.now) <==>
              c.now <= s.end || c.now <= s.checkpointedAt || Accrued(s, c.now) == s.deposit
  {
    LongerAccrual(s, c.now, end);
  }

  lemma ExtendCanRaiseAccrual()
    ensures exists s: Stream, c: Clock, end: int ::
              && StreamOk(s, c) && ClockOk(c) && Extend(s, c, s.sender, end).Ok?
              && Accrued(Extend(s, c, s.sender, end).value.stream, c.now) > Accrued(s, c.now)
  {
    var s := Stream(Account(1), Account(2), 1000, 10, 0, 0, 10, 0, Active, None, 0, 0, 0, None, Linear, 0, 0);
    var c := Clock(50, 1);
    assert StreamOk(s, c) && Accrued(s, 50) == 100;
    assert Extend(s, c, s.sender, 100) == Ok(Rewrite(s.(end := 100)));
    assert Accrued(s.(end := 100), 50) == 500;
  }

  lemma TopUpOk(s: Stream, c: Clock, funder: Address, amount: int)
    requires StreamOk(s, c) && ClockOk(c) && amount > 0
    requires TopUp(s, c, funder, amount).Ok?
    ensures EffectOk(s, TopUp(s, c, funder, amount).value, c)
  {
    OwedBounds(s, c);
    WidenedAccrual(s, c.now, s.end, s.deposit + amount);
    assert s.(end := s.end, deposit := s.deposit + amount) == s.(deposit := s.deposit + amount);
  }

  lemma PauseResumeOk(s: Stream, c: Clock)
    requires StreamOk(s, c) && ClockOk(c)
    ensures Pause(s, c).Ok? ==> EffectOk(s, Pause(s, c).value, c)
    ensures Resume(s, c).Ok? ==> EffectOk(s, Resume(s, c).value, c)
  {
    OwedBounds(s, c);
  }

  /** Cancelling freezes accrual where it stands; the rest of the deposit goes back. */
  lemma CancelOk(s: Stream, c: Clock)
    requires StreamOk(s, c) && ClockOk(c) && Live(s)
    ensures EffectOk(s, Cancel(s, c).value, c)
    ensures Accrued(Cancel(s, c).value.stream, c.now) == Accrued(s, c.now)
    ensures Owed(Cancel(s, c).value.stream) == Claim(s, c)
    ensures Cancel(s, c).value.refund == s.deposit - Accrued(s, c.now)
  {
    OwedBounds(s, c);
  }

  lemma PayUpToDateOk(s: Stream, c: Clock)
    requires StreamOk(s, c) && ClockOk(c) && Live(s)
    ensures EffectOk(s, PayUpToDate(s, c), c)
    ensures Claim(PayUpToDate(s, c).stream, c) == 0
    ensures Accrued(PayUpToDate(s, c).stream, c.now) == Accrued(s, c.now)
  {
    OwedBounds(s, c);
  }

  // ------------------------------------------------------------------ the withdrawal paths agree

  /** Whatever path a claim is drawn through, it is the same amount, and it leaves the same record
      apart from the time stamp that limits the next withdrawal. */
  lemma WithdrawalPathsAgree(s: Stream, c: Clock, to: Address, d: Delegation, n: int)
    requires StreamOk(s, c) && ClockOk(c) && !DustBlocked(s, c)
    requires Withdraw(s, c, s.recipient).Ok?
    ensures forall r | r in {
              WithdrawTo(s, c, s.recipient, to),
              DelegatedWithdraw(s, c, d, n),
              TriggerAutoClaim(s, c, Some(to)),
              BatchWithdrawItem(s, c, s.recipient),
              BatchWithdrawToItem(s, c, s.recipient, to)} && r.Ok? ::
              var e, w := r.value, Withdraw(s, c, s.recipient).value;
              && e.Keep? == w.Keep? == (Claim(s, c) == 0)
              && (e.Write? ==> e.pay == w.pay == Claim(s, c)
                               && e.stream.(lastWithdraw := 0) == w.stream.(lastWithdraw := 0))
  {
    OwedBounds(s, c);
  }

  // ------------------------------------------------------------------ the limits of a decrease

  /** A decrease of an accepted rate fails for lack of deposit exactly when the stream is
      underfunded at the new rate; the error is `InvalidState`. */
  lemma DecreaseRefusedWhenUnderfunded(s: Stream, c: Clock, rate: int)
    requires StreamOk(s, c) && ClockOk(c) && Live(s) && s.kind == Linear && c.now < s.end
    requires 0 < rate < s.rate && Ceiling(s, c, rate) <= I128_MAX
    ensures DecreaseRate(s, c, s.sender, rate).Err? <==> s.deposit < Ceiling(s, c, rate)
    ensures s.deposit < Ceiling(s, c, rate) ==> DecreaseRate(s, c, s.sender, rate) == Err(InvalidState)
  {
    OwedBounds(s, c);
    EntitlementBounds(Checkpoint(s), s.rate, c.now);
  }

  /** An accepted rate that the deposit does not cover. */
  predicate Underfunded(s: Stream, c: Clock, rate: int) {
    && StreamOk(s, c) && ClockOk(c) && Live(s) && s.kind == Linear && c.now < s.end
    && 0 < rate < s.rate && DecreaseRate(s, c, s.sender, rate) == Err(InvalidState)
  }

  /** "A lower rate over the same time fits the deposit" is not a law of reachable streams: lower
      the rate late, extend the end, and a further decrease needs more than the deposit holds. */
  lemma DecreaseCanBeUnderfunded()
    ensures exists s: Stream, c: Clock, late: int, end: int, rate: int :: LateDecreaseThenExtend(s, c, late, end, rate)
  {
    var s := Stream(Account(1), Account(2), 1000, 100, 0, 0, 10, 0, Active, None, 0, 0, 0, None, Linear, 0, 0);
    SampleIsUnderfunded(s, Clock(9, 1));
  }

  predicate IsSample(s: Stream) {
    && s.sender != Contract && s.deposit == 1000 && s.rate == 100 && s.start == s.cliff == 0 && s.end == 10
    && s.withdrawn == 0 && s.status == Active && s.cancelledAt == None && s.checkpointed == s.checkpointedAt == 0
    && s.kind == Linear && s.lastPauseToggle == s.lastWithdraw == 0
  }

  lemma SampleAccrues(s: Stream, now: int)
    requires IsSample(s) && 0 <= now <= 10
    ensures Accrued(s, now) == 100 * now
  {
    assert Elapsed(Checkpoint(s), now) == now;
  }

  lemma SampleIsUnderfunded(s: Stream, c: Clock)
    requires IsSample(s) && c.now == 9 && c.sequence == 1
    ensures LateDecreaseThenExtend(s, c, 10, 90, 5)
  {
    SampleAccrues(s, 9);
    var s1 := s.(checkpointed := 900, checkpointedAt := 9, rate := 10, deposit := 910);
    var s2 := s1.(end := 90);
    assert DecreaseRate(s, c, s.sender, 10) == Ok(Write(s1, 0, 0, s.recipient, 90, 0, s.sender));
    assert Extend(s1, c, s.sender, 90) == Ok(Rewrite(s2));
    assert Underfunded(s2, c, 5) by {
      assert Elapsed(Checkpoint(s2), 9) == 0;
      assert Accrued(s2, 9) == 900;
    }
  }

  /** A fresh stream is decreased at `c`, then extended, and then underfunded for a further decrease. */
  predicate LateDecreaseThenExtend(s: Stream, c: Clock, late: int, end: int, rate: int) {
    && StreamOk(s, c) && s.checkpointed == 0 && s.checkpointedAt == s.start && s.withdrawn == 0
    && var first := DecreaseRate(s, c, s.sender, late);
       && first.Ok? && first.value.Write?
       && var second := Extend(first.value.stream, c, s.sender, end);
          second.Ok? && second.value.Write? && Underfunded(second.value.stream, c, rate)
  }
}
