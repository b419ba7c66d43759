/** `keeper_cancel`: how one call splits what is left of an abandoned stream, and what it does to the
    balance, the liability counter, the books and the count of paused streams.  The call pays the
    recipient but leaves `withdrawn` as it was, so it is not a step of the runs in the other modules:
    it keeps their invariant if and only if there was nothing to pay the recipient. */
module Keeper {
  import opened FixedWidth
  import opened Accrual
  import opened Streams
  import opened StreamRules
  import opened Ledger
  import opened LedgerInvariant
  import opened LedgerRuns
  import opened Storage
  import opened RateChanges
  import opened Withdrawals

  const KEEPER_GRACE_PERIOD_SECONDS := 604_800
  const KEEPER_FEE_BPS := 50

  // ------------------------------------------------------------------ the fee

  /** `compute_keeper_fee_split`, in machine arithmetic: the fee and the refund. */
  function FeeSplit(gross: int, bps: int): (int, int) {
    var product := CheckedMul(gross, bps);
    var fee := (if product.Some? then product.value else I128_MAX) / 10_000;
    var refund := Checked(gross - fee);
    (fee, if refund.Some? then refund.value else 0)
  }

  /** Nothing is lost or made in the split, not even when the product overflows: the fee is the exact
      share rounded down, or less than that if the share does not fit. */
  lemma FeeSplitConserves(gross: i128, bps: u32)
    requires gross >= 0 && bps <= 10_000
    ensures var (fee, refund) := FeeSplit(gross, bps);
            && fee + refund == gross && 0 <= fee <= gross
            && fee * 10_000 <= gross * bps
            && (gross * bps <= I128_MAX ==> gross * bps < (fee + 1) * 10_000)
  {
    var product := gross * bps;
    assert 0 <= product <= gross * 10_000 by {
      MulMonotone(0, bps, gross);
      MulMonotone(bps, 10_000, gross);
      assert product == bps * gross;
    }
    ShareOf(Min(product, I128_MAX), gross);
    var fee := Min(product, I128_MAX) / 10_000;
    assert IsI128(gross);
    assert 0 <= gross - fee <= gross;
    assert FeeSplit(gross, bps) == (fee, gross - fee);
  }

  lemma ShareOf(x: int, gross: int)
    requires 0 <= x && 0 <= gross
    ensures 0 <= x / 10_000 && x / 10_000 * 10_000 <= x < (x / 10_000 + 1) * 10_000
    ensures x <= gross * 10_000 ==> x / 10_000 <= gross
  {
  }

  // ------------------------------------------------------------------ the rule

  datatype Split = Split(recipient: nat, refund: nat, fee: nat)

  function Gross(s: Stream, c: Clock): int { s.deposit - Accrued(s, c.now) }

  /** What is paid to whom, over the unbounded integers. */
  function KeeperRule(s: Stream, c: Clock): Result<Split>
    requires StreamOk(s, c)
  {
    OwedBounds(s, c);
    if !Live(s) then Err(InvalidState)
    else if s.end + KEEPER_GRACE_PERIOD_SECONDS > U64_MAX then Err(ArithmeticOverflow)
    else if c.now < s.end + KEEPER_GRACE_PERIOD_SECONDS then Err(KeeperGracePeriodNotElapsed)
    else if Gross(s, c) * KEEPER_FEE_BPS > I128_MAX then Err(ArithmeticOverflow)
    else
      var fee := Gross(s, c) * KEEPER_FEE_BPS / 10_000;
      Ok(Split(Claim(s, c), Gross(s, c) - fee, fee))
  }

  /** The three payments are together all that was left of the deposit; the recipient gets all that
      has accrued, and the fee comes out of the sender's part. */
  lemma KeeperPaysWhatIsLeft(s: Stream, c: Clock)
    requires StreamOk(s, c) && ClockOk(c) && KeeperRule(s, c).Ok?
    ensures var p := KeeperRule(s, c).value;
            && p.recipient + p.refund + p.fee == s.deposit - s.withdrawn == Owed(s)
            && p.recipient == Accrued(s, c.now) - s.withdrawn
            && (p.fee, p.refund) == FeeSplit(Gross(s, c), KEEPER_FEE_BPS)
  {
    OwedBounds(s, c);
    FeeSplitConserves(Gross(s, c), KEEPER_FEE_BPS);
  }

  function KeeperCancelled(s: Stream, c: Clock): Stream { s.(status := Cancelled, cancelledAt := Some(c.now)) }

  /** The state after the three payments; the fee is booked with the refund it is taken from. */
  function Distribute(l: State, id: int, keeper: Address, p: Split): State
    requires id in l.streams
  {
    var s := l.streams[id];
    var m := l.(streams := l.streams[id := KeeperCancelled(s, l.clock)],
                liabilities := l.liabilities - (p.recipient + p.refund + p.fee));
    Record(Send(Send(Send(m, s.recipient, p.recipient), s.sender, p.refund), keeper, p.fee),
           id, 0, p.recipient, p.refund + p.fee)
  }

  /** `fees` is the running total of fees paid to keepers. */
  function KeeperStep(l: State, id: int, keeper: Address, fees: int): (State, int, Result<()>)
    requires id in l.streams ==> StreamOk(l.streams[id], l.clock)
  {
    if id !in l.streams then (l, fees, Err(StreamNotFound))
    else
      var r := KeeperRule(l.streams[id], l.clock);
      if r.Err? then (l, fees, Err(r.error))
      else if fees + r.value.fee > I128_MAX then (l, fees, Err(ArithmeticOverflow))
      else (Distribute(l, id, keeper, r.value), fees + r.value.fee, Ok(()))
  }

  lemma KeeperSteps(l: State, id: int, keeper: Address, fees: int, p: Split)
    requires id in l.streams && StreamOk(l.streams[id], l.clock) && KeeperRule(l.streams[id], l.clock) == Ok(p)
    ensures KeeperStep(l, id, keeper, fees)
         == if fees + p.fee > I128_MAX then (l, fees, Err(ArithmeticOverflow))
            else (Distribute(l, id, keeper, p), fees + p.fee, Ok(()))
  {
  }

  lemma KeeperRuleExactly(s: Stream, c: Clock)
    requires StreamOk(s, c) && ClockOk(c)
    ensures KeeperRule(s, c).Ok? <==>
              && s.status in {Active, Paused} && c.now >= s.end + 604_800
              && (s.deposit - Accrued(s, c.now)) * 50 <= I128_MAX
    ensures KeeperRule(s, c).Ok? ==>
              var p, gross := KeeperRule(s, c).value, s.deposit - Accrued(s, c.now);
              && p.recipient == Accrued(s, c.now) - s.withdrawn && p.refund == gross - p.fee
              && p.fee == gross * 50 / 10_000
              && p.fee * 200 <= gross < (p.fee + 1) * 200
  {
    OwedBounds(s, c);
  }

  /** Anybody may end a live stream a week after its end, unless the product of the fee or the running
      total of fees would overflow. */
  lemma KeeperAccepted(l: State, id: int, keeper: Address, fees: int)
    requires Inv(l)
    ensures var (m, after, r) := KeeperStep(l, id, keeper, fees);
            && (r.Ok? <==> && id in l.streams && l.streams[id].status in {Active, Paused}
                           && l.clock.now >= l.streams[id].end + 604_800
                           && var gross := l.streams[id].deposit - Accrued(l.streams[id], l.clock.now);
                              gross * 50 <= I128_MAX && fees + gross * 50 / 10_000 <= I128_MAX)
            && (r.Err? ==> m == l && after == fees)
  {
    if id in l.streams {
      KeeperRuleExactly(l.streams[id], l.clock);
    }
  }

  /** Then the recipient is sent all that has accrued and was not withdrawn, the keeper half a percent,
      rounded down, of what never accrued, and the sender the rest of that; the record says cancelled,
      and the counter falls by all that was left of the deposit. */
  lemma KeeperMeans(l: State, id: int, keeper: Address, fees: int)
    requires Inv(l) && KeeperStep(l, id, keeper, fees).2.Ok?
    ensures var (m, after, r) := KeeperStep(l, id, keeper, fees);
            var s, fee := l.streams[id], after - fees;
            var accrued := Accrued(s, l.clock.now);
            && 0 <= fee && fee * 200 <= s.deposit - accrued < (fee + 1) * 200 && after <= I128_MAX
            && s.withdrawn <= accrued && fee <= s.deposit - accrued
            && m.streams == l.streams[id := s.(status := Cancelled, cancelledAt := Some(l.clock.now))]
            && m.sent == Add(Add(Add(l.sent, s.recipient, accrued - s.withdrawn),
                                 s.sender, s.deposit - accrued - fee), keeper, fee)
            && m.liabilities == l.liabilities - (s.deposit - s.withdrawn)
  {
    var p := KeeperRule(l.streams[id], l.clock).value;
    KeeperRuleExactly(l.streams[id], l.clock);
    KeeperSteps(l, id, keeper, fees, p);
    OwedBounds(l.streams[id], l.clock);
  }

  /** The record after the call is valid, and is owed once more what the recipient has just been paid. */
  lemma CancelledRecord(s: Stream, c: Clock)
    requires StreamOk(s, c) && ClockOk(c) && Live(s)
    ensures StreamOk(KeeperCancelled(s, c), c)
    ensures Owed(KeeperCancelled(s, c)) == Claim(s, c) == Claim(KeeperCancelled(s, c), c)
    ensures Accrued(KeeperCancelled(s, c), c.now) == Accrued(s, c.now)
  {
    OwedBounds(s, c);
  }

  /** What the call leaves of each field that matters here. */
  lemma DistributeWrites(l: State, id: int, keeper: Address, p: Split)
    requires id in l.streams && id in l.flows
    ensures var m, s, f := Distribute(l, id, keeper, p), l.streams[id], l.flows[id];
            && m.clock == l.clock && m.ids == l.ids && m.config == l.config
            && m.streams == l.streams[id := KeeperCancelled(s, l.clock)]
            && m.liabilities == l.liabilities - (p.recipient + p.refund + p.fee)
            && m.balance == l.balance - Leaving(s.recipient, p.recipient) - Leaving(s.sender, p.refund)
                            - Leaving(keeper, p.fee)
            && m.flows == l.flows[id := Flow(f.funded, f.paid + p.recipient, f.refunded + p.refund + p.fee)]
  {
  }

  /** The totals after the call: the sum of what is owed falls by less than the counter does. */
  lemma KeeperTotals(l: State, id: int, keeper: Address, p: Split)
    requires Inv(l) && id in l.streams && KeeperRule(l.streams[id], l.clock) == Ok(p)
    ensures var m, s := Distribute(l, id, keeper, p), l.streams[id];
            && Total(m.streams) == Total(l.streams) - Owed(s) + Claim(s, l.clock)
            && m.liabilities == l.liabilities - Owed(s)
            && l.balance - Owed(s) <= m.balance <= l.balance
            && m.balance == l.balance - Owed(s) + KeptBy(s.recipient, p.recipient) + KeptBy(keeper, p.fee)
  {
    var s := l.streams[id];
    KeeperPaysWhatIsLeft(s, l.clock);
    CancelledRecord(s, l.clock);
    TotalUpdate(l.streams, id, KeeperCancelled(s, l.clock));
    DistributeWrites(l, id, keeper, p);
  }

  /** The books of the stream balance after the call if and only if nothing was paid to the recipient:
      what was put in for it has left in full, and the record still shows the claim as owed. */
  lemma KeeperBooksExactly(l: State, id: int, keeper: Address, p: Split)
    requires Inv(l) && id in l.streams && KeeperRule(l.streams[id], l.clock) == Ok(p)
    ensures var m, s := Distribute(l, id, keeper, p), l.streams[id];
            && Net(m.flows[id]) == 0 && Owed(m.streams[id]) == Claim(s, l.clock)
            && (BooksBalance(m) <==> Claim(s, l.clock) == 0)
  {
    KeeperPaysWhatIsLeft(l.streams[id], l.clock);
    CancelledRecord(l.streams[id], l.clock);
    DistributeWrites(l, id, keeper, p);
  }

  lemma SettledKeeperStep(l: State, id: int, keeper: Address, p: Split)
    requires Inv(l) && id in l.streams && KeeperRule(l.streams[id], l.clock) == Ok(p)
    requires Claim(l.streams[id], l.clock) == 0
    ensures Inv(Distribute(l, id, keeper, p)) && Progress(l, Distribute(l, id, keeper, p))
  {
    var m := Distribute(l, id, keeper, p);
    KeeperTotals(l, id, keeper, p);
    KeeperBooksExactly(l, id, keeper, p);
    CancelledRecord(l.streams[id], l.clock);
    DistributeWrites(l, id, keeper, p);
    assert m.flows.Keys == l.flows.Keys;
  }

  /** The exact condition, which can be checked before the call: `keeper_cancel` keeps the invariant
      of the ledger if and only if the recipient has nothing to claim.  Then it also takes nothing
      back, so that everything proved of runs goes on from the state it leaves. */
  lemma KeeperKeepsInvExactly(l: State, id: int, keeper: Address, fees: int)
    requires Inv(l) && KeeperStep(l, id, keeper, fees).2.Ok?
    ensures var m, s := KeeperStep(l, id, keeper, fees).0, l.streams[id];
            && (Inv(m) <==> Claim(s, l.clock) == 0)
            && (Claim(s, l.clock) == 0 ==> Progress(l, m))
  {
    var p := KeeperRule(l.streams[id], l.clock).value;
    KeeperBooksExactly(l, id, keeper, p);
    if Claim(l.streams[id], l.clock) == 0 {
      SettledKeeperStep(l, id, keeper, p);
    }
  }

  /** Solvency alone: balance and counter fall by all that was owed on the stream, what is owed falls
      by that less the claim; payments of the contract to itself stay in the balance.  Each of the two
      still covers what is owed if and only if it covered the claim in addition before the call. */
  lemma KeeperSolventIffSurplusCoversClaim(l: State, id: int, keeper: Address, fees: int)
    requires Inv(l) && KeeperStep(l, id, keeper, fees).2.Ok?
    ensures var m, s := KeeperStep(l, id, keeper, fees).0, l.streams[id];
            var claim, fee := Claim(s, l.clock), KeeperRule(s, l.clock).value.fee;
            var kept := KeptBy(s.recipient, claim) + KeptBy(keeper, fee);
            && Surplus(m) == Surplus(l) - claim + kept && Gap(m) == Gap(l) - claim
            && (Total(m.streams) <= m.balance <==> claim <= Surplus(l) + kept)
            && (Total(m.streams) <= m.liabilities <==> claim <= Gap(l))
  {
    KeeperTotals(l, id, keeper, KeeperRule(l.streams[id], l.clock).value);
  }

  /** After the call `withdraw` pays the recipient the same claim once more, as far as the balance that
      is left goes. */
  lemma ClaimIsPaidOnceMore(l: State, id: int, keeper: Address, fees: int)
    requires Inv(l) && KeeperStep(l, id, keeper, fees).2.Ok?
    requires !l.config.globalPaused && !TooSoon(l.streams[id], l.clock)
    ensures var m, s := KeeperStep(l, id, keeper, fees).0, l.streams[id];
            var again := CappedWithdraw(m.streams[id], m.clock, s.recipient, m.balance);
            && again.Ok?
            && (if again.value.Write? then again.value.pay == Min(Claim(s, l.clock), m.balance)
                else Min(Claim(s, l.clock), m.balance) == 0)
            && (Claim(s, l.clock) <= m.balance ==> StreamStep(m, id, Withdraw(s.recipient)).1 == Ok(Claim(s, l.clock)))
  {
    var m, s := KeeperStep(l, id, keeper, fees).0, l.streams[id];
    CancelledRecord(s, l.clock);
    OwedBounds(s, l.clock);
    SplitIsCovered(l, id);
    KeeperTotals(l, id, keeper, KeeperRule(s, l.clock).value);
    KeeperPaysWhatIsLeft(s, l.clock);
    DistributeWrites(l, id, keeper, KeeperRule(s, l.clock).value);
    CancelledCapped(KeeperCancelled(s, l.clock), l.clock, m.balance);
    CancelledWithdrawal(m, id);
  }

  lemma CancelledCapped(s: Stream, c: Clock, balance: int)
    requires StreamOk(s, c) && s.status == Cancelled && !TooSoon(s, c) && 0 <= balance
    ensures var r := CappedWithdraw(s, c, s.recipient, balance);
            && r.Ok?
            && (if r.value.Write? then r.value.pay == Min(Claim(s, c), balance) else Min(Claim(s, c), balance) == 0)
  {
    OwedBounds(s, c);
  }

  lemma CancelledWithdrawal(m: State, id: int)
    requires id in m.streams && StreamOk(m.streams[id], m.clock) && m.streams[id].status == Cancelled
    requires !m.config.globalPaused && !TooSoon(m.streams[id], m.clock)
    ensures StreamStep(m, id, Withdraw(m.streams[id].recipient)).1 == Ok(Claim(m.streams[id], m.clock))
  {
    OwedBounds(m.streams[id], m.clock);
  }

  // ------------------------------------------------------------------ the call

  method CheckKeeperCancel(stream: Stream, clock: Clock) returns (r: Result<Split>)
    requires StreamOk(stream, clock) && ClockOk(clock)
    ensures r == KeeperRule(stream, clock)
  {
    if stream.status != Active && stream.status != Paused {
      return Err(InvalidState);
    }
    var eligibleAt := CheckedAddU64(stream.end, KEEPER_GRACE_PERIOD_SECONDS);
    if eligibleAt == None {
      return Err(ArithmeticOverflow);
    }
    if clock.now < eligibleAt.value {
      return Err(KeeperGracePeriodNotElapsed);
    }
    MachineAccrual(stream, clock);
    var accrued := AccruedAt(stream, clock.now);
    var recipientAmount := Max(SaturatingSub(accrued, stream.withdrawn), 0);
    var unstreamed := Checked(stream.deposit - accrued);
    if unstreamed == None {
      return Err(InvalidState);
    }
    var gross := Max(unstreamed.value, 0);
    var product := CheckedMul(gross, KEEPER_FEE_BPS);
    if product == None {
      return Err(ArithmeticOverflow);
    }
    ShareOf(product.value, gross);
    var fee := product.value / 10_000;
    var refund := Checked(gross - fee);
    if refund == None {
      return Err(ArithmeticOverflow);
    }
    return Ok(Split(recipientAmount, refund.value, fee));
  }

  method PushPositive(env: Env, to: Address, amount: nat)
    requires amount <= env.balance
    modifies env`balance, env`sent
    ensures env.View() == Send(old(env.View()), to, amount) && env.balance >= old(env.balance) - amount
  {
    SendZero(env.View(), to);
    if amount > 0 {
      PushToken(env, to, amount);
    }
  }

  /** The three payments, each only if it is positive. */
  method PayThree(env: Env, s: Stream, keeper: Address, p: Split)
    requires p.recipient + p.refund + p.fee <= env.balance
    modifies env`balance, env`sent
    ensures env.View() == Send(Send(Send(old(env.View()), s.recipient, p.recipient), s.sender, p.refund), keeper, p.fee)
  {
    PushPositive(env, s.recipient, p.recipient);
    PushPositive(env, s.sender, p.refund);
    PushPositive(env, keeper, p.fee);
  }

  lemma SplitIsCovered(l: State, id: int)
    requires Inv(l) && id in l.streams && KeeperRule(l.streams[id], l.clock).Ok?
    ensures var p := KeeperRule(l.streams[id], l.clock).value;
            p.recipient + p.refund + p.fee <= l.balance && p.recipient + p.refund + p.fee <= l.liabilities <= I128_MAX
  {
    ClaimIsPayable(l, id);
    KeeperPaysWhatIsLeft(l.streams[id], l.clock);
  }

  /** `keeper_cancel`; `feesPaid` is the stored running total.  Whatever else happens, the recipient
      index and the count of paused streams stay right. */
  method KeeperCancel(env: Env, keeper: Address, id: int, feesPaid: i128) returns (r: Result<()>, fees: int)
    requires env.Valid() && 0 <= feesPaid
    modifies env
    ensures env.TablesOk()
    ensures (env.View(), fees, r) == KeeperStep(old(env.View()), id, keeper, feesPaid)
  {
    if id !in env.streams {
      return Err(StreamNotFound), feesPaid;
    }
    var split := CheckKeeperCancel(env.streams[id], env.clock);
    if split.Err? {
      return Err(split.error), feesPaid;
    }
    KeeperSteps(env.View(), id, keeper, feesPaid, split.value);
    r, fees := PayAndCount(env, keeper, id, feesPaid, split.value);
  }

  /** The writes, the payments and the count of fees, which comes last and may still fail. */
  method PayAndCount(env: Env, keeper: Address, id: int, feesPaid: i128, split: Split)
      returns (r: Result<()>, fees: int)
    requires env.Valid() && 0 <= feesPaid && id in env.streams
    requires KeeperRule(env.streams[id], env.clock) == Ok(split)
    modifies env
    ensures env.TablesOk()
    ensures (env.View(), fees, r)
         == if feesPaid + split.fee > I128_MAX then (old(env.View()), feesPaid, Err(ArithmeticOverflow))
            else (Distribute(old(env.View()), id, keeper, split), feesPaid + split.fee, Ok(()))
  {
    ghost var l := env.View();
    assert IsI128(feesPaid);
    SplitIsCovered(l, id);
    IdsFit(l);
    var before := TakeSnapshot(env);
    WriteKeeperCancel(env, id, env.streams[id], keeper, split);
    ghost var m := env.View();
    fees := feesPaid;
    if split.fee > 0 {
      var updated := Checked(feesPaid + split.fee);
      if updated == None {
        Rollback(env, before, l);
        return Err(ArithmeticOverflow), feesPaid;
      }
      fees := updated.value;
    }
    r := Ok(());
    assert env.View() == m && fees == feesPaid + split.fee;
  }

  method WriteKeeperCancel(env: Env, id: int, stream: Stream, keeper: Address, p: Split)
    requires env.TablesOk() && id in env.streams && stream == env.streams[id]
    requires forall k | k in env.streams :: 0 <= k < U64_MAX
    requires p.recipient + p.refund + p.fee <= env.balance
    requires p.recipient + p.refund + p.fee <= env.totalLiabilities <= I128_MAX
    modifies env
    ensures env.TablesOk() && SameFrame(old(env.View()), env.View())
    ensures env.View() == Distribute(old(env.View()), id, keeper, p)
  {
    ghost var l := env.View();
    SaveStream(env, id, stream.(status := Cancelled, cancelledAt := Some(env.clock.now)));
    LowerTotalLiabilities(env, p.recipient + p.refund + p.fee);
    assert env.View() == l.(streams := l.streams[id := KeeperCancelled(stream, l.clock)],
                            liabilities := l.liabilities - (p.recipient + p.refund + p.fee));
    PayAndBook(env, id, stream, keeper, p);
  }

  method PayAndBook(env: Env, id: int, stream: Stream, keeper: Address, p: Split)
    requires p.recipient + p.refund + p.fee <= env.balance
    modifies env`balance, env`sent, env`flows
    ensures var m := Send(Send(old(env.View()), stream.recipient, p.recipient), stream.sender, p.refund);
            env.View() == Record(Send(m, keeper, p.fee), id, 0, p.recipient, p.refund + p.fee)
  {
    PayThree(env, stream, keeper, p);
    Book(env, id, 0, p.recipient, p.refund + p.fee);
  }
}
