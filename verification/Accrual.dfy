/** The accrual function of contracts/stream/src/accrual.rs, in machine arithmetic, and the
    unbounded-integer formula it computes. */
module Accrual {
  import opened FixedWidth

  datatype StreamKind = Linear | CliffOnly

  datatype CheckpointState = CheckpointState(
    checkpointedAmount: int,
    checkpointedAt: int,
    cliffTime: int,
    endTime: int,
    depositAmount: int,
    kind: StreamKind)

  /** The values that fit the field types of the Rust struct. */
  predicate Representable(c: CheckpointState, rate: int, now: int) {
    && IsI128(c.checkpointedAmount) && IsI128(c.depositAmount) && IsI128(rate)
    && IsU64(c.checkpointedAt) && IsU64(c.cliffTime) && IsU64(c.endTime) && IsU64(now)
  }

  /** The code: 64-bit times widened to `i128`, a checked product that falls back to the deposit,
      and a saturating sum. */
  function CalculateAccrued(c: CheckpointState, rate: int, now: int): int {
    if now < c.cliffTime then 0
    else if c.depositAmount <= 0 then 0
    else if c.kind == CliffOnly then c.depositAmount
    else if rate < 0 then 0
    else if c.checkpointedAt >= c.endTime then Max(Min(c.checkpointedAmount, c.depositAmount), 0)
    else
      var elapsedNow := Min(now, c.endTime);
      var elapsedSeconds := if elapsedNow <= c.checkpointedAt then 0 else elapsedNow - c.checkpointedAt;
      var added := match CheckedMul(elapsedSeconds, rate) {
                     case Some(amount) => amount
                     case None => c.depositAmount
                   };
      Max(Min(SaturatingAdd(c.checkpointedAmount, added), c.depositAmount), 0)
  }

  /** Whole seconds between the checkpoint and `t` that lie before the end of the stream. */
  function Elapsed(c: CheckpointState, t: int): nat {
    Max(Min(t, c.endTime) - c.checkpointedAt, 0)
  }

  /** What the recipient has earned at `t`, over the unbounded integers. */
  function Entitlement(c: CheckpointState, rate: int, t: int): int {
    if t < c.cliffTime || c.depositAmount <= 0 then 0
    else if c.kind == CliffOnly then c.depositAmount
    else if rate < 0 then 0
    else Clamp(c.checkpointedAmount + Elapsed(c, t) * rate, 0, c.depositAmount)
  }

  lemma MulMonotone(x: int, y: int, k: int)
    requires x <= y && 0 <= k
    ensures x * k <= y * k
  {
  }

  /** The machine arithmetic never shows: the code computes the unbounded formula. */
  lemma FixedWidthIsExact(c: CheckpointState, rate: int, now: int)
    requires Representable(c, rate, now)
    requires c.checkpointedAmount >= 0
    ensures CalculateAccrued(c, rate, now) == Entitlement(c, rate, now)
  {
    if rate >= 0 {
      MulMonotone(0, Elapsed(c, now), rate);
      assert c.checkpointedAt >= c.endTime ==> Elapsed(c, now) == 0;
    }
  }

  /** A negative checkpoint and a product that does not fit: only then is the fallback visible. */
  predicate FallbackShows(c: CheckpointState, rate: int, now: int) {
    && c.checkpointedAmount < 0 && now >= c.cliffTime && c.depositAmount > 0 && c.kind == Linear && rate >= 0
    && Elapsed(c, now) * rate > I128_MAX && c.checkpointedAmount + Elapsed(c, now) * rate > 0
  }

  /** For all inputs: the code differs from the unbounded formula exactly when the fallback shows. */
  lemma CodeDiffersExactly(c: CheckpointState, rate: int, now: int)
    requires Representable(c, rate, now)
    ensures CalculateAccrued(c, rate, now) != Entitlement(c, rate, now) <==> FallbackShows(c, rate, now)
  {
    if rate >= 0 {
      MulMonotone(0, Elapsed(c, now), rate);
      assert c.checkpointedAt >= c.endTime ==> Elapsed(c, now) == 0;
    }
  }

  /** An input on which it shows. */
  lemma NegativeCheckpointIsNotExact()
    ensures exists c, rate, now ::
              && Representable(c, rate, now) && FallbackShows(c, rate, now)
              && CalculateAccrued(c, rate, now) != Entitlement(c, rate, now)
  {
    var c := CheckpointState(-1, 0, 0, 2, 100, Linear);
    assert Elapsed(c, 2) == 2;
    assert FallbackShows(c, I128_MAX, 2);
    CodeDiffersExactly(c, I128_MAX, 2);
  }

  lemma EntitlementBounds(c: CheckpointState, rate: int, t: int)
    ensures 0 <= Entitlement(c, rate, t) <= Max(c.depositAmount, 0)
  {
  }

  /** Accrual never runs backwards, whichever of the cliff, checkpoint and end branches it crosses. */
  lemma EntitlementMonotone(c: CheckpointState, rate: int, t: int, u: int)
    requires t <= u
    ensures Entitlement(c, rate, t) <= Entitlement(c, rate, u)
  {
    if rate >= 0 {
      MulMonotone(Elapsed(c, t), Elapsed(c, u), rate);
    }
  }

  /** The code itself is monotone and stays within the deposit. */
  lemma CodeIsMonotoneAndBounded(c: CheckpointState, rate: int, t: int, u: int)
    requires Representable(c, rate, t) && Representable(c, rate, u) && t <= u
    requires c.checkpointedAmount >= 0
    ensures 0 <= CalculateAccrued(c, rate, t) <= CalculateAccrued(c, rate, u) <= Max(c.depositAmount, 0)
  {
    FixedWidthIsExact(c, rate, t);
    FixedWidthIsExact(c, rate, u);
    EntitlementMonotone(c, rate, t, u);
  }
}
