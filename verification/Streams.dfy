/** The stream record of contracts/stream/src/lib.rs, what is owed on it, and the condition every
    stored record satisfies at every ledger time. */
module Streams {
  import opened FixedWidth
  import opened Accrual

  /** `Contract` is the stream contract's own address; an account has a public key, another contract
      has none. */
  datatype Address = Contract | Account(key: nat) | OtherContract(number: nat)

  datatype Error =
    | StreamNotFound | InvalidState | InvalidParams | ContractPaused | StartTimeInPast
    | ArithmeticOverflow | Unauthorized | InsufficientDeposit | StreamAlreadyPaused
    | StreamNotPaused | StreamTerminalState | DuplicateStreamId | InvalidSignature
    | BelowMinimumAmount | ReservationCountZero | ReservationLimitExceeded
    | SignatureDeadlineExpired | ReservationNotFound | ReservationNotExpirable
    | ReservationStillActive | UnsupportedStreamKind | RateCapExceeded | PauseCooldownActive
    | WithdrawalTooFrequent | KeeperGracePeriodNotElapsed | TemplateNotFound | TemplateUnauthorized
    | TemplateLimitExceeded
    | HostTrap  // a panic: missing authorization, a failed token transfer, a failed `assert!`

  datatype Result<+T> = Ok(value: T) | Err(error: Error) {
    predicate IsFailure() { Err? }
    function PropagateFailure<U>(): Result<U>
      requires Err?
    {
      Err(error)
    }
    function Extract(): T
      requires Ok?
    {
      value
    }
  }

  datatype StreamStatus = Active | Paused | Completed | Cancelled

  datatype Stream = Stream(
    sender: Address,
    recipient: Address,
    deposit: int,
    rate: int,
    start: int,
    cliff: int,
    end: int,
    withdrawn: int,
    status: StreamStatus,
    cancelledAt: Option<int>,
    checkpointed: int,
    checkpointedAt: int,
    dust: int,
    memo: Option<seq<bv8>>,
    kind: StreamKind,
    lastPauseToggle: int,
    lastWithdraw: int)

  /** Ledger time and ledger sequence number. */
  datatype Clock = Clock(now: int, sequence: int)

  predicate ClockOk(c: Clock) { IsU64(c.now) && 0 <= c.sequence <= U32_MAX }

  function Checkpoint(s: Stream): CheckpointState {
    CheckpointState(s.checkpointed, s.checkpointedAt, s.cliff, s.end, s.deposit, s.kind)
  }

  predicate Live(s: Stream) { s.status == Active || s.status == Paused }

  /** The time at which accrual is read: frozen once a stream is cancelled. */
  function AccrualTime(s: Stream, now: int): int {
    if s.status == Cancelled && s.cancelledAt.Some? then s.cancelledAt.value else now
  }

  /** What the recipient has earned so far, paid out or not. */
  function Accrued(s: Stream, now: int): int {
    if s.status == Completed then s.deposit
    else Entitlement(Checkpoint(s), s.rate, AccrualTime(s, now))
  }

  /** What the contract must still be able to pay out because of this stream. */
  function Owed(s: Stream): int {
    match s.status
    case Active | Paused => s.deposit - s.withdrawn
    case Completed => 0
    case Cancelled => Accrued(s, 0) - s.withdrawn
  }

  predicate IsTerminal(s: Stream, now: int) {
    s.status == Completed || s.status == Cancelled || now >= s.end
  }

  /** What every stored record satisfies at ledger time `c`. */
  predicate StreamOk(s: Stream, c: Clock) {
    && 0 < s.deposit <= I128_MAX
    && 0 <= s.start < s.end <= U64_MAX && s.start <= s.cliff <= s.end
    && (if s.kind == Linear then 0 < s.rate <= I128_MAX else s.rate == 0)
    && 0 <= s.checkpointedAt <= U64_MAX
    && 0 <= s.checkpointed <= Accrued(s, c.now)
    && 0 <= s.withdrawn <= Accrued(s, c.now)
    && (s.status == Completed ==> s.withdrawn == s.deposit)
    && (if s.status == Cancelled then s.cancelledAt.Some? && 0 <= s.cancelledAt.value <= c.now
        else s.cancelledAt == None)
    && s.sender != Contract
    && 0 <= s.lastWithdraw <= c.sequence
    && 0 <= s.lastPauseToggle <= c.sequence
  }

  lemma OwedBounds(s: Stream, c: Clock)
    requires StreamOk(s, c)
    ensures 0 <= Accrued(s, c.now) - s.withdrawn <= Owed(s) <= s.deposit
    ensures s.status == Cancelled ==> Accrued(s, c.now) - s.withdrawn == Owed(s)
    ensures Accrued(s, c.now) <= s.deposit
  {
    EntitlementBounds(Checkpoint(s), s.rate, AccrualTime(s, c.now));
  }

  /** Time alone never takes anything away from a recipient. */
  lemma AccruedMonotone(s: Stream, t: int, u: int)
    requires t <= u
    ensures Accrued(s, t) <= Accrued(s, u)
  {
    if s.status != Completed {
      EntitlementMonotone(Checkpoint(s), s.rate, AccrualTime(s, t), AccrualTime(s, u));
    }
  }

  lemma StreamOkLater(s: Stream, c: Clock, d: Clock)
    requires StreamOk(s, c) && c.now <= d.now && c.sequence <= d.sequence
    ensures StreamOk(s, d)
  {
    AccruedMonotone(s, c.now, d.now);
  }
}
