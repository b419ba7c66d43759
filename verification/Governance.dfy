/** The multi-signature governance contract as a state machine over values, with the log of what it
    did.  A call maps a state to a state and a result; a failed call leaves the state alone. */
module Governance {
  import opened FixedWidth
  import Streams

  type Address = Streams.Address

  const GOVERNANCE_TIMELOCK_SECONDS := 172_800
  const MAX_PROPOSAL_AGE_SECONDS := 2_592_000
  const MAX_SIGNERS := 20
  const MAX_CALLDATA_BYTES := 4_096
  const MAX_PAGE_SIZE := 100

  datatype GovernanceError =
    | NotInitialized | AlreadyInitialized | NotASigner | ProposalNotFound | AlreadyExecuted
    | QuorumNotReached | TimelockNotElapsed | AlreadyApproved | CalldataTooLarge | TooManySigners
    | ProposalExpired | ProposalCancelled | NotProposerOrAdmin | InvalidThreshold | QuorumWouldBreak
    | DuplicateSigner | ArithmeticOverflow | CalldataEmpty | InvalidCalldata
    | HostTrap  // missing authorization, or a target that rejects the dispatched call

  datatype Reply<+T> = Done(value: T) | Refused(error: GovernanceError) {
    predicate IsFailure() { Refused? }
    function PropagateFailure<U>(): Reply<U>
      requires Refused?
    {
      Refused(error)
    }
    function Extract(): T
      requires Done?
    {
      value
    }
  }

  datatype Proposal = Proposal(
    proposer: Address,
    target: Address,
    calldata: seq<bv8>,
    approvals: seq<Address>,
    createdAt: int,
    executed: bool,
    cancelled: bool)

  datatype QuorumInfo = QuorumInfo(reachedAt: int, threshold: int)

  datatype Event =
    | Initialized(admin: Address, signers: seq<Address>, threshold: int)
    | AdminChanged(caller: Address, admin: Address)
    | SignerAdded(caller: Address, signer: Address)
    | SignerRemoved(caller: Address, signer: Address)
    | Proposed(id: int, proposer: Address, target: Address, calldata: seq<bv8>)
    | Approved(id: int, approver: Address)
    | Executed(id: int, target: Address, calldata: seq<bv8>)  // the call that was dispatched
    | Cancelled(id: int, caller: Address)

  datatype Entry = Entry(at: int, event: Event)

  datatype Gov = Gov(
    now: int,
    admin: Option<Address>,
    signers: seq<Address>,
    threshold: int,
    nextId: int,
    proposals: map<int, Proposal>,
    quorums: map<int, QuorumInfo>,
    log: seq<Entry>)

  predicate NoDuplicates(s: seq<Address>) { forall i, j | 0 <= i < j < |s| :: s[i] != s[j] }

  function Logged(g: Gov, e: Event): Gov { g.(log := g.log + [Entry(g.now, e)]) }

  // ------------------------------------------------------------------ membership

  function Init(g: Gov, admin: Address, signers: seq<Address>, threshold: int): (Gov, Reply<()>) {
    if g.admin.Some? then (g, Refused(AlreadyInitialized))
    else if |signers| > MAX_SIGNERS then (g, Refused(TooManySigners))
    else if threshold == 0 || threshold > |signers| then (g, Refused(InvalidThreshold))
    else if !NoDuplicates(signers) then (g, Refused(DuplicateSigner))
    else (Logged(g.(admin := Some(admin), signers := signers, threshold := threshold, nextId := 0),
                 Initialized(admin, signers, threshold)), Done(()))
  }

  function SetAdmin(g: Gov, caller: Address, admin: Address): (Gov, Reply<()>) {
    if g.admin == None then (g, Refused(NotInitialized))
    else if caller != g.admin.value then (g, Refused(HostTrap))
    else (Logged(g.(admin := Some(admin)), AdminChanged(caller, admin)), Done(()))
  }

  function AddSigner(g: Gov, caller: Address, signer: Address): (Gov, Reply<()>) {
    if g.admin == None then (g, Refused(NotInitialized))
    else if caller != g.admin.value then (g, Refused(HostTrap))
    else if signer in g.signers then (g, Refused(DuplicateSigner))
    else if |g.signers| >= MAX_SIGNERS then (g, Refused(TooManySigners))
    else (Logged(g.(signers := g.signers + [signer]), SignerAdded(caller, signer)), Done(()))
  }

  /** The list without the first occurrence of `a`. */
  function Without(s: seq<Address>, a: Address): seq<Address> {
    if |s| == 0 then [] else if s[0] == a then s[1..] else [s[0]] + Without(s[1..], a)
  }

  function RemoveSigner(g: Gov, caller: Address, signer: Address): (Gov, Reply<()>) {
    if g.admin == None then (g, Refused(NotInitialized))
    else if caller != g.admin.value then (g, Refused(HostTrap))
    else if signer !in g.signers then (g, Done(()))
    else if |g.signers| - 1 < g.threshold then (g, Refused(QuorumWouldBreak))
    else (Logged(g.(signers := Without(g.signers, signer)), SignerRemoved(caller, signer)), Done(()))
  }

  // ------------------------------------------------------------------ proposals

  function Propose(g: Gov, proposer: Address, target: Address, calldata: seq<bv8>): (Gov, Reply<int>) {
    if g.admin == None then (g, Refused(NotInitialized))
    else if proposer !in g.signers then (g, Refused(NotASigner))
    else if |calldata| == 0 then (g, Refused(CalldataEmpty))
    else if |calldata| > MAX_CALLDATA_BYTES then (g, Refused(CalldataTooLarge))
    else if g.nextId + 1 > U32_MAX then (g, Refused(ArithmeticOverflow))
    else
      var p := Proposal(proposer, target, calldata, [], g.now, false, false);
      (Logged(g.(nextId := g.nextId + 1, proposals := g.proposals[g.nextId := p]),
              Proposed(g.nextId, proposer, target, calldata)), Done(g.nextId))
  }

  function Deadline(start: int, seconds: int): Reply<int> {
    if start + seconds > U64_MAX then Refused(ArithmeticOverflow) else Done(start + seconds)
  }

  /** What `approve` and `execute` refuse first. */
  function LiveFault(g: Gov, p: Proposal): Option<GovernanceError> {
    if p.cancelled then Some(ProposalCancelled)
    else if p.executed then Some(AlreadyExecuted)
    else
      match Deadline(p.createdAt, MAX_PROPOSAL_AGE_SECONDS)
      case Refused(error) => Some(error)
      case Done(deadline) => if g.now > deadline then Some(ProposalExpired) else None
  }

  function Approve(g: Gov, approver: Address, id: int): (Gov, Reply<()>) {
    if g.admin == None then (g, Refused(NotInitialized))
    else if approver !in g.signers then (g, Refused(NotASigner))
    else if id !in g.proposals then (g, Refused(ProposalNotFound))
    else
      var p := g.proposals[id];
      if LiveFault(g, p).Some? then (g, Refused(LiveFault(g, p).value))
      else if approver in p.approvals then (g, Refused(AlreadyApproved))
      else
        var quorum := |p.approvals| + 1 == g.threshold;
        if quorum && Deadline(g.now, GOVERNANCE_TIMELOCK_SECONDS).Refused? then (g, Refused(ArithmeticOverflow))
        else
          (Logged(g.(proposals := g.proposals[id := p.(approvals := p.approvals + [approver])],
                     quorums := if quorum then g.quorums[id := QuorumInfo(g.now, g.threshold)] else g.quorums),
                  Approved(id, approver)), Done(()))
  }

  /** The outcome of the call that `execute` dispatches to the target. */
  datatype Dispatch = Accepted | Undecodable | Rejected

  /** Every gate of `execute` in front of the dispatch. */
  function ExecuteFault(g: Gov, id: int): Option<GovernanceError> {
    if id !in g.proposals then Some(ProposalNotFound)
    else
      var p := g.proposals[id];
      if LiveFault(g, p).Some? then LiveFault(g, p)
      else if id !in g.quorums || |p.approvals| < g.quorums[id].threshold then Some(QuorumNotReached)
      else
        match Deadline(g.quorums[id].reachedAt, GOVERNANCE_TIMELOCK_SECONDS)
        case Refused(error) => Some(error)
        case Done(after) => if g.now < after then Some(TimelockNotElapsed) else None
  }

  function Execute(g: Gov, id: int, dispatch: Dispatch): (Gov, Reply<()>) {
    if ExecuteFault(g, id).Some? then (g, Refused(ExecuteFault(g, id).value))
    else if dispatch == Undecodable then (g, Refused(InvalidCalldata))
    else if dispatch == Rejected then (g, Refused(HostTrap))
    else
      var p := g.proposals[id];
      (Logged(g.(proposals := g.proposals[id := p.(executed := true)]), Executed(id, p.target, p.calldata)), Done(()))
  }

  function Cancel(g: Gov, caller: Address, id: int): (Gov, Reply<()>) {
    if id !in g.proposals then (g, Refused(ProposalNotFound))
    else
      var p := g.proposals[id];
      if p.executed then (g, Refused(AlreadyExecuted))
      else if p.cancelled then (g, Refused(ProposalCancelled))
      else if g.admin == None then (g, Refused(NotInitialized))
      else if caller != p.proposer && caller != g.admin.value then (g, Refused(NotProposerOrAdmin))
      else (Logged(g.(proposals := g.proposals[id := p.(cancelled := true)]), Cancelled(id, caller)), Done(()))
  }

  function IsExecutable(g: Gov, id: int): Reply<bool> {
    if id !in g.proposals then Refused(ProposalNotFound)
    else
      var p := g.proposals[id];
      if p.cancelled || p.executed then Done(false)
      else
        var deadline :- Deadline(p.createdAt, MAX_PROPOSAL_AGE_SECONDS);
        if g.now > deadline then Done(false)
        else if id !in g.quorums || |p.approvals| < g.quorums[id].threshold then Done(false)
        else
          var after :- Deadline(g.quorums[id].reachedAt, GOVERNANCE_TIMELOCK_SECONDS);
          Done(g.now >= after)
  }

  // ------------------------------------------------------------------ runs

  datatype GovOp =
    | Tick(seconds: nat)
    | DoInit(admin: Address, signers: seq<Address>, threshold: u32)
    | DoSetAdmin(caller: Address, admin: Address)
    | DoAddSigner(caller: Address, signer: Address)
    | DoRemoveSigner(caller: Address, signer: Address)
    | DoPropose(proposer: Address, target: Address, calldata: seq<bv8>)
    | DoApprove(approver: Address, id: int)
    | DoExecute(id: int, dispatch: Dispatch)
    | DoCancel(caller: Address, id: int)

  function GovStep(g: Gov, op: GovOp): Gov {
    match op
    case Tick(seconds) => if g.now + seconds <= U64_MAX then g.(now := g.now + seconds) else g
    case DoInit(admin, signers, threshold) => Init(g, admin, signers, threshold).0
    case DoSetAdmin(caller, admin) => SetAdmin(g, caller, admin).0
    case DoAddSigner(caller, signer) => AddSigner(g, caller, signer).0
    case DoRemoveSigner(caller, signer) => RemoveSigner(g, caller, signer).0
    case DoPropose(proposer, target, calldata) => Propose(g, proposer, target, calldata).0
    case DoApprove(approver, id) => Approve(g, approver, id).0
    case DoExecute(id, dispatch) => Execute(g, id, dispatch).0
    case DoCancel(caller, id) => Cancel(g, caller, id).0
  }

  function GovRun(g: Gov, ops: seq<GovOp>): Gov {
    if |ops| == 0 then g else GovStep(GovRun(g, ops[..|ops| - 1]), ops[|ops| - 1])
  }

  /** The contract as deployed. */
  function Deployed(now: int): Gov { Gov(now, None, [], 0, 0, map[], map[], []) }
}
