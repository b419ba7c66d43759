/** The governance contract as the monitor of its own log: a call does something exactly when the rules
    of the protocol justify the entry it asks for, what it does is to make that entry, and the log
    determines everything the contract stores. */
module GovernanceCalls {
  import opened FixedWidth
  import opened Governance
  import opened GovernanceLog
  import opened GovernanceRuns

  /** The entry that a call asks for, in terms of its arguments and the log. */
  function Asked(log: seq<Entry>, op: GovOp): Option<Event> {
    match op
    case Tick(_) => None
    case DoInit(admin, signers, threshold) => Some(Initialized(admin, signers, threshold))
    case DoSetAdmin(caller, admin) => Some(AdminChanged(caller, admin))
    case DoAddSigner(caller, signer) => Some(SignerAdded(caller, signer))
    case DoRemoveSigner(caller, signer) => Some(SignerRemoved(caller, signer))
    case DoPropose(proposer, target, calldata) => Some(Proposed(Submissions(log), proposer, target, calldata))
    case DoApprove(approver, id) => Some(Approved(id, approver))
    case DoExecute(id, dispatch) =>
      var s := Submission(log, id);
      if s.Some? && dispatch == Accepted then Some(Executed(id, s.value.target, s.value.calldata)) else None
    case DoCancel(caller, id) => Some(Cancelled(id, caller))
  }

  /** The log after a call, by the rules of the protocol alone. */
  ghost function Following(log: seq<Entry>, now: int, op: GovOp): seq<Entry> {
    var asked := Asked(log, op);
    if asked.Some? && Justified(log, Entry(now, asked.value)) then log + [Entry(now, asked.value)] else log
  }

  ghost predicate Follows(g: Gov, op: GovOp) {
    GovStep(g, op).log == Following(g.log, g.now, op)
  }

  lemma MembershipFollows(g: Gov, op: GovOp)
    requires GovOk(g) && (op.DoInit? || op.DoSetAdmin? || op.DoAddSigner? || op.DoRemoveSigner?)
    ensures Follows(g, op)
  {
    if g.admin.Some? {
      ListSize(g.signers, Members(g.log));
    }
  }

  lemma ProposeFollows(g: Gov, op: GovOp)
    requires GovOk(g) && op.DoPropose?
    ensures Follows(g, op)
  {
    assert IdOk(g, g.nextId);
  }

  lemma ApproveJustified(g: Gov, approver: Address, id: int)
    requires GovOk(g)
    ensures Approve(g, approver, id).1.Done? <==> Justified(g.log, Entry(g.now, Approved(id, approver)))
  {
    assert IdOk(g, id);
    if id in g.proposals {
      HasVotedIsListed(g, id, approver);
    }
  }

  lemma ApproveFollows(g: Gov, op: GovOp)
    requires GovOk(g) && op.DoApprove?
    ensures Follows(g, op)
  {
    ApproveJustified(g, op.approver, op.id);
  }

  lemma ExecuteFollows(g: Gov, op: GovOp)
    requires GovOk(g) && op.DoExecute?
    ensures Follows(g, op)
  {
    assert IdOk(g, op.id);
  }

  lemma CancelFollows(g: Gov, op: GovOp)
    requires GovOk(g) && op.DoCancel?
    ensures Follows(g, op)
  {
    assert IdOk(g, op.id);
  }

  /** Every call, accepted or refused: the log grows by the entry the call asks for if the rules of the
      protocol justify that entry, and by nothing otherwise; then the call changes nothing at all. */
  lemma CallsFollowTheRules(g: Gov, op: GovOp)
    requires GovOk(g) && !op.Tick?
    ensures GovStep(g, op).log == Following(g.log, g.now, op) && GovStep(g, op).now == g.now
    ensures Following(g.log, g.now, op) == g.log ==> GovStep(g, op) == g
  {
    if op.DoPropose? {
      ProposeFollows(g, op);
    } else if op.DoApprove? {
      ApproveFollows(g, op);
    } else if op.DoExecute? {
      ExecuteFollows(g, op);
    } else if op.DoCancel? {
      CancelFollows(g, op);
    } else {
      MembershipFollows(g, op);
    }
    SilentCallsKeep(g, op);
  }

  lemma SilentCallsKeep(g: Gov, op: GovOp)
    requires !op.Tick?
    ensures GovStep(g, op).now == g.now
    ensures |GovStep(g, op).log| == |g.log| ==> GovStep(g, op) == g
  {
  }

  /** Two states with the same log, at the same time, differ at most in the order of the co-signers. */
  lemma LogDeterminesState(g: Gov, m: Gov)
    requires GovOk(g) && GovOk(m) && g.log == m.log && g.now == m.now
    ensures m == g.(signers := m.signers) && forall a :: a in m.signers <==> a in g.signers
  {
    assert forall id :: id in g.proposals <==> id in m.proposals;
    forall id | id in g.proposals ensures g.proposals[id] == m.proposals[id] {
      assert IdOk(g, id) && IdOk(m, id);
      assert g.proposals[id].approvals == m.proposals[id].approvals;
    }
    assert g.proposals == m.proposals;
    forall id ensures id in g.quorums <==> id in m.quorums {
      assert IdOk(g, id) && IdOk(m, id);
    }
    forall id | id in g.quorums ensures g.quorums[id] == m.quorums[id] {
      assert IdOk(g, id) && IdOk(m, id);
    }
    assert g.quorums == m.quorums;
  }

  function TimeAfter(now: int, ops: seq<GovOp>): int {
    if |ops| == 0 then now
    else
      var before, op := TimeAfter(now, ops[..|ops| - 1]), ops[|ops| - 1];
      if op.Tick? && before + op.seconds <= U64_MAX then before + op.seconds else before
  }

  /** The log of a run by the rules of the protocol alone, with no contract. */
  ghost function RuledLog(now: int, ops: seq<GovOp>): seq<Entry> {
    if |ops| == 0 then []
    else
      var before := ops[..|ops| - 1];
      Following(RuledLog(now, before), TimeAfter(now, before), ops[|ops| - 1])
  }

  /** The refinement over whole runs: the contract publishes exactly the log that the rules prescribe;
      by `LogDeterminesState` that also says what it stores. */
  lemma {:induction false} RunFollowsTheRules(now: int, ops: seq<GovOp>)
    requires IsU64(now)
    ensures var g := GovRun(Deployed(now), ops);
            GovOk(g) && g.now == TimeAfter(now, ops) && g.log == RuledLog(now, ops)
  {
    if |ops| == 0 {
      DeployedOk(now);
    } else {
      var g, op := GovRun(Deployed(now), ops[..|ops| - 1]), ops[|ops| - 1];
      RunFollowsTheRules(now, ops[..|ops| - 1]);
      GovStepKeepsOk(g, op);
      if !op.Tick? {
        CallsFollowTheRules(g, op);
      }
    }
  }

  // ------------------------------------------------------------------ what the caller is told

  function Told<T>(r: Reply<T>): Option<GovernanceError> { if r.Refused? then Some(r.error) else None }

  /** The error of a call, or `None`. */
  function Outcome(g: Gov, op: GovOp): Option<GovernanceError> {
    match op
    case Tick(_) => None
    case DoInit(admin, signers, threshold) => Told(Init(g, admin, signers, threshold).1)
    case DoSetAdmin(caller, admin) => Told(SetAdmin(g, caller, admin).1)
    case DoAddSigner(caller, signer) => Told(AddSigner(g, caller, signer).1)
    case DoRemoveSigner(caller, signer) => Told(RemoveSigner(g, caller, signer).1)
    case DoPropose(proposer, target, calldata) => Told(Propose(g, proposer, target, calldata).1)
    case DoApprove(approver, id) => Told(Approve(g, approver, id).1)
    case DoExecute(id, dispatch) => Told(Execute(g, id, dispatch).1)
    case DoCancel(caller, id) => Told(Governance.Cancel(g, caller, id).1)
  }

  /** What each error says about the log, the time and the call. */
  ghost predicate Reason(log: seq<Entry>, now: int, op: GovOp, error: GovernanceError) {
    match error
    case NotInitialized => Admin(log) == None
    case AlreadyInitialized => op.DoInit? && Admin(log).Some?
    case InvalidThreshold => op.DoInit? && !(1 <= op.threshold <= |op.signers|)
    case TooManySigners =>
      if op.DoInit? then |op.signers| > MAX_SIGNERS else op.DoAddSigner? && |Members(log)| >= MAX_SIGNERS
    case DuplicateSigner =>
      if op.DoInit? then !NoDuplicates(op.signers) else op.DoAddSigner? && op.signer in Members(log)
    case QuorumWouldBreak => op.DoRemoveSigner? && op.signer in Members(log) && |Members(log)| <= Threshold(log)
    case NotASigner =>
      if op.DoPropose? then op.proposer !in Members(log) else op.DoApprove? && op.approver !in Members(log)
    case CalldataEmpty => op.DoPropose? && |op.calldata| == 0
    case CalldataTooLarge => op.DoPropose? && |op.calldata| > MAX_CALLDATA_BYTES
    case InvalidCalldata => op.DoExecute? && op.dispatch == Undecodable
    case HostTrap =>
      if op.DoExecute? then op.dispatch == Rejected
      else (op.DoSetAdmin? || op.DoAddSigner? || op.DoRemoveSigner?) && Admin(log) != Some(op.caller)
    case ProposalNotFound => OnProposal(op) && Submission(log, op.id) == None
    case _ =>
      if op.DoPropose? then error == ArithmeticOverflow && Submissions(log) == U32_MAX
      else OnProposal(op) && Submission(log, op.id).Some? && ProposalReason(log, now, op, error)
  }

  predicate OnProposal(op: GovOp) { op.DoApprove? || op.DoExecute? || op.DoCancel? }

  ghost predicate ProposalReason(log: seq<Entry>, now: int, op: GovOp, error: GovernanceError)
    requires OnProposal(op) && Submission(log, op.id).Some?
  {
    var id, age := op.id, Submission(log, op.id).value.at + MAX_PROPOSAL_AGE_SECONDS;
    match error
    case AlreadyExecuted => WasExecuted(log, id)
    case ProposalCancelled => WasCancelled(log, id)
    case NotProposerOrAdmin =>
      op.DoCancel? && op.caller != Submission(log, id).value.proposer && Admin(log) != Some(op.caller)
    case AlreadyApproved => op.DoApprove? && HasVoted(log, id, op.approver)
    case ProposalExpired => !op.DoCancel? && now > age
    case QuorumNotReached => op.DoExecute? && |Votes(log, id)| < Threshold(log)
    case TimelockNotElapsed =>
      op.DoExecute? && 1 <= Threshold(log) <= |Votes(log, id)|
      && now < Votes(log, id)[Threshold(log) - 1].at + GOVERNANCE_TIMELOCK_SECONDS
    case ArithmeticOverflow => !op.DoCancel? && (age > U64_MAX || now + GOVERNANCE_TIMELOCK_SECONDS > U64_MAX)
    case _ => false
  }

  /** A call reports success exactly when its entry is justified, or when the administrator removes an
      address that is no co-signer, which does nothing; an error it reports names something that is
      so; and an accepted submission returns the number of submissions before it. */
  ghost predicate Truthful(g: Gov, op: GovOp) {
    var e, asked := Outcome(g, op), Asked(g.log, op);
    && (e == None <==>
          || (asked.Some? && Justified(g.log, Entry(g.now, asked.value)))
          || (op.DoRemoveSigner? && Admin(g.log) == Some(op.caller) && op.signer !in Members(g.log)))
    && (e.Some? ==> Reason(g.log, g.now, op, e.value))
    && (op.DoPropose? && e == None ==>
          Propose(g, op.proposer, op.target, op.calldata).1 == Done(Submissions(g.log)))
  }

  lemma MembershipTruthful(g: Gov, op: GovOp)
    requires GovOk(g) && (op.DoInit? || op.DoSetAdmin? || op.DoAddSigner? || op.DoRemoveSigner?)
    ensures Truthful(g, op)
  {
    if g.admin.Some? {
      ListSize(g.signers, Members(g.log));
    }
  }

  lemma ProposeTruthful(g: Gov, op: GovOp)
    requires GovOk(g) && op.DoPropose?
    ensures Truthful(g, op)
  {
    assert IdOk(g, g.nextId);
  }

  lemma ApproveTruthful(g: Gov, op: GovOp)
    requires GovOk(g) && op.DoApprove?
    ensures Truthful(g, op)
  {
    assert IdOk(g, op.id);
    if op.id in g.proposals {
      HasVotedIsListed(g, op.id, op.approver);
    }
  }

  lemma ExecuteTruthful(g: Gov, op: GovOp)
    requires GovOk(g) && op.DoExecute?
    ensures Truthful(g, op)
  {
    assert IdOk(g, op.id);
  }

  lemma CancelTruthful(g: Gov, op: GovOp)
    requires GovOk(g) && op.DoCancel?
    ensures Truthful(g, op)
  {
    assert IdOk(g, op.id);
  }

  lemma RepliesAreTruthful(g: Gov, op: GovOp)
    requires GovOk(g) && !op.Tick?
    ensures Truthful(g, op)
  {
    if op.DoPropose? {
      ProposeTruthful(g, op);
    } else if op.DoApprove? {
      ApproveTruthful(g, op);
    } else if op.DoExecute? {
      ExecuteTruthful(g, op);
    } else if op.DoCancel? {
      CancelTruthful(g, op);
    } else {
      MembershipTruthful(g, op);
    }
  }

  // ------------------------------------------------------------------ a proposal is what was submitted

  /** In every run: the proposal under the ID that an accepted submission returns is new, and names the
      submitter, the contract and the call of that submission ever after; only that call is dispatched. */
  lemma ProposalIsAsSubmitted(now: int, before: seq<GovOp>, proposer: Address, target: Address, calldata: seq<bv8>,
                              id: int, after: seq<GovOp>)
    requires IsU64(now) && Propose(GovRun(Deployed(now), before), proposer, target, calldata).1 == Done(id)
    ensures var g := GovRun(Deployed(now), before);
            var m := GovRun(Propose(g, proposer, target, calldata).0, after);
            && id !in g.proposals && id in m.proposals && m.proposals[id].createdAt == g.now
            && m.proposals[id].proposer == proposer && m.proposals[id].target == target
            && m.proposals[id].calldata == calldata
            && forall k | 0 <= k < |m.log| && Executes(m.log[k].event, id) ::
                 m.log[k].event == Executed(id, target, calldata)
  {
    var g := GovRun(Deployed(now), before);
    DeployedOk(now);
    GovRunKeepsOk(Deployed(now), before);
    var n := Propose(g, proposer, target, calldata).0;
    ProposeKeepsOk(g, proposer, target, calldata);
    GovRunKeeps(n, after);
    var m := GovRun(n, after);
    assert IdOk(m, id);
    forall k | 0 <= k < |m.log| && Executes(m.log[k].event, id)
      ensures m.log[k].event == Executed(id, target, calldata)
    {
      DispatchedAsSubmitted(m.log, k, id);
    }
  }

  lemma DispatchedAsSubmitted(log: seq<Entry>, k: nat, id: int)
    requires GoodLog(log) && k < |log| && Executes(log[k].event, id)
    ensures Submission(log, id).Some?
    ensures log[k].event == Executed(id, Submission(log, id).value.target, Submission(log, id).value.calldata)
  {
    GoodPrefix(log, k);
    SubmissionIsFixed(log, k, id);
  }
}
