/** What holds over every run of the governance contract. */
module GovernanceRuns {
  import opened FixedWidth
  import opened Accrual
  import opened Governance
  import opened GovernanceLog

  // ------------------------------------------------------------------ the invariant

  ghost predicate MembershipOk(g: Gov) {
    && Admin(g.log) == g.admin && Threshold(g.log) == g.threshold && Submissions(g.log) == g.nextId
    && NoDuplicates(g.signers) && (forall a :: a in g.signers <==> a in Members(g.log))
    && (if g.admin.Some? then 1 <= g.threshold <= |g.signers| <= MAX_SIGNERS
        else g.threshold == 0 && g.nextId == 0 && g.log == [])
  }

  /** The record of a proposal says what the log says. */
  ghost predicate RecordOk(log: seq<Entry>, id: int, p: Proposal) {
    && Submission(log, id) == Some(Submitted(p.createdAt, p.proposer, p.target, p.calldata))
    && |p.approvals| == |Votes(log, id)|
    && (forall i | 0 <= i < |p.approvals| :: p.approvals[i] == Votes(log, id)[i].who)
    && (p.executed <==> WasExecuted(log, id)) && (p.cancelled <==> WasCancelled(log, id))
  }

  /** The quorum record exists if and only if enough approvals do, and it shows the moment of the
      approval that completed the quorum. */
  ghost predicate QuorumOk(g: Gov, id: int, p: Proposal) {
    && 0 <= p.createdAt <= g.now
    && (id in g.quorums <==> |p.approvals| >= g.threshold)
    && (id in g.quorums ==>
          && 0 <= g.quorums[id].reachedAt <= g.now
          && |Votes(g.log, id)| >= g.threshold >= 1
          && g.quorums[id] == QuorumInfo(Votes(g.log, id)[g.threshold - 1].at, g.threshold)
          && g.quorums[id].reachedAt + GOVERNANCE_TIMELOCK_SECONDS <= U64_MAX
          && p.createdAt + MAX_PROPOSAL_AGE_SECONDS <= U64_MAX)
  }

  ghost predicate Unknown(g: Gov, id: int) {
    && Submission(g.log, id) == None && Votes(g.log, id) == [] && id !in g.quorums
    && !WasExecuted(g.log, id) && !WasCancelled(g.log, id)
  }

  ghost predicate IdOk(g: Gov, id: int) {
    if id in g.proposals then RecordOk(g.log, id, g.proposals[id]) && QuorumOk(g, id, g.proposals[id])
    else Unknown(g, id)
  }

  ghost predicate GovOk(g: Gov) {
    && IsU64(g.now) && GoodLog(g.log) && MembershipOk(g)
    && 0 <= g.nextId <= U32_MAX && (forall id :: id in g.proposals <==> 0 <= id < g.nextId)
    && forall id :: IdOk(g, id)
  }

  // ------------------------------------------------------------------ one entry more

  predicate About(v: Event, id: int) {
    match v
    case Proposed(i, _, _, _) => i == id
    case Approved(i, _) => i == id
    case Executed(i, _, _) => i == id
    case Cancelled(i, _) => i == id
    case _ => false
  }

  /** An entry about something else says nothing new about `id`. */
  lemma EntryFrame(log: seq<Entry>, e: Entry, id: int)
    requires !About(e.event, id)
    ensures Submission(log + [e], id) == Submission(log, id) && Votes(log + [e], id) == Votes(log, id)
    ensures WasExecuted(log + [e], id) <==> WasExecuted(log, id)
    ensures WasCancelled(log + [e], id) <==> WasCancelled(log, id)
  {
    OneMore(log, e);
    FinalOneMore(log, e, id);
  }

  /** The membership part is about membership entries only. */
  lemma MembersFrame(log: seq<Entry>, e: Entry)
    requires e.event.Proposed? || e.event.Approved? || e.event.Executed? || e.event.Cancelled? || e.event.AdminChanged?
    ensures Members(log + [e]) == Members(log) && Threshold(log + [e]) == Threshold(log)
    ensures Admin(log + [e]) == if e.event.AdminChanged? then Some(e.event.admin) else Admin(log)
    ensures Submissions(log + [e]) == Submissions(log) + if e.event.Proposed? then 1 else 0
  {
    OneMore(log, e);
  }

  lemma {:induction false} ListSize(s: seq<Address>, m: set<Address>)
    requires NoDuplicates(s) && forall a :: a in s <==> a in m
    ensures |s| == |m|
  {
    if |s| == 0 {
      assert forall a :: a !in m;
      assert m == {};
    } else {
      var rest, last := s[..|s| - 1], s[|s| - 1];
      assert s == rest + [last];
      assert last in s && last !in rest;
      ListSize(rest, m - {last});
    }
  }

  /** `Without` removes exactly the one address. */
  lemma {:induction false} WithoutRemoves(s: seq<Address>, a: Address)
    requires NoDuplicates(s)
    ensures NoDuplicates(Without(s, a)) && forall b :: b in Without(s, a) <==> b in s && b != a
    ensures |Without(s, a)| == |s| - if a in s then 1 else 0
  {
    if |s| > 0 {
      var rest := s[1..];
      assert s == [s[0]] + rest;
      assert s[0] !in rest;
      WithoutRemoves(rest, a);
    }
  }

  // ------------------------------------------------------------------ every step

  /** A step that logs a membership entry touches no proposal. */
  lemma MembershipStep(g: Gov, m: Gov, e: Event)
    requires e.AdminChanged? || e.SignerAdded? || e.SignerRemoved?
    requires GovOk(g) && m == Logged(g.(admin := m.admin, signers := m.signers), e)
    requires Justified(g.log, Entry(g.now, e)) && MembershipOk(m)
    ensures GovOk(m)
  {
    OneMore(g.log, Entry(g.now, e));
    forall id ensures IdOk(m, id) {
      assert IdOk(g, id);
      EntryFrame(g.log, Entry(g.now, e), id);
    }
  }

  lemma InitKeepsOk(g: Gov, admin: Address, signers: seq<Address>, threshold: u32)
    requires GovOk(g)
    ensures GovOk(Init(g, admin, signers, threshold).0)
  {
    var m := Init(g, admin, signers, threshold).0;
    if m != g {
      var e := Entry(g.now, Initialized(admin, signers, threshold));
      OneMore(g.log, e);
      forall id ensures IdOk(m, id) {
        assert IdOk(g, id);
        EntryFrame(g.log, e, id);
      }
    }
  }

  lemma SetAdminKeepsOk(g: Gov, caller: Address, admin: Address)
    requires GovOk(g)
    ensures GovOk(SetAdmin(g, caller, admin).0)
  {
    var m := SetAdmin(g, caller, admin).0;
    if m != g || SetAdmin(g, caller, admin).1.Done? {
      MembersFrame(g.log, Entry(g.now, AdminChanged(caller, admin)));
      MembershipStep(g, m, AdminChanged(caller, admin));
    }
  }

  lemma AddSignerKeepsOk(g: Gov, caller: Address, signer: Address)
    requires GovOk(g)
    ensures GovOk(AddSigner(g, caller, signer).0)
  {
    var (m, r) := AddSigner(g, caller, signer);
    if r.Done? {
      OneMore(g.log, Entry(g.now, SignerAdded(caller, signer)));
      ListSize(g.signers, Members(g.log));
      MembershipStep(g, m, SignerAdded(caller, signer));
    }
  }

  lemma RemoveSignerKeepsOk(g: Gov, caller: Address, signer: Address)
    requires GovOk(g)
    ensures GovOk(RemoveSigner(g, caller, signer).0)
  {
    var (m, r) := RemoveSigner(g, caller, signer);
    if r.Done? && signer in g.signers {
      OneMore(g.log, Entry(g.now, SignerRemoved(caller, signer)));
      ListSize(g.signers, Members(g.log));
      WithoutRemoves(g.signers, signer);
      MembershipStep(g, m, SignerRemoved(caller, signer));
    }
  }

  /** An entry about something else leaves a proposal as the log has it. */
  lemma OtherIdOk(g: Gov, m: Gov, entry: Entry, id: int)
    requires IdOk(g, id) && !About(entry.event, id) && m.log == g.log + [entry]
    requires m.now == g.now && m.threshold == g.threshold
    requires (id in m.proposals <==> id in g.proposals) && (id in m.quorums <==> id in g.quorums)
    requires id in g.proposals ==> m.proposals[id] == g.proposals[id]
    requires id in g.quorums ==> m.quorums[id] == g.quorums[id]
    ensures IdOk(m, id)
  {
    EntryFrame(g.log, entry, id);
  }

  /** A step that logs an entry about one proposal has to be checked for that proposal only. */
  lemma ProposalStep(g: Gov, m: Gov, id: int, e: Event)
    requires GovOk(g) && (e.Proposed? || e.Approved? || e.Executed? || e.Cancelled?) && About(e, id)
    requires m == Logged(g.(nextId := m.nextId, proposals := m.proposals, quorums := m.quorums), e)
    requires Justified(g.log, Entry(g.now, e)) && IdOk(m, id)
    requires forall k | k != id :: (k in m.proposals <==> k in g.proposals) && (k in m.quorums <==> k in g.quorums)
    requires forall k | k != id && k in g.proposals :: m.proposals[k] == g.proposals[k]
    requires forall k | k != id && k in g.quorums :: m.quorums[k] == g.quorums[k]
    requires m.nextId == (if e.Proposed? then g.nextId + 1 else g.nextId) <= U32_MAX
    requires forall k :: k in m.proposals <==> 0 <= k < m.nextId
    requires g.admin.Some?
    ensures GovOk(m)
  {
    var entry := Entry(g.now, e);
    OneMore(g.log, entry);
    MembersFrame(g.log, entry);
    forall k ensures IdOk(m, k) {
      if k != id {
        assert IdOk(g, k);
        OtherIdOk(g, m, entry, k);
      }
    }
  }

  lemma ProposeKeepsOk(g: Gov, proposer: Address, target: Address, calldata: seq<bv8>)
    requires GovOk(g)
    ensures GovOk(Propose(g, proposer, target, calldata).0)
  {
    var (m, r) := Propose(g, proposer, target, calldata);
    if r.Done? {
      var e := Entry(g.now, Proposed(g.nextId, proposer, target, calldata));
      assert IdOk(g, g.nextId);
      OneMore(g.log, e);
      FinalOneMore(g.log, e, g.nextId);
      ProposalStep(g, m, g.nextId, e.event);
    }
  }

  lemma HasVotedIsListed(g: Gov, id: int, a: Address)
    requires id in g.proposals && RecordOk(g.log, id, g.proposals[id])
    ensures HasVoted(g.log, id, a) <==> a in g.proposals[id].approvals
  {
    var votes, p := Votes(g.log, id), g.proposals[id];
    if a in p.approvals {
      var i :| 0 <= i < |p.approvals| && p.approvals[i] == a;
      assert votes[i].who == a;
    }
    if HasVoted(g.log, id, a) {
      var i :| 0 <= i < |votes| && votes[i].who == a;
      assert p.approvals[i] == a;
    }
  }

  lemma ApproveKeepsOk(g: Gov, approver: Address, id: int)
    requires GovOk(g)
    ensures GovOk(Approve(g, approver, id).0)
  {
    var (m, r) := Approve(g, approver, id);
    if r.Done? {
      var e := Entry(g.now, Approved(id, approver));
      assert IdOk(g, id);
      HasVotedIsListed(g, id, approver);
      OneMore(g.log, e);
      MembersFrame(g.log, e);
      FinalOneMore(g.log, e, id);
      ProposalStep(g, m, id, e.event);
    }
  }

  lemma ExecuteKeepsOk(g: Gov, id: int, dispatch: Dispatch)
    requires GovOk(g)
    ensures GovOk(Execute(g, id, dispatch).0)
  {
    var (m, r) := Execute(g, id, dispatch);
    if r.Done? {
      var e := Entry(g.now, Executed(id, g.proposals[id].target, g.proposals[id].calldata));
      assert IdOk(g, id);
      OneMore(g.log, e);
      MembersFrame(g.log, e);
      FinalOneMore(g.log, e, id);
      ProposalStep(g, m, id, e.event);
    }
  }

  lemma CancelKeepsOk(g: Gov, caller: Address, id: int)
    requires GovOk(g)
    ensures GovOk(Cancel(g, caller, id).0)
  {
    var (m, r) := Cancel(g, caller, id);
    if r.Done? {
      var e := Entry(g.now, Cancelled(id, caller));
      assert IdOk(g, id);
      OneMore(g.log, e);
      MembersFrame(g.log, e);
      FinalOneMore(g.log, e, id);
      ProposalStep(g, m, id, e.event);
    }
  }

  lemma GovStepKeepsOk(g: Gov, op: GovOp)
    requires GovOk(g)
    ensures GovOk(GovStep(g, op))
  {
    match op
    case Tick(seconds) =>
      forall id ensures IdOk(GovStep(g, op), id) {
        assert IdOk(g, id);
      }
    case DoInit(admin, signers, threshold) => InitKeepsOk(g, admin, signers, threshold);
    case DoSetAdmin(caller, admin) => SetAdminKeepsOk(g, caller, admin);
    case DoAddSigner(caller, signer) => AddSignerKeepsOk(g, caller, signer);
    case DoRemoveSigner(caller, signer) => RemoveSignerKeepsOk(g, caller, signer);
    case DoPropose(proposer, target, calldata) => ProposeKeepsOk(g, proposer, target, calldata);
    case DoApprove(approver, id) => ApproveKeepsOk(g, approver, id);
    case DoExecute(id, dispatch) => ExecuteKeepsOk(g, id, dispatch);
    case DoCancel(caller, id) => CancelKeepsOk(g, caller, id);
  }

  lemma DeployedOk(now: int)
    requires IsU64(now)
    ensures GovOk(Deployed(now))
  {
  }

  lemma {:induction false} GovRunKeepsOk(g: Gov, ops: seq<GovOp>)
    requires GovOk(g)
    ensures GovOk(GovRun(g, ops))
  {
    if |ops| > 0 {
      GovRunKeepsOk(g, ops[..|ops| - 1]);
      GovStepKeepsOk(GovRun(g, ops[..|ops| - 1]), ops[|ops| - 1]);
    }
  }

  // ------------------------------------------------------------------ safety over whole runs

  /** An executed proposal, whatever happened before or after: it was executed once and never
      cancelled; what was dispatched is the call that was submitted; as many different addresses as the
      threshold asks for had approved it, each of them a co-signer when it did and the proposal being the
      same then; and it was executed no earlier than the timelock after the approval that completed the
      quorum, and no later than the maximum age after its submission. */
  lemma ExecutionIsLawful(now: int, ops: seq<GovOp>, g: Gov, k: nat, id: int)
    requires IsU64(now) && g == GovRun(Deployed(now), ops)
    requires k < |g.log| && Executes(g.log[k].event, id)
    ensures LawfulExecution(g.log, k, id, g.threshold)
  {
    DeployedOk(now);
    GovRunKeepsOk(Deployed(now), ops);
    LogIsLawful(g.log, k, id);
  }

  ghost predicate LawfulExecution(log: seq<Entry>, k: nat, id: int, threshold: int)
    requires k < |log| && log[k].event.Executed?
  {
    var before := log[..k];
    var votes, submission := Votes(before, id), Submission(before, id);
    && (forall j | 0 <= j < |log| && j != k :: !Executes(log[j].event, id) && !Cancels(log[j].event, id))
    && submission.Some?
    && log[k].event == Executed(id, submission.value.target, submission.value.calldata)
    && 1 <= threshold <= |votes|
    && (forall i | 0 <= i < |votes| :: Legitimate(before, id, votes[i]))
    && (forall h, i | 0 <= h < i < |votes| :: votes[h].who != votes[i].who)
    && votes[threshold - 1].at + GOVERNANCE_TIMELOCK_SECONDS <= log[k].at
    && log[k].at <= submission.value.at + MAX_PROPOSAL_AGE_SECONDS
  }

  lemma LogIsLawful(log: seq<Entry>, k: nat, id: int)
    requires GoodLog(log) && k < |log| && Executes(log[k].event, id)
    ensures LawfulExecution(log, k, id, Threshold(log))
  {
    GoodPrefix(log, k);
    ThresholdIsFixed(log, k);
    HappensOnce(log, k, id);
    VotesAreLawful(log[..k], id);
  }

  lemma HappensOnce(log: seq<Entry>, k: nat, id: int)
    requires GoodLog(log) && k < |log| && Executes(log[k].event, id)
    ensures forall j | 0 <= j < |log| && j != k :: !Executes(log[j].event, id) && !Cancels(log[j].event, id)
  {
    forall j | 0 <= j < |log| && j != k ensures !Executes(log[j].event, id) && !Cancels(log[j].event, id) {
      if j < k && (Executes(log[j].event, id) || Cancels(log[j].event, id)) {
        FinalIsFinal(log, j, k, id);
      } else if k < j {
        FinalIsFinal(log, k, j, id);
      }
    }
  }

  lemma VotesAreLawful(log: seq<Entry>, id: int)
    requires GoodLog(log)
    ensures forall i | 0 <= i < |Votes(log, id)| :: Legitimate(log, id, Votes(log, id)[i])
    ensures forall h, i | 0 <= h < i < |Votes(log, id)| :: Votes(log, id)[h].who != Votes(log, id)[i].who
  {
    forall i | 0 <= i < |Votes(log, id)|
      ensures Legitimate(log, id, Votes(log, id)[i])
      ensures forall h | 0 <= h < i :: Votes(log, id)[h].who != Votes(log, id)[i].who
    {
      VotesAreLegitimate(log, id, i);
    }
  }

  // ------------------------------------------------------------------ quorum and window

  /** What a step never takes back: the quorum record, once written, and what was submitted. */
  ghost predicate Keeps(g: Gov, m: Gov) {
    && g.now <= m.now
    && (forall id | id in g.quorums :: id in m.quorums && m.quorums[id] == g.quorums[id])
    && (forall id | id in g.proposals :: id in m.proposals && SameProposal(g.proposals[id], m.proposals[id]))
  }

  /** The same call to the same contract, submitted by the same address at the same time. */
  predicate SameProposal(p: Proposal, q: Proposal) {
    p.createdAt == q.createdAt && p.proposer == q.proposer && p.target == q.target && p.calldata == q.calldata
  }

  lemma ApproveKeeps(g: Gov, approver: Address, id: int)
    requires GovOk(g)
    ensures Keeps(g, Approve(g, approver, id).0)
  {
    assert IdOk(g, id);
  }

  lemma ProposeKeeps(g: Gov, proposer: Address, target: Address, calldata: seq<bv8>)
    requires GovOk(g)
    ensures Keeps(g, Propose(g, proposer, target, calldata).0)
  {
    assert IdOk(g, g.nextId);
  }

  lemma ExecuteKeeps(g: Gov, id: int, dispatch: Dispatch)
    ensures Keeps(g, Execute(g, id, dispatch).0)
  {
  }

  lemma CancelKeeps(g: Gov, caller: Address, id: int)
    ensures Keeps(g, Cancel(g, caller, id).0)
  {
  }

  lemma MembershipKeeps(g: Gov, op: GovOp)
    requires op.DoInit? || op.DoSetAdmin? || op.DoAddSigner? || op.DoRemoveSigner? || op.Tick?
    ensures Keeps(g, GovStep(g, op))
  {
  }

  lemma GovStepKeeps(g: Gov, op: GovOp)
    requires GovOk(g)
    ensures Keeps(g, GovStep(g, op))
  {
    match op
    case DoApprove(approver, id) => ApproveKeeps(g, approver, id);
    case DoPropose(proposer, target, calldata) => ProposeKeeps(g, proposer, target, calldata);
    case DoExecute(id, dispatch) => ExecuteKeeps(g, id, dispatch);
    case DoCancel(caller, id) => CancelKeeps(g, caller, id);
    case _ => MembershipKeeps(g, op);
  }

  lemma {:induction false} GovRunKeeps(g: Gov, ops: seq<GovOp>)
    requires GovOk(g)
    ensures Keeps(g, GovRun(g, ops)) && GovOk(GovRun(g, ops))
  {
    if |ops| > 0 {
      GovRunKeeps(g, ops[..|ops| - 1]);
      GovRunKeepsOk(g, ops);
      GovStepKeeps(GovRun(g, ops[..|ops| - 1]), ops[|ops| - 1]);
    }
  }

  lemma QuorumShowsCompletion(g: Gov, id: int)
    requires GovOk(g) && id in g.proposals
    ensures id in g.quorums <==> |Votes(g.log, id)| >= g.threshold
    ensures id in g.quorums ==>
              1 <= g.threshold <= |Votes(g.log, id)|
              && g.quorums[id] == QuorumInfo(Votes(g.log, id)[g.threshold - 1].at, g.threshold)
  {
    assert IdOk(g, id);
  }

  /** In every reachable state the quorum record is there if and only if enough co-signers have
      approved, it shows when the last of them did, and it is never written again. */
  lemma QuorumRecordIsExact(now: int, before: seq<GovOp>, g: Gov, after: seq<GovOp>, id: int)
    requires IsU64(now) && g == GovRun(Deployed(now), before) && id in g.proposals
    ensures id in g.quorums <==> |Votes(g.log, id)| >= g.threshold
    ensures id in g.quorums ==>
              && 1 <= g.threshold <= |Votes(g.log, id)|
              && g.quorums[id] == QuorumInfo(Votes(g.log, id)[g.threshold - 1].at, g.threshold)
              && id in GovRun(g, after).quorums && GovRun(g, after).quorums[id] == g.quorums[id]
  {
    DeployedOk(now);
    GovRunKeepsOk(Deployed(now), before);
    QuorumShowsCompletion(g, id);
    GovRunKeeps(g, after);
  }

  /** When a proposal can be executed. */
  ghost predicate InWindow(g: Gov, id: int) {
    && id in g.proposals && !g.proposals[id].executed && !g.proposals[id].cancelled
    && id in g.quorums
    && g.quorums[id].reachedAt + GOVERNANCE_TIMELOCK_SECONDS <= g.now
    && g.now <= g.proposals[id].createdAt + MAX_PROPOSAL_AGE_SECONDS
  }

  /** `is_executable` says so exactly in the window, and exactly when every gate of `execute` is open. */
  lemma ExecutableExactlyInWindow(g: Gov, id: int)
    requires GovOk(g)
    ensures IsExecutable(g, id) == Done(true) <==> InWindow(g, id)
    ensures IsExecutable(g, id) == Done(true) <==> ExecuteFault(g, id) == None
    ensures IsExecutable(g, id) == Done(true) <==> Execute(g, id, Accepted).1.Done?
  {
    assert IdOk(g, id);
  }

  /** A quorum that comes too late for its timelock to end within the maximum age is worth nothing:
      no run ever executes the proposal. */
  lemma LateQuorumNeverExecutes(g: Gov, ops: seq<GovOp>, id: int, dispatch: Dispatch)
    requires GovOk(g) && id in g.proposals && id in g.quorums
    requires g.quorums[id].reachedAt + GOVERNANCE_TIMELOCK_SECONDS
           > g.proposals[id].createdAt + MAX_PROPOSAL_AGE_SECONDS
    ensures Execute(GovRun(g, ops), id, dispatch).1.Refused?
    ensures IsExecutable(GovRun(g, ops), id) != Done(true)
  {
    GovRunKeeps(g, ops);
    ExecutableExactlyInWindow(GovRun(g, ops), id);
  }

  /** And a quorum that comes in time can be used: from any such state, waiting for the timelock is enough. */
  lemma TimelyQuorumCanExecute(g: Gov, id: int)
    requires GovOk(g) && id in g.proposals && !g.proposals[id].executed && !g.proposals[id].cancelled
    requires id in g.quorums && g.now <= g.quorums[id].reachedAt + GOVERNANCE_TIMELOCK_SECONDS
    ensures var wait := g.quorums[id].reachedAt + GOVERNANCE_TIMELOCK_SECONDS - g.now;
            Execute(GovStep(g, Tick(wait)), id, Accepted).1.Done? <==>
              g.quorums[id].reachedAt + GOVERNANCE_TIMELOCK_SECONDS
              <= g.proposals[id].createdAt + MAX_PROPOSAL_AGE_SECONDS
  {
    var wait := g.quorums[id].reachedAt + GOVERNANCE_TIMELOCK_SECONDS - g.now;
    assert IdOk(g, id);
    GovStepKeepsOk(g, Tick(wait));
    ExecutableExactlyInWindow(GovStep(g, Tick(wait)), id);
  }

  // ------------------------------------------------------------------ paging

  /** The IDs whose proposals `get_proposals_by_id_range` returns. */
  function PageIds(g: Gov, start: int, limit: int): seq<int>
    requires 0 <= start && 0 <= limit
  {
    var end := Min(start + Min(limit, MAX_PAGE_SIZE), g.nextId);
    if start >= end then [] else seq(end - start, i => start + i)
  }

  /** The IDs a client sees that starts at `start` and advances by `step` after every page. */
  function Walk(g: Gov, start: int, limit: int, step: int): seq<int>
    requires 0 <= start && 0 <= limit && step > 0
    decreases g.nextId - start
  {
    if start >= g.nextId then [] else PageIds(g, start, limit) + Walk(g, start + step, limit, step)
  }

  /** How far `id` lies behind the last page start before it. */
  function Offset(id: int, start: int, step: int): int
    requires step > 0
  {
    (id - start) % step
  }

  lemma {:induction false} WalkContains(g: Gov, start: int, limit: int, step: int, id: int)
    requires 0 <= start && 0 <= limit && step > 0
    ensures id in Walk(g, start, limit, step) <==>
              start <= id < g.nextId && Offset(id, start, step) < Min(limit, MAX_PAGE_SIZE)
    decreases g.nextId - start
  {
    if start < g.nextId {
      WalkContains(g, start + step, limit, step, id);
      PageContains(g, start, limit, id);
      OffsetShifts(id, start, step);
    }
  }

  lemma OffsetShifts(id: int, start: int, step: int)
    requires step > 0
    ensures Offset(id, start, step) == Offset(id, start + step, step)
    ensures start <= id ==> 0 <= Offset(id, start, step) <= id - start
    ensures start <= id < start + step ==> Offset(id, start, step) == id - start
  {
    ModShift(id - start, step);
    if start <= id < start + step {
      ModUnique(id - start, step, 0, id - start);
    } else if start <= id {
      QuotientIsPositive(id - start, step);
    }
  }

  lemma QuotientIsPositive(x: int, step: int)
    requires step > 0 && 0 <= x
    ensures 0 <= x % step <= x
  {
    assert x == x / step * step + x % step;
    MulMonotone(0, x / step, step);
  }

  lemma PageContains(g: Gov, start: int, limit: int, id: int)
    requires 0 <= start && 0 <= limit
    ensures id in PageIds(g, start, limit) <==> start <= id < Min(start + Min(limit, MAX_PAGE_SIZE), g.nextId)
  {
    if start <= id < Min(start + Min(limit, MAX_PAGE_SIZE), g.nextId) {
      assert PageIds(g, start, limit)[id - start] == id;
    }
  }

  lemma ModShift(x: int, step: int)
    requires step > 0
    ensures x % step == (x - step) % step
  {
    assert x == x / step * step + x % step;
    ModUnique(x - step, step, x / step - 1, x % step);
  }

  lemma ModUnique(x: int, step: int, q: int, r: int)
    requires step > 0 && 0 <= r < step && x == q * step + r
    ensures x % step == r
  {
    var d := x / step - q;
    assert d * step == r - x % step;
    if d > 0 {
      MulMonotone(1, d, step);
    } else if d < 0 {
      MulMonotone(d, -1, step);
    }
  }

  /** Paging by advancing `start_id` by `limit`, as the documentation advises, shows every proposal if
      and only if the limit is not clamped, or there is only one page anyway. */
  lemma AdvancingByLimitEnumerates(g: Gov, limit: u32)
    requires g.nextId >= 0 && limit > 0
    ensures (forall id | 0 <= id < g.nextId :: id in Walk(g, 0, limit, limit)) <==>
              limit <= MAX_PAGE_SIZE || g.nextId <= MAX_PAGE_SIZE
  {
    if limit <= MAX_PAGE_SIZE || g.nextId <= MAX_PAGE_SIZE {
      forall id | 0 <= id < g.nextId ensures id in Walk(g, 0, limit, limit) {
        WalkContains(g, 0, limit, limit, id);
        if limit > MAX_PAGE_SIZE {
          ModUnique(id, limit, 0, id);
        }
      }
    } else {
      WalkContains(g, 0, limit, limit, MAX_PAGE_SIZE);
      ModUnique(MAX_PAGE_SIZE, limit, 0, MAX_PAGE_SIZE);
      assert MAX_PAGE_SIZE !in Walk(g, 0, limit, limit);
    }
  }
}
