/** The governance contract over its stored state.  Membership is stored twice, as a list and as a
    map, and so are the approvals of each proposal; `Valid` says that the two always agree. */
module GovernanceContract {
  import opened FixedWidth
  import opened Governance
  import opened GovernanceLog
  import opened GovernanceRuns

  function IndexFor(approvalIndex: map<int, map<Address, bool>>, id: int): map<Address, bool> {
    if id in approvalIndex then approvalIndex[id] else map[]
  }

  /** The map has an entry for every address in the list, and no others. */
  predicate SameMembers(index: map<Address, bool>, list: seq<Address>) {
    (forall a | a in index :: a in list) && (forall a | a in list :: a in index)
  }

  class GovernanceEnv {
    var now: int
    var admin: Option<Address>
    var signers: seq<Address>
    var signerIndex: map<Address, bool>
    var threshold: int
    var nextId: int
    var proposals: map<int, Proposal>
    var quorums: map<int, QuorumInfo>
    var approvalIndex: map<int, map<Address, bool>>
    ghost var log: seq<Entry>

    ghost function View(): Gov
      reads this
    {
      Gov(now, admin, signers, threshold, nextId, proposals, quorums, log)
    }

    ghost predicate IndexesOk()
      reads this`signerIndex, this`signers, this`approvalIndex, this`proposals
    {
      && SameMembers(signerIndex, signers)
      && (forall id | id in proposals :: SameMembers(IndexFor(approvalIndex, id), proposals[id].approvals))
      && (forall id | id in approvalIndex :: id in proposals)
    }

    ghost predicate Valid()
      reads this
    {
      GovOk(View()) && IndexesOk()
    }

    constructor (now: u64)
      ensures Valid() && View() == Deployed(now)
    {
      this.now, admin, signers, signerIndex, threshold, nextId := now, None, [], map[], 0, 0;
      proposals, quorums, approvalIndex, log := map[], map[], map[], [];
      new;
      DeployedOk(now);
    }

    ghost method Log(e: Event)
      modifies this`log
      ensures View() == Logged(old(View()), e)
    {
      log := log + [Entry(now, e)];
    }
  }

  /** A state that keeps the invariant, stored with matching maps. */
  lemma ValidAt(c: GovernanceEnv, m: Gov)
    requires c.View() == m && GovOk(m) && c.IndexesOk()
    ensures c.Valid()
  {
  }

  // ------------------------------------------------------------------ membership

  /** The single pass of `init`: the map it builds, unless an address occurs twice. */
  method BuildIndex(signers: seq<Address>) returns (index: Option<map<Address, bool>>)
    ensures index.Some? <==> NoDuplicates(signers)
    ensures index.Some? ==> SameMembers(index.value, signers)
  {
    var built: map<Address, bool> := map[];
    var i := 0;
    while i < |signers|
      invariant 0 <= i <= |signers|
      invariant NoDuplicates(signers[..i]) && SameMembers(built, signers[..i])
    {
      var s := signers[i];
      assert signers[..i + 1] == signers[..i] + [s];
      if s in built {
        var k :| 0 <= k < |signers[..i]| && signers[..i][k] == s;
        assert signers[k] == signers[i];
        return None;
      }
      built := built[s := true];
      i := i + 1;
    }
    assert signers[..i] == signers;
    return Some(built);
  }

  method DoInit(c: GovernanceEnv, admin: Address, signers: seq<Address>, threshold: u32) returns (r: Reply<()>)
    requires c.Valid()
    modifies c
    ensures c.Valid()
    ensures (c.View(), r) == Init(old(c.View()), admin, signers, threshold)
  {
    if c.admin.Some? {
      return Refused(AlreadyInitialized);
    }
    if |signers| > MAX_SIGNERS {
      return Refused(TooManySigners);
    }
    if threshold == 0 || threshold > |signers| {
      return Refused(InvalidThreshold);
    }
    var index := BuildIndex(signers);
    if index == None {
      return Refused(DuplicateSigner);
    }
    ghost var g := c.View();
    InitKeepsOk(g, admin, signers, threshold);
    c.admin, c.signers, c.signerIndex, c.threshold, c.nextId := Some(admin), signers, index.value, threshold, 0;
    c.Log(Initialized(admin, signers, threshold));
    ValidAt(c, Init(g, admin, signers, threshold).0);
    return Done(());
  }

  method DoSetAdmin(c: GovernanceEnv, caller: Address, admin: Address) returns (r: Reply<()>)
    requires c.Valid()
    modifies c
    ensures c.Valid()
    ensures (c.View(), r) == SetAdmin(old(c.View()), caller, admin)
  {
    if c.admin == None {
      return Refused(NotInitialized);
    }
    if caller != c.admin.value {
      return Refused(HostTrap);
    }
    ghost var g := c.View();
    SetAdminKeepsOk(g, caller, admin);
    c.admin := Some(admin);
    c.Log(AdminChanged(caller, admin));
    ValidAt(c, SetAdmin(g, caller, admin).0);
    return Done(());
  }

  method DoAddSigner(c: GovernanceEnv, caller: Address, signer: Address) returns (r: Reply<()>)
    requires c.Valid()
    modifies c
    ensures c.Valid()
    ensures (c.View(), r) == AddSigner(old(c.View()), caller, signer)
  {
    if c.admin == None {
      return Refused(NotInitialized);
    }
    if caller != c.admin.value {
      return Refused(HostTrap);
    }
    if signer in c.signerIndex {
      return Refused(DuplicateSigner);
    }
    if |c.signers| >= MAX_SIGNERS {
      return Refused(TooManySigners);
    }
    ghost var g := c.View();
    AddSignerKeepsOk(g, caller, signer);
    c.signers := c.signers + [signer];
    c.signerIndex := c.signerIndex[signer := true];
    c.Log(SignerAdded(caller, signer));
    ValidAt(c, AddSigner(g, caller, signer).0);
    return Done(());
  }

  lemma {:induction false} WithoutAt(s: seq<Address>, a: Address, i: nat)
    requires i < |s| && s[i] == a && forall k | 0 <= k < i :: s[k] != a
    ensures Without(s, a) == s[..i] + s[i + 1..]
  {
    if i > 0 {
      WithoutAt(s[1..], a, i - 1);
      assert s[..i] == [s[0]] + s[1..][..i - 1];
      assert s[1..][i..] == s[i + 1..];
      assert Without(s, a) == [s[0]] + Without(s[1..], a);
    }
  }

  /** The scan for the position, and the removal. */
  method RemoveFirst(s: seq<Address>, a: Address) returns (t: seq<Address>)
    requires a in s
    ensures t == Without(s, a)
  {
    var i := 0;
    while s[i] != a
      invariant 0 <= i < |s| && forall k | 0 <= k < i :: s[k] != a
      invariant exists k :: i <= k < |s| && s[k] == a
      decreases |s| - i
    {
      i := i + 1;
    }
    WithoutAt(s, a, i);
    return s[..i] + s[i + 1..];
  }

  method DoRemoveSigner(c: GovernanceEnv, caller: Address, signer: Address) returns (r: Reply<()>)
    requires c.Valid()
    modifies c
    ensures c.Valid()
    ensures (c.View(), r) == RemoveSigner(old(c.View()), caller, signer)
  {
    if c.admin == None {
      return Refused(NotInitialized);
    }
    if caller != c.admin.value {
      return Refused(HostTrap);
    }
    if signer !in c.signerIndex {
      return Done(());
    }
    if MinusUnsigned(|c.signers|, 1) < c.threshold {
      return Refused(QuorumWouldBreak);
    }
    ghost var g := c.View();
    RemoveSignerKeepsOk(g, caller, signer);
    WithoutRemoves(c.signers, signer);
    var remaining := RemoveFirst(c.signers, signer);
    c.signers := remaining;
    c.signerIndex := c.signerIndex - {signer};
    c.Log(SignerRemoved(caller, signer));
    ValidAt(c, RemoveSigner(g, caller, signer).0);
    return Done(());
  }

  // ------------------------------------------------------------------ proposals

  method DoPropose(c: GovernanceEnv, proposer: Address, target: Address, calldata: seq<bv8>) returns (r: Reply<int>)
    requires c.Valid()
    modifies c
    ensures c.Valid()
    ensures (c.View(), r) == Propose(old(c.View()), proposer, target, calldata)
  {
    if c.admin == None {
      return Refused(NotInitialized);
    }
    if proposer !in c.signerIndex {
      return Refused(NotASigner);
    }
    if |calldata| == 0 {
      return Refused(CalldataEmpty);
    }
    if |calldata| > MAX_CALLDATA_BYTES {
      return Refused(CalldataTooLarge);
    }
    var id := c.nextId;
    if id + 1 > U32_MAX {
      return Refused(ArithmeticOverflow);
    }
    ghost var g := c.View();
    ProposeKeepsOk(g, proposer, target, calldata);
    c.nextId := id + 1;
    c.proposals := c.proposals[id := Proposal(proposer, target, calldata, [], c.now, false, false)];
    c.Log(Proposed(id, proposer, target, calldata));
    ValidAt(c, Propose(g, proposer, target, calldata).0);
    return Done(id);
  }

  /** `checked_deadline`. */
  method CheckedDeadline(start: int, seconds: int) returns (r: Reply<int>)
    requires IsU64(start) && 0 <= seconds
    ensures r == Deadline(start, seconds)
  {
    var deadline := CheckedAddU64(start, seconds);
    return if deadline == None then Refused(ArithmeticOverflow) else Done(deadline.value);
  }

  lemma TimesFit(g: Gov, id: int)
    requires GovOk(g) && id in g.proposals
    ensures IsU64(g.now) && IsU64(g.proposals[id].createdAt)
    ensures id in g.quorums ==> IsU64(g.quorums[id].reachedAt)
  {
    assert IdOk(g, id);
  }

  /** The checks that `approve` and `execute` share. */
  method CheckLive(c: GovernanceEnv, id: int) returns (fault: Option<GovernanceError>)
    requires c.Valid() && id in c.proposals
    ensures fault == LiveFault(c.View(), c.proposals[id])
  {
    var proposal := c.proposals[id];
    if proposal.cancelled {
      return Some(ProposalCancelled);
    }
    if proposal.executed {
      return Some(AlreadyExecuted);
    }
    TimesFit(c.View(), id);
    var deadline := CheckedDeadline(proposal.createdAt, MAX_PROPOSAL_AGE_SECONDS);
    if deadline.Refused? {
      return Some(deadline.error);
    }
    return if c.now > deadline.value then Some(ProposalExpired) else None;
  }

  /** From the duplicate check of `approve` on. */
  method RecordApproval(c: GovernanceEnv, approver: Address, id: int) returns (r: Reply<()>)
    requires c.Valid() && c.admin.Some? && approver in c.signers && id in c.proposals
    requires LiveFault(c.View(), c.proposals[id]) == None
    modifies c
    ensures c.Valid()
    ensures (c.View(), r) == Approve(old(c.View()), approver, id)
  {
    ghost var g := c.View();
    var proposal, index := c.proposals[id], IndexFor(c.approvalIndex, id);
    if approver in index {
      return Refused(AlreadyApproved);
    }
    proposal := proposal.(approvals := proposal.approvals + [approver]);
    index := index[approver := true];
    var quorumReached := |proposal.approvals| == c.threshold;
    if quorumReached {
      TimesFit(g, id);
      var _ :- CheckedDeadline(c.now, GOVERNANCE_TIMELOCK_SECONDS);
    }
    ApproveKeepsOk(g, approver, id);
    c.proposals := c.proposals[id := proposal];
    c.approvalIndex := c.approvalIndex[id := index];
    if quorumReached {
      c.quorums := c.quorums[id := QuorumInfo(c.now, c.threshold)];
    }
    c.Log(Approved(id, approver));
    ValidAt(c, Approve(g, approver, id).0);
    return Done(());
  }

  method DoApprove(c: GovernanceEnv, approver: Address, id: int) returns (r: Reply<()>)
    requires c.Valid()
    modifies c
    ensures c.Valid()
    ensures (c.View(), r) == Approve(old(c.View()), approver, id)
  {
    if c.admin == None {
      return Refused(NotInitialized);
    }
    if approver !in c.signerIndex {
      return Refused(NotASigner);
    }
    if id !in c.proposals {
      return Refused(ProposalNotFound);
    }
    var fault := CheckLive(c, id);
    if fault.Some? {
      return Refused(fault.value);
    }
    r := RecordApproval(c, approver, id);
  }

  /** The gates of `execute` up to the dispatch. */
  method CheckExecute(c: GovernanceEnv, id: int) returns (fault: Option<GovernanceError>)
    requires c.Valid()
    ensures fault == ExecuteFault(c.View(), id)
  {
    if id !in c.proposals {
      return Some(ProposalNotFound);
    }
    var live := CheckLive(c, id);
    if live.Some? {
      return live;
    }
    if id !in c.quorums {
      return Some(QuorumNotReached);
    }
    var info := c.quorums[id];
    if |c.proposals[id].approvals| < info.threshold {
      return Some(QuorumNotReached);
    }
    TimesFit(c.View(), id);
    var after := CheckedDeadline(info.reachedAt, GOVERNANCE_TIMELOCK_SECONDS);
    if after.Refused? {
      return Some(after.error);
    }
    return if c.now < after.value then Some(TimelockNotElapsed) else None;
  }

  lemma FlagKeepsIndexes(c: GovernanceEnv, id: int, before: map<int, Proposal>, p: Proposal)
    requires SameMembers(c.signerIndex, c.signers) && id in before && p.approvals == before[id].approvals
    requires forall k | k in before :: SameMembers(IndexFor(c.approvalIndex, k), before[k].approvals)
    requires forall k | k in c.approvalIndex :: k in before
    requires c.proposals == before[id := p]
    ensures c.IndexesOk()
  {
  }

  /** `execute`.  The proposal is marked before the call is dispatched; when the dispatch fails, the
      host takes the mark back. */
  method DoExecute(c: GovernanceEnv, id: int, dispatch: Dispatch) returns (r: Reply<()>)
    requires c.Valid()
    modifies c
    ensures c.Valid()
    ensures (c.View(), r) == Execute(old(c.View()), id, dispatch)
  {
    var fault := CheckExecute(c, id);
    if fault.Some? {
      return Refused(fault.value);
    }
    ghost var g := c.View();
    var before := c.proposals;
    ExecuteKeepsOk(g, id, dispatch);
    c.proposals := c.proposals[id := c.proposals[id].(executed := true)];
    if dispatch != Accepted {
      c.proposals := before;
      ValidAt(c, g);
      return Refused(if dispatch == Undecodable then InvalidCalldata else HostTrap);
    }
    FlagKeepsIndexes(c, id, before, c.proposals[id]);
    c.Log(Executed(id, c.proposals[id].target, c.proposals[id].calldata));
    ValidAt(c, Execute(g, id, dispatch).0);
    return Done(());
  }

  method CancelProposal(c: GovernanceEnv, caller: Address, id: int) returns (r: Reply<()>)
    requires c.Valid()
    modifies c
    ensures c.Valid()
    ensures (c.View(), r) == Cancel(old(c.View()), caller, id)
  {
    if id !in c.proposals {
      return Refused(ProposalNotFound);
    }
    var proposal := c.proposals[id];
    if proposal.executed {
      return Refused(AlreadyExecuted);
    }
    if proposal.cancelled {
      return Refused(ProposalCancelled);
    }
    if c.admin == None {
      return Refused(NotInitialized);
    }
    if caller != proposal.proposer && caller != c.admin.value {
      return Refused(NotProposerOrAdmin);
    }
    ghost var g := c.View();
    CancelKeepsOk(g, caller, id);
    c.proposals := c.proposals[id := proposal.(cancelled := true)];
    FlagKeepsIndexes(c, id, g.proposals, proposal.(cancelled := true));
    c.Log(Cancelled(id, caller));
    ValidAt(c, Cancel(g, caller, id).0);
    return Done(());
  }

  // ------------------------------------------------------------------ queries

  /** `is_executable`. */
  method QueryExecutable(c: GovernanceEnv, id: int) returns (r: Reply<bool>)
    requires c.Valid()
    ensures r == IsExecutable(c.View(), id)
    ensures r == Done(true) <==> InWindow(c.View(), id)
  {
    ExecutableExactlyInWindow(c.View(), id);
    if id !in c.proposals {
      return Refused(ProposalNotFound);
    }
    var proposal := c.proposals[id];
    if proposal.cancelled {
      return Done(false);
    }
    if proposal.executed {
      return Done(false);
    }
    TimesFit(c.View(), id);
    var deadline :- CheckedDeadline(proposal.createdAt, MAX_PROPOSAL_AGE_SECONDS);
    if c.now > deadline {
      return Done(false);
    }
    if id !in c.quorums {
      return Done(false);
    }
    var info := c.quorums[id];
    if |proposal.approvals| < info.threshold {
      return Done(false);
    }
    var after :- CheckedDeadline(info.reachedAt, GOVERNANCE_TIMELOCK_SECONDS);
    if c.now < after {
      return Done(false);
    }
    return Done(true);
  }

  /** The loop over the page; IDs without a proposal would be skipped. */
  method ReadPage(proposals: map<int, Proposal>, start: int, end: int) returns (page: seq<Proposal>)
    requires start <= end && forall k | start <= k < end :: k in proposals
    ensures |page| == end - start && forall i | 0 <= i < |page| :: page[i] == proposals[start + i]
  {
    page := [];
    var current := start;
    while current < end
      invariant start <= current <= end && |page| == current - start
      invariant forall i | 0 <= i < |page| :: page[i] == proposals[start + i]
    {
      if current in proposals {
        page := page + [proposals[current]];
      }
      current := current + 1;
    }
  }

  lemma NoIdIsMissing(g: Gov)
    requires GovOk(g)
    ensures 0 <= g.nextId <= U32_MAX && forall k | 0 <= k < g.nextId :: k in g.proposals
  {
  }

  /** `get_proposals_by_id_range`: the records of exactly the IDs of the page, in order. */
  method GetProposalsByIdRange(c: GovernanceEnv, start: u32, limit: u32) returns (page: seq<Proposal>)
    requires c.Valid()
    ensures var ids := PageIds(c.View(), start, limit);
            && |page| == |ids|
            && forall i | 0 <= i < |ids| :: ids[i] in c.proposals && page[i] == c.proposals[ids[i]]
  {
    NoIdIsMissing(c.View());
    var pageSize := Min(limit, MAX_PAGE_SIZE);
    if pageSize == 0 {
      return [];
    }
    var total := c.nextId;
    if start >= total {
      return [];
    }
    var end := Min(Min(start + pageSize, U32_MAX), total);
    page := ReadPage(c.proposals, start, end);
  }

  /** `is_signer`: `false` before `init`. */
  method IsSigner(c: GovernanceEnv, a: Address) returns (yes: bool)
    requires c.Valid()
    ensures yes <==> a in Members(c.log)
  {
    return a in c.signerIndex;
  }
}
