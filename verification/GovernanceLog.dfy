/** What the log of the governance contract says: who was a co-signer when, who approved what and
    when, and whether every entry was justified by the entries before it. */
module GovernanceLog {
  import opened FixedWidth
  import opened Governance

  function Before(log: seq<Entry>): seq<Entry>
    requires |log| > 0
  {
    log[..|log| - 1]
  }

  function Newest(log: seq<Entry>): Entry
    requires |log| > 0
  {
    log[|log| - 1]
  }

  /** The administrator after the entries of the log. */
  function Admin(log: seq<Entry>): Option<Address> {
    if |log| == 0 then None
    else if Newest(log).event.Initialized? || Newest(log).event.AdminChanged? then Some(Newest(log).event.admin)
    else Admin(Before(log))
  }

  /** The co-signers after the entries of the log. */
  function Members(log: seq<Entry>): set<Address> {
    if |log| == 0 then {}
    else
      match Newest(log).event
      case Initialized(_, signers, _) => set a | a in signers
      case SignerAdded(_, a) => Members(Before(log)) + {a}
      case SignerRemoved(_, a) => Members(Before(log)) - {a}
      case _ => Members(Before(log))
  }

  /** The threshold, or zero before `init`. */
  function Threshold(log: seq<Entry>): int {
    if |log| == 0 then 0
    else if Newest(log).event.Initialized? then Newest(log).event.threshold
    else Threshold(Before(log))
  }

  datatype Vote = Vote(who: Address, at: int)

  /** The approvals of a proposal in the order in which they were given. */
  function Votes(log: seq<Entry>, id: int): seq<Vote> {
    if |log| == 0 then []
    else
      match Newest(log).event
      case Approved(i, a) => Votes(Before(log), id) + if i == id then [Vote(a, Newest(log).at)] else []
      case _ => Votes(Before(log), id)
  }

  predicate HasVoted(log: seq<Entry>, id: int, a: Address) {
    var votes := Votes(log, id);
    exists i :: 0 <= i < |votes| && votes[i].who == a
  }

  /** Who submitted a proposal, when, and which call to which contract it proposes. */
  datatype Submitted = Submitted(at: int, proposer: Address, target: Address, calldata: seq<bv8>)

  function Submission(log: seq<Entry>, id: int): Option<Submitted> {
    if |log| == 0 then None
    else
      match Newest(log).event
      case Proposed(i, proposer, target, calldata) =>
        if i == id then Some(Submitted(Newest(log).at, proposer, target, calldata)) else Submission(Before(log), id)
      case _ => Submission(Before(log), id)
  }

  /** How many proposals have been submitted. */
  function Submissions(log: seq<Entry>): nat {
    if |log| == 0 then 0 else Submissions(Before(log)) + if Newest(log).event.Proposed? then 1 else 0
  }

  predicate Executes(e: Event, id: int) { e.Executed? && e.id == id }
  predicate Cancels(e: Event, id: int) { e.Cancelled? && e.id == id }

  predicate WasExecuted(log: seq<Entry>, id: int) { exists k :: 0 <= k < |log| && Executes(log[k].event, id) }
  predicate WasCancelled(log: seq<Entry>, id: int) { exists k :: 0 <= k < |log| && Cancels(log[k].event, id) }

  /** Submitted, and neither executed nor cancelled so far. */
  predicate Open(log: seq<Entry>, id: int) {
    Submission(log, id).Some? && !WasExecuted(log, id) && !WasCancelled(log, id)
  }

  /** The rules of the protocol, entry by entry, in terms of the entries before. */
  predicate Justified(log: seq<Entry>, e: Entry) {
    match e.event
    case Initialized(_, signers, threshold) =>
      Threshold(log) == 0 && 1 <= threshold <= |signers| <= MAX_SIGNERS && NoDuplicates(signers)
    case AdminChanged(caller, _) => Admin(log) == Some(caller)
    case SignerAdded(caller, a) => Admin(log) == Some(caller) && a !in Members(log) && |Members(log)| < MAX_SIGNERS
    case SignerRemoved(caller, a) => Admin(log) == Some(caller) && a in Members(log) && |Members(log)| > Threshold(log)
    case Proposed(id, a, _, calldata) =>
      && a in Members(log) && 1 <= |calldata| <= MAX_CALLDATA_BYTES
      && id == Submissions(log) < U32_MAX && Submission(log, id) == None
    case Approved(id, a) =>
      && Open(log, id) && a in Members(log) && !HasVoted(log, id, a)
      && e.at <= Submission(log, id).value.at + MAX_PROPOSAL_AGE_SECONDS <= U64_MAX
      && (|Votes(log, id)| + 1 == Threshold(log) ==> e.at + GOVERNANCE_TIMELOCK_SECONDS <= U64_MAX)
    case Executed(id, target, calldata) =>
      && Open(log, id) && 1 <= Threshold(log) <= |Votes(log, id)|
      && target == Submission(log, id).value.target && calldata == Submission(log, id).value.calldata
      && Votes(log, id)[Threshold(log) - 1].at + GOVERNANCE_TIMELOCK_SECONDS <= e.at
      && e.at <= Submission(log, id).value.at + MAX_PROPOSAL_AGE_SECONDS
    case Cancelled(id, caller) =>
      Open(log, id) && (caller == Submission(log, id).value.proposer || Admin(log) == Some(caller))
  }

  predicate GoodLog(log: seq<Entry>) {
    |log| > 0 ==> GoodLog(Before(log)) && Justified(Before(log), Newest(log))
  }

  // ------------------------------------------------------------------ reading one entry more

  lemma OneMore(log: seq<Entry>, e: Entry)
    ensures Before(log + [e]) == log && Newest(log + [e]) == e
    ensures GoodLog(log + [e]) <==> GoodLog(log) && Justified(log, e)
  {
    assert (log + [e])[..|log|] == log;
  }

  lemma FinalOneMore(log: seq<Entry>, e: Entry, id: int)
    ensures WasExecuted(log + [e], id) <==> WasExecuted(log, id) || Executes(e.event, id)
    ensures WasCancelled(log + [e], id) <==> WasCancelled(log, id) || Cancels(e.event, id)
  {
    assert (log + [e])[|log|] == e;
    if WasExecuted(log, id) {
      var k :| 0 <= k < |log| && Executes(log[k].event, id);
      assert (log + [e])[k] == log[k];
    }
    if WasCancelled(log, id) {
      var k :| 0 <= k < |log| && Cancels(log[k].event, id);
      assert (log + [e])[k] == log[k];
    }
  }

  // ------------------------------------------------------------------ consequences for whole logs

  lemma {:induction false} GoodPrefix(log: seq<Entry>, k: nat)
    requires GoodLog(log) && k <= |log|
    ensures GoodLog(log[..k]) && (k < |log| ==> Justified(log[..k], log[k]))
  {
    if k == |log| {
      assert log[..k] == log;
    } else {
      if k < |log| - 1 {
        GoodPrefix(Before(log), k);
      }
      assert Before(log)[..k] == log[..k];
    }
  }

  lemma FinalLater(log: seq<Entry>, j: nat, k: nat, id: int)
    requires j < k <= |log|
    ensures Executes(log[j].event, id) ==> WasExecuted(log[..k], id)
    ensures Cancels(log[j].event, id) ==> WasCancelled(log[..k], id)
  {
    assert log[..k][j] == log[j];
  }

  /** Nothing happens to a proposal after it has been executed or cancelled. */
  lemma FinalIsFinal(log: seq<Entry>, j: nat, k: nat, id: int)
    requires GoodLog(log) && j < k < |log|
    requires Executes(log[j].event, id) || Cancels(log[j].event, id)
    ensures !Executes(log[k].event, id) && !Cancels(log[k].event, id)
    ensures !(log[k].event.Approved? && log[k].event.id == id)
  {
    GoodPrefix(log, k);
    FinalLater(log, j, k, id);
  }

  /** The threshold is set once. */
  lemma {:induction false} ThresholdIsFixed(log: seq<Entry>, k: nat)
    requires GoodLog(log) && k <= |log| && Threshold(log[..k]) > 0
    ensures Threshold(log) == Threshold(log[..k])
  {
    if k == |log| {
      assert log[..k] == log;
    } else {
      assert Before(log)[..k] == log[..k];
      ThresholdIsFixed(Before(log), k);
    }
  }

  /** A proposal stays what it was when it was submitted. */
  lemma {:induction false} SubmissionIsFixed(log: seq<Entry>, k: nat, id: int)
    requires GoodLog(log) && k <= |log| && Submission(log[..k], id).Some?
    ensures Submission(log, id) == Submission(log[..k], id)
  {
    if k == |log| {
      assert log[..k] == log;
    } else {
      assert Before(log)[..k] == log[..k];
      SubmissionIsFixed(Before(log), k, id);
    }
  }

  /** The vote is in the log, its author was a co-signer when it was given, and the proposal was then
      what it is now. */
  ghost predicate Legitimate(log: seq<Entry>, id: int, v: Vote) {
    exists j :: 0 <= j < |log| && log[j] == Entry(v.at, Approved(id, v.who)) && v.who in Members(log[..j])
                && Submission(log[..j], id).Some? && Submission(log[..j], id) == Submission(log, id)
  }

  /** Each vote is legitimate, and nobody votes twice. */
  lemma {:induction false} VotesAreLegitimate(log: seq<Entry>, id: int, i: nat)
    requires GoodLog(log) && i < |Votes(log, id)|
    ensures Legitimate(log, id, Votes(log, id)[i])
    ensures forall h | 0 <= h < i :: Votes(log, id)[h].who != Votes(log, id)[i].who
  {
    var before, last := Before(log), Newest(log);
    if i < |Votes(before, id)| {
      VotesAreLegitimate(before, id, i);
      var v := Votes(before, id)[i];
      var j :| 0 <= j < |before| && before[j] == Entry(v.at, Approved(id, v.who)) && v.who in Members(before[..j])
               && Submission(before[..j], id).Some? && Submission(before[..j], id) == Submission(before, id);
      assert before[..j] == log[..j] && log[j] == before[j];
      SubmissionIsFixed(log, j, id);
    } else {
      assert last.event == Approved(id, Votes(log, id)[i].who);
      assert log[|log| - 1] == last && log[..|log| - 1] == before;
    }
  }
}
