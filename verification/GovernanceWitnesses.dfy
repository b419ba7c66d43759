/** Concrete runs of the governance contract on which a documented use fails. */
module GovernanceWitnesses {
  import opened FixedWidth
  import opened Streams
  import opened Governance
  import opened GovernanceRuns

  const SIGNER: Streams.Address := Account(1)

  function ProposeOnce(): GovOp { DoPropose(SIGNER, Account(2), [0]) }

  /** One co-signer, who then submits `n` proposals. */
  function Proposing(n: nat): seq<GovOp> {
    if n == 0 then [DoInit(Account(0), [SIGNER], 1)] else Proposing(n - 1) + [ProposeOnce()]
  }

  lemma RunOneMore(g: Gov, ops: seq<GovOp>, op: GovOp)
    ensures GovRun(g, ops + [op]) == GovStep(GovRun(g, ops), op)
  {
    assert (ops + [op])[..|ops|] == ops;
  }

  lemma {:induction false} ProposingCounts(g: Gov, n: nat)
    requires g == Deployed(0) && n <= U32_MAX
    ensures var m := GovRun(g, Proposing(n));
            m.nextId == n && m.admin == Some(Account(0)) && m.signers == [SIGNER]
  {
    if n == 0 {
      assert [] + Proposing(0) == Proposing(0);
      RunOneMore(g, [], DoInit(Account(0), [SIGNER], 1));
    } else {
      ProposingCounts(g, n - 1);
      RunOneMore(g, Proposing(n - 1), ProposeOnce());
    }
  }

  /** For every limit above the cap there is a run after which paging by that limit misses a proposal. */
  lemma PagingSkips(limit: u32, g: Gov)
    requires limit > MAX_PAGE_SIZE && g == GovRun(Deployed(0), Proposing(101))
    ensures g.nextId == 101 && 100 in g.proposals && 100 !in Walk(g, 0, limit, limit)
  {
    ProposingCounts(Deployed(0), 101);
    DeployedOk(0);
    GovRunKeepsOk(Deployed(0), Proposing(101));
    WalkContains(g, 0, limit, limit, 100);
    OffsetShifts(100, 0, limit);
  }
}
