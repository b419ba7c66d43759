/** What a batch means to its caller: exactly when it is accepted, and what it pays to whom, all of it in
    terms of the state before the call. */
module BatchCalls {
  import opened FixedWidth
  import opened Streams
  import opened Ledger
  import opened LedgerInvariant
  import opened StreamCalls
  import opened BatchTheorems
  import StreamRules
  import LedgerRuns

  // ------------------------------------------------------------------ one entry

  /** The entry names a stream of the recipient's that holds nothing back; without a destination of its
      own it also has to keep the frequency limit. */
  predicate Fits(l: State, recipient: Address, item: Item) {
    && item.id in l.streams && l.streams[item.id].recipient == recipient && !HeldBack(l.streams[item.id], l.clock)
    && (item.payee == None ==> l.clock.sequence > l.streams[item.id].lastWithdraw)
  }

  function Amount(l: State, item: Item): int
    requires item.id in l.streams
  {
    if l.streams[item.id].status == Completed then 0 else Payable(l.streams[item.id], l.clock)
  }

  function Payee(recipient: Address, item: Item): Address {
    if item.payee.Some? then item.payee.value else recipient
  }

  function After(l: State, item: Item): Stream
    requires item.id in l.streams
  {
    StreamCalls.Drawn(l.streams[item.id], Amount(l, item),
                      if item.payee == None then l.clock.sequence else l.streams[item.id].lastWithdraw)
  }

  lemma ItemAccepted(l: State, recipient: Address, item: Item)
    ensures WithdrawItem(l, recipient, item).1.Ok? <==> Fits(l, recipient, item)
  {
  }

  /** `m` is `l` after one entry has been paid. */
  ghost predicate ItemPaid(l: State, m: State, recipient: Address, item: Item) {
    && item.id in l.streams && 0 <= Amount(l, item) && m.nonces == l.nonces
    && Pays(l, m, item.id, After(l, item), Payee(recipient, item), Amount(l, item), item.payee == None)
  }

  lemma CompletedItemKeeps(l: State, recipient: Address, item: Item)
    requires Inv(l) && Fits(l, recipient, item) && l.streams[item.id].status == Completed
    ensures WithdrawItem(l, recipient, item) == (l, Ok(0)) && ItemPaid(l, l, recipient, item)
  {
    KeepPays(l, item.id, Payee(recipient, item), item.payee == None);
  }

  lemma OpenItemRule(l: State, recipient: Address, item: Item)
    requires Fits(l, recipient, item) && l.streams[item.id].status != Completed
    ensures var s := l.streams[item.id];
            ItemRule(s, l.clock, recipient, item)
            == Ok(StreamRules.PayoutUnlessDust(s, l.clock, Payee(recipient, item), item.payee == None,
                                               if item.payee == None then l.clock.sequence else s.lastWithdraw))
  {
  }

  lemma ItemMeans(l: State, recipient: Address, item: Item)
    requires Inv(l) && Fits(l, recipient, item)
    ensures WithdrawItem(l, recipient, item).1 == Ok(Amount(l, item))
    ensures Inv(WithdrawItem(l, recipient, item).0) && ItemPaid(l, WithdrawItem(l, recipient, item).0, recipient, item)
  {
    WithdrawItemKeepsInv(l, recipient, item);
    var s := l.streams[item.id];
    if s.status == Completed {
      CompletedItemKeeps(l, recipient, item);
    } else {
      OpenItemRule(l, recipient, item);
      DustDraws(l, item.id, Payee(recipient, item), item.payee == None,
                if item.payee == None then l.clock.sequence else s.lastWithdraw,
                ItemRule(s, l.clock, recipient, item).value);
    }
  }

  // ------------------------------------------------------------------ all entries

  predicate AllFit(l: State, recipient: Address, items: seq<Item>) {
    forall i | 0 <= i < |items| :: Fits(l, recipient, items[i])
  }

  /** What the entries pay to `to` together. */
  function PaidTo(l: State, recipient: Address, items: seq<Item>, to: Address): int
    requires AllFit(l, recipient, items)
  {
    if |items| == 0 then 0
    else
      var last := items[|items| - 1];
      PaidTo(l, recipient, items[..|items| - 1], to) + if Payee(recipient, last) == to then Amount(l, last) else 0
  }

  /** What they pay in all: with `outside`, to others than the contract; with `counted`, out of the
      liability counter. */
  function PaidInAll(l: State, recipient: Address, items: seq<Item>, outside: bool, counted: bool): int
    requires AllFit(l, recipient, items)
  {
    if |items| == 0 then 0
    else
      var last := items[|items| - 1];
      var pays := (outside ==> Payee(recipient, last) != Contract) && (counted ==> last.payee == None);
      PaidInAll(l, recipient, items[..|items| - 1], outside, counted) + if pays then Amount(l, last) else 0
  }

  /** `m` is `l` after all entries have been paid. */
  ghost predicate AllPaid(l: State, m: State, recipient: Address, items: seq<Item>)
    requires AllFit(l, recipient, items)
  {
    && m == l.(streams := m.streams, balance := m.balance, sent := m.sent, liabilities := m.liabilities,
               flows := m.flows)
    && m.streams.Keys == l.streams.Keys && m.flows.Keys == l.flows.Keys
    && (forall id | id in l.streams && !Names(items, id) :: m.streams[id] == l.streams[id])
    && (forall i | 0 <= i < |items| :: m.streams[items[i].id] == After(l, items[i]))
    && (forall id | id in l.flows && !Names(items, id) :: m.flows[id] == l.flows[id])
    && (forall to: Address :: m.sent[to] == l.sent[to] + PaidTo(l, recipient, items, to))
    && m.balance == l.balance - PaidInAll(l, recipient, items, true, false)
    && m.liabilities == l.liabilities - PaidInAll(l, recipient, items, false, true)
  }

  lemma AllFitSplits(l: State, recipient: Address, before: seq<Item>, last: Item)
    ensures AllFit(l, recipient, before + [last]) <==> AllFit(l, recipient, before) && Fits(l, recipient, last)
  {
    var items := before + [last];
    assert items[|before|] == last;
    if AllFit(l, recipient, items) {
      assert forall i | 0 <= i < |before| :: before[i] == items[i];
    }
  }

  lemma NotReached(l: State, m: State, recipient: Address, items: seq<Item>, item: Item)
    requires AllFit(l, recipient, items) && AllPaid(l, m, recipient, items) && !Names(items, item.id)
    ensures Fits(m, recipient, item) <==> Fits(l, recipient, item)
    ensures item.id in l.streams ==> item.id in m.streams && m.streams[item.id] == l.streams[item.id]
    ensures item.id in l.streams ==> Amount(m, item) == Amount(l, item) && After(m, item) == After(l, item)
  {
  }

  lemma SumsNext(l: State, recipient: Address, before: seq<Item>, last: Item)
    requires AllFit(l, recipient, before) && Fits(l, recipient, last)
    ensures AllFit(l, recipient, before + [last])
    ensures forall to: Address :: PaidTo(l, recipient, before + [last], to)
              == PaidTo(l, recipient, before, to) + if Payee(recipient, last) == to then Amount(l, last) else 0
    ensures PaidInAll(l, recipient, before + [last], true, false)
         == PaidInAll(l, recipient, before, true, false)
            + if Payee(recipient, last) != Contract then Amount(l, last) else 0
    ensures PaidInAll(l, recipient, before + [last], false, true)
         == PaidInAll(l, recipient, before, false, true) + if last.payee == None then Amount(l, last) else 0
  {
    AllFitSplits(l, recipient, before, last);
    assert (before + [last])[..|before|] == before;
  }

  lemma RecordsNext(l: State, m: State, n: State, recipient: Address, before: seq<Item>, last: Item)
    requires AllFit(l, recipient, before) && Fits(l, recipient, last) && !Names(before, last.id)
    requires AllPaid(l, m, recipient, before) && ItemPaid(m, n, recipient, last)
    ensures n.streams.Keys == l.streams.Keys && n.flows.Keys == l.flows.Keys
    ensures forall id | id in l.streams && !Names(before + [last], id) :: n.streams[id] == l.streams[id]
    ensures forall id | id in l.flows && !Names(before + [last], id) :: n.flows[id] == l.flows[id]
    ensures forall i | 0 <= i < |before + [last]| ::
              n.streams[(before + [last])[i].id] == After(l, (before + [last])[i])
  {
    NotReached(l, m, recipient, before, last);
    forall id ensures Names(before + [last], id) <==> Names(before, id) || last.id == id {
      NamesGrow(before, last, id);
    }
    forall i | 0 <= i < |before + [last]|
      ensures n.streams[(before + [last])[i].id] == After(l, (before + [last])[i])
    {
      if i < |before| {
        assert Names(before, before[i].id);
      }
    }
  }

  lemma AllPaidNext(l: State, m: State, n: State, recipient: Address, before: seq<Item>, last: Item)
    requires AllFit(l, recipient, before) && Fits(l, recipient, last) && !Names(before, last.id)
    requires AllPaid(l, m, recipient, before) && ItemPaid(m, n, recipient, last)
    ensures AllFit(l, recipient, before + [last]) && AllPaid(l, n, recipient, before + [last])
  {
    NotReached(l, m, recipient, before, last);
    SumsNext(l, recipient, before, last);
    RecordsNext(l, m, n, recipient, before, last);
  }

  /** `r` is the reply, and `m` the state, of entries of which each pays what its stream could pay
      before, if each of them fits; else they are refused. */
  ghost predicate Outcome(l: State, recipient: Address, items: seq<Item>, m: State, r: Result<seq<int>>) {
    && (r.Ok? <==> AllFit(l, recipient, items))
    && (r.Ok? ==> && Inv(m) && AllPaid(l, m, recipient, items) && |r.value| == |items|
                  && forall i | 0 <= i < |items| :: r.value[i] == Amount(l, items[i]))
  }

  lemma OutcomeNext(l: State, recipient: Address, before: seq<Item>, last: Item, m: State, paid: seq<int>, n: State,
                    amount: Result<int>)
    requires Outcome(l, recipient, before, m, Ok(paid)) && !Names(before, last.id)
    requires WithdrawItem(m, recipient, last) == (n, amount)
    ensures amount.Ok? <==> Fits(l, recipient, last)
    ensures amount.Ok? ==> Outcome(l, recipient, before + [last], n, Ok(paid + [amount.value]))
  {
    NotReached(l, m, recipient, before, last);
    ItemAccepted(m, recipient, last);
    AllFitSplits(l, recipient, before, last);
    if Fits(l, recipient, last) {
      ItemMeans(m, recipient, last);
      AllPaidNext(l, m, n, recipient, before, last);
    }
  }

  lemma LastItemFolds(l: State, recipient: Address, before: seq<Item>, last: Item, m: State, r: Result<seq<int>>)
    requires WithdrawItems(l, recipient, before) == (m, r)
    ensures var x := WithdrawItem(m, recipient, last);
            WithdrawItems(l, recipient, before + [last])
            == if r.Err? then (m, r) else if x.1.Err? then (l, Err(x.1.error)) else (x.0, Ok(r.value + [x.1.value]))
  {
    assert (before + [last])[..|before|] == before;
  }

  /** Entries on different streams: they are accepted together exactly when each of them fits, and then
      each pays what its stream could pay before the call. */
  lemma {:induction false} ItemsMean(l: State, recipient: Address, items: seq<Item>)
    requires Inv(l) && DistinctItems(items)
    ensures var (m, r) := WithdrawItems(l, recipient, items); Outcome(l, recipient, items, m, r)
  {
    if |items| > 0 {
      var before, last := items[..|items| - 1], items[|items| - 1];
      assert items == before + [last];
      var (m, r) := WithdrawItems(l, recipient, before);
      FreshName(before, last);
      ItemsMean(l, recipient, before);
      AllFitSplits(l, recipient, before, last);
      LastItemFolds(l, recipient, before, last, m, r);
      if r.Ok? {
        var (n, amount) := WithdrawItem(m, recipient, last);
        OutcomeNext(l, recipient, before, last, m, r.value, n, amount);
      }
    }
  }

  // ------------------------------------------------------------------ the two entry points

  lemma {:induction false} NoFaultExactly(ws: seq<WithdrawToParam>, i: nat)
    requires i <= |ws|
    ensures DirectedFault(ws, i) == None <==>
              && (forall k | i <= k < |ws| :: ws[k].destination != Contract)
              && (forall j, k | i <= j < k < |ws| :: ws[j].id != ws[k].id)
    decreases |ws| - i
  {
    if i < |ws| {
      NoFaultExactly(ws, i + 1);
      if RepeatedLater(Ids(ws), i) {
        var j :| i < j < |Ids(ws)| && Ids(ws)[j] == Ids(ws)[i];
        assert ws[j].id == ws[i].id;
      } else {
        forall k | i < k < |ws| ensures ws[i].id != ws[k].id {
          assert Ids(ws)[k] != Ids(ws)[i];
        }
      }
    }
  }

  /** `batch_withdraw`: accepted exactly when the IDs are distinct and name streams of the recipient's
      that hold nothing back and keep the frequency limit; everything is paid to the recipient. */
  lemma BatchWithdrawMeans(l: State, recipient: Address, ids: seq<int>)
    requires Inv(l)
    ensures var (m, r) := BatchWithdraw(l, recipient, ids);
            && (r.Ok? <==> && !l.config.globalPaused && Distinct(ids)
                           && forall i | 0 <= i < |ids| :: Fits(l, recipient, Item(ids[i], None)))
            && (r.Ok? ==> Outcome(l, recipient, Plain(ids), m, r))
  {
    if Distinct(ids) {
      ItemsMean(l, recipient, Plain(ids));
      assert AllFit(l, recipient, Plain(ids)) <==>
               forall i | 0 <= i < |ids| :: Fits(l, recipient, Item(ids[i], None)) by {
        assert forall i | 0 <= i < |ids| :: Plain(ids)[i] == Item(ids[i], None);
      }
    }
  }

  /** `batch_withdraw_to`: accepted exactly when no destination is the contract, no ID is repeated, and
      all streams are the recipient's and hold nothing back; each entry pays its own destination. */
  lemma BatchWithdrawToMeans(l: State, recipient: Address, ws: seq<WithdrawToParam>)
    requires Inv(l)
    ensures var (m, r) := BatchWithdrawTo(l, recipient, ws);
            && (r.Ok? <==> && !l.config.globalPaused
                           && (forall i | 0 <= i < |ws| :: ws[i].destination != Contract)
                           && (forall i, j | 0 <= i < j < |ws| :: ws[i].id != ws[j].id)
                           && forall i | 0 <= i < |ws| :: Fits(l, recipient, Item(ws[i].id, Some(ws[i].destination))))
            && (r.Ok? ==> Outcome(l, recipient, Directed(ws), m, r))
  {
    NoFaultExactly(ws, 0);
    if DirectedFault(ws, 0) == None {
      ItemsMean(l, recipient, Directed(ws));
      assert AllFit(l, recipient, Directed(ws)) <==>
               forall i | 0 <= i < |ws| :: Fits(l, recipient, Item(ws[i].id, Some(ws[i].destination))) by {
        assert forall i | 0 <= i < |ws| :: Directed(ws)[i] == Item(ws[i].id, Some(ws[i].destination));
      }
    }
  }

  // ------------------------------------------------------------------ bulk cancellation

  predicate MayCancel(l: State, sender: Address, id: int) {
    id in l.streams && l.streams[id].sender == sender && l.streams[id].status in {Active, Paused}
  }

  lemma {:induction false} NoBulkFaultExactly(l: State, sender: Address, ids: seq<int>, i: nat)
    requires i <= |ids|
    ensures BulkFault(l, sender, ids, i) == None <==>
              && (forall k | i <= k < |ids| :: MayCancel(l, sender, ids[k]))
              && (forall j, k | i <= j < k < |ids| :: ids[j] != ids[k])
    decreases |ids| - i
  {
    if i < |ids| {
      NoBulkFaultExactly(l, sender, ids, i + 1);
      if RepeatedLater(ids, i) {
        var j :| i < j < |ids| && ids[j] == ids[i];
      } else {
        forall k | i < k < |ids| ensures ids[i] != ids[k] {
        }
      }
    }
  }

  /** The record of a stream that has been paid up to date and cancelled at `c`. */
  function Closed(s: Stream, c: Clock): Stream {
    s.(withdrawn := Accrued(s, c.now), status := Cancelled, cancelledAt := Some(c.now))
  }

  predicate AllMine(l: State, sender: Address, ids: seq<int>) {
    forall i | 0 <= i < |ids| :: MayCancel(l, sender, ids[i])
  }

  /** What a bulk cancellation sends to `to`: open claims to the recipients, the rest to the sender. */
  function SentTo(l: State, sender: Address, ids: seq<int>, to: Address): int
    requires AllMine(l, sender, ids)
  {
    if |ids| == 0 then 0
    else
      var s := l.streams[ids[|ids| - 1]];
      SentTo(l, sender, ids[..|ids| - 1], to)
      + (if to == s.recipient then Open(s, l.clock) else 0)
      + (if to == sender then s.deposit - Accrued(s, l.clock.now) else 0)
  }

  ghost predicate AllClosed(l: State, m: State, sender: Address, ids: seq<int>)
    requires AllMine(l, sender, ids)
  {
    && m == l.(streams := m.streams, balance := m.balance, sent := m.sent, liabilities := m.liabilities,
               flows := m.flows)
    && m.streams.Keys == l.streams.Keys && m.flows.Keys == l.flows.Keys
    && (forall id | id in l.streams && id !in ids :: m.streams[id] == l.streams[id])
    && (forall id | id in l.flows && id !in ids :: m.flows[id] == l.flows[id])
    && (forall i | 0 <= i < |ids| :: m.streams[ids[i]] == Closed(l.streams[ids[i]], l.clock))
    && (forall to: Address :: m.sent[to] == l.sent[to] + SentTo(l, sender, ids, to))
  }

  /** `n` is `l` after one stream has been paid up to date and cancelled. */
  ghost predicate OneClosed(l: State, n: State, id: int) {
    && id in l.streams && id in l.flows && id in n.flows && 0 <= Open(l.streams[id], l.clock)
    && Accrued(l.streams[id], l.clock.now) <= l.streams[id].deposit
    && var s := l.streams[id];
       && n == l.(streams := l.streams[id := Closed(s, l.clock)], balance := n.balance, sent := n.sent,
                  liabilities := n.liabilities, flows := l.flows[id := n.flows[id]])
       && n.sent == Add(Add(l.sent, s.recipient, Open(s, l.clock)), s.sender, s.deposit - Accrued(s, l.clock.now))
  }

  lemma SettlingPays(l: State, id: int)
    requires Inv(l) && id in l.streams && l.streams[id].status in {Active, Paused}
    ensures var s, m := l.streams[id], Commit(l, id, StreamRules.PayUpToDate(l.streams[id], l.clock));
            && Inv(m) && m.clock == l.clock && Accrued(s, l.clock.now) <= s.deposit
            && Pays(l, m, id, s.(withdrawn := Accrued(s, l.clock.now)), s.recipient, Open(s, l.clock), true)
            && m.nonces == l.nonces
  {
    PayKeepsInv(l, id);
    UpToDate(l.streams[id], l.clock);
    CommitPays(l, id, StreamRules.PayUpToDate(l.streams[id], l.clock), true);
  }

  lemma UpToDate(s: Stream, c: Clock)
    requires StreamOk(s, c)
    ensures 0 <= Open(s, c) && Accrued(s, c.now) <= s.deposit
    ensures StreamRules.PayUpToDate(s, c)
         == StreamRules.Write(s.(withdrawn := Accrued(s, c.now)), -Open(s, c), Open(s, c), s.recipient, 0, 0, s.sender)
  {
    OwedBounds(s, c);
  }

  lemma SettlingRefunds(m: State, id: int)
    requires Inv(m) && id in m.streams && m.streams[id].status in {Active, Paused}
    ensures var s, n := m.streams[id], Commit(m, id, StreamRules.Cancel(m.streams[id], m.clock).value);
            && Accrued(s, m.clock.now) <= s.deposit
            && Refunds(m, n, id, s.(status := Cancelled, cancelledAt := Some(m.clock.now)),
                       s.deposit - Accrued(s, m.clock.now), true)
  {
    var s := m.streams[id];
    OwedBounds(s, m.clock);
    CommitRefunds(m, id, StreamRules.Cancel(s, m.clock).value, true);
  }

  lemma ClosedInTwo(l: State, m: State, n: State, id: int)
    requires id in l.streams && l.streams[id].status in {Active, Paused} && m.clock == l.clock
    requires var s := l.streams[id];
             && Accrued(s, l.clock.now) <= s.deposit
             && Pays(l, m, id, s.(withdrawn := Accrued(s, l.clock.now)), s.recipient, Open(s, l.clock), true)
             && m.nonces == l.nonces
    requires var t := m.streams[id];
             Refunds(m, n, id, t.(status := Cancelled, cancelledAt := Some(m.clock.now)),
                     t.deposit - Accrued(t, m.clock.now), true)
    ensures OneClosed(l, n, id)
  {
    ReplacedTwice(l.streams, id, m.streams[id], Closed(l.streams[id], l.clock));
  }

  lemma SettlingCloses(l: State, id: int)
    requires Inv(l) && id in l.streams && l.streams[id].status in {Active, Paused}
    ensures OneClosed(l, SettleAndCancel(l, id), id)
  {
    var m := Commit(l, id, StreamRules.PayUpToDate(l.streams[id], l.clock));
    SettlingPays(l, id);
    SettlingRefunds(m, id);
    ClosedInTwo(l, m, SettleAndCancel(l, id), id);
  }

  lemma AllMineSplits(l: State, sender: Address, before: seq<int>, id: int)
    ensures AllMine(l, sender, before + [id]) <==> AllMine(l, sender, before) && MayCancel(l, sender, id)
  {
    var ids := before + [id];
    assert ids[|before|] == id;
    if AllMine(l, sender, ids) {
      assert forall i | 0 <= i < |before| :: before[i] == ids[i];
    }
  }

  lemma SentToNext(l: State, sender: Address, before: seq<int>, id: int, to: Address)
    requires AllMine(l, sender, before) && MayCancel(l, sender, id) && AllMine(l, sender, before + [id])
    ensures var s := l.streams[id];
            SentTo(l, sender, before + [id], to)
            == SentTo(l, sender, before, to)
               + (if to == s.recipient then Open(s, l.clock) else 0)
               + (if to == sender then s.deposit - Accrued(s, l.clock.now) else 0)
  {
    assert (before + [id])[..|before|] == before && (before + [id])[|before|] == id;
  }

  lemma RecordsClosedNext(l: State, m: State, n: State, sender: Address, before: seq<int>, id: int)
    requires AllMine(l, sender, before) && AllClosed(l, m, sender, before)
    requires id !in before && MayCancel(l, sender, id) && OneClosed(m, n, id)
    ensures forall i | 0 <= i < |before + [id]| ::
              (before + [id])[i] in l.streams && (before + [id])[i] in n.streams
              && n.streams[(before + [id])[i]] == Closed(l.streams[(before + [id])[i]], l.clock)
  {
    forall i | 0 <= i < |before + [id]|
      ensures (before + [id])[i] in l.streams && (before + [id])[i] in n.streams
      ensures n.streams[(before + [id])[i]] == Closed(l.streams[(before + [id])[i]], l.clock)
    {
      if i < |before| {
        assert before[i] in before && MayCancel(l, sender, before[i]);
      }
    }
  }

  lemma SentNext(l: State, m: State, n: State, sender: Address, before: seq<int>, id: int)
    requires AllMine(l, sender, before) && AllMine(l, sender, before + [id]) && MayCancel(l, sender, id)
    requires m.clock == l.clock && id in m.streams && m.streams[id] == l.streams[id] && OneClosed(m, n, id)
    requires forall to: Address :: m.sent[to] == l.sent[to] + SentTo(l, sender, before, to)
    ensures forall to: Address :: n.sent[to] == l.sent[to] + SentTo(l, sender, before + [id], to)
  {
    forall to: Address ensures n.sent[to] == l.sent[to] + SentTo(l, sender, before + [id], to) {
      SentToNext(l, sender, before, id, to);
    }
  }

  lemma AllClosedNext(l: State, m: State, n: State, sender: Address, before: seq<int>, id: int)
    requires AllMine(l, sender, before) && AllClosed(l, m, sender, before)
    requires id !in before && MayCancel(l, sender, id) && OneClosed(m, n, id)
    ensures AllMine(l, sender, before + [id]) && AllClosed(l, n, sender, before + [id])
  {
    AllMineSplits(l, sender, before, id);
    RecordsClosedNext(l, m, n, sender, before, id);
    SentNext(l, m, n, sender, before, id);
  }

  lemma {:induction false} AllSettledClosed(l: State, sender: Address, ids: seq<int>)
    requires Inv(l) && Distinct(ids) && AllMine(l, sender, ids)
    ensures Inv(SettleAndCancelAll(l, ids)) && AllClosed(l, SettleAndCancelAll(l, ids), sender, ids)
  {
    if |ids| > 0 {
      var before, id := ids[..|ids| - 1], ids[|ids| - 1];
      assert ids == before + [id];
      AllMineSplits(l, sender, before, id);
      AllSettledClosed(l, sender, before);
      var m := SettleAndCancelAll(l, before);
      assert id !in before && m.streams[id] == l.streams[id];
      SettleAndCancelKeepsInv(m, id);
      SettlingCloses(m, id);
      AllClosedNext(l, m, SettleAndCancel(m, id), sender, before, id);
    }
  }

  /** `bulk_cancel_streams`: accepted exactly for distinct live streams of the caller's; then all that has
      accrued is paid to each recipient, the rest goes to the sender, and each record is closed. */
  lemma BulkCancelMeans(l: State, sender: Address, ids: seq<int>)
    requires Inv(l)
    ensures var (m, r) := BulkCancel(l, sender, ids);
            && (r.Ok? <==> !l.config.globalPaused && Distinct(ids) && AllMine(l, sender, ids))
            && (r.Ok? ==> Inv(m) && AllClosed(l, m, sender, ids))
  {
    NoBulkFaultExactly(l, sender, ids, 0);
    if Distinct(ids) && AllMine(l, sender, ids) {
      AllSettledClosed(l, sender, ids);
    }
  }
}
