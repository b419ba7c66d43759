/** Batches against one-at-a-time calls: a batch withdrawal is the sequence of single withdrawals,
    its order does not matter, and a bulk cancellation settles every stream it names. */
module BatchTheorems {
  import opened FixedWidth
  import opened Streams
  import opened StreamRules
  import opened Ledger
  import opened LedgerInvariant

  // ------------------------------------------------------------------ the sequential reading

  /** `withdraw` on each stream that is not completed, one call after the other. */
  function OneByOne(l: State, recipient: Address, ids: seq<int>): (State, Result<seq<int>>) {
    if |ids| == 0 then (l, Ok([]))
    else
      var (m, paid), id := OneByOne(l, recipient, ids[..|ids| - 1]), ids[|ids| - 1];
      if paid.Err? then (m, paid)
      else if id in m.streams && m.streams[id].status == Completed then (m, Ok(paid.value + [0]))
      else
        var (n, amount) := StreamStep(m, id, Withdraw(recipient));
        if amount.Err? then (n, Err(amount.error)) else (n, Ok(paid.value + [amount.value]))
  }

  lemma ItemIsWithdraw(m: State, recipient: Address, id: int)
    requires !m.config.globalPaused && WithdrawItem(m, recipient, Item(id, None)).1.Ok?
    ensures WithdrawItem(m, recipient, Item(id, None)) ==
            if m.streams[id].status == Completed then (m, Ok(0)) else StreamStep(m, id, Withdraw(recipient))
    ensures WithdrawItem(m, recipient, Item(id, None)).0.config == m.config
  {
  }

  lemma {:induction false} ItemsAreOneByOne(l: State, recipient: Address, ids: seq<int>)
    requires !l.config.globalPaused && WithdrawItems(l, recipient, Plain(ids)).1.Ok?
    ensures OneByOne(l, recipient, ids) == WithdrawItems(l, recipient, Plain(ids))
    ensures OneByOne(l, recipient, ids).0.config == l.config
  {
    if |ids| > 0 {
      var before, id := ids[..|ids| - 1], ids[|ids| - 1];
      assert Plain(ids)[..|ids| - 1] == Plain(before) && Plain(ids)[|ids| - 1] == Item(id, None);
      ItemsAreOneByOne(l, recipient, before);
      ItemIsWithdraw(OneByOne(l, recipient, before).0, recipient, id);
    }
  }

  /** A batch that succeeds has the final state, and pays the amounts, of single withdrawals. */
  lemma BatchIsOneByOne(l: State, recipient: Address, ids: seq<int>)
    requires BatchWithdraw(l, recipient, ids).1.Ok?
    ensures OneByOne(l, recipient, ids) == BatchWithdraw(l, recipient, ids)
  {
    ItemsAreOneByOne(l, recipient, ids);
  }

  // ------------------------------------------------------------------ order does not matter

  predicate DistinctItems(items: seq<Item>) {
    forall i, j | 0 <= i < j < |items| :: items[i].id != items[j].id
  }

  predicate PayoutOnly(e: Effect) { e.Write? ==> e.fund == 0 && e.liability <= 0 }

  lemma AddsCommute(m: multiset<Address>, a: Address, x: nat, b: Address, y: nat)
    ensures Add(Add(m, a, x), b, y) == Add(Add(m, b, y), a, x)
  {
  }

  lemma SendsCommute(m: multiset<Address>, a: Address, x: nat, b: Address, y: nat, c: Address, z: nat,
                     d: Address, w: nat)
    ensures Add(Add(Add(Add(m, a, x), b, y), c, z), d, w) == Add(Add(Add(Add(m, c, z), d, w), a, x), b, y)
  {
    AddsCommute(Add(m, a, x), b, y, c, z);
    AddsCommute(m, a, x, c, z);
    AddsCommute(Add(Add(m, c, z), a, x), b, y, d, w);
    AddsCommute(Add(m, c, z), a, x, d, w);
  }

  /** A payout, written out field by field. */
  function Paying(l: State, id: int, e: Effect): State
    requires e.Write?
  {
    l.(streams := l.streams[id := e.stream],
       liabilities := l.liabilities + e.liability,
       balance := l.balance - Leaving(e.payee, e.pay) - Leaving(e.stream.sender, e.refund),
       sent := Add(Add(l.sent, e.payee, e.pay), e.stream.sender, e.refund),
       flows := Booked(l.flows, id, e.fund, e.pay, e.refund))
  }

  lemma PayoutWrites(l: State, id: int, e: Effect)
    requires e.Write? && PayoutOnly(e) && l.liabilities <= I128_MAX
    ensures Commit(l, id, e) == Paying(l, id, e)
  {
  }

  lemma RecordsCommute(streams: map<int, Stream>, i: int, s: Stream, j: int, t: Stream)
    requires i != j
    ensures streams[i := s][j := t] == streams[j := t][i := s]
  {
  }

  lemma BookingsCommute(flows: map<int, Flow>, i: int, e: Effect, j: int, f: Effect)
    requires i != j && e.Write? && f.Write?
    ensures Booked(Booked(flows, i, e.fund, e.pay, e.refund), j, f.fund, f.pay, f.refund)
         == Booked(Booked(flows, j, f.fund, f.pay, f.refund), i, e.fund, e.pay, e.refund)
  {
  }

  lemma PaymentsCommute(l: State, i: int, e: Effect, j: int, f: Effect)
    requires i != j && e.Write? && f.Write?
    ensures Paying(Paying(l, i, e), j, f) == Paying(Paying(l, j, f), i, e)
  {
    RecordsCommute(l.streams, i, e.stream, j, f.stream);
    BookingsCommute(l.flows, i, e, j, f);
    SendsCommute(l.sent, e.payee, e.pay, e.stream.sender, e.refund, f.payee, f.pay, f.stream.sender, f.refund);
  }

  lemma PaidTwice(l: State, i: int, e: Effect, j: int, f: Effect)
    requires e.Write? && f.Write? && PayoutOnly(e) && PayoutOnly(f) && l.liabilities <= I128_MAX
    ensures Commit(Commit(l, i, e), j, f) == Paying(Paying(l, i, e), j, f)
  {
    PayoutWrites(l, i, e);
    PayoutWrites(Paying(l, i, e), j, f);
  }

  /** Effects on different streams commute. */
  lemma CommitsCommute(l: State, i: int, e: Effect, j: int, f: Effect)
    requires i != j && PayoutOnly(e) && PayoutOnly(f) && l.liabilities <= I128_MAX
    ensures Commit(Commit(l, i, e), j, f) == Commit(Commit(l, j, f), i, e)
  {
    if e.Write? && f.Write? {
      PaidTwice(l, i, e, j, f);
      PaidTwice(l, j, f, i, e);
      PaymentsCommute(l, i, e, j, f);
    }
  }

  lemma ItemOnlyPays(s: Stream, c: Clock, recipient: Address, a: Item)
    requires ItemRule(s, c, recipient, a).Ok?
    ensures PayoutOnly(ItemRule(s, c, recipient, a).value)
  {
  }

  /** An item acts through the record of its own stream only. */
  lemma ItemActs(l: State, recipient: Address, a: Item)
    requires WithdrawItem(l, recipient, a).1.Ok?
    ensures a.id in l.streams && ItemRule(l.streams[a.id], l.clock, recipient, a).Ok?
    ensures var e := ItemRule(l.streams[a.id], l.clock, recipient, a).value;
            PayoutOnly(e) && WithdrawItem(l, recipient, a).0 == Commit(l, a.id, e)
  {
    ItemOnlyPays(l.streams[a.id], l.clock, recipient, a);
  }

  lemma ItemSucceeds(l: State, recipient: Address, a: Item)
    requires a.id in l.streams && ItemRule(l.streams[a.id], l.clock, recipient, a).Ok?
    ensures WithdrawItem(l, recipient, a).1.Ok?
  {
    ItemOnlyPays(l.streams[a.id], l.clock, recipient, a);
  }

  lemma CommitElsewhere(l: State, i: int, e: Effect, j: int)
    requires i != j && PayoutOnly(e)
    ensures var m := Commit(l, i, e);
            && m.clock == l.clock && m.config == l.config
            && (j in m.streams <==> j in l.streams) && (j in l.streams ==> m.streams[j] == l.streams[j])
  {
  }

  lemma ItemsCommute(l: State, recipient: Address, a: Item, b: Item)
    requires a.id != b.id && l.liabilities <= I128_MAX
    requires WithdrawItem(l, recipient, a).1.Ok? && WithdrawItem(WithdrawItem(l, recipient, a).0, recipient, b).1.Ok?
    ensures WithdrawItem(l, recipient, b).1.Ok?
    ensures WithdrawItem(WithdrawItem(l, recipient, b).0, recipient, a).1.Ok?
    ensures WithdrawItem(WithdrawItem(l, recipient, b).0, recipient, a).0
         == WithdrawItem(WithdrawItem(l, recipient, a).0, recipient, b).0
  {
    ItemActs(l, recipient, a);
    var e := ItemRule(l.streams[a.id], l.clock, recipient, a).value;
    CommitElsewhere(l, a.id, e, b.id);
    ItemActs(Commit(l, a.id, e), recipient, b);
    var f := ItemRule(l.streams[b.id], l.clock, recipient, b).value;
    ItemSucceeds(l, recipient, b);
    ItemActs(l, recipient, b);
    CommitElsewhere(l, b.id, f, a.id);
    ItemSucceeds(Commit(l, b.id, f), recipient, a);
    ItemActs(Commit(l, b.id, f), recipient, a);
    CommitsCommute(l, a.id, e, b.id, f);
  }

  lemma ItemKeepsCounterLow(l: State, recipient: Address, a: Item)
    requires l.liabilities <= I128_MAX
    ensures WithdrawItem(l, recipient, a).0.liabilities <= I128_MAX
  {
  }

  lemma {:induction false} ItemsKeepCounterLow(l: State, recipient: Address, items: seq<Item>)
    requires l.liabilities <= I128_MAX
    ensures WithdrawItems(l, recipient, items).0.liabilities <= I128_MAX
  {
    if |items| > 0 {
      ItemsKeepCounterLow(l, recipient, items[..|items| - 1]);
      ItemKeepsCounterLow(WithdrawItems(l, recipient, items[..|items| - 1]).0, recipient, items[|items| - 1]);
    }
  }

  /** Doing one item first instead of last. */
  lemma {:induction false} FirstOrLast(l: State, recipient: Address, a: Item, rest: seq<Item>)
    requires l.liabilities <= I128_MAX
    requires forall i | 0 <= i < |rest| :: rest[i].id != a.id
    requires WithdrawItem(l, recipient, a).1.Ok?
    requires WithdrawItems(WithdrawItem(l, recipient, a).0, recipient, rest).1.Ok?
    ensures WithdrawItems(l, recipient, rest).1.Ok?
    ensures var m := WithdrawItems(l, recipient, rest).0;
            && WithdrawItem(m, recipient, a).1.Ok?
            && WithdrawItem(m, recipient, a).0 == WithdrawItems(WithdrawItem(l, recipient, a).0, recipient, rest).0
  {
    if |rest| > 0 {
      var before, b := rest[..|rest| - 1], rest[|rest| - 1];
      FirstOrLast(l, recipient, a, before);
      var m := WithdrawItems(l, recipient, before).0;
      ItemsKeepCounterLow(l, recipient, before);
      ItemsCommute(m, recipient, a, b);
    }
  }

  /** A batch splits anywhere. */
  lemma {:induction false} ItemsSplit(l: State, recipient: Address, x: seq<Item>, y: seq<Item>)
    requires WithdrawItems(l, recipient, x + y).1.Ok?
    ensures WithdrawItems(l, recipient, x).1.Ok?
    ensures WithdrawItems(WithdrawItems(l, recipient, x).0, recipient, y).1.Ok?
    ensures WithdrawItems(l, recipient, x + y).0 == WithdrawItems(WithdrawItems(l, recipient, x).0, recipient, y).0
    decreases |y|
  {
    if |y| == 0 {
      assert x + y == x;
    } else {
      assert (x + y)[..|x + y| - 1] == x + y[..|y| - 1];
      ItemsSplit(l, recipient, x, y[..|y| - 1]);
    }
  }

  lemma {:induction false} ItemsJoin(l: State, recipient: Address, x: seq<Item>, y: seq<Item>)
    requires WithdrawItems(l, recipient, x).1.Ok?
    requires WithdrawItems(WithdrawItems(l, recipient, x).0, recipient, y).1.Ok?
    ensures WithdrawItems(l, recipient, x + y).1.Ok?
    ensures WithdrawItems(l, recipient, x + y).0 == WithdrawItems(WithdrawItems(l, recipient, x).0, recipient, y).0
    decreases |y|
  {
    if |y| == 0 {
      assert x + y == x;
    } else {
      assert (x + y)[..|x + y| - 1] == x + y[..|y| - 1];
      ItemsJoin(l, recipient, x, y[..|y| - 1]);
    }
  }

  /** An item can be taken out of the middle of a batch and done at the end. */
  lemma MoveToEnd(l: State, recipient: Address, x: seq<Item>, a: Item, y: seq<Item>)
    requires l.liabilities <= I128_MAX && WithdrawItems(l, recipient, x + [a] + y).1.Ok?
    requires forall i | 0 <= i < |y| :: y[i].id != a.id
    ensures WithdrawItems(l, recipient, x + y + [a]).1.Ok?
    ensures WithdrawItems(l, recipient, x + y + [a]).0 == WithdrawItems(l, recipient, x + [a] + y).0
  {
    ItemsSplit(l, recipient, x + [a], y);
    ItemsSplit(l, recipient, x, [a]);
    var m := WithdrawItems(l, recipient, x).0;
    assert [a][..0] == [];
    assert WithdrawItems(m, recipient, [a]).0 == WithdrawItem(m, recipient, a).0;
    ItemsKeepCounterLow(l, recipient, x);
    FirstOrLast(m, recipient, a, y);
    ItemsJoin(l, recipient, x, y);
    assert (x + y + [a])[..|x + y|] == x + y;
  }

  lemma CancelOne(m: multiset<Item>, n: multiset<Item>, a: Item)
    requires m + multiset{a} == n + multiset{a}
    ensures m == n
  {
    assert m == m + multiset{a} - multiset{a};
    assert n == n + multiset{a} - multiset{a};
  }

  /** Taking the last element of one ordering out of the other. */
  lemma TakeOut(items: seq<Item>, other: seq<Item>) returns (k: nat)
    requires multiset(items) == multiset(other) && |other| > 0
    ensures k < |items| && items[k] == other[|other| - 1]
    ensures items == items[..k] + [items[k]] + items[k + 1..]
    ensures multiset(items[..k] + items[k + 1..]) == multiset(other[..|other| - 1])
  {
    var a, rest := other[|other| - 1], other[..|other| - 1];
    assert other == rest + [a];
    assert a in multiset(items);
    k :| 0 <= k < |items| && items[k] == a;
    assert items == items[..k] + [a] + items[k + 1..];
    var x, y := items[..k], items[k + 1..];
    assert multiset(items) == multiset(x) + multiset{a} + multiset(y);
    assert multiset(other) == multiset(rest) + multiset{a};
    assert multiset(x + y) == multiset(x) + multiset(y);
    CancelOne(multiset(rest), multiset(x) + multiset(y), a);
  }

  /** Any reordering of a batch that succeeds also succeeds, and ends in the same state. */
  lemma {:induction false} OrderDoesNotMatter(l: State, recipient: Address, items: seq<Item>, other: seq<Item>)
    requires l.liabilities <= I128_MAX && DistinctItems(items) && multiset(items) == multiset(other)
    requires WithdrawItems(l, recipient, items).1.Ok?
    ensures WithdrawItems(l, recipient, other).1.Ok?
    ensures WithdrawItems(l, recipient, other).0 == WithdrawItems(l, recipient, items).0
    decreases |other|
  {
    if |other| == 0 {
      assert |multiset(items)| == 0;
    } else {
      var k := TakeOut(items, other);
      var x, a, y := items[..k], items[k], items[k + 1..];
      MoveToEnd(l, recipient, x, a, y);
      assert (x + y + [a])[..|x + y|] == x + y;
      OrderDoesNotMatter(l, recipient, x + y, other[..|other| - 1]);
    }
  }

  /** What each item is paid is what its stream could claim before the batch began. */
  function ItemAmount(l: State, recipient: Address, item: Item): int {
    if item.id !in l.streams then 0
    else
      var r := ItemRule(l.streams[item.id], l.clock, recipient, item);
      if r.Ok? && r.value.Write? then r.value.pay else 0
  }

  lemma ItemTouchesOneStream(l: State, recipient: Address, item: Item)
    requires WithdrawItem(l, recipient, item).1.Ok?
    ensures var (m, paid) := WithdrawItem(l, recipient, item);
            && paid.value == ItemAmount(l, recipient, item)
            && m.clock == l.clock && m.streams.Keys == l.streams.Keys
            && forall id | id in l.streams && id != item.id :: m.streams[id] == l.streams[id]
  {
  }

  predicate Names(items: seq<Item>, id: int) { exists i :: 0 <= i < |items| && items[i].id == id }

  /** What a batch on `items` from `l` to `m` paid, and what it left alone. */
  predicate PaidClaims(l: State, recipient: Address, items: seq<Item>, m: State, paid: seq<int>) {
    && |paid| == |items| && m.clock == l.clock && m.streams.Keys == l.streams.Keys
    && (forall i | 0 <= i < |items| :: paid[i] == ItemAmount(l, recipient, items[i]))
    && (forall id | id in l.streams && !Names(items, id) :: m.streams[id] == l.streams[id])
  }

  lemma NamesGrow(before: seq<Item>, last: Item, id: int)
    ensures Names(before + [last], id) <==> Names(before, id) || last.id == id
  {
    var items := before + [last];
    if Names(before, id) {
      var i :| 0 <= i < |before| && before[i].id == id;
      assert items[i].id == id;
    }
    assert items[|before|] == last;
  }

  lemma PaidClaimsNext(l: State, recipient: Address, before: seq<Item>, last: Item, m: State, paid: seq<int>)
    requires PaidClaims(l, recipient, before, m, paid) && !Names(before, last.id)
    requires WithdrawItem(m, recipient, last).1.Ok?
    ensures var (n, amount) := WithdrawItem(m, recipient, last);
            PaidClaims(l, recipient, before + [last], n, paid + [amount.value])
  {
    ItemTouchesOneStream(m, recipient, last);
    assert ItemAmount(m, recipient, last) == ItemAmount(l, recipient, last);
    forall id ensures Names(before + [last], id) <==> Names(before, id) || last.id == id {
      NamesGrow(before, last, id);
    }
  }

  lemma LastItem(l: State, recipient: Address, before: seq<Item>, last: Item, m: State, paid: seq<int>)
    requires WithdrawItems(l, recipient, before) == (m, Ok(paid)) && WithdrawItems(l, recipient, before + [last]).1.Ok?
    ensures WithdrawItem(m, recipient, last).1.Ok?
    ensures WithdrawItems(l, recipient, before + [last])
         == (WithdrawItem(m, recipient, last).0, Ok(paid + [WithdrawItem(m, recipient, last).1.value]))
  {
    assert (before + [last])[..|before|] == before;
  }

  lemma FreshName(before: seq<Item>, last: Item)
    requires DistinctItems(before + [last])
    ensures DistinctItems(before) && !Names(before, last.id)
  {
    var items := before + [last];
    assert items[|before|] == last && forall i | 0 <= i < |before| :: items[i] == before[i];
  }

  lemma {:induction false} AmountsAreClaimsAtTheStart(l: State, recipient: Address, items: seq<Item>)
    requires DistinctItems(items) && WithdrawItems(l, recipient, items).1.Ok?
    ensures var (m, paid) := WithdrawItems(l, recipient, items);
            PaidClaims(l, recipient, items, m, paid.value)
  {
    if |items| > 0 {
      var before, last := items[..|items| - 1], items[|items| - 1];
      assert items == before + [last];
      FreshName(before, last);
      AmountsAreClaimsAtTheStart(l, recipient, before);
      var (m, paid) := WithdrawItems(l, recipient, before);
      LastItem(l, recipient, before, last, m, paid.value);
      PaidClaimsNext(l, recipient, before, last, m, paid.value);
    }
  }

  /** How often an item occurs in a plain batch. */
  lemma {:induction false} PlainCounts(ids: seq<int>, item: Item)
    ensures multiset(Plain(ids))[item] == if item.payee == None then multiset(ids)[item.id] else 0
  {
    if |ids| > 0 {
      var before, id := ids[..|ids| - 1], ids[|ids| - 1];
      PlainCounts(before, item);
      assert ids == before + [id];
      assert Plain(ids) == Plain(before) + [Item(id, None)];
    }
  }

  /** For `batch_withdraw`: the order of the IDs affects neither the final state nor what any stream
      is paid, although the code draws on a running balance. */
  lemma BatchOrderDoesNotMatter(l: State, recipient: Address, ids: seq<int>, other: seq<int>)
    requires Inv(l) && multiset(ids) == multiset(other) && BatchWithdraw(l, recipient, ids).1.Ok?
    ensures BatchWithdraw(l, recipient, other).1.Ok?
    ensures BatchWithdraw(l, recipient, other).0 == BatchWithdraw(l, recipient, ids).0
    ensures var x, y := BatchWithdraw(l, recipient, ids).1.value, BatchWithdraw(l, recipient, other).1.value;
            && |x| == |ids| && |y| == |other|
            && forall i, j | 0 <= i < |ids| && 0 <= j < |other| && ids[i] == other[j] :: x[i] == y[j]
  {
    forall item ensures multiset(Plain(ids))[item] == multiset(Plain(other))[item] {
      PlainCounts(ids, item);
      PlainCounts(other, item);
    }
    DistinctBoth(ids, other);
    OrderDoesNotMatter(l, recipient, Plain(ids), Plain(other));
    AmountsAreClaimsAtTheStart(l, recipient, Plain(ids));
    AmountsAreClaimsAtTheStart(l, recipient, Plain(other));
  }

  // ------------------------------------------------------------------ when a batch succeeds

  /** What the batch demands of a completed stream, which single withdrawals would skip. */
  predicate CompletedFits(l: State, recipient: Address, id: int) {
    id in l.streams && (l.streams[id].status == Completed ==>
      l.streams[id].recipient == recipient && !TooSoon(l.streams[id], l.clock))
  }

  lemma ItemSucceedsExactly(m: State, recipient: Address, id: int)
    requires !m.config.globalPaused
    ensures WithdrawItem(m, recipient, Item(id, None)).1.Ok? <==>
              && CompletedFits(m, recipient, id)
              && (m.streams[id].status == Completed || StreamStep(m, id, Withdraw(recipient)).1.Ok?)
  {
  }

  lemma PlainNamesIds(ids: seq<int>, id: int)
    requires id !in ids
    ensures !Names(Plain(ids), id)
  {
  }

  /** A stream that the batch has not reached yet is as it was at the start. */
  lemma NotReachedYet(l: State, recipient: Address, before: seq<int>, id: int, m: State)
    requires Distinct(before) && id !in before
    requires WithdrawItems(l, recipient, Plain(before)).1.Ok? && m == WithdrawItems(l, recipient, Plain(before)).0
    ensures CompletedFits(m, recipient, id) <==> CompletedFits(l, recipient, id)
  {
    AmountsAreClaimsAtTheStart(l, recipient, Plain(before));
    PlainNamesIds(before, id);
  }

  lemma NextSucceeds(l: State, recipient: Address, before: seq<int>, id: int, m: State, paid: seq<int>)
    requires !m.config.globalPaused && OneByOne(l, recipient, before) == (m, Ok(paid))
    requires WithdrawItems(l, recipient, Plain(before)) == (m, Ok(paid))
    ensures WithdrawItems(l, recipient, Plain(before + [id])).1.Ok? <==>
              OneByOne(l, recipient, before + [id]).1.Ok? && CompletedFits(m, recipient, id)
  {
    assert (before + [id])[..|before|] == before;
    assert Plain(before + [id])[..|before|] == Plain(before) && Plain(before + [id])[|before|] == Item(id, None);
    ItemSucceedsExactly(m, recipient, id);
  }

  /** When an earlier item fails, so does the batch, and so do the single withdrawals or the condition. */
  lemma EarlierFails(l: State, recipient: Address, before: seq<int>, id: int)
    ensures WithdrawItems(l, recipient, Plain(before)).1.Err? ==>
              WithdrawItems(l, recipient, Plain(before + [id])).1.Err?
    ensures OneByOne(l, recipient, before).1.Err? ==> OneByOne(l, recipient, before + [id]).1.Err?
  {
    assert (before + [id])[..|before|] == before;
    assert Plain(before + [id])[..|before|] == Plain(before);
  }

  predicate AllFit(l: State, recipient: Address, ids: seq<int>) {
    forall i | 0 <= i < |ids| :: CompletedFits(l, recipient, ids[i])
  }

  lemma AllFitSplits(l: State, recipient: Address, before: seq<int>, id: int)
    ensures AllFit(l, recipient, before + [id]) <==> AllFit(l, recipient, before) && CompletedFits(l, recipient, id)
  {
    var ids := before + [id];
    assert ids[|before|] == id && forall i | 0 <= i < |before| :: ids[i] == before[i];
  }

  lemma {:induction false} ItemsSucceedExactly(l: State, recipient: Address, ids: seq<int>)
    requires !l.config.globalPaused && Distinct(ids)
    ensures WithdrawItems(l, recipient, Plain(ids)).1.Ok? <==>
              OneByOne(l, recipient, ids).1.Ok? && AllFit(l, recipient, ids)
  {
    if |ids| > 0 {
      var before, id := ids[..|ids| - 1], ids[|ids| - 1];
      assert ids == before + [id];
      ItemsSucceedExactly(l, recipient, before);
      AllFitSplits(l, recipient, before, id);
      EarlierFails(l, recipient, before, id);
      if WithdrawItems(l, recipient, Plain(before)).1.Ok? {
        var (m, paid) := OneByOne(l, recipient, before);
        ItemsAreOneByOne(l, recipient, before);
        NotReachedYet(l, recipient, before, id, m);
        NextSucceeds(l, recipient, before, id, m, paid.value);
      }
    }
  }

  /** A batch on distinct IDs succeeds if and only if the single withdrawals do and the completed
      streams among them, which those skip, belong to the recipient and are not too recent. */
  lemma BatchSucceedsExactly(l: State, recipient: Address, ids: seq<int>)
    requires !l.config.globalPaused && Distinct(ids)
    ensures BatchWithdraw(l, recipient, ids).1.Ok? <==>
              OneByOne(l, recipient, ids).1.Ok? && AllFit(l, recipient, ids)
  {
    ItemsSucceedExactly(l, recipient, ids);
  }

  lemma {:induction false} DistinctIsCountOne(ids: seq<int>)
    ensures Distinct(ids) <==> forall x :: multiset(ids)[x] <= 1
  {
    if |ids| > 0 {
      var before, id := ids[..|ids| - 1], ids[|ids| - 1];
      DistinctIsCountOne(before);
      assert ids == before + [id];
      assert multiset(ids) == multiset(before) + multiset{id};
      assert id in before <==> multiset(before)[id] > 0;
      if forall x :: multiset(ids)[x] <= 1 {
        assert multiset(ids)[id] <= 1;
        assert forall x :: multiset(before)[x] <= multiset(ids)[x];
      }
    }
  }

  lemma DistinctBoth(ids: seq<int>, other: seq<int>)
    requires Distinct(ids) && multiset(ids) == multiset(other)
    ensures Distinct(other)
  {
    DistinctIsCountOne(ids);
    DistinctIsCountOne(other);
  }

  // ------------------------------------------------------------------ bulk cancellation

  ghost function OwedTo(l: State, ids: seq<int>): int
    requires forall i | 0 <= i < |ids| :: ids[i] in l.streams
  {
    if |ids| == 0 then 0 else OwedTo(l, ids[..|ids| - 1]) + Owed(l.streams[ids[|ids| - 1]])
  }

  ghost predicate Settled(l: State, m: State, id: int) {
    && id in l.streams && id in m.streams && id in l.flows && id in m.flows
    && m.streams[id].status == Cancelled && Owed(m.streams[id]) == 0
    && m.flows[id].paid == l.flows[id].paid + Claim(l.streams[id], l.clock)
    && m.flows[id].refunded == l.flows[id].refunded + l.streams[id].deposit - Accrued(l.streams[id], l.clock.now)
  }

  /** Apart from the streams in `ids`, nothing about any stream changes. */
  ghost predicate Untouched(l: State, m: State, ids: seq<int>) {
    && m.clock == l.clock && m.streams.Keys == l.streams.Keys && m.flows.Keys == l.flows.Keys
    && (forall k | k in l.flows && k !in ids :: m.flows[k] == l.flows[k])
    && (forall k | k in l.streams && k !in ids :: m.streams[k] == l.streams[k])
  }

  lemma CommitBooks(l: State, id: int, e: Effect)
    requires e.Write? && e.fund == 0 && e.stream.sender != Contract && id in l.streams && id in l.flows
    ensures Untouched(l, Commit(l, id, e), [id])
    ensures var m := Commit(l, id, e);
            && m.streams[id] == e.stream
            && m.flows[id].paid == l.flows[id].paid + e.pay && m.flows[id].refunded == l.flows[id].refunded + e.refund
  {
    CommitWrites(l, id, e);
  }

  /** One settlement, and what it leaves alone. */
  lemma SettlesOne(l: State, id: int)
    requires Inv(l) && id in l.streams && Live(l.streams[id])
    ensures Settled(l, SettleAndCancel(l, id), id) && Untouched(l, SettleAndCancel(l, id), [id])
  {
    var s := l.streams[id];
    OwedBounds(s, l.clock);
    PayUpToDateOk(s, l.clock);
    var m := Commit(l, id, PayUpToDate(s, l.clock));
    CommitBooks(l, id, PayUpToDate(s, l.clock));
    CancelOk(m.streams[id], l.clock);
    CommitBooks(m, id, StreamRules.Cancel(m.streams[id], l.clock).value);
  }

  ghost predicate AllSettled(l: State, m: State, ids: seq<int>) {
    forall i | 0 <= i < |ids| :: Settled(l, m, ids[i])
  }

  lemma UntouchedAppend(l: State, m: State, n: State, ids: seq<int>, id: int)
    requires Untouched(l, m, ids) && Untouched(m, n, [id])
    ensures Untouched(l, n, ids + [id])
  {
    assert forall k :: k !in ids + [id] ==> k !in ids && k !in [id];
  }

  lemma SettledAppend(l: State, m: State, n: State, ids: seq<int>, id: int)
    requires id !in ids && id in l.streams && id in l.flows
    requires AllSettled(l, m, ids) && Untouched(l, m, ids)
    requires Settled(m, n, id) && Untouched(m, n, [id])
    ensures AllSettled(l, n, ids + [id])
  {
    forall i | 0 <= i < |ids + [id]| ensures Settled(l, n, (ids + [id])[i]) {
      if i < |ids| {
        assert Settled(l, m, ids[i]);
      }
    }
  }

  predicate PaidOutside(l: State, ids: seq<int>) {
    forall i | 0 <= i < |ids| :: ids[i] in l.streams ==> l.streams[ids[i]].recipient != Contract
  }

  /** What one more settlement does to counter, balance and total. */
  lemma SettlementTakes(l: State, m: State, done: seq<int>, id: int)
    requires Inv(m) && Untouched(l, m, done) && id !in done && id in l.streams && Live(l.streams[id])
    ensures var n := SettleAndCancel(m, id);
            && id in m.streams && Live(m.streams[id]) && Inv(n)
            && m.liabilities - n.liabilities == Owed(l.streams[id]) == Total(m.streams) - Total(n.streams)
            && (l.streams[id].recipient != Contract ==> m.balance - n.balance == Owed(l.streams[id]))
  {
    SettleAndCancelKeepsInv(m, id);
  }

  /** Counter, total and, unless the contract pays itself, balance have fallen by what was owed on `ids`. */
  ghost predicate Drawn(l: State, m: State, ids: seq<int>)
    requires forall i | 0 <= i < |ids| :: ids[i] in l.streams
  {
    && l.liabilities - m.liabilities == OwedTo(l, ids) == Total(l.streams) - Total(m.streams)
    && (PaidOutside(l, ids) ==> l.balance - m.balance == OwedTo(l, ids))
  }

  lemma DrawnNext(l: State, m: State, done: seq<int>, id: int)
    requires forall i | 0 <= i < |done + [id]| :: (done + [id])[i] in l.streams
    requires Inv(m) && Untouched(l, m, done) && id !in done && id in l.streams && Live(l.streams[id])
    requires (forall i | 0 <= i < |done| :: done[i] in l.streams) && Drawn(l, m, done)
    requires id in m.streams && Live(m.streams[id])
    ensures Drawn(l, SettleAndCancel(m, id), done + [id])
  {
    SettlementTakes(l, m, done, id);
    assert (done + [id])[..|done|] == done;
    assert (done + [id])[|done|] == id;
    if PaidOutside(l, done + [id]) {
      assert forall i | 0 <= i < |done| :: (done + [id])[i] == done[i];
    }
  }

  lemma SettledNext(l: State, m: State, done: seq<int>, id: int)
    requires Inv(l) && Inv(m) && Untouched(l, m, done) && AllSettled(l, m, done)
    requires id !in done && id in l.streams && Live(l.streams[id])
    ensures id in m.streams && Live(m.streams[id])
    ensures var n := SettleAndCancel(m, id);
            Inv(n) && AllSettled(l, n, done + [id]) && Untouched(l, n, done + [id])
  {
    SettlementTakes(l, m, done, id);
    SettlesOne(m, id);
    SettledAppend(l, m, SettleAndCancel(m, id), done, id);
    UntouchedAppend(l, m, SettleAndCancel(m, id), done, id);
  }

  /** A bulk cancellation that passes its checks leaves every named stream cancelled and owed
      nothing; each recipient has been paid all that had accrued, the sender refunded the rest.  The
      counter falls by exactly what was owed on the streams, and so does the contract's balance,
      unless the contract itself is a recipient. */
  lemma {:induction false} BulkCancelSettles(l: State, ids: seq<int>)
    requires Inv(l) && Distinct(ids) && forall i | 0 <= i < |ids| :: ids[i] in l.streams && Live(l.streams[ids[i]])
    ensures var m := SettleAndCancelAll(l, ids);
            Inv(m) && AllSettled(l, m, ids) && Untouched(l, m, ids) && Drawn(l, m, ids)
  {
    if |ids| > 0 {
      var before, id := ids[..|ids| - 1], ids[|ids| - 1];
      assert ids == before + [id];
      BulkCancelSettles(l, before);
      SettledNext(l, SettleAndCancelAll(l, before), before, id);
      DrawnNext(l, SettleAndCancelAll(l, before), before, id);
    }
  }
}
