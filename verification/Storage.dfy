/** The contract's storage and the token contract's view of it, as one mutable object.  The stored
    values include what the value model leaves out because it is redundant: the per-recipient index
    and the count of paused streams.  `Valid` ties both to the stream table. */
module Storage {
  import opened FixedWidth
  import opened Accrual
  import opened Streams
  import opened StreamIds
  import opened StreamRules
  import opened Ledger
  import opened LedgerInvariant

  // ------------------------------------------------------------------ the recipient index

  predicate Sorted(s: seq<int>) { forall i, j | 0 <= i < j < |s| :: s[i] < s[j] }

  function IndexOf(index: map<Address, seq<int>>, r: Address): seq<int> {
    if r in index then index[r] else []
  }

  /** A list is strictly sorted and names exactly the live streams of `r`. */
  ghost predicate ListOk(list: seq<int>, streams: map<int, Stream>, r: Address) {
    Sorted(list) && forall id :: id in list <==> id in streams && streams[id].recipient == r
  }

  ghost predicate IndexOk(index: map<Address, seq<int>>, streams: map<int, Stream>) {
    forall r: Address :: ListOk(IndexOf(index, r), streams, r)
  }

  /** `binary_search` on a sorted list: the position of `id`, or where it belongs. */
  function Position(s: seq<int>, id: int): (p: nat)
    ensures p <= |s|
  {
    if |s| == 0 || s[|s| - 1] < id then |s| else Position(s[..|s| - 1], id)
  }

  predicate FoundAt(s: seq<int>, id: int, p: nat) { p < |s| && s[p] == id }

  lemma {:induction false} PositionSplits(s: seq<int>, id: int)
    requires Sorted(s)
    ensures forall i | 0 <= i < |s| :: s[i] < id <==> i < Position(s, id)
    ensures FoundAt(s, id, Position(s, id)) <==> id in s
  {
    if |s| > 0 && s[|s| - 1] >= id {
      PositionSplits(s[..|s| - 1], id);
    }
  }

  function Inserted(s: seq<int>, id: int): seq<int> {
    s[..Position(s, id)] + [id] + s[Position(s, id)..]
  }

  function Removed(s: seq<int>, id: int): seq<int> {
    if FoundAt(s, id, Position(s, id)) then s[..Position(s, id)] + s[Position(s, id) + 1..] else s
  }

  lemma InsertedIsSorted(s: seq<int>, id: int)
    requires Sorted(s) && id !in s
    ensures Sorted(Inserted(s, id)) && forall x :: x in Inserted(s, id) <==> x in s || x == id
  {
    PositionSplits(s, id);
    var p, t := Position(s, id), Inserted(s, id);
    assert s == s[..p] + s[p..];
  }

  /** Cutting one position out of a strictly sorted list removes exactly that element. */
  lemma CutIsSorted(s: seq<int>, p: nat)
    requires Sorted(s) && p < |s|
    ensures Sorted(s[..p] + s[p + 1..])
    ensures forall x :: x in s[..p] + s[p + 1..] <==> x in s && x != s[p]
  {
    var t := s[..p] + s[p + 1..];
    assert forall i | 0 <= i < |t| :: t[i] == if i < p then s[i] else s[i + 1];
    forall x | x in s && x != s[p] ensures x in t {
      var i :| 0 <= i < |s| && s[i] == x;
      assert t[if i < p then i else i - 1] == x;
    }
  }

  lemma RemovedIsSorted(s: seq<int>, id: int)
    requires Sorted(s)
    ensures Sorted(Removed(s, id)) && forall x :: x in Removed(s, id) <==> x in s && x != id
  {
    PositionSplits(s, id);
    if FoundAt(s, id, Position(s, id)) {
      CutIsSorted(s, Position(s, id));
    }
  }

  lemma CutLast(s: seq<int>, rest: seq<int>)
    requires Sorted(s) && |s| > 0 && rest == s[..|s| - 1]
    ensures Sorted(rest) && forall x :: x in rest <==> x in s && x != s[|s| - 1]
  {
    assert s == rest + [s[|s| - 1]];
  }

  /** A strictly sorted list is determined by its elements, so the index is determined by the table. */
  lemma {:induction false} SortedUnique(s: seq<int>, t: seq<int>)
    requires Sorted(s) && Sorted(t) && forall x :: x in s <==> x in t
    ensures s == t
  {
    assert |t| > 0 ==> t[0] in t;
    if |s| > 0 {
      assert s[|s| - 1] in s && s[|s| - 1] in t;
      assert t[|t| - 1] in t && t[|t| - 1] in s;
      assert t[|t| - 1] == s[|s| - 1];
      var x, y := s[..|s| - 1], t[..|t| - 1];
      CutLast(s, x);
      CutLast(t, y);
      SortedUnique(x, y);
    }
  }

  lemma IndexDetermined(index: map<Address, seq<int>>, other: map<Address, seq<int>>, streams: map<int, Stream>,
                        r: Address)
    requires IndexOk(index, streams) && IndexOk(other, streams)
    ensures IndexOf(index, r) == IndexOf(other, r)
  {
    assert ListOk(IndexOf(index, r), streams, r) && ListOk(IndexOf(other, r), streams, r);
    SortedUnique(IndexOf(index, r), IndexOf(other, r));
  }

  lemma ListAfterRemoval(list: seq<int>, streams: map<int, Stream>, id: int, a: Address)
    requires ListOk(list, streams, a) && id in streams
    ensures ListOk(if streams[id].recipient == a then Removed(list, id) else list, streams - {id}, a)
  {
    RemovedIsSorted(list, id);
  }

  lemma IndexAfterRemoval(index: map<Address, seq<int>>, streams: map<int, Stream>, id: int)
    requires IndexOk(index, streams) && id in streams
    ensures var r := streams[id].recipient;
            IndexOk(index[r := Removed(IndexOf(index, r), id)], streams - {id})
  {
    var r := streams[id].recipient;
    var updated, rest := index[r := Removed(IndexOf(index, r), id)], streams - {id};
    forall a: Address ensures ListOk(IndexOf(updated, a), rest, a) {
      ListAfterRemoval(IndexOf(index, a), streams, id, a);
    }
  }

  lemma ListAfterInsertion(list: seq<int>, streams: map<int, Stream>, id: int, s: Stream, a: Address)
    requires ListOk(list, streams, a) && id !in streams
    ensures ListOk(if s.recipient == a then Inserted(list, id) else list, streams[id := s], a)
  {
    assert id !in list;
    InsertedIsSorted(list, id);
  }

  lemma IndexAfterInsertion(index: map<Address, seq<int>>, streams: map<int, Stream>, id: int, s: Stream)
    requires IndexOk(index, streams) && id !in streams
    ensures IndexOk(index[s.recipient := Inserted(IndexOf(index, s.recipient), id)], streams[id := s])
  {
    var r := s.recipient;
    var updated, more := index[r := Inserted(IndexOf(index, r), id)], streams[id := s];
    forall a: Address ensures ListOk(IndexOf(updated, a), more, a) {
      ListAfterInsertion(IndexOf(index, a), streams, id, s, a);
    }
  }

  /** A stream whose recipient does not change keeps its place in the index. */
  lemma IndexAfterSave(index: map<Address, seq<int>>, streams: map<int, Stream>, id: int, s: Stream)
    requires IndexOk(index, streams) && id in streams && s.recipient == streams[id].recipient
    ensures IndexOk(index, streams[id := s])
  {
    forall a: Address ensures ListOk(IndexOf(index, a), streams[id := s], a) {
      assert ListOk(IndexOf(index, a), streams, a);
    }
  }

  // ------------------------------------------------------------------ the count of paused streams

  ghost function PausedIds(streams: map<int, Stream>): set<int> {
    set id | id in streams && streams[id].status == Paused
  }

  lemma PausedAfterSave(streams: map<int, Stream>, id: int, s: Stream)
    ensures PausedIds(streams[id := s]) == PausedIds(streams) - {id} + (if s.status == Paused then {id} else {})
  {
  }

  lemma {:induction false} BoundedSet(ids: set<int>, n: int)
    requires 0 <= n && forall id | id in ids :: 0 <= id < n
    ensures |ids| <= n
    decreases n
  {
    if n > 0 {
      BoundedSet(ids - {n - 1}, n - 1);
    } else {
      assert forall id :: id !in ids;
      assert ids == {};
    }
  }

  // ------------------------------------------------------------------ the stored state

  class Env {
    var clock: Clock
    var config: Config
    var balance: int
    var spendable: multiset<Address>
    var streams: map<int, Stream>
    var index: map<Address, seq<int>>
    var totalLiabilities: int
    var pausedCount: int
    var nextId: int
    var reservations: map<Address, Reservation>
    var autoClaim: map<int, Address>
    var pending: map<int, Address>
    var nonces: multiset<Address>
    ghost var sent: multiset<Address>
    ghost var flows: map<int, Flow>

    ghost function View(): State
      reads this
    {
      State(clock, config, balance, spendable, sent,
            streams, totalLiabilities, Allocator(nextId, reservations), autoClaim, pending, nonces, flows)
    }

    /** The redundant tables agree with the stream table. */
    ghost predicate TablesOk()
      reads this`index, this`streams, this`pausedCount
    {
      IndexOk(index, streams) && pausedCount == |PausedIds(streams)|
    }

    ghost predicate Valid()
      reads this
    {
      Inv(View()) && TablesOk()
    }

    /** The contract after `init`. */
    constructor (admin: Address, now: u64, sequence: u32)
      ensures Valid() && View() == Initial(Clock(now, sequence), Config(admin, false, false, I128_MAX))
    {
      clock, config := Clock(now, sequence), Config(admin, false, false, I128_MAX);
      balance, spendable, sent := 0, multiset{}, multiset{};
      streams, index, totalLiabilities, pausedCount := map[], map[], 0, 0;
      nextId, reservations := 0, map[];
      autoClaim, pending, nonces, flows := map[], map[], multiset{}, map[];
      new;
      TotalCovers(streams, Clock(now, sequence));
    }
  }

  /** What the host keeps of the storage while a call runs, to put it back if the call fails. */
  datatype Snapshot = Snapshot(balance: int, spendable: multiset<Address>, streams: map<int, Stream>,
                               index: map<Address, seq<int>>, totalLiabilities: int, pausedCount: int,
                               nextId: int, reservations: map<Address, Reservation>)

  /** The parts of the state that no batch call touches. */
  ghost predicate SameFrame(l: State, m: State) {
    && m.clock == l.clock && m.config == l.config && m.autoClaim == l.autoClaim
    && m.pending == l.pending && m.nonces == l.nonces
  }

  predicate SnapshotOf(s: Snapshot, l: State) {
    && s.balance == l.balance && s.spendable == l.spendable && s.streams == l.streams
    && s.totalLiabilities == l.liabilities && Allocator(s.nextId, s.reservations) == l.ids
  }

  method TakeSnapshot(env: Env) returns (s: Snapshot)
    requires env.TablesOk()
    ensures SnapshotOf(s, env.View()) && IndexOk(s.index, s.streams) && s.pausedCount == |PausedIds(s.streams)|
  {
    s := Snapshot(env.balance, env.spendable, env.streams, env.index, env.totalLiabilities, env.pausedCount,
                  env.nextId, env.reservations);
  }

  /** The host's rollback of a failed call. */
  method Rollback(env: Env, before: Snapshot, ghost l: State)
    requires SnapshotOf(before, l) && SameFrame(l, env.View())
    requires IndexOk(before.index, before.streams) && before.pausedCount == |PausedIds(before.streams)|
    modifies env
    ensures env.TablesOk()
    ensures env.View() == l
  {
    RestoreState(env, before, l);
    env.index, env.pausedCount := before.index, before.pausedCount;
  }

  /** The rollback of a call that began in a valid state. */
  method Undo(env: Env, before: Snapshot, ghost l: State)
    requires SnapshotOf(before, l) && SameFrame(l, env.View()) && Inv(l)
    requires IndexOk(before.index, before.streams) && before.pausedCount == |PausedIds(before.streams)|
    modifies env
    ensures env.Valid() && env.View() == l
  {
    Rollback(env, before, l);
    ValidAt(env, l);
  }

  method RestoreState(env: Env, before: Snapshot, ghost l: State)
    requires SnapshotOf(before, l) && SameFrame(l, env.View())
    modifies env`balance, env`spendable, env`streams, env`totalLiabilities, env`nextId, env`reservations
    modifies env`sent, env`flows
    ensures env.View() == l
  {
    env.balance, env.spendable, env.streams := before.balance, before.spendable, before.streams;
    env.totalLiabilities, env.nextId, env.reservations := before.totalLiabilities, before.nextId, before.reservations;
    env.sent, env.flows := l.sent, l.flows;
  }

  /** A value state that keeps the invariant, stored with matching tables. */
  lemma ValidAt(env: Env, m: State)
    requires env.View() == m && Inv(m) && env.TablesOk()
    ensures env.Valid()
  {
  }

  // ------------------------------------------------------------------ storage helpers

  /** `calculate_accrued_amount_checkpointed` on the fields of a stream. */
  function AccruedAt(s: Stream, t: int): int { CalculateAccrued(Checkpoint(s), s.rate, t) }

  /** On a valid record the machine arithmetic is exact, and the claim can be paid. */
  lemma ClaimIsPayable(l: State, id: int)
    requires Inv(l) && id in l.streams
    ensures var s := l.streams[id];
            && (s.status != Completed ==> AccruedAt(s, AccrualTime(s, l.clock.now)) == Accrued(s, l.clock.now))
            && 0 <= Claim(s, l.clock) <= Owed(s) <= l.balance && Owed(s) <= l.liabilities
            && 0 <= s.withdrawn <= Accrued(s, l.clock.now) <= s.deposit
  {
    var s := l.streams[id];
    OwedBounds(s, l.clock);
    TotalCovers(l.streams, l.clock);
    FixedWidthIsExact(Checkpoint(s), s.rate, AccrualTime(s, l.clock.now));
  }

  /** Stream IDs are below the largest `u64`, so that no count of streams overflows. */
  lemma IdsFit(l: State)
    requires Inv(l)
    ensures forall id | id in l.streams :: 0 <= id < U64_MAX
  {
  }

  /** Sending nothing changes nothing. */
  lemma SendZero(l: State, a: Address)
    ensures Send(l, a, 0) == l
  {
    assert Add(l.sent, a, 0) == l.sent;
  }

  /** Counts a status change of one stream. */
  function ReconciledCount(count: int, previous: StreamStatus, next: StreamStatus): int {
    if previous == next then count
    else match (previous, next)
         case (Paused, _) => SaturatingSubU64(count, 1)
         case (_, Paused) => Min(count + 1, U64_MAX)
         case _ => count
  }

  lemma CountAfterSave(streams: map<int, Stream>, id: int, s: Stream)
    requires id in streams && forall k | k in streams :: 0 <= k < U64_MAX
    ensures ReconciledCount(|PausedIds(streams)|, streams[id].status, s.status) == |PausedIds(streams[id := s])|
  {
    BoundedSet(PausedIds(streams) + {id}, U64_MAX);
    PausedAfterSave(streams, id, s);
  }

  /** `save_stream`, followed by the count of the status change it makes. */
  method SaveStream(env: Env, id: int, s: Stream)
    requires id in env.streams && s.recipient == env.streams[id].recipient
    requires env.TablesOk() && forall k | k in env.streams :: 0 <= k < U64_MAX
    modifies env`streams, env`pausedCount
    ensures env.TablesOk()
    ensures env.View() == old(env.View()).(streams := old(env.streams)[id := s])
  {
    var previous := env.streams[id].status;
    CountAfterSave(env.streams, id, s);
    IndexAfterSave(env.index, env.streams, id, s);
    env.streams := env.streams[id := s];
    env.pausedCount := ReconciledCount(env.pausedCount, previous, s.status);
  }

  method WriteTotalLiabilities(env: Env, amount: int)
    modifies env`totalLiabilities
    ensures env.View() == old(env.View()).(liabilities := amount)
  {
    env.totalLiabilities := amount;
  }

  /** `checked_add(..).unwrap_or(i128::MAX)` on the liability counter. */
  method RaiseTotalLiabilities(env: Env, amount: nat)
    requires 0 <= env.totalLiabilities
    modifies env`totalLiabilities
    ensures env.View() == old(env.View()).(liabilities := Min(old(env.totalLiabilities) + amount, I128_MAX))
  {
    var liabilities := Checked(env.totalLiabilities + amount);
    WriteTotalLiabilities(env, if liabilities.Some? then liabilities.value else I128_MAX);
  }

  /** `checked_sub(..).unwrap_or(0)` on the liability counter, which is never short. */
  method LowerTotalLiabilities(env: Env, amount: nat)
    requires amount <= env.totalLiabilities <= I128_MAX
    modifies env`totalLiabilities
    ensures env.View() == old(env.View()).(liabilities := old(env.totalLiabilities) - amount)
  {
    var liabilities := Checked(env.totalLiabilities - amount);
    WriteTotalLiabilities(env, if liabilities.Some? then liabilities.value else 0);
  }

  /** Sending: the token contract traps when the balance is short, so the precondition is proof
      that it does not. */
  method PushToken(env: Env, to: Address, amount: nat)
    requires amount <= env.balance
    modifies env`balance, env`sent
    ensures env.View() == Send(old(env.View()), to, amount)
  {
    if to != Contract {
      env.balance := env.balance - amount;
    }
    env.sent := Add(env.sent, to, amount);
  }

  /** Pulling: fails when the owner's allowance or funds, or the range of a balance, do not allow it. */
  method PullToken(env: Env, from: Address, amount: nat) returns (ok: bool)
    modifies env`balance, env`spendable
    ensures ok == CanPull(old(env.View()), from, amount)
    ensures env.View() == if ok then Pull(old(env.View()), from, amount) else old(env.View())
  {
    ok := amount <= env.spendable[from] && env.balance + amount <= I128_MAX;
    if ok {
      env.balance := env.balance + amount;
      env.spendable := env.spendable[from := env.spendable[from] - amount];
    }
  }

  /** The bookkeeping the model adds: how much was funded, paid and refunded for a stream. */
  ghost method Book(env: Env, id: int, funded: nat, paid: nat, refunded: nat)
    modifies env`flows
    ensures env.View() == Record(old(env.View()), id, funded, paid, refunded)
  {
    env.flows := Booked(env.flows, id, funded, paid, refunded);
  }
}
