/** The registry of schedule templates: a table, one sorted list of IDs per owner, and a count of
    the active templates. */
module Templates {
  import opened FixedWidth
  import opened Streams
  import opened Storage

  const MAX_TEMPLATES_PER_OWNER := 50
  const MAX_GLOBAL_TEMPLATES := 1_000

  datatype Template = Template(owner: Address, startDelay: u64, cliffDelay: u64, duration: u64)

  // ------------------------------------------------------------------ the registry as a table

  /** What the lists and the count repeat is left out here. */
  datatype Registry = Registry(templates: map<int, Template>, nextId: int)

  function Owned(templates: map<int, Template>, owner: Address): set<int> {
    set id | id in templates && templates[id].owner == owner
  }

  predicate DelaysFit(now: int, startDelay: int, cliffDelay: int, duration: int) {
    && 0 < duration && startDelay <= cliffDelay <= startDelay + duration
    && now + startDelay + duration <= U64_MAX
  }

  function Register(g: Registry, now: int, t: Template): (Registry, Result<int>) {
    if !DelaysFit(now, t.startDelay, t.cliffDelay, t.duration) then (g, Err(InvalidParams))
    else if |Owned(g.templates, t.owner)| >= MAX_TEMPLATES_PER_OWNER || |g.templates| >= MAX_GLOBAL_TEMPLATES
    then (g, Err(TemplateLimitExceeded))
    else if g.nextId >= U64_MAX then (g, Err(HostTrap))
    else (Registry(g.templates[g.nextId := t], g.nextId + 1), Ok(g.nextId))
  }

  function Delete(g: Registry, owner: Address, id: int): (Registry, Result<()>) {
    if id !in g.templates then (g, Err(TemplateNotFound))
    else if g.templates[id].owner != owner then (g, Err(TemplateUnauthorized))
    else (g.(templates := g.templates - {id}), Ok(()))
  }

  /** Every ID is below the counter, and no owner, nor all owners together, exceed their limits. */
  ghost predicate RegistryOk(g: Registry) {
    && 0 <= g.nextId <= U64_MAX && (forall id | id in g.templates :: 0 <= id < g.nextId)
    && |g.templates| <= MAX_GLOBAL_TEMPLATES
    && forall owner: Address :: |Owned(g.templates, owner)| <= MAX_TEMPLATES_PER_OWNER
  }

  lemma {:induction false} SubsetSize(s: set<int>, t: set<int>)
    requires s <= t
    ensures |s| <= |t|
  {
    if exists x :: x in s {
      var x :| x in s;
      SubsetSize(s - {x}, t - {x});
    } else {
      assert s == {};
    }
  }

  lemma MapSize(templates: map<int, Template>)
    ensures |templates| == |templates.Keys|
  {
  }

  lemma OwnedAfterRegister(g: Registry, t: Template, a: Address)
    requires g.nextId !in g.templates
    ensures Owned(g.templates[g.nextId := t], a)
         == if a == t.owner then Owned(g.templates, a) + {g.nextId} else Owned(g.templates, a)
    ensures g.nextId !in Owned(g.templates, a)
  {
  }

  /** Registering keeps the limits, and the new ID has never been in use before. */
  lemma RegisterKeepsLimits(g: Registry, now: int, t: Template)
    requires RegistryOk(g)
    ensures var (m, id) := Register(g, now, t);
            && RegistryOk(m) && g.nextId <= m.nextId
            && (id.Ok? ==> id.value !in g.templates && |m.templates| == |g.templates| + 1)
  {
    var m := Register(g, now, t).0;
    if m != g {
      assert m.templates.Keys == g.templates.Keys + {g.nextId};
      MapSize(g.templates);
      MapSize(m.templates);
      forall a: Address ensures |Owned(m.templates, a)| <= MAX_TEMPLATES_PER_OWNER {
        OwnedAfterRegister(g, t, a);
      }
    }
  }

  /** A template is accepted exactly when its delays make a sound schedule that fits the clock, both limits
      leave room and there is an ID; it is stored as it was handed in, and no other changes. */
  lemma RegisterMeans(g: Registry, now: int, t: Template)
    requires RegistryOk(g) && 0 <= now
    ensures var (m, id) := Register(g, now, t);
            && (id.Ok? <==> && 0 < t.duration && t.startDelay <= t.cliffDelay <= t.startDelay + t.duration
                            && now + t.startDelay + t.duration <= U64_MAX
                            && |Owned(g.templates, t.owner)| < 50 && |g.templates| < 1_000 && g.nextId < U64_MAX)
            && (if id.Ok? then id.value !in g.templates && m.templates == g.templates[id.value := t] else m == g)
  {
  }

  /** Only its owner can delete a template, and nothing else goes. */
  lemma DeleteMeans(g: Registry, owner: Address, id: int)
    ensures var (m, r) := Delete(g, owner, id);
            && (r.Ok? <==> id in g.templates && g.templates[id].owner == owner)
            && m.nextId == g.nextId
            && m.templates == if r.Ok? then g.templates - {id} else g.templates
  {
  }

  lemma DeleteKeepsLimits(g: Registry, owner: Address, id: int)
    requires RegistryOk(g)
    ensures var (m, r) := Delete(g, owner, id);
            RegistryOk(m) && g.nextId == m.nextId && (r.Ok? ==> |m.templates| == |g.templates| - 1)
  {
    var m := Delete(g, owner, id).0;
    if m != g {
      assert g.templates.Keys == m.templates.Keys + {id};
      MapSize(g.templates);
      MapSize(m.templates);
      forall a: Address ensures |Owned(m.templates, a)| <= MAX_TEMPLATES_PER_OWNER {
        SubsetSize(Owned(m.templates, a), Owned(g.templates, a));
      }
    }
  }

  // ------------------------------------------------------------------ the lists

  predicate Lists(list: seq<int>, ids: set<int>) {
    (forall id | id in list :: id in ids) && (forall id | id in ids :: id in list)
  }

  /** The owner's list is strictly sorted and names exactly the owner's templates. */
  ghost predicate OwnerListOk(list: seq<int>, templates: map<int, Template>, owner: Address) {
    Sorted(list) && Lists(list, Owned(templates, owner))
  }

  lemma {:induction false} SortedLength(list: seq<int>, ids: set<int>)
    requires Sorted(list) && Lists(list, ids)
    ensures |list| == |ids|
  {
    if |list| == 0 {
      assert forall id :: id !in ids;
      assert ids == {};
    } else {
      var rest := list[..|list| - 1];
      CutLast(list, rest);
      assert list[|list| - 1] in list;
      SortedLength(rest, ids - {list[|list| - 1]});
    }
  }

  /** A new ID is larger than all others, so putting it at the end keeps the list sorted. */
  lemma AppendedOk(list: seq<int>, templates: map<int, Template>, id: int, t: Template)
    requires OwnerListOk(list, templates, t.owner) && forall k | k in templates :: k < id
    ensures OwnerListOk(list + [id], templates[id := t], t.owner)
  {
    forall i | 0 <= i < |list| ensures list[i] < id {
      assert list[i] in list;
    }
  }

  // ------------------------------------------------------------------ the stored registry

  class TemplateRegistry {
    var templates: map<int, Template>
    var ownerIds: map<Address, seq<int>>
    var activeCount: int
    var nextId: int

    ghost function View(): Registry
      reads this
    {
      Registry(templates, nextId)
    }

    /** Lists and count repeat what the table says. */
    ghost predicate Valid()
      reads this
    {
      && RegistryOk(View()) && activeCount == |templates|
      && forall owner: Address :: OwnerListOk(IndexOf(ownerIds, owner), templates, owner)
    }

    constructor ()
      ensures Valid() && View() == Registry(map[], 0)
    {
      templates, ownerIds, activeCount, nextId := map[], map[], 0, 0;
      new;
      assert forall owner: Address :: Owned(templates, owner) == {};
    }
  }

  /** `validate_template_delays`. */
  method ValidateDelays(now: u64, startDelay: u64, cliffDelay: u64, duration: u64) returns (ok: bool)
    ensures ok == DelaysFit(now, startDelay, cliffDelay, duration)
  {
    assert IsU64(now) && IsU64(startDelay) && IsU64(cliffDelay) && IsU64(duration);
    if duration == 0 || cliffDelay < startDelay {
      return false;
    }
    var start := CheckedAddU64(now, startDelay);
    var cliff := CheckedAddU64(now, cliffDelay);
    if start == None || cliff == None {
      return false;
    }
    var end := CheckedAddU64(start.value, duration);
    return end.Some? && cliff.value <= end.value;
  }

  method RegisterStreamTemplate(g: TemplateRegistry, owner: Address, now: u64,
                                startDelay: u64, cliffDelay: u64, duration: u64)
      returns (r: Result<int>)
    requires g.Valid()
    modifies g
    ensures g.Valid()
    ensures (g.View(), r) == Register(old(g.View()), now, Template(owner, startDelay, cliffDelay, duration))
  {
    var fits := ValidateDelays(now, startDelay, cliffDelay, duration);
    if !fits {
      return Err(InvalidParams);
    }
    var ids := IndexOf(g.ownerIds, owner);
    SortedLength(ids, Owned(g.templates, owner));
    if |ids| >= MAX_TEMPLATES_PER_OWNER {
      return Err(TemplateLimitExceeded);
    }
    var active := g.activeCount;
    if active >= MAX_GLOBAL_TEMPLATES {
      return Err(TemplateLimitExceeded);
    }
    var id := g.nextId;
    if id >= U64_MAX {
      return Err(HostTrap);
    }
    var t := Template(owner, startDelay, cliffDelay, duration);
    RegisterKeepsLimits(g.View(), now, t);
    AppendedOk(ids, g.templates, id, t);
    RegisterKeepsLists(g.ownerIds, g.templates, id, t);
    g.templates := g.templates[id := t];
    g.ownerIds := g.ownerIds[owner := ids + [id]];
    g.nextId := id + 1;
    g.activeCount := active + 1;
    return Ok(id);
  }

  lemma RegisterKeepsLists(ids: map<Address, seq<int>>, templates: map<int, Template>, id: int, t: Template)
    requires forall a: Address :: OwnerListOk(IndexOf(ids, a), templates, a)
    requires OwnerListOk(IndexOf(ids, t.owner) + [id], templates[id := t], t.owner) && id !in templates
    ensures var newIds := ids[t.owner := IndexOf(ids, t.owner) + [id]];
            forall a: Address :: OwnerListOk(IndexOf(newIds, a), templates[id := t], a)
  {
    var newIds := ids[t.owner := IndexOf(ids, t.owner) + [id]];
    forall a: Address ensures OwnerListOk(IndexOf(newIds, a), templates[id := t], a) {
      assert OwnerListOk(IndexOf(ids, a), templates, a);
      assert a != t.owner ==> Owned(templates[id := t], a) == Owned(templates, a);
    }
  }

  lemma DeleteKeepsLists(ids: map<Address, seq<int>>, templates: map<int, Template>, id: int)
    requires id in templates
    requires forall a: Address :: OwnerListOk(IndexOf(ids, a), templates, a)
    ensures var owner := templates[id].owner;
            var newIds := ids[owner := Removed(IndexOf(ids, owner), id)];
            forall a: Address :: OwnerListOk(IndexOf(newIds, a), templates - {id}, a)
  {
    var owner, rest := templates[id].owner, templates - {id};
    var newIds := ids[owner := Removed(IndexOf(ids, owner), id)];
    forall a: Address ensures OwnerListOk(IndexOf(newIds, a), rest, a) {
      assert OwnerListOk(IndexOf(ids, a), templates, a);
      if a == owner {
        RemovedIsSorted(IndexOf(ids, owner), id);
        assert Owned(rest, a) == Owned(templates, a) - {id};
      } else {
        assert Owned(rest, a) == Owned(templates, a);
      }
    }
  }

  /** The binary search in the owner's list always finds the template that is being deleted. */
  method DeleteStreamTemplate(g: TemplateRegistry, owner: Address, id: int) returns (r: Result<()>)
    requires g.Valid()
    modifies g
    ensures g.Valid()
    ensures (g.View(), r) == Delete(old(g.View()), owner, id)
  {
    if id !in g.templates {
      return Err(TemplateNotFound);
    }
    var t := g.templates[id];
    if t.owner != owner {
      return Err(TemplateUnauthorized);
    }
    var ids := IndexOf(g.ownerIds, owner);
    assert OwnerListOk(ids, g.templates, owner);
    PositionSplits(ids, id);
    var at := Position(ids, id);
    if !FoundAt(ids, id, at) {
      return Err(TemplateNotFound);
    }
    DeleteKeepsLimits(g.View(), owner, id);
    DeleteKeepsLists(g.ownerIds, g.templates, id);
    assert Removed(ids, id) == ids[..at] + ids[at + 1..];
    g.templates := g.templates - {id};
    g.ownerIds := g.ownerIds[owner := ids[..at] + ids[at + 1..]];
    g.activeCount := SaturatingSubU64(g.activeCount, 1);
    return Ok(());
  }
}
