/** The registry's transactions as they are carried out, row by row, against the functions of
    `Registry`. A failed transaction leaves every table alone. */
module RegistryStore {
  import opened Basics
  import opened Registry

  /** What a transaction did to the tables, and what it reported. */
  ghost predicate Committed(before: Tables, after: Tables, spec: Result<Tables, Error>, r: Option<Error>) {
    match spec
    case Ok(t) => after == t && r == None
    case Err(e) => after == before && r == Some(e)
  }

  method TrimAll(g: Rules, tiers: seq<Tier>) returns (ts: seq<Tier>)
    ensures ts == TrimTiers(g, tiers)
  {
    ts := tiers;
    for i := 0 to |tiers|
      invariant |ts| == |tiers|
      invariant forall k :: 0 <= k < i ==> ts[k] == tiers[k].(provider := Trim(g, tiers[k].provider))
      invariant forall k :: i <= k < |tiers| ==> ts[k] == tiers[k]
    {
      ts := ts[i := ts[i].(provider := Trim(g, ts[i].provider))];
    }
  }

  method RenameInPlace(tiers: seq<Tier>, was: string, name: string) returns (ts: seq<Tier>, changed: bool)
    ensures ts == RenameTiers(tiers, was, name) && (!changed ==> ts == tiers)
  {
    ts, changed := tiers, false;
    for i := 0 to |tiers|
      invariant |ts| == |tiers| && (!changed ==> ts == tiers)
      invariant forall k :: 0 <= k < i ==> ts[k] == RenameTier(tiers[k], was, name)
      invariant forall k :: i <= k < |tiers| ==> ts[k] == tiers[k]
    {
      if ts[i].provider == CUSTOM + was {
        ts := ts[i := ts[i].(provider := CUSTOM + name)];
        changed := true;
      }
    }
  }

  method RemoveMember(tiers: seq<Tier>, member: string) returns (kept: seq<Tier>, changed: bool)
    ensures kept == WithoutMember(tiers, member)
    ensures changed <==> exists t :: t in tiers && t.provider == member
  {
    kept, changed := [], false;
    for i := 0 to |tiers|
      invariant kept == WithoutMember(tiers[..i], member)
      invariant changed <==> exists k :: 0 <= k < i && tiers[k].provider == member
    {
      assert tiers[..i + 1][..i] == tiers[..i];
      if tiers[i].provider == member {
        changed := true;
      } else {
        kept := kept + [tiers[i]];
      }
    }
    assert tiers[..|tiers|] == tiers;
  }

  lemma {:induction false} NothingRemoved(ts: seq<Tier>, member: string)
    requires forall t :: t in ts ==> t.provider != member
    ensures WithoutMember(ts, member) == ts
  {
    if ts != [] {
      SplitLast(ts);
      assert ts[|ts| - 1] in ts;
      NothingRemoved(ts[..|ts| - 1], member);
    }
  }

  method RenameCombos(combos: map<nat, Combo>, was: string, name: string) returns (r: map<nat, Combo>)
    ensures r == RenameAll(combos, was, name)
  {
    r := combos;
    var left := combos.Keys;
    while left != {}
      invariant left <= combos.Keys && r.Keys == combos.Keys
      invariant forall id :: id in left ==> r[id] == combos[id]
      invariant forall id :: id in combos && id !in left ==> r[id] == RenameAll(combos, was, name)[id]
      decreases left
    {
      var id :| id in left;
      var ts, changed := RenameInPlace(combos[id].tiers, was, name);
      if changed {
        r := r[id := combos[id].(tiers := ts)];
      }
      left := left - {id};
    }
  }

  lemma RenamedToItself(combos: map<nat, Combo>, name: string)
    ensures RenameAll(combos, name, name) == combos
  {
    forall id | id in combos ensures RenameAll(combos, name, name)[id] == combos[id] {
      assert RenameTiers(combos[id].tiers, name, name) == combos[id].tiers;
    }
  }

  /** The combo table while the rows outside `left` have been visited. */
  ghost predicate Visited(combos: map<nat, Combo>, r: map<nat, Combo>, member: string, left: set<nat>) {
    && r.Keys <= combos.Keys
    && (forall id :: id in combos && id in left ==> id in r && r[id] == combos[id])
    && (forall id :: id in combos && id !in left ==> (id in r <==> id in DropMember(combos, member)))
    && (forall id :: id in r && id !in left ==> r[id] == DropMember(combos, member)[id])
  }

  method DropFromCombos(combos: map<nat, Combo>, member: string) returns (r: map<nat, Combo>)
    ensures r == DropMember(combos, member)
  {
    r := combos;
    var left := combos.Keys;
    while left != {}
      invariant left <= combos.Keys && Visited(combos, r, member, left)
      decreases left
    {
      var id :| id in left;
      var c := combos[id];
      var kept, changed := RemoveMember(c.tiers, member);
      assert changed <==> Mentions(c, member);
      if !changed {
        NothingRemoved(c.tiers, member);
      } else if kept == [] {
        r := r - {id};
      } else {
        r := r[id := c.(tiers := kept)];
      }
      left := left - {id};
    }
  }

  method CheckTiersExist(g: Rules, s: Tables, tiers: seq<Tier>) returns (bad: Option<Error>)
    ensures bad == CheckTiers(g, s, tiers)
  {
    for i := 0 to |tiers|
      invariant CheckTiers(g, s, tiers) == CheckTiers(g, s, tiers[i..])
    {
      assert tiers[i..][0] == tiers[i] && tiers[i..][1..] == tiers[i + 1..];
      bad := CheckTier(g, s, tiers[i]);
      if bad.Some? {
        return;
      }
    }
    bad := None;
  }

  class Store {
    var providers: map<nat, Provider>
    var pools: map<nat, string>
    var builtins: map<string, Relay>
    var combos: map<nat, Combo>

    function View(): Tables
      reads this
    {
      Tables(providers, pools, builtins, combos)
    }

    constructor ()
      ensures View() == Tables(map[], map[], map[], map[]) && Integrity(View())
    {
      providers, pools, builtins, combos := map[], map[], map[], map[];
    }

    method Create(g: Rules, f: ProviderForm, id: nat) returns (r: Option<Error>)
      requires Integrity(View()) && id !in providers
      modifies this`providers
      ensures Committed(old(View()), View(), CreateProvider(g, old(View()), f, id), r) && Integrity(View())
    {
      CreateProviderKeeps(g, View(), f, id);
      if !g.validMode(f.mode) {
        return Some(Invalid);
      }
      var relay := Selected(g, f.mode, f.pool);
      if !g.validProvider(Provider(f.name, f.enabled, relay)) || !PoolExists(View(), relay) {
        return Some(Invalid);
      }
      if NameTaken(View(), f.name, None) {
        return Some(Conflict);
      }
      providers := providers[id := Provider(f.name, f.enabled, relay)];
      return None;
    }

    method Update(g: Rules, id: nat, f: ProviderForm) returns (r: Option<Error>)
      requires Integrity(View())
      modifies this`providers, this`combos
      ensures Committed(old(View()), View(), UpdateProvider(g, old(View()), id, f), r) && Integrity(View())
    {
      UpdateProviderKeeps(g, View(), id, f);
      if !g.validMode(f.mode) {
        return Some(Invalid);
      }
      if id !in providers {
        return Some(NotFound);
      }
      var relay, was := Selected(g, f.mode, f.pool), providers[id].name;
      if !g.validProvider(Provider(f.name, f.enabled, relay)) || !PoolExists(View(), relay) {
        return Some(Invalid);
      }
      if NameTaken(View(), f.name, Some(id)) {
        return Some(Conflict);
      }
      providers := providers[id := Provider(f.name, f.enabled, relay)];
      if f.name == was {
        RenamedToItself(combos, was);
        return None;
      }
      combos := RenameCombos(combos, was, f.name);
      return None;
    }

    method Delete(id: nat) returns (r: Option<Error>)
      requires Integrity(View())
      modifies this`providers, this`combos
      ensures Committed(old(View()), View(), DeleteProvider(old(View()), id), r) && Integrity(View())
    {
      DeleteProviderKeeps(View(), id);
      if id !in providers {
        return Some(NotFound);
      }
      var member := CUSTOM + providers[id].name;
      providers := providers - {id};
      combos := DropFromCombos(combos, member);
      return None;
    }

    method RemovePoolRow(id: nat) returns (r: Option<Error>)
      requires Integrity(View())
      modifies this`providers, this`pools, this`builtins
      ensures Committed(old(View()), View(), DeletePool(old(View()), id), r) && Integrity(View())
    {
      UnpinKeeps(View(), pools - {id}, id);
      if id !in pools {
        return Some(NotFound);
      }
      pools := pools - {id};
      providers := map k | k in providers :: providers[k].(relay := Reset(providers[k].relay, id));
      builtins := map k | k in builtins :: Reset(builtins[k], id);
      return None;
    }

    method SetBuiltinRelay(g: Rules, name: string, mode: string, pool: Option<nat>) returns (r: Option<Error>)
      requires Integrity(View())
      modifies this`builtins
      ensures Committed(old(View()), View(), SetBuiltinProxy(g, old(View()), name, mode, pool), r) && Integrity(View())
    {
      BuiltinKeeps(g, View(), name, mode, pool);
      if !IsBuiltin(name) || !g.validMode(mode) {
        return Some(Invalid);
      }
      var relay := Selected(g, mode, pool);
      if !PoolExists(View(), relay) {
        return Some(Invalid);
      }
      builtins := builtins[name := relay];
      return None;
    }

    method Save(g: Rules, name: string, tiers: seq<Tier>, id: nat) returns (r: Option<Error>)
      requires Integrity(View()) && id !in combos
      modifies this`combos
      ensures Committed(old(View()), View(), SaveCombo(g, old(View()), name, tiers, id), r) && Integrity(View())
    {
      if !g.validName(name) {
        return Some(Invalid);
      }
      var ts := TrimAll(g, tiers);
      if !ValidTiers(g, ts) {
        return Some(Invalid);
      }
      var bad := CheckTiersExist(g, View(), ts);
      if bad.Some? {
        return bad;
      }
      if ComboNameTaken(View(), name, None) {
        return Some(Conflict);
      }
      ComboSaved(g, View(), id, name, tiers);
      combos := combos[id := Combo(name, ts)];
      return None;
    }

    method Replace(g: Rules, id: nat, name: string, tiers: seq<Tier>) returns (r: Option<Error>)
      requires Integrity(View())
      modifies this`combos
      ensures Committed(old(View()), View(), UpdateCombo(g, old(View()), id, name, tiers), r) && Integrity(View())
    {
      if !g.validName(name) {
        return Some(Invalid);
      }
      var ts := TrimAll(g, tiers);
      if !ValidTiers(g, ts) {
        return Some(Invalid);
      }
      if id !in combos {
        return Some(NotFound);
      }
      var bad := CheckTiersExist(g, View(), ts);
      if bad.Some? {
        return bad;
      }
      if ComboNameTaken(View(), name, Some(id)) {
        return Some(Conflict);
      }
      ComboSaved(g, View(), id, name, tiers);
      combos := combos[id := Combo(name, ts)];
      return None;
    }
  }
}
