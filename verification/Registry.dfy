/** The registry store (internal/infrastructure/registry/providers.go, pools.go, combos.go): transactions
    over four tables, with cascades that keep references between them intact. */
module Registry {
  import opened Basics

  datatype Mode = Global | Direct | Pool

  /** A relay selection, as providers and builtins carry it. */
  datatype Relay = Relay(mode: Mode, pool: Option<nat>)

  datatype Provider = Provider(name: string, enabled: bool, relay: Relay)

  datatype Tier = Tier(provider: string, model: string)

  datatype Combo = Combo(name: string, tiers: seq<Tier>)

  /** Rows by id, builtin relays by name; a pool is its name. */
  datatype Tables = Tables(
    providers: map<nat, Provider>,
    pools: map<nat, string>,
    builtins: map<string, Relay>,
    combos: map<nat, Combo>)

  datatype Error = Invalid | NotFound | Conflict

  /** Field validation whose rules are not modelled, `NormalizeProxyMode`, and white space. */
  datatype Rules = Rules(
    validName: string -> bool,
    validMode: string -> bool,
    normalizeMode: string -> Mode,
    validProvider: Provider -> bool,
    validPool: string -> bool,
    validTier: Tier -> bool,
    isSpace: char -> bool)

  const MAX_TIERS: nat := 32
  const CUSTOM := "custom:"

  predicate IsBuiltin(name: string) {
    name == "opencode" || name == "kilo" || name == "llm7"
  }

  predicate IsCustom(provider: string) {
    HasPrefix(provider, CUSTOM)
  }

  function Trim(g: Rules, s: string): string {
    TrimBy(g.isSpace, s)
  }

  predicate HasProvider(s: Tables, name: string) {
    exists id :: id in s.providers && s.providers[id].name == name
  }

  // ----- Integrity -----

  predicate RelayOk(s: Tables, r: Relay) {
    (r.mode == Pool <==> r.pool.Some?) && (r.pool.Some? ==> r.pool.value in s.pools)
  }

  predicate TierOk(s: Tables, t: Tier) {
    IsBuiltin(t.provider) || (IsCustom(t.provider) && HasProvider(s, t.provider[|CUSTOM|..]))
  }

  predicate ComboOk(s: Tables, c: Combo) {
    c.tiers != [] && forall t :: t in c.tiers ==> TierOk(s, t)
  }

  predicate UniqueNames(s: Tables) {
    && (forall i, j :: i in s.providers && j in s.providers && s.providers[i].name == s.providers[j].name ==> i == j)
    && (forall i, j :: i in s.pools && j in s.pools && s.pools[i] == s.pools[j] ==> i == j)
    && (forall i, j :: i in s.combos && j in s.combos && s.combos[i].name == s.combos[j].name ==> i == j)
  }

  predicate Integrity(s: Tables) {
    && UniqueNames(s)
    && (forall id :: id in s.providers ==> RelayOk(s, s.providers[id].relay))
    && (forall name :: name in s.builtins ==> IsBuiltin(name) && RelayOk(s, s.builtins[name]))
    && (forall id :: id in s.combos ==> ComboOk(s, s.combos[id]))
  }

  // ----- Relay selection -----

  /** Only pool mode keeps a pin. */
  function Selected(g: Rules, mode: string, pool: Option<nat>): Relay {
    var m := g.normalizeMode(mode);
    Relay(m, if m == Pool then pool else None)
  }

  predicate PoolExists(s: Tables, r: Relay) {
    r.mode == Pool ==> r.pool.Some? && r.pool.value in s.pools
  }

  // ----- Providers -----

  datatype ProviderForm = ProviderForm(name: string, enabled: bool, mode: string, pool: Option<nat>)

  function Formed(g: Rules, f: ProviderForm): Provider {
    Provider(f.name, f.enabled, Selected(g, f.mode, f.pool))
  }

  predicate Acceptable(g: Rules, s: Tables, f: ProviderForm) {
    g.validProvider(Formed(g, f)) && PoolExists(s, Selected(g, f.mode, f.pool))
  }

  predicate NameTaken(s: Tables, name: string, self: Option<nat>) {
    exists id :: id in s.providers && s.providers[id].name == name && Some(id) != self
  }

  function CreateProvider(g: Rules, s: Tables, f: ProviderForm, id: nat): Result<Tables, Error>
    requires id !in s.providers
  {
    if !g.validMode(f.mode) || !Acceptable(g, s, f) then Err(Invalid)
    else if NameTaken(s, f.name, None) then Err(Conflict)
    else Ok(s.(providers := s.providers[id := Formed(g, f)]))
  }

  function RenameTier(t: Tier, was: string, name: string): Tier {
    if t.provider == CUSTOM + was then t.(provider := CUSTOM + name) else t
  }

  function RenameTiers(ts: seq<Tier>, was: string, name: string): (r: seq<Tier>)
    ensures |r| == |ts| && forall k :: 0 <= k < |ts| ==> r[k] == RenameTier(ts[k], was, name)
  {
    seq(|ts|, k requires 0 <= k < |ts| => RenameTier(ts[k], was, name))
  }

  function RenameAll(combos: map<nat, Combo>, was: string, name: string): map<nat, Combo> {
    map id | id in combos :: combos[id].(tiers := RenameTiers(combos[id].tiers, was, name))
  }

  function UpdateProvider(g: Rules, s: Tables, id: nat, f: ProviderForm): Result<Tables, Error> {
    if !g.validMode(f.mode) then Err(Invalid)
    else if id !in s.providers then Err(NotFound)
    else if !Acceptable(g, s, f) then Err(Invalid)
    else if NameTaken(s, f.name, Some(id)) then Err(Conflict)
    else Ok(s.(providers := s.providers[id := Formed(g, f)],
               combos := RenameAll(s.combos, s.providers[id].name, f.name)))
  }

  function WithoutMember(ts: seq<Tier>, member: string): seq<Tier> {
    if ts == [] then [] else
      WithoutMember(ts[..|ts| - 1], member) + if ts[|ts| - 1].provider == member then [] else [ts[|ts| - 1]]
  }

  predicate Mentions(c: Combo, member: string) {
    exists t :: t in c.tiers && t.provider == member
  }

  /** A combo loses the tiers of a deleted provider, and goes with its last tier. */
  function DropMember(combos: map<nat, Combo>, member: string): map<nat, Combo> {
    map id | id in combos && (Mentions(combos[id], member) ==> WithoutMember(combos[id].tiers, member) != []) ::
      combos[id].(tiers := WithoutMember(combos[id].tiers, member))
  }

  function DeleteProvider(s: Tables, id: nat): Result<Tables, Error> {
    if id !in s.providers then Err(NotFound)
    else Ok(s.(providers := s.providers - {id}, combos := DropMember(s.combos, CUSTOM + s.providers[id].name)))
  }

  // ----- Pools and builtins -----

  function CreatePool(g: Rules, s: Tables, name: string, id: nat): Result<Tables, Error>
    requires id !in s.pools
  {
    if !g.validPool(name) then Err(Invalid)
    else if name in s.pools.Values then Err(Conflict)
    else Ok(s.(pools := s.pools[id := name]))
  }

  function UpdatePool(g: Rules, s: Tables, id: nat, name: string): Result<Tables, Error> {
    if !g.validPool(name) then Err(Invalid)
    else if id in s.pools && name in (s.pools - {id}).Values then Err(Conflict)
    else if id !in s.pools then Err(NotFound)
    else Ok(s.(pools := s.pools[id := name]))
  }

  function Reset(r: Relay, pool: nat): Relay {
    if r.pool == Some(pool) then Relay(Global, None) else r
  }

  function Unpin(s: Tables, pool: nat): Tables {
    s.(providers := map id | id in s.providers :: s.providers[id].(relay := Reset(s.providers[id].relay, pool)),
       builtins := map name | name in s.builtins :: Reset(s.builtins[name], pool))
  }

  function DeletePool(s: Tables, id: nat): Result<Tables, Error> {
    if id !in s.pools then Err(NotFound) else Ok(Unpin(s, id).(pools := s.pools - {id}))
  }

  function SetBuiltinProxy(g: Rules, s: Tables, name: string, mode: string, pool: Option<nat>): Result<Tables, Error> {
    if !IsBuiltin(name) || !g.validMode(mode) || !PoolExists(s, Selected(g, mode, pool)) then Err(Invalid)
    else Ok(s.(builtins := s.builtins[name := Selected(g, mode, pool)]))
  }

  // ----- Combos -----

  function TrimTiers(g: Rules, ts: seq<Tier>): (r: seq<Tier>)
    ensures |r| == |ts| && forall k :: 0 <= k < |ts| ==> r[k] == ts[k].(provider := Trim(g, ts[k].provider))
  {
    seq(|ts|, k requires 0 <= k < |ts| => ts[k].(provider := Trim(g, ts[k].provider)))
  }

  predicate ValidTierProvider(g: Rules, p: string) {
    IsBuiltin(p) || (IsCustom(p) && g.validName(p[|CUSTOM|..]))
  }

  predicate ValidTiers(g: Rules, ts: seq<Tier>) {
    && 0 < |ts| <= MAX_TIERS
    && forall t :: t in ts ==> g.validTier(t) && ValidTierProvider(g, Trim(g, t.provider))
  }

  predicate ProviderEnabled(s: Tables, name: string) {
    exists id :: id in s.providers && s.providers[id].name == name && s.providers[id].enabled
  }

  /** What is wrong with the first tier that cannot be used, if any. */
  function CheckTier(g: Rules, s: Tables, t: Tier): Option<Error> {
    var p := Trim(g, t.provider);
    if IsBuiltin(p) || !IsCustom(p) then None
    else if !HasProvider(s, p[|CUSTOM|..]) then Some(NotFound)
    else if !ProviderEnabled(s, p[|CUSTOM|..]) then Some(Invalid)
    else None
  }

  function CheckTiers(g: Rules, s: Tables, ts: seq<Tier>): (r: Option<Error>)
    ensures r.None? <==> forall t :: t in ts ==> CheckTier(g, s, t).None?
  {
    if ts == [] then None
    else if CheckTier(g, s, ts[0]).Some? then assert ts[0] in ts; CheckTier(g, s, ts[0])
    else assert ts == [ts[0]] + ts[1..]; CheckTiers(g, s, ts[1..])
  }

  predicate ComboNameTaken(s: Tables, name: string, self: Option<nat>) {
    exists id :: id in s.combos && s.combos[id].name == name && Some(id) != self
  }

  function SaveCombo(g: Rules, s: Tables, name: string, tiers: seq<Tier>, id: nat): Result<Tables, Error>
    requires id !in s.combos
  {
    var ts := TrimTiers(g, tiers);
    if !g.validName(name) || !ValidTiers(g, ts) then Err(Invalid)
    else if CheckTiers(g, s, ts).Some? then Err(CheckTiers(g, s, ts).value)
    else if ComboNameTaken(s, name, None) then Err(Conflict)
    else Ok(s.(combos := s.combos[id := Combo(name, ts)]))
  }

  function UpdateCombo(g: Rules, s: Tables, id: nat, name: string, tiers: seq<Tier>): Result<Tables, Error> {
    var ts := TrimTiers(g, tiers);
    if !g.validName(name) || !ValidTiers(g, ts) then Err(Invalid)
    else if id !in s.combos then Err(NotFound)
    else if CheckTiers(g, s, ts).Some? then Err(CheckTiers(g, s, ts).value)
    else if ComboNameTaken(s, name, Some(id)) then Err(Conflict)
    else Ok(s.(combos := s.combos[id := Combo(name, ts)]))
  }

  function DeleteCombo(s: Tables, id: nat): Result<Tables, Error> {
    if id !in s.combos then Err(NotFound) else Ok(s.(combos := s.combos - {id}))
  }

  // ----- Every operation keeps integrity -----

  /** Relays and tiers depend only on which pools and which provider names exist. */
  lemma StillFine(s: Tables, t: Tables)
    requires s.pools.Keys <= t.pools.Keys && forall n :: HasProvider(s, n) ==> HasProvider(t, n)
    ensures forall r :: RelayOk(s, r) ==> RelayOk(t, r)
    ensures forall c :: ComboOk(s, c) ==> ComboOk(t, c)
  {
    forall x | TierOk(s, x) ensures TierOk(t, x) {
    }
  }

  lemma SelectedOk(g: Rules, s: Tables, mode: string, pool: Option<nat>)
    requires PoolExists(s, Selected(g, mode, pool))
    ensures RelayOk(s, Selected(g, mode, pool))
  {
  }

  lemma CreateProviderKeeps(g: Rules, s: Tables, f: ProviderForm, id: nat)
    requires Integrity(s) && id !in s.providers
    ensures var r := CreateProvider(g, s, f, id); r.Ok? ==> Integrity(r.value)
  {
    var r := CreateProvider(g, s, f, id);
    if r.Ok? {
      var t := r.value;
      SelectedOk(g, s, f.mode, f.pool);
      forall n | HasProvider(s, n) ensures HasProvider(t, n) {
        var i :| i in s.providers && s.providers[i].name == n;
        assert i in t.providers && t.providers[i].name == n;
      }
      StillFine(s, t);
    }
  }

  lemma RenamedTierOk(g: Rules, s: Tables, id: nat, f: ProviderForm, x: Tier)
    requires UpdateProvider(g, s, id, f).Ok? && TierOk(s, x)
    ensures TierOk(UpdateProvider(g, s, id, f).value, RenameTier(x, s.providers[id].name, f.name))
  {
    var t, was := UpdateProvider(g, s, id, f).value, s.providers[id].name;
    var y := RenameTier(x, was, f.name);
    if x.provider == CUSTOM + was {
      assert y.provider[|CUSTOM|..] == f.name;
      assert id in t.providers && t.providers[id].name == f.name;
    } else if !IsBuiltin(x.provider) {
      var name := x.provider[|CUSTOM|..];
      assert x.provider == CUSTOM + name;
      var i :| i in s.providers && s.providers[i].name == name;
      assert i in t.providers && t.providers[i].name == name;
    }
  }

  lemma UpdateProviderKeeps(g: Rules, s: Tables, id: nat, f: ProviderForm)
    requires Integrity(s)
    ensures var r := UpdateProvider(g, s, id, f); r.Ok? ==> Integrity(r.value)
  {
    var r := UpdateProvider(g, s, id, f);
    if r.Ok? {
      var t := r.value;
      SelectedOk(g, s, f.mode, f.pool);
      forall i | i in t.providers ensures RelayOk(t, t.providers[i].relay) {
        assert i != id ==> RelayOk(s, s.providers[i].relay);
      }
      forall name | name in t.builtins ensures IsBuiltin(name) && RelayOk(t, t.builtins[name]) {
        assert RelayOk(s, s.builtins[name]);
      }
      forall i | i in t.combos ensures ComboOk(t, t.combos[i]) {
        RenamedComboOk(g, s, id, f, s.combos[i]);
      }
    }
  }

  lemma RenamedComboOk(g: Rules, s: Tables, id: nat, f: ProviderForm, c: Combo)
    requires UpdateProvider(g, s, id, f).Ok? && ComboOk(s, c)
    ensures ComboOk(UpdateProvider(g, s, id, f).value, c.(tiers := RenameTiers(c.tiers, s.providers[id].name, f.name)))
  {
    var was := s.providers[id].name;
    var ts := RenameTiers(c.tiers, was, f.name);
    forall y | y in ts ensures TierOk(UpdateProvider(g, s, id, f).value, y) {
      var k :| 0 <= k < |ts| && ts[k] == y;
      RenamedTierOk(g, s, id, f, c.tiers[k]);
    }
  }

  lemma {:induction false} WithoutMemberOnly(ts: seq<Tier>, member: string)
    ensures forall t :: t in WithoutMember(ts, member) <==> t in ts && t.provider != member
  {
    if ts != [] {
      WithoutMemberOnly(ts[..|ts| - 1], member);
      SplitLast(ts);
      assert forall t :: t in ts <==> t in ts[..|ts| - 1] || t == ts[|ts| - 1];
    }
  }

  lemma DeleteProviderKeeps(s: Tables, id: nat)
    requires Integrity(s)
    ensures var r := DeleteProvider(s, id); r.Ok? ==> Integrity(r.value)
  {
    var r := DeleteProvider(s, id);
    if r.Ok? {
      var t, member := r.value, CUSTOM + s.providers[id].name;
      forall i | i in t.providers ensures RelayOk(t, t.providers[i].relay) {
        assert RelayOk(s, s.providers[i].relay);
      }
      forall name | name in t.builtins ensures IsBuiltin(name) && RelayOk(t, t.builtins[name]) {
        assert RelayOk(s, s.builtins[name]);
      }
      forall i | i in t.combos ensures ComboOk(t, t.combos[i]) {
        SurvivorOk(s, id, s.combos[i]);
      }
    }
  }

  lemma SurvivorOk(s: Tables, id: nat, c: Combo)
    requires id in s.providers && ComboOk(s, c)
    requires var member := CUSTOM + s.providers[id].name; Mentions(c, member) ==> WithoutMember(c.tiers, member) != []
    ensures ComboOk(DeleteProvider(s, id).value, c.(tiers := WithoutMember(c.tiers, CUSTOM + s.providers[id].name)))
  {
    var t, member := DeleteProvider(s, id).value, CUSTOM + s.providers[id].name;
    WithoutMemberOnly(c.tiers, member);
    assert c.tiers[0] in c.tiers;
    forall x | x in WithoutMember(c.tiers, member) ensures TierOk(t, x) {
      if !IsBuiltin(x.provider) {
        var name := x.provider[|CUSTOM|..];
        assert x.provider == CUSTOM + name;
        var i :| i in s.providers && s.providers[i].name == name;
        assert i in t.providers && t.providers[i].name == name;
      }
    }
    if !Mentions(c, member) {
      assert c.tiers[0] in WithoutMember(c.tiers, member);
    }
  }

  lemma PoolsKeep(s: Tables, pools: map<nat, string>)
    requires Integrity(s) && s.pools.Keys <= pools.Keys
    requires forall i, j :: i in pools && j in pools && pools[i] == pools[j] ==> i == j
    ensures Integrity(s.(pools := pools))
  {
    StillFine(s, s.(pools := pools));
  }

  /** Unpinning leaves no relay on the pool, so the pool may go as well. */
  lemma UnpinnedRelays(s: Tables, t: Tables, pool: nat)
    requires t.pools == s.pools || t.pools == s.pools - {pool}
    ensures forall r :: RelayOk(s, r) ==> RelayOk(t, Reset(r, pool))
  {
  }

  lemma UnpinnedNames(s: Tables, t: Tables, pool: nat)
    requires t.providers == Unpin(s, pool).providers
    ensures forall c :: ComboOk(s, c) ==> ComboOk(t, c)
  {
    forall n | HasProvider(s, n) ensures HasProvider(t, n) {
      var i :| i in s.providers && s.providers[i].name == n;
      assert i in t.providers && t.providers[i].name == n;
    }
    forall x | TierOk(s, x) ensures TierOk(t, x) {
    }
  }

  lemma UnpinKeeps(s: Tables, pools: map<nat, string>, pool: nat)
    requires Integrity(s) && (pools == s.pools || pools == s.pools - {pool})
    ensures Integrity(Unpin(s, pool).(pools := pools))
  {
    var t := Unpin(s, pool).(pools := pools);
    UnpinnedRelays(s, t, pool);
    UnpinnedNames(s, t, pool);
  }

  lemma CheckedTiersOk(g: Rules, s: Tables, tiers: seq<Tier>)
    requires ValidTiers(g, TrimTiers(g, tiers)) && CheckTiers(g, s, TrimTiers(g, tiers)).None?
    ensures forall t :: t in TrimTiers(g, tiers) ==> TierOk(s, t)
  {
    var ts := TrimTiers(g, tiers);
    forall t | t in ts ensures TierOk(s, t) {
      var k :| 0 <= k < |ts| && ts[k] == t;
      TrimTwice(g, tiers[k].provider);
      assert CheckTier(g, s, t).None?;
    }
  }

  /** A trimmed string is left alone by trimming. */
  lemma TrimTwice(g: Rules, s: string)
    ensures Trim(g, Trim(g, s)) == Trim(g, s)
  {
  }

  lemma ComboSaved(g: Rules, s: Tables, id: nat, name: string, tiers: seq<Tier>)
    requires Integrity(s) && !ComboNameTaken(s, name, Some(id))
    requires ValidTiers(g, TrimTiers(g, tiers)) && CheckTiers(g, s, TrimTiers(g, tiers)).None?
    ensures Integrity(s.(combos := s.combos[id := Combo(name, TrimTiers(g, tiers))]))
  {
    CheckedTiersOk(g, s, tiers);
    ComboPut(s, id, Combo(name, TrimTiers(g, tiers)));
  }

  lemma ComboPut(s: Tables, id: nat, combo: Combo)
    requires Integrity(s) && ComboOk(s, combo) && !ComboNameTaken(s, combo.name, Some(id))
    ensures Integrity(s.(combos := s.combos[id := combo]))
  {
    StillFine(s, s.(combos := s.combos[id := combo]));
  }

  // ----- Runs -----

  datatype Op =
    | AddProvider(form: ProviderForm, id: nat)
    | ChangeProvider(id: nat, form: ProviderForm)
    | RemoveProvider(id: nat)
    | AddPool(name: string, id: nat)
    | ChangePool(id: nat, name: string)
    | RemovePool(id: nat)
    | FreePool(id: nat)
    | SetBuiltin(name: string, mode: string, pool: Option<nat>)
    | AddCombo(name: string, tiers: seq<Tier>, id: nat)
    | ChangeCombo(id: nat, name: string, tiers: seq<Tier>)
    | RemoveCombo(id: nat)

  /** One transaction; new rows get ids not in use. */
  function Apply(g: Rules, s: Tables, op: Op): Result<Tables, Error> {
    match op
    case AddProvider(f, id) => if id in s.providers then Err(Conflict) else CreateProvider(g, s, f, id)
    case ChangeProvider(id, f) => UpdateProvider(g, s, id, f)
    case RemoveProvider(id) => DeleteProvider(s, id)
    case AddPool(name, id) => if id in s.pools then Err(Conflict) else CreatePool(g, s, name, id)
    case ChangePool(id, name) => UpdatePool(g, s, id, name)
    case RemovePool(id) => DeletePool(s, id)
    case FreePool(id) => Ok(Unpin(s, id))
    case SetBuiltin(name, mode, pool) => SetBuiltinProxy(g, s, name, mode, pool)
    case AddCombo(name, ts, id) => if id in s.combos then Err(Conflict) else SaveCombo(g, s, name, ts, id)
    case ChangeCombo(id, name, ts) => UpdateCombo(g, s, id, name, ts)
    case RemoveCombo(id) => DeleteCombo(s, id)
  }

  /** A run of transactions, those that fail leaving the tables alone. */
  function Run(g: Rules, s: Tables, ops: seq<Op>): Tables
    decreases |ops|
  {
    if ops == [] then s else
      var before := Run(g, s, ops[..|ops| - 1]);
      var r := Apply(g, before, ops[|ops| - 1]);
      if r.Ok? then r.value else before
  }

  lemma ApplyKeeps(g: Rules, s: Tables, op: Op)
    requires Integrity(s)
    ensures Apply(g, s, op).Ok? ==> Integrity(Apply(g, s, op).value)
  {
    match op
    case AddProvider(f, id) => if id !in s.providers { CreateProviderKeeps(g, s, f, id); }
    case ChangeProvider(id, f) => UpdateProviderKeeps(g, s, id, f);
    case RemoveProvider(id) => DeleteProviderKeeps(s, id);
    case AddPool(_, _) => PoolOpKeeps(g, s, op);
    case ChangePool(_, _) => PoolOpKeeps(g, s, op);
    case RemovePool(id) => UnpinKeeps(s, s.pools - {id}, id);
    case FreePool(id) =>
      UnpinKeeps(s, s.pools, id);
      assert Unpin(s, id).(pools := s.pools) == Unpin(s, id);
    case SetBuiltin(name, mode, pool) => BuiltinKeeps(g, s, name, mode, pool);
    case AddCombo(_, _, _) => ComboOpKeeps(g, s, op);
    case ChangeCombo(_, _, _) => ComboOpKeeps(g, s, op);
    case RemoveCombo(_) => ComboOpKeeps(g, s, op);
  }

  lemma PoolOpKeeps(g: Rules, s: Tables, op: Op)
    requires Integrity(s) && (op.AddPool? || op.ChangePool?)
    ensures Apply(g, s, op).Ok? ==> Integrity(Apply(g, s, op).value)
  {
    if Apply(g, s, op).Ok? {
      forall i | i in s.pools && i != op.id ensures s.pools[i] != op.name {
        assert i in s.pools - {op.id} && (s.pools - {op.id})[i] == s.pools[i];
      }
      PoolsKeep(s, s.pools[op.id := op.name]);
    }
  }

  lemma BuiltinKeeps(g: Rules, s: Tables, name: string, mode: string, pool: Option<nat>)
    requires Integrity(s)
    ensures var r := SetBuiltinProxy(g, s, name, mode, pool); r.Ok? ==> Integrity(r.value)
  {
    var r := SetBuiltinProxy(g, s, name, mode, pool);
    if r.Ok? {
      SelectedOk(g, s, mode, pool);
      StillFine(s, r.value);
    }
  }

  lemma ComboOpKeeps(g: Rules, s: Tables, op: Op)
    requires Integrity(s) && (op.AddCombo? || op.ChangeCombo? || op.RemoveCombo?)
    ensures Apply(g, s, op).Ok? ==> Integrity(Apply(g, s, op).value)
  {
    if Apply(g, s, op).Ok? {
      if op.RemoveCombo? {
        StillFine(s, Apply(g, s, op).value);
      } else {
        assert !ComboNameTaken(s, op.name, Some(op.id));
        ComboSaved(g, s, op.id, op.name, op.tiers);
      }
    }
  }

  /** Over every run of transactions: pool mode pins an existing pool and any other row pins none,
      every combo keeps a tier, every custom tier names an existing provider, names stay unique. */
  lemma {:induction false} RunKeepsIntegrity(g: Rules, s: Tables, ops: seq<Op>)
    requires Integrity(s)
    ensures Integrity(Run(g, s, ops))
    decreases |ops|
  {
    if ops != [] {
      RunKeepsIntegrity(g, s, ops[..|ops| - 1]);
      ApplyKeeps(g, Run(g, s, ops[..|ops| - 1]), ops[|ops| - 1]);
    }
  }

  // ----- Cascades keep the order of tiers -----

  /** The positions a deletion leaves. */
  function Kept(ts: seq<Tier>, member: string): seq<nat> {
    if ts == [] then [] else
      Kept(ts[..|ts| - 1], member) + if ts[|ts| - 1].provider == member then [] else [|ts| - 1]
  }

  /** Surviving tiers are exactly those of other providers, unchanged and in their old order. */
  lemma {:induction false} SurvivorsKeepOrder(ts: seq<Tier>, member: string)
    ensures var r, at := WithoutMember(ts, member), Kept(ts, member);
            && |at| == |r| && (forall k :: 0 <= k < |r| ==> at[k] < |ts| && r[k] == ts[at[k]])
            && (forall j, k :: 0 <= j < k < |at| ==> at[j] < at[k])
            && (forall i :: 0 <= i < |ts| ==> (i in at <==> ts[i].provider != member))
  {
    if ts != [] {
      SurvivorsKeepOrder(ts[..|ts| - 1], member);
    }
  }

  /** Renaming back restores every combo, when nothing named the new name before. */
  lemma RenameBack(ts: seq<Tier>, was: string, name: string)
    requires forall t :: t in ts ==> t.provider != CUSTOM + name
    ensures RenameTiers(RenameTiers(ts, was, name), name, was) == ts
  {
    forall k | 0 <= k < |ts| ensures RenameTiers(RenameTiers(ts, was, name), name, was)[k] == ts[k] {
      assert ts[k] in ts;
    }
  }
}
