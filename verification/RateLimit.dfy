/** The per-address rate limiter (`RateLimiter` in internal/delivery/middleware/middleware.go). */
module RateLimit {
  import opened Basics

  const SECOND: int := 1_000_000_000
  const MINUTE: int := 60 * SECOND
  const SHARDS: nat := 32
  const MAX_PER_SHARD: nat := 4096

  datatype Visitor = Visitor(count: int, lastSeen: int)

  type Shard = map<string, Visitor>

  /** FNV-1a in 32-bit arithmetic. */
  function Fnv(ip: string): bv32 {
    if ip == "" then 2166136261 else
      (Fnv(ip[..|ip| - 1]) ^ ((ip[|ip| - 1] as int % 256) as bv32)) * 16777619
  }

  function ShardOf(ip: string): (k: nat)
    ensures k < SHARDS
  {
    Fnv(ip) as nat % SHARDS
  }

  /** What `allow` makes of a visitor's entry: its new entry and the decision. */
  function Judge(limit: int, v: Option<Visitor>, now: int): (Visitor, bool) {
    if v.None? || now - v.value.lastSeen > MINUTE then (Visitor(1, now), true)
    else if v.value.count >= limit then (v.value, false)
    else (Visitor(v.value.count + 1, now), true)
  }

  function Entry(s: Shard, ip: string): Option<Visitor> {
    if ip in s then Some(s[ip]) else None
  }

  predicate Full(s: Shard, ip: string) {
    ip !in s && |s| >= MAX_PER_SHARD
  }

  /** A newcomer to a full shard takes the place of an arbitrary visitor. */
  function Allowed(limit: int, s: Shard, ip: string, now: int, victim: string): Shard {
    (if Full(s, ip) then s - {victim} else s)[ip := Judge(limit, Entry(s, ip), now).0]
  }

  predicate Idle(v: Visitor, now: int) {
    now - v.lastSeen > 2 * MINUTE
  }

  function Cleaned(s: Shard, now: int): Shard {
    map ip | ip in s && !Idle(s[ip], now) :: s[ip]
  }

  // ----- Runs over all shards -----

  datatype Event = Request(ip: string, now: int, victim: string) | Cleanup(shard: nat, now: int)

  type Shards = s: seq<Shard> | |s| == SHARDS witness seq(SHARDS, _ => map[])

  function Next(limit: int, s: Shards, e: Event): Shards {
    match e
    case Request(ip, now, victim) => s[ShardOf(ip) := Allowed(limit, s[ShardOf(ip)], ip, now, victim)]
    case Cleanup(k, now) => if k < SHARDS then s[k := Cleaned(s[k], now)] else s
  }

  function EntryOf(s: Shards, ip: string): Option<Visitor> {
    Entry(s[ShardOf(ip)], ip)
  }

  /** The decisions a run makes for one address, in order. */
  function Decisions(limit: int, s: Shards, es: seq<Event>, ip: string): seq<bool>
    decreases |es|
  {
    if es == [] then [] else
      (if es[0].Request? && es[0].ip == ip then [Judge(limit, EntryOf(s, ip), es[0].now).1] else []) +
      Decisions(limit, Next(limit, s, es[0]), es[1..], ip)
  }

  /** When an address made its requests. */
  function RequestsOf(es: seq<Event>, ip: string): seq<int> {
    if es == [] then [] else
      (if es[0].Request? && es[0].ip == ip then [es[0].now] else []) + RequestsOf(es[1..], ip)
  }

  predicate Evicts(s: Shards, e: Event, ip: string) {
    e.Request? && ShardOf(e.ip) == ShardOf(ip) && e.ip != ip && Full(s[ShardOf(ip)], e.ip) && e.victim == ip
  }

  /** Capacity never pushes the address out. */
  predicate Undisturbed(limit: int, s: Shards, es: seq<Event>, ip: string)
    decreases |es|
  {
    es == [] || (!Evicts(s, es[0], ip) && Undisturbed(limit, Next(limit, s, es[0]), es[1..], ip))
  }

  /** The clock does not run backwards. */
  predicate Ordered(es: seq<Event>, from: int) {
    es == [] || (from <= es[0].now && Ordered(es[1..], es[0].now))
  }

  /** One address judged by itself: no other address, no cleanup, no capacity. */
  function Lone(limit: int, v: Option<Visitor>, times: seq<int>): seq<bool>
    decreases |times|
  {
    if times == [] then [] else
      var j := Judge(limit, v, times[0]);
      [j.1] + Lone(limit, Some(j.0), times[1..])
  }

  // ----- Only an address's own requests matter -----

  /** The entry is the lone one, or it was cleaned away when it no longer mattered. */
  ghost predicate Matches(s: Shards, ip: string, v: Option<Visitor>, now: int) {
    EntryOf(s, ip) == v || (EntryOf(s, ip).None? && v.Some? && Idle(v.value, now))
  }

  lemma SameJudgement(limit: int, s: Shards, ip: string, v: Option<Visitor>, now: int, later: int)
    requires Matches(s, ip, v, now) && now <= later
    ensures Judge(limit, EntryOf(s, ip), later) == Judge(limit, v, later)
  {
  }

  lemma OwnRequest(limit: int, s: Shards, e: Event)
    requires e.Request?
    ensures EntryOf(Next(limit, s, e), e.ip) == Some(Judge(limit, EntryOf(s, e.ip), e.now).0)
  {
  }

  lemma OtherEvent(limit: int, s: Shards, e: Event, ip: string, v: Option<Visitor>, now: int)
    requires Matches(s, ip, v, now) && now <= e.now && !(e.Request? && e.ip == ip) && !Evicts(s, e, ip)
    ensures Matches(Next(limit, s, e), ip, v, e.now)
  {
    var k := ShardOf(ip);
    match e
    case Request(other, _, victim) =>
      if ShardOf(other) == k {
        assert Entry(Allowed(limit, s[k], other, e.now, victim), ip) == EntryOf(s, ip);
      }
    case Cleanup(shard, t) =>
      if shard == k {
        assert Entry(Cleaned(s[k], t), ip) == if ip in s[k] && !Idle(s[k][ip], t) then Some(s[k][ip]) else None;
      }
  }

  /** Over every run in which capacity never evicts it, an address is judged exactly as if it were
      alone and nothing were ever cleaned up. */
  lemma {:induction false} OnlyOwnRequestsMatter(limit: int, s: Shards, es: seq<Event>, ip: string,
                                                 v: Option<Visitor>, now: int)
    requires Matches(s, ip, v, now) && Ordered(es, now) && Undisturbed(limit, s, es, ip)
    ensures Decisions(limit, s, es, ip) == Lone(limit, v, RequestsOf(es, ip))
    decreases |es|
  {
    if es != [] {
      var e, n := es[0], Next(limit, s, es[0]);
      if e.Request? && e.ip == ip {
        SameJudgement(limit, s, ip, v, now, e.now);
        OwnRequest(limit, s, e);
        var j := Judge(limit, v, e.now);
        OnlyOwnRequestsMatter(limit, n, es[1..], ip, Some(j.0), e.now);
        var rest := RequestsOf(es[1..], ip);
        assert RequestsOf(es, ip) == [e.now] + rest && ([e.now] + rest)[1..] == rest;
      } else {
        OtherEvent(limit, s, e, ip, v, now);
        OnlyOwnRequestsMatter(limit, n, es[1..], ip, v, e.now);
        assert RequestsOf(es, ip) == RequestsOf(es[1..], ip);
        assert Decisions(limit, s, es, ip) == Decisions(limit, n, es[1..], ip);
      }
    }
  }

  function NoCleanup(es: seq<Event>): seq<Event> {
    if es == [] then [] else (if es[0].Cleanup? then [] else [es[0]]) + NoCleanup(es[1..])
  }

  lemma {:induction false} NoCleanupKeeps(es: seq<Event>, ip: string, from: int)
    requires Ordered(es, from)
    ensures RequestsOf(NoCleanup(es), ip) == RequestsOf(es, ip) && Ordered(NoCleanup(es), from)
  {
    if es != [] {
      NoCleanupKeeps(es[1..], ip, es[0].now);
      EarlierStart(NoCleanup(es[1..]), from, es[0].now);
      assert !es[0].Cleanup? ==> NoCleanup(es)[1..] == NoCleanup(es[1..]);
      assert es[0].Cleanup? ==> NoCleanup(es) == NoCleanup(es[1..]);
    }
  }

  lemma EarlierStart(es: seq<Event>, from: int, later: int)
    requires from <= later && Ordered(es, later)
    ensures Ordered(es, from)
  {
  }

  /** The cleanup cannot be observed: leaving it out changes no decision. */
  lemma CleanupUnobservable(limit: int, s: Shards, es: seq<Event>, ip: string, now: int)
    requires Ordered(es, now) && Undisturbed(limit, s, es, ip) && Undisturbed(limit, s, NoCleanup(es), ip)
    ensures Decisions(limit, s, es, ip) == Decisions(limit, s, NoCleanup(es), ip)
  {
    var v := EntryOf(s, ip);
    NoCleanupKeeps(es, ip, now);
    OnlyOwnRequestsMatter(limit, s, es, ip, v, now);
    OnlyOwnRequestsMatter(limit, s, NoCleanup(es), ip, v, now);
  }

  // ----- The rate bound -----

  function Admitted(ds: seq<bool>): nat {
    if ds == [] then 0 else (if ds[0] then 1 else 0) + Admitted(ds[1..])
  }

  predicate Within(times: seq<int>, start: int) {
    forall k :: 0 <= k < |times| ==> start <= times[k] <= start + MINUTE
  }

  /** With a visit inside the window, the entry counts at least the admissions of the window. */
  lemma {:induction false} WindowFrom(limit: int, v: Visitor, times: seq<int>, start: int)
    requires Within(times, start) && start <= v.lastSeen <= start + MINUTE
    ensures Admitted(Lone(limit, Some(v), times)) <= Max(limit - v.count, 0)
    decreases |times|
  {
    if times != [] {
      var j := Judge(limit, Some(v), times[0]);
      WindowFrom(limit, j.0, times[1..], start);
      var rest := Lone(limit, Some(j.0), times[1..]);
      assert ([j.1] + rest)[1..] == rest;
    }
  }

  lemma {:induction false} WindowBound(limit: int, v: Option<Visitor>, times: seq<int>, start: int)
    requires Within(times, start) && (v.Some? ==> v.value.count >= 0)
    ensures Admitted(Lone(limit, v, times)) <= Max(limit, 1)
    decreases |times|
  {
    if times != [] {
      var j := Judge(limit, v, times[0]);
      var rest := Lone(limit, Some(j.0), times[1..]);
      assert ([j.1] + rest)[1..] == rest;
      if j.1 {
        WindowFrom(limit, j.0, times[1..], start);
      } else {
        WindowBound(limit, Some(j.0), times[1..], start);
      }
    }
  }

  function Empty(): Shards {
    seq(SHARDS, _ => map[])
  }

  function After(limit: int, es: seq<Event>): Shards
    decreases |es|
  {
    if es == [] then Empty() else Next(limit, After(limit, es[..|es| - 1]), es[|es| - 1])
  }

  lemma {:induction false} CountsPositive(limit: int, es: seq<Event>, ip: string)
    ensures EntryOf(After(limit, es), ip).Some? ==> EntryOf(After(limit, es), ip).value.count >= 1
    decreases |es|
  {
    if es != [] {
      var before, e := After(limit, es[..|es| - 1]), es[|es| - 1];
      CountsPositive(limit, es[..|es| - 1], ip);
      if e.Request? && e.ip == ip {
        OwnRequest(limit, before, e);
      } else {
        Survives(limit, before, e, ip);
      }
    }
  }

  lemma Survives(limit: int, s: Shards, e: Event, ip: string)
    requires !(e.Request? && e.ip == ip)
    ensures EntryOf(Next(limit, s, e), ip).Some? ==> EntryOf(Next(limit, s, e), ip) == EntryOf(s, ip)
  {
  }

  lemma {:induction false} RequestTimes(es: seq<Event>, ip: string, start: int)
    requires forall k :: 0 <= k < |es| ==> start <= es[k].now <= start + MINUTE
    ensures Within(RequestsOf(es, ip), start)
  {
    if es != [] {
      RequestTimes(es[1..], ip, start);
    }
  }

  /** In any window of a minute of any run at most `limit` requests of one address are admitted, unless
      capacity evicts it inside the window; a limit below one still admits one. */
  lemma RateBound(limit: int, before: seq<Event>, window: seq<Event>, ip: string, start: int)
    requires Ordered(window, start) && (forall k :: 0 <= k < |window| ==> start <= window[k].now <= start + MINUTE)
    requires Undisturbed(limit, After(limit, before), window, ip)
    ensures Admitted(Decisions(limit, After(limit, before), window, ip)) <= Max(limit, 1)
  {
    var s := After(limit, before);
    CountsPositive(limit, before, ip);
    OnlyOwnRequestsMatter(limit, s, window, ip, EntryOf(s, ip), start);
    RequestTimes(window, ip, start);
    WindowBound(limit, EntryOf(s, ip), RequestsOf(window, ip), start);
  }

  /** The bound is met: a newcomer's requests in one minute are admitted until the limit is used up. */
  lemma {:induction false} LimitReached(limit: int, v: Visitor, times: seq<int>, start: int)
    requires Within(times, start) && start <= v.lastSeen <= start + MINUTE && v.count <= limit
    ensures Admitted(Lone(limit, Some(v), times)) == if |times| <= limit - v.count then |times| else limit - v.count
    decreases |times|
  {
    if times != [] {
      var j := Judge(limit, Some(v), times[0]);
      LimitReached(limit, j.0, times[1..], start);
      var rest := Lone(limit, Some(j.0), times[1..]);
      assert ([j.1] + rest)[1..] == rest;
    }
  }

  // ----- The limiter as it runs -----

  class RateLimiter {
    const limit: int
    const shards: array<Shard>

    ghost predicate Valid()
      reads this
    {
      shards.Length == SHARDS
    }

    ghost function View(): Shards
      requires Valid()
      reads this, shards
    {
      shards[..]
    }

    constructor (requestsPerMinute: int)
      ensures Valid() && fresh(shards) && limit == requestsPerMinute && View() == Empty()
    {
      limit := requestsPerMinute;
      shards := new Shard[SHARDS](_ => map[]);
    }

    method Allow(ip: string, now: int) returns (ok: bool, ghost victim: string)
      requires Valid()
      modifies shards
      ensures View() == Next(limit, old(View()), Request(ip, now, victim))
      ensures ok == Judge(limit, EntryOf(old(View()), ip), now).1
      ensures Full(old(View())[ShardOf(ip)], ip) ==> victim in old(View())[ShardOf(ip)]
    {
      victim := ip;
      var k := ShardOf(ip);
      var visitors := shards[k];
      if ip !in visitors {
        if |visitors| >= MAX_PER_SHARD {
          var gone :| gone in visitors;
          victim := gone;
          visitors := visitors - {gone};
        }
        shards[k] := visitors[ip := Visitor(1, now)];
        return true, victim;
      }
      var v := visitors[ip];
      if now - v.lastSeen > MINUTE {
        shards[k] := visitors[ip := Visitor(1, now)];
        return true, victim;
      }
      if v.count >= limit {
        assert visitors[ip := v] == visitors;
        return false, victim;
      }
      shards[k] := visitors[ip := Visitor(v.count + 1, now)];
      return true, victim;
    }

    method CleanShard(k: nat, now: int)
      requires Valid() && k < SHARDS
      modifies shards
      ensures View() == Next(limit, old(View()), Cleanup(k, now))
    {
      var kept, left := shards[k], shards[k].Keys;
      while left != {}
        invariant left <= shards[k].Keys && shards[..] == old(shards[..])
        invariant forall ip :: ip in kept <==> ip in shards[k] && (ip in left || !Idle(shards[k][ip], now))
        invariant forall ip :: ip in kept ==> kept[ip] == shards[k][ip]
        decreases left
      {
        var ip :| ip in left;
        if now - kept[ip].lastSeen > 2 * MINUTE {
          kept := kept - {ip};
        }
        left := left - {ip};
      }
      assert kept == Cleaned(shards[k], now);
      shards[k] := kept;
    }
  }
}
