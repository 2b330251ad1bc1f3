/** The client-key verification cache (internal/infrastructure/registry/apikey_cache.go): verdicts by
    key hash, and a generation that every invalidation bumps. */
module VerifyCache {
  import opened Basics

  const TTL: int := 30_000_000_000      // nanoseconds
  const MAX_ENTRIES: nat := 10000

  type Hash = string

  datatype Entry = Entry(valid: bool, expires: int)

  datatype Cache = Cache(entries: map<Hash, Entry>, generation: nat)

  /** A live verdict, if there is one. */
  function Lookup(c: Cache, h: Hash, now: int): Option<bool> {
    if h in c.entries && now <= c.entries[h].expires then Some(c.entries[h].valid) else None
  }

  function DropExpired(c: Cache, h: Hash, now: int): Cache {
    if h in c.entries && now > c.entries[h].expires then c.(entries := c.entries - {h}) else c
  }

  /** Which entry may make room in a full cache: an expired one if there is any, else any. */
  ghost predicate MayLeave(entries: map<Hash, Entry>, victim: Hash, now: int) {
    && victim in entries
    && (now > entries[victim].expires || forall h :: h in entries ==> now <= entries[h].expires)
  }

  /** A verdict is stored only if no invalidation came since its generation was read. */
  function Put(c: Cache, h: Hash, valid: bool, gen: nat, now: int, victim: Hash): Cache {
    if gen != c.generation then c
    else
      var room := if |c.entries| >= MAX_ENTRIES then c.entries - {victim} else c.entries;
      c.(entries := room[h := Entry(valid, now + TTL)])
  }

  function Forget(c: Cache, h: Hash): Cache {
    Cache(c.entries - {h}, c.generation + 1)
  }

  function ForgetAll(c: Cache): Cache {
    Cache(map[], c.generation + 1)
  }

  lemma RemovedOne(entries: map<Hash, Entry>, victim: Hash)
    requires victim in entries
    ensures |entries - {victim}| == |entries| - 1
  {
    assert (entries - {victim}).Keys == entries.Keys - {victim};
    assert |entries.Keys - {victim}| == |entries.Keys| - 1;
    assert |entries| == |entries.Keys| && |(entries - {victim}).Keys| == |entries - {victim}|;
  }

  lemma AddedOne(entries: map<Hash, Entry>, h: Hash, e: Entry)
    ensures |entries[h := e]| <= |entries| + 1
  {
    assert entries[h := e].Keys == entries.Keys + {h};
    assert |entries[h := e]| == |entries[h := e].Keys| && |entries| == |entries.Keys|;
  }

  class ClientKeyVerifyCache {
    var entries: map<Hash, Entry>
    var generation: nat

    ghost predicate Valid()
      reads this
    {
      |entries| <= MAX_ENTRIES
    }

    ghost function View(): Cache
      reads this
    {
      Cache(entries, generation)
    }

    constructor ()
      ensures Valid() && View() == Cache(map[], 0)
    {
      entries, generation := map[], 0;
    }

    method Get(h: Hash, now: int) returns (valid: bool, found: bool)
      requires Valid()
      modifies this`entries
      ensures Valid() && View() == DropExpired(old(View()), h, now)
      ensures Lookup(old(View()), h, now) == if found then Some(valid) else None
    {
      if h !in entries {
        return false, false;
      }
      if now > entries[h].expires {
        RemovedOne(entries, h);
        entries := entries - {h};
        return false, false;
      }
      return entries[h].valid, true;
    }

    method CurrentGeneration() returns (gen: nat)
      ensures gen == View().generation
    {
      gen := generation;
    }

    /** The first expired entry met on a walk over the map, in whatever order that visits it. */
    method FindVictim(now: int) returns (victim: Hash)
      requires entries != map[]
      ensures MayLeave(entries, victim, now)
    {
      var left := entries.Keys;
      victim :| victim in left;
      while left != {}
        invariant left <= entries.Keys && victim in entries
        invariant forall h :: h in entries && h !in left ==> now <= entries[h].expires
        decreases left
      {
        var h :| h in left;
        if now > entries[h].expires {
          return h;
        }
        left := left - {h};
      }
    }

    method Set(h: Hash, valid: bool, gen: nat, now: int) returns (ghost victim: Hash)
      requires Valid()
      modifies this`entries
      ensures Valid() && View() == Put(old(View()), h, valid, gen, now, victim)
      ensures gen == generation && |old(entries)| >= MAX_ENTRIES ==> MayLeave(old(entries), victim, now)
    {
      victim := h;
      if gen != generation {
        return;
      }
      var room := entries;
      if |entries| >= MAX_ENTRIES {
        var gone := FindVictim(now);
        victim := gone;
        RemovedOne(entries, gone);
        room := entries - {gone};
      }
      AddedOne(room, h, Entry(valid, now + TTL));
      entries := room[h := Entry(valid, now + TTL)];
    }

    method Invalidate(h: Hash)
      requires Valid()
      modifies this
      ensures Valid() && View() == Forget(old(View()), h)
    {
      if h in entries {
        RemovedOne(entries, h);
      } else {
        assert entries - {h} == entries;
      }
      entries, generation := entries - {h}, generation + 1;
    }

    method InvalidateAll()
      modifies this
      ensures Valid() && View() == ForgetAll(old(View()))
    {
      entries, generation := map[], generation + 1;
    }
  }
}
