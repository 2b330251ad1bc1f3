/** Verifying client keys while administrators change them (internal/infrastructure/registry/apikeys.go),
    as interleaved atomic steps: a verify looks in the cache, reads the generation, queries the
    database and stores; an admin operation commits and, some time later, invalidates and returns. */
module KeyVerification {
  import opened Basics
  import opened VerifyCache

  datatype Row = Row(hash: Hash, enabled: bool)

  datatype Stage = Missed | Read(gen: nat) | Queried(gen: nat, valid: bool) | Answered(valid: bool) | Failed

  /** One verify. `seen` and `late` are history: every verdict the database has held for the hash since
      the verify began, and whether a committed operation on the hash was then still to invalidate. */
  datatype Verify = Verify(hash: Hash, stage: Stage, seen: set<bool>, late: bool)

  /** A committed operation that has not invalidated yet: the hash whose row it changed, and whether it
      will clear the whole cache or that hash only. */
  datatype Change = Change(hash: Hash, all: bool)

  datatype World = World(rows: map<nat, Row>, cache: Cache, verifies: map<nat, Verify>, changes: map<nat, Change>)

  datatype Event =
    | Begin(v: nat, hash: Hash, now: int)
    | ReadGeneration(v: nat)
    | Query(v: nat)
    | QueryFails(v: nat)
    | Store(v: nat, now: int, victim: Hash)
    | Create(op: nat, id: nat, hash: Hash)
    | Update(op: nat, id: nat, enabled: bool)
    | Delete(op: nat, id: nat)
    | Invalidate(op: nat)

  /** The verdict the database gives for a hash. */
  ghost predicate Verdict(rows: map<nat, Row>, h: Hash) {
    exists id :: id in rows && rows[id].hash == h && rows[id].enabled
  }

  ghost predicate UniqueHashes(rows: map<nat, Row>) {
    forall i, j :: i in rows && j in rows && rows[i].hash == rows[j].hash ==> i == j
  }

  predicate InFlight(v: Verify) {
    v.stage.Missed? || v.stage.Read? || v.stage.Queried?
  }

  /** Some committed operation on the hash has not invalidated yet. */
  ghost predicate Unsettled(w: World, h: Hash) {
    exists op :: op in w.changes && w.changes[op].hash == h
  }

  ghost predicate Possible(w: World, e: Event) {
    match e
    case Begin(v, _, _) => v !in w.verifies
    case ReadGeneration(v) => v in w.verifies && w.verifies[v].stage.Missed?
    case Query(v) => v in w.verifies && w.verifies[v].stage.Read?
    case QueryFails(v) => v in w.verifies && w.verifies[v].stage.Read?
    case Store(v, _, _) => v in w.verifies && w.verifies[v].stage.Queried?
    case Create(op, id, h) => op !in w.changes && id !in w.rows && forall i :: i in w.rows ==> w.rows[i].hash != h
    case Update(op, id, _) => op !in w.changes && id in w.rows
    case Delete(op, id) => op !in w.changes && id in w.rows
    case Invalidate(op) => op in w.changes
  }

  function Stages(w: World, v: nat, s: Stage): World
    requires v in w.verifies
  {
    w.(verifies := w.verifies[v := w.verifies[v].(stage := s)])
  }

  /** The database changes; every verify in flight lives through the new verdict. */
  ghost function Commit(w: World, op: nat, change: Change, rows: map<nat, Row>): World {
    w.(rows := rows, changes := w.changes[op := change],
       verifies := map v | v in w.verifies :: Witness(w.verifies[v], rows))
  }

  ghost function Witness(v: Verify, rows: map<nat, Row>): Verify {
    if InFlight(v) then v.(seen := v.seen + {Verdict(rows, v.hash)}) else v
  }

  ghost function Next(w: World, e: Event): World
    requires Possible(w, e)
  {
    match e
    case Begin(v, h, now) =>
      var hit := Lookup(w.cache, h, now);
      w.(cache := DropExpired(w.cache, h, now),
         verifies := w.verifies[v := Verify(h, if hit.Some? then Answered(hit.value) else Missed,
                                            {Verdict(w.rows, h)}, Unsettled(w, h))])
    case ReadGeneration(v) => Stages(w, v, Read(w.cache.generation))
    case Query(v) => Stages(w, v, Queried(w.verifies[v].stage.gen, Verdict(w.rows, w.verifies[v].hash)))
    case QueryFails(v) => Stages(w, v, Failed)
    case Store(v, now, victim) =>
      var r := w.verifies[v];
      Stages(w, v, Answered(r.stage.valid)).(cache := Put(w.cache, r.hash, r.stage.valid, r.stage.gen, now, victim))
    case Create(op, id, h) => Commit(w, op, Change(h, false), w.rows[id := Row(h, true)])
    case Update(op, id, enabled) =>
      Commit(w, op, Change(w.rows[id].hash, true), w.rows[id := w.rows[id].(enabled := enabled)])
    case Delete(op, id) => Commit(w, op, Change(w.rows[id].hash, true), w.rows - {id})
    case Invalidate(op) =>
      w.(changes := w.changes - {op},
         cache := if w.changes[op].all then ForgetAll(w.cache) else Forget(w.cache, w.changes[op].hash))
  }

  ghost predicate Runs(w: World, es: seq<Event>, after: World)
    decreases |es|
  {
    if es == [] then after == w
    else Possible(w, es[0]) && Runs(Next(w, es[0]), es[1..], after)
  }

  /** A server that has just started over some table of keys. */
  ghost predicate Fresh(w: World) {
    UniqueHashes(w.rows) && w.cache == Cache(map[], 0) && w.verifies == map[] && w.changes == map[]
  }

  // ----- The invariant -----

  /** A verdict about to be used for a hash is the database's, unless a change is unsettled. */
  ghost predicate Current(w: World, h: Hash, valid: bool) {
    valid == Verdict(w.rows, h) || Unsettled(w, h)
  }

  ghost predicate CacheOk(w: World) {
    forall h :: h in w.cache.entries ==> Current(w, h, w.cache.entries[h].valid)
  }

  ghost predicate FlightOk(w: World, v: Verify) {
    && (InFlight(v) ==> Verdict(w.rows, v.hash) in v.seen)
    && (v.stage.Read? ==> v.stage.gen <= w.cache.generation)
    && (v.stage.Queried? ==>
        && v.stage.gen <= w.cache.generation && v.stage.valid in v.seen
        && (v.stage.gen == w.cache.generation ==> Current(w, v.hash, v.stage.valid)))
    && (v.stage.Answered? ==> v.stage.valid in v.seen || v.late)
  }

  ghost predicate Inv(w: World) {
    UniqueHashes(w.rows) && CacheOk(w) && forall v :: v in w.verifies ==> FlightOk(w, w.verifies[v])
  }

  /** A commit changes the verdict of one hash only, and leaves that hash unsettled. */
  lemma CommitKeeps(w: World, op: nat, change: Change, rows: map<nat, Row>)
    requires Inv(w) && op !in w.changes && UniqueHashes(rows)
    requires forall h :: h != change.hash ==> Verdict(rows, h) == Verdict(w.rows, h)
    ensures Inv(Commit(w, op, change, rows))
  {
    var n := Commit(w, op, change, rows);
    forall h, valid | Current(w, h, valid) ensures Current(n, h, valid) {
      if h == change.hash {
        assert n.changes[op].hash == h;
      } else if Unsettled(w, h) {
        var p :| p in w.changes && w.changes[p].hash == h;
        assert n.changes[p].hash == h;
      }
    }
    forall v | v in n.verifies ensures FlightOk(n, n.verifies[v]) {
      assert FlightOk(w, w.verifies[v]);
    }
  }

  lemma OtherVerdicts(rows: map<nat, Row>, id: nat, row: Row, h: Hash)
    requires h != row.hash && (id in rows ==> rows[id].hash == row.hash)
    ensures Verdict(rows[id := row], h) == Verdict(rows, h) && Verdict(rows - {id}, h) == Verdict(rows, h)
  {
    if Verdict(rows, h) {
      var i :| i in rows && rows[i].hash == h && rows[i].enabled;
      assert i in rows[id := row] && rows[id := row][i] == rows[i];
      assert i in rows - {id};
    }
  }

  lemma CreateKeeps(w: World, e: Event)
    requires Inv(w) && e.Create? && Possible(w, e)
    ensures Inv(Next(w, e))
  {
    var row := Row(e.hash, true);
    forall h | h != e.hash ensures Verdict(w.rows[e.id := row], h) == Verdict(w.rows, h) {
      OtherVerdicts(w.rows, e.id, row, h);
    }
    CommitKeeps(w, e.op, Change(e.hash, false), w.rows[e.id := row]);
  }

  lemma UpdateKeeps(w: World, e: Event)
    requires Inv(w) && e.Update? && Possible(w, e)
    ensures Inv(Next(w, e))
  {
    var row := w.rows[e.id].(enabled := e.enabled);
    forall h | h != row.hash ensures Verdict(w.rows[e.id := row], h) == Verdict(w.rows, h) {
      OtherVerdicts(w.rows, e.id, row, h);
    }
    CommitKeeps(w, e.op, Change(row.hash, true), w.rows[e.id := row]);
  }

  lemma DeleteKeeps(w: World, e: Event)
    requires Inv(w) && e.Delete? && Possible(w, e)
    ensures Inv(Next(w, e))
  {
    var row := w.rows[e.id];
    forall h | h != row.hash ensures Verdict(w.rows - {e.id}, h) == Verdict(w.rows, h) {
      OtherVerdicts(w.rows, e.id, row, h);
    }
    CommitKeeps(w, e.op, Change(row.hash, true), w.rows - {e.id});
  }

  /** Invalidation settles its operation: what it covers is gone and no verdict in flight is current. */
  lemma InvalidateKeeps(w: World, e: Event)
    requires Inv(w) && e.Invalidate? && Possible(w, e)
    ensures Inv(Next(w, e))
  {
    var n, gone := Next(w, e), w.changes[e.op];
    forall h | h in n.cache.entries ensures Current(n, h, n.cache.entries[h].valid) {
      assert h != gone.hash && Current(w, h, w.cache.entries[h].valid);
      if Unsettled(w, h) {
        var p :| p in w.changes && w.changes[p].hash == h;
        assert p in n.changes && n.changes[p].hash == h;
      }
    }
    forall v | v in n.verifies ensures FlightOk(n, n.verifies[v]) {
      assert FlightOk(w, w.verifies[v]);
    }
  }

  lemma SameSettling(w: World, n: World)
    requires n.rows == w.rows && n.changes == w.changes
    ensures forall h, valid :: Current(n, h, valid) <==> Current(w, h, valid)
  {
    forall h ensures Unsettled(n, h) <==> Unsettled(w, h) {
    }
  }

  lemma VerifyKeeps(w: World, e: Event)
    requires Inv(w) && Possible(w, e)
    requires e.Begin? || e.ReadGeneration? || e.Query? || e.QueryFails? || e.Store?
    ensures Inv(Next(w, e))
  {
    var n := Next(w, e);
    SameSettling(w, n);
    assert FlightOk(n, n.verifies[e.v]) by {
      if !e.Begin? {
        assert FlightOk(w, w.verifies[e.v]);
      }
    }
    forall v | v in n.verifies ensures FlightOk(n, n.verifies[v]) {
      if v != e.v {
        assert n.verifies[v] == w.verifies[v] && FlightOk(w, w.verifies[v]);
      }
    }
  }

  lemma StepKeeps(w: World, e: Event)
    requires Inv(w) && Possible(w, e)
    ensures Inv(Next(w, e))
  {
    match e
    case Create(_, _, _) => CreateKeeps(w, e);
    case Update(_, _, _) => UpdateKeeps(w, e);
    case Delete(_, _) => DeleteKeeps(w, e);
    case Invalidate(_) => InvalidateKeeps(w, e);
    case Begin(_, _, _) => VerifyKeeps(w, e);
    case ReadGeneration(_) => VerifyKeeps(w, e);
    case Query(_) => VerifyKeeps(w, e);
    case QueryFails(_) => VerifyKeeps(w, e);
    case Store(_, _, _) => VerifyKeeps(w, e);
  }

  lemma {:induction false} RunKeeps(w: World, es: seq<Event>, after: World)
    requires Inv(w) && Runs(w, es, after)
    ensures Inv(after)
    decreases |es|
  {
    if es != [] {
      StepKeeps(w, es[0]);
      RunKeeps(Next(w, es[0]), es[1..], after);
    }
  }

  /** A verdict in flight that would still be stored and is not the database's. */
  ghost predicate WouldStoreStale(w: World, v: Verify) {
    v.stage.Queried? && v.stage.gen == w.cache.generation && v.stage.valid != Verdict(w.rows, v.hash)
  }

  /** In every reachable state a cached verdict, and a verdict in flight whose generation is still
      current, differs from the database only while a committed operation on its hash has not yet
      invalidated. */
  lemma StaleOnlyWhileUnsettled(w: World, es: seq<Event>, after: World)
    requires Fresh(w) && Runs(w, es, after)
    ensures forall h :: h in after.cache.entries && after.cache.entries[h].valid != Verdict(after.rows, h) ==>
            Unsettled(after, h)
    ensures forall v :: v in after.verifies && WouldStoreStale(after, after.verifies[v]) ==>
            Unsettled(after, after.verifies[v].hash)
  {
    RunKeeps(w, es, after);
    forall h | h in after.cache.entries && after.cache.entries[h].valid != Verdict(after.rows, h)
      ensures Unsettled(after, h)
    {
      assert Current(after, h, after.cache.entries[h].valid);
    }
    forall v | v in after.verifies && WouldStoreStale(after, after.verifies[v])
      ensures Unsettled(after, after.verifies[v].hash)
    {
      assert FlightOk(after, after.verifies[v]);
    }
  }

  // ----- What a verify may answer -----

  /** The database has refused the hash in every state of a run. */
  ghost predicate RefusedThroughout(w: World, es: seq<Event>, h: Hash)
    decreases |es|
  {
    !Verdict(w.rows, h) && (es != [] && Possible(w, es[0]) ==> RefusedThroughout(Next(w, es[0]), es[1..], h))
  }

  /** Every answer is a verdict the database held at some moment of the verify, unless an operation on
      the hash had committed but not yet invalidated when the verify began. */
  lemma AnswersWereTrue(w: World, es: seq<Event>, after: World, v: nat)
    requires Fresh(w) && Runs(w, es, after) && v in after.verifies && after.verifies[v].stage.Answered?
    ensures after.verifies[v].stage.valid in after.verifies[v].seen || after.verifies[v].late
  {
    RunKeeps(w, es, after);
    assert FlightOk(after, after.verifies[v]);
  }

  // ----- A revoked key -----

  /** The hash is refused, and nothing that could still be served or stored says otherwise. */
  ghost predicate Quarantined(w: World, h: Hash) {
    && !Verdict(w.rows, h)
    && (h in w.cache.entries ==> !w.cache.entries[h].valid)
    && forall v :: v in w.verifies ==> Harmless(w, w.verifies[v], h)
  }

  ghost predicate Harmless(w: World, v: Verify, h: Hash) {
    && (v.stage.Read? ==> v.stage.gen <= w.cache.generation)
    && (v.stage.Queried? ==> v.stage.gen <= w.cache.generation)
    && (v.hash == h && v.stage.Queried? && v.stage.gen == w.cache.generation ==> !v.stage.valid)
  }

  /** An invalidation that covers a refused hash puts it in quarantine, whatever else is outstanding. */
  lemma InvalidationQuarantines(w: World, op: nat, h: Hash)
    requires Inv(w) && op in w.changes && w.changes[op].hash == h && !Verdict(w.rows, h)
    ensures Quarantined(Next(w, Invalidate(op)), h)
  {
    var n := Next(w, Invalidate(op));
    forall v | v in n.verifies ensures Harmless(n, n.verifies[v], h) {
      assert FlightOk(w, w.verifies[v]);
    }
  }

  lemma QuarantineStep(w: World, e: Event, h: Hash)
    requires Quarantined(w, h) && Possible(w, e) && !Verdict(Next(w, e).rows, h)
    ensures Quarantined(Next(w, e), h)
  {
    var n := Next(w, e);
    forall v | v in n.verifies ensures Harmless(n, n.verifies[v], h) {
      if v in w.verifies {
        assert Harmless(w, w.verifies[v], h);
      }
    }
    if e.Store? {
      assert Harmless(w, w.verifies[e.v], h);
    }
  }

  /** A verify of the hash that has not been told yes, and will not be. */
  ghost predicate NeverYes(w: World, v: nat, h: Hash) {
    && v in w.verifies && w.verifies[v].hash == h
    && w.verifies[v].stage != Answered(true) && (w.verifies[v].stage.Queried? ==> !w.verifies[v].stage.valid)
  }

  lemma NeverYesStep(w: World, e: Event, v: nat, h: Hash)
    requires NeverYes(w, v, h) && !Verdict(w.rows, h) && Possible(w, e)
    ensures NeverYes(Next(w, e), v, h)
  {
  }

  lemma {:induction false} QuarantineRun(w: World, es: seq<Event>, after: World, h: Hash)
    requires Quarantined(w, h) && Runs(w, es, after) && RefusedThroughout(w, es, h)
    ensures Quarantined(after, h)
    decreases |es|
  {
    if es != [] {
      QuarantineStep(w, es[0], h);
      QuarantineRun(Next(w, es[0]), es[1..], after, h);
    }
  }

  lemma {:induction false} NeverYesRun(w: World, es: seq<Event>, after: World, v: nat, h: Hash)
    requires NeverYes(w, v, h) && Runs(w, es, after) && RefusedThroughout(w, es, h)
    ensures NeverYes(after, v, h)
    decreases |es|
  {
    if es != [] {
      NeverYesStep(w, es[0], v, h);
      NeverYesRun(Next(w, es[0]), es[1..], after, v, h);
    }
  }

  /** Once an operation on a hash has invalidated, and for as long as the database refuses the hash, no
      verify that begins ever answers yes, from the cache or otherwise, whatever other operations are
      outstanding. */
  lemma RefusedAfterInvalidation(w: World, before: seq<Event>, mid: World, op: nat, h: Hash,
                                 between: seq<Event>, begun: World, v: nat, now: int, es: seq<Event>, after: World)
    requires Fresh(w) && Runs(w, before, mid) && op in mid.changes && mid.changes[op].hash == h
    requires var done := Next(mid, Invalidate(op)); RefusedThroughout(done, between, h) && Runs(done, between, begun)
    requires v !in begun.verifies
    requires var start := Next(begun, Begin(v, h, now)); RefusedThroughout(start, es, h) && Runs(start, es, after)
    ensures v in after.verifies && after.verifies[v].stage != Answered(true)
  {
    RunKeeps(w, before, mid);
    InvalidationQuarantines(mid, op, h);
    QuarantineRun(Next(mid, Invalidate(op)), between, begun, h);
    NeverYesRun(Next(begun, Begin(v, h, now)), es, after, v, h);
  }

  predicate Revokes(e: Event, op: nat, id: nat) {
    e == Delete(op, id) || e == Update(op, id, false)
  }

  /** A delete or a disable refuses its key at once. */
  lemma RevocationRefuses(w: World, e: Event, op: nat, id: nat)
    requires UniqueHashes(w.rows) && Revokes(e, op, id) && Possible(w, e)
    ensures !Verdict(Next(w, e).rows, w.rows[id].hash)
    ensures op in Next(w, e).changes && Next(w, e).changes[op].hash == w.rows[id].hash
  {
  }

  lemma {:induction false} StaysOutstanding(w: World, es: seq<Event>, after: World, op: nat)
    requires Runs(w, es, after) && op in w.changes && Invalidate(op) !in es
    ensures op in after.changes && after.changes[op] == w.changes[op]
    decreases |es|
  {
    if es != [] {
      assert es == [es[0]] + es[1..] && es[0] in es;
      StaysOutstanding(Next(w, es[0]), es[1..], after, op);
    }
  }

  /** A deleted or disabled key: from the moment the delete or disable returns (it has invalidated), a
      verify that begins while no later operation has made the key valid again never answers yes, even
      if other operations on the key are still on their way. */
  lemma RevokedStaysRevoked(w: World, before: seq<Event>, was: World, e: Event, op: nat, id: nat, h: Hash,
                            meanwhile: seq<Event>, mid: World, between: seq<Event>, begun: World,
                            v: nat, now: int, es: seq<Event>, after: World)
    requires Fresh(w) && Runs(w, before, was) && Revokes(e, op, id) && Possible(was, e) && h == was.rows[id].hash
    requires Runs(Next(was, e), meanwhile, mid) && Invalidate(op) !in meanwhile && op in mid.changes
    requires var done := Next(mid, Invalidate(op)); RefusedThroughout(done, between, h) && Runs(done, between, begun)
    requires v !in begun.verifies
    requires var start := Next(begun, Begin(v, h, now)); RefusedThroughout(start, es, h) && Runs(start, es, after)
    ensures !Verdict(Next(was, e).rows, h)
    ensures v in after.verifies && after.verifies[v].stage != Answered(true)
  {
    RunKeeps(w, before, was);
    RevocationRefuses(was, e, op, id);
    StaysOutstanding(Next(was, e), meanwhile, mid, op);
    RunsOn(w, before, was, [e] + meanwhile, mid);
    RefusedAfterInvalidation(w, before + ([e] + meanwhile), mid, op, h, between, begun, v, now, es, after);
  }

  lemma {:induction false} RunsOn(w: World, a: seq<Event>, mid: World, b: seq<Event>, after: World)
    requires Runs(w, a, mid) && Runs(mid, b, after)
    ensures Runs(w, a + b, after)
    decreases |a|
  {
    if a == [] {
      assert a + b == b;
    } else {
      RunsOn(Next(w, a[0]), a[1..], mid, b, after);
      assert (a + b)[1..] == a[1..] + b;
    }
  }
}
