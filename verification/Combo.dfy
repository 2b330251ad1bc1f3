/** Failover over the tiers of a combo (internal/infrastructure/upstream/combo_upstream.go). */
module Combo {
  import opened Basics

  const TTL: int := 30_000_000_000      // nanoseconds

  datatype Resp = Resp(id: nat, retryable: bool)

  /** What one upstream call gives: an error, no error and no response, or a response. */
  datatype Reply = Failed | Empty | Responded(resp: Resp)

  type Cooled = map<nat, int>

  /** The world of one request: whether the body can be prepared for a tier, what each of the two
      attempts at a tier gives, whether the client was gone after the first attempt and by the time an
      error is looked at, the clock when a tier is considered and when it is cooled down, and what
      concurrent requests do to the cooldowns before a tier is considered and while it is called. */
  datatype World = World(
    prepares: nat -> bool,
    reply: (nat, nat) -> Reply,
    goneEarly: nat -> bool,
    goneLate: nat -> bool,
    now: nat -> int,
    markedAt: nat -> int,
    others: (nat, Cooled) -> Cooled,
    meanwhile: (nat, Cooled) -> Cooled)

  /** What happened at one tier. */
  datatype Visit =
    | Skipped
    | Unprepared
    | Abandoned(calls: nat)
    | Faulted(calls: nat)
    | Silent(calls: nat)
    | Discarded(resp: Resp, calls: nat)
    | Serving(resp: Resp, calls: nat)

  datatype Answer = Response(tier: nat, resp: Resp) | ClientGone(tier: nat) | Error(tier: nat) | NothingTried

  predicate Fresh(c: Cooled, i: nat, now: int) {
    i !in c || now > c[i]
  }

  function FirstFresh(c: Cooled, n: nat, from: nat, now: int): (r: Option<nat>)
    ensures r.Some? <==> exists j :: from <= j < n && Fresh(c, j, now)
    ensures r.Some? ==> from <= r.value < n && Fresh(c, r.value, now)
    decreases n - from
  {
    if from >= n then None else if Fresh(c, from, now) then Some(from) else FirstFresh(c, n, from + 1, now)
  }

  /** `inCooldownLocked` also forgets a cooldown that has run out. */
  function Expire(c: Cooled, i: nat, now: int): Cooled {
    if i in c && now > c[i] then c - {i} else c
  }

  /** One retry after anything but a response, unless the client is gone. */
  function CallsMade(w: World, i: nat): nat {
    if w.reply(i, 0).Responded? || w.goneEarly(i) then 1 else 2
  }

  function LastReply(w: World, i: nat): Reply {
    w.reply(i, CallsMade(w, i) - 1)
  }

  function Attempt(w: World, n: nat, i: nat): Visit {
    var calls := CallsMade(w, i);
    match LastReply(w, i)
    case Failed => if w.goneEarly(i) || w.goneLate(i) then Abandoned(calls) else Faulted(calls)
    case Empty => Silent(calls)
    case Responded(resp) => if resp.retryable && i < n - 1 then Discarded(resp, calls) else Serving(resp, calls)
  }

  function VisitAt(w: World, n: nat, i: nat, c: Cooled): Visit {
    if !Fresh(c, i, w.now(i)) && FirstFresh(Expire(c, i, w.now(i)), n, i + 1, w.now(i)).Some? then Skipped
    else if !w.prepares(i) then Unprepared
    else Attempt(w, n, i)
  }

  predicate Stops(v: Visit) {
    v.Serving? || v.Abandoned?
  }

  /** The cooldowns at the end of a visit, before it writes to them. */
  function Met(w: World, i: nat, c: Cooled, v: Visit): Cooled {
    if v.Skipped? || v.Unprepared? then c else w.meanwhile(i, c)
  }

  function CooledAfter(w: World, i: nat, c: Cooled, v: Visit): Cooled {
    var m := Met(w, i, c, v);
    match v
    case Skipped => m
    case Unprepared => m
    case Abandoned(_) => m
    case Faulted(_) => m[i := w.markedAt(i) + TTL]
    case Silent(_) => m[i := w.markedAt(i) + TTL]
    case Discarded(_, _) => m[i := w.markedAt(i) + TTL]
    case Serving(_, _) => m - {i}
  }

  /** The cooldowns as tier `i` sees them, before and after it is considered. */
  function Considered(w: World, i: nat, c: Cooled): Cooled {
    Expire(w.others(i, c), i, w.now(i))
  }

  datatype Walked = Walked(visits: seq<Visit>, cooled: Cooled)

  /** The tiers from `i` on: every visit up to the one that ends the request. */
  function Walk(w: World, n: nat, i: nat, c: Cooled): (r: Walked)
    ensures |r.visits| <= if i < n then n - i else 0
    decreases n - i
  {
    if i >= n then Walked([], c) else
      var v := VisitAt(w, n, i, w.others(i, c));
      var after := CooledAfter(w, i, Considered(w, i, c), v);
      if Stops(v) then Walked([v], after)
      else
        var more := Walk(w, n, i + 1, after);
        Walked([v] + more.visits, more.cooled)
  }

  /** The walk, one tier on, behind the visits made before it. */
  lemma WalkTurn(w: World, n: nat, i: nat, c: Cooled, done: seq<Visit>)
    requires i < n
    ensures var v := VisitAt(w, n, i, w.others(i, c));
            var after, r := CooledAfter(w, i, Considered(w, i, c), v), Walk(w, n, i, c);
            var more := Walk(w, n, i + 1, after);
            if Stops(v) then Walked(done + r.visits, r.cooled) == Walked(done + [v], after)
            else Walked(done + r.visits, r.cooled) == Walked(done + [v] + more.visits, more.cooled)
  {
    var v := VisitAt(w, n, i, w.others(i, c));
    SeqAssoc(done, [v], Walk(w, n, i + 1, CooledAfter(w, i, Considered(w, i, c), v)).visits);
  }

  /** What one more visit does to the totals. */
  lemma Visited(done: seq<Visit>, v: Visit)
    ensures TotalCalls(done + [v]) == TotalCalls(done) + (if v.Skipped? || v.Unprepared? then 0 else v.calls)
    ensures Closed(done + [v]) == Closed(done) + (if v.Discarded? then [v.resp] else [])
    ensures AnswerOf(done + [v]) ==
            (if v.Serving? then Response(|done|, v.resp) else if v.Abandoned? then ClientGone(|done|)
             else if v.Skipped? then NothingTried else Error(|done|))
  {
    assert (done + [v])[..|done|] == done;
  }

  function AnswerOf(visits: seq<Visit>): Answer {
    var k := |visits| - 1;
    if k < 0 then NothingTried
    else if visits[k].Serving? then Response(k, visits[k].resp)
    else if visits[k].Abandoned? then ClientGone(k)
    else if visits[k].Skipped? then NothingTried
    else Error(k)
  }

  function TotalCalls(visits: seq<Visit>): nat {
    if visits == [] then 0 else
      TotalCalls(visits[..|visits| - 1]) +
      (match visits[|visits| - 1]
       case Skipped => 0
       case Unprepared => 0
       case v => v.calls)
  }

  /** The responses that were closed, in order. */
  function Closed(visits: seq<Visit>): seq<Resp> {
    if visits == [] then [] else
      Closed(visits[..|visits| - 1]) +
      if visits[|visits| - 1].Discarded? then [visits[|visits| - 1].resp] else []
  }

  // ----- What a request does, for every world -----

  /** Where the visits stand: all but the last go on to the next tier, and the last ends the request,
      either by stopping it or by being the last tier, which is never skipped. */
  lemma {:induction false} WalkShape(w: World, n: nat, i: nat, c: Cooled)
    requires i < n
    ensures var vs := Walk(w, n, i, c).visits;
            && vs != []
            && (forall k :: 0 <= k < |vs| - 1 ==> !Stops(vs[k]))
            && (Stops(vs[|vs| - 1]) || i + |vs| == n)
            && (i + |vs| == n ==> !vs[|vs| - 1].Skipped? && !vs[|vs| - 1].Discarded?)
    decreases n - i
  {
    var v := VisitAt(w, n, i, w.others(i, c));
    if i + 1 < n && !Stops(v) {
      WalkShape(w, n, i + 1, CooledAfter(w, i, Considered(w, i, c), v));
    }
  }

  /** Each visit of a tier that was attempted is the outcome of its own attempt. */
  lemma {:induction false} WalkAttempts(w: World, n: nat, i: nat, c: Cooled, k: nat)
    requires k < |Walk(w, n, i, c).visits|
    ensures var v := Walk(w, n, i, c).visits[k];
            v.Skipped? || (v.Unprepared? && !w.prepares(i + k)) || (w.prepares(i + k) && v == Attempt(w, n, i + k))
    decreases n - i
  {
    if k > 0 {
      var v := VisitAt(w, n, i, w.others(i, c));
      WalkAttempts(w, n, i + 1, CooledAfter(w, i, Considered(w, i, c), v), k - 1);
    }
  }

  lemma {:induction false} AtMostTwoEach(w: World, n: nat, i: nat, c: Cooled, k: nat)
    requires k <= |Walk(w, n, i, c).visits|
    ensures TotalCalls(Walk(w, n, i, c).visits[..k]) <= 2 * k
    decreases k
  {
    var vs := Walk(w, n, i, c).visits;
    if k > 0 {
      AtMostTwoEach(w, n, i, c, k - 1);
      WalkAttempts(w, n, i, c, k - 1);
      assert vs[..k][..k - 1] == vs[..k - 1];
    }
  }

  /** A request over at least one tier always answers from inside its loop, makes at most two calls a
      tier, and fails for an error only at the last tier. */
  lemma RequestAnswers(w: World, n: nat, c: Cooled)
    requires n > 0
    ensures var vs := Walk(w, n, 0, c).visits;
            && AnswerOf(vs) != NothingTried
            && TotalCalls(vs) <= 2 * n
            && (AnswerOf(vs).Error? ==> AnswerOf(vs).tier == n - 1)
  {
    var vs := Walk(w, n, 0, c).visits;
    WalkShape(w, n, 0, c);
    AtMostTwoEach(w, n, 0, c, |vs|);
    assert vs[..|vs|] == vs;
  }

  /** A tier that was called and gave a response the client can use. */
  predicate Usable(w: World, vs: seq<Visit>, k: nat)
    requires k < |vs|
  {
    !vs[k].Skipped? && w.prepares(k) && LastReply(w, k).Responded? && !LastReply(w, k).resp.retryable
  }

  /** A usable response ends the walk and is served. */
  lemma UsableServes(w: World, n: nat, c: Cooled, k: nat)
    requires n > 0 && k < |Walk(w, n, 0, c).visits| && Usable(w, Walk(w, n, 0, c).visits, k)
    ensures var vs := Walk(w, n, 0, c).visits; k == |vs| - 1 && AnswerOf(vs) == Response(k, LastReply(w, k).resp)
  {
    WalkShape(w, n, 0, c);
    WalkAttempts(w, n, 0, c, k);
  }

  /** What is served was given by a tier, usable or the last. */
  lemma ServedWasGiven(w: World, n: nat, c: Cooled)
    requires n > 0 && AnswerOf(Walk(w, n, 0, c).visits).Response?
    ensures var vs := Walk(w, n, 0, c).visits;
            var k := AnswerOf(vs).tier;
            k < |vs| && w.prepares(k) && LastReply(w, k) == Responded(AnswerOf(vs).resp)
            && (Usable(w, vs, k) || k == n - 1)
  {
    WalkAttempts(w, n, 0, c, |Walk(w, n, 0, c).visits| - 1);
  }

  /** The answer is the response of the first attempted tier with a non-retryable one, if any tier
      reached has one, and otherwise whatever the last tier gives. */
  lemma FirstUsableServes(w: World, n: nat, c: Cooled)
    requires n > 0
    ensures var vs := Walk(w, n, 0, c).visits;
            && (forall k :: 0 <= k < |vs| && Usable(w, vs, k) ==>
                  k == |vs| - 1 && AnswerOf(vs) == Response(k, LastReply(w, k).resp))
            && (AnswerOf(vs).Response? ==>
                  var k := AnswerOf(vs).tier;
                  k < |vs| && w.prepares(k) && LastReply(w, k) == Responded(AnswerOf(vs).resp)
                  && (Usable(w, vs, k) || k == n - 1))
  {
    var vs := Walk(w, n, 0, c).visits;
    forall k | 0 <= k < |vs| && Usable(w, vs, k)
      ensures k == |vs| - 1 && AnswerOf(vs) == Response(k, LastReply(w, k).resp)
    {
      UsableServes(w, n, c, k);
    }
    if AnswerOf(vs).Response? {
      ServedWasGiven(w, n, c);
    }
  }

  /** The responses that the visited tiers gave, in order. */
  function Obtained(w: World, vs: seq<Visit>): seq<Resp> {
    if vs == [] then [] else
      var k := |vs| - 1;
      Obtained(w, vs[..k]) +
      if !vs[k].Skipped? && w.prepares(k) && LastReply(w, k).Responded? then [LastReply(w, k).resp] else []
  }

  /** A visit discards what its tier gave. */
  predicate Discards(w: World, v: Visit, k: nat) {
    if !v.Skipped? && w.prepares(k) && LastReply(w, k).Responded? then v.Discarded? && v.resp == LastReply(w, k).resp
    else !v.Discarded?
  }

  lemma EarlierDiscards(w: World, n: nat, c: Cooled, k: nat)
    requires n > 0 && k < |Walk(w, n, 0, c).visits| - 1
    ensures Discards(w, Walk(w, n, 0, c).visits[k], k)
  {
    WalkShape(w, n, 0, c);
    WalkAttempts(w, n, 0, c, k);
  }

  lemma {:induction false} ClosedSoFar(w: World, vs: seq<Visit>)
    requires forall k :: 0 <= k < |vs| ==> Discards(w, vs[k], k)
    ensures Closed(vs) == Obtained(w, vs)
  {
    if vs != [] {
      ClosedSoFar(w, vs[..|vs| - 1]);
      assert Discards(w, vs[|vs| - 1], |vs| - 1);
    }
  }

  /** The last visit's response, if any, is the one that is returned. */
  lemma LastIsReturned(w: World, n: nat, c: Cooled)
    requires n > 0
    ensures var vs := Walk(w, n, 0, c).visits;
            && vs != [] && !vs[|vs| - 1].Discarded?
            && (AnswerOf(vs).Response? <==>
                !vs[|vs| - 1].Skipped? && w.prepares(|vs| - 1) && LastReply(w, |vs| - 1).Responded?)
            && (AnswerOf(vs).Response? ==> LastReply(w, |vs| - 1) == Responded(AnswerOf(vs).resp))
  {
    WalkShape(w, n, 0, c);
    WalkAttempts(w, n, 0, c, |Walk(w, n, 0, c).visits| - 1);
  }

  /** Every response obtained is either closed, exactly once, or returned to the caller. */
  lemma ResponsesAccounted(w: World, n: nat, c: Cooled)
    requires n > 0
    ensures var vs := Walk(w, n, 0, c).visits;
            Obtained(w, vs) == Closed(vs) + if AnswerOf(vs).Response? then [AnswerOf(vs).resp] else []
  {
    var vs := Walk(w, n, 0, c).visits;
    LastIsReturned(w, n, c);
    var front := vs[..|vs| - 1];
    forall k | 0 <= k < |front| ensures Discards(w, front[k], k) {
      EarlierDiscards(w, n, c, k);
    }
    ClosedSoFar(w, front);
    assert Closed(vs) == Closed(vs[..|vs| - 1]);
  }

  // ----- Cooldowns -----

  /** No other request touches the cooldowns. */
  ghost predicate Alone(w: World) {
    forall i, c :: w.others(i, c) == c && w.meanwhile(i, c) == c
  }

  predicate SameAt(c: Cooled, d: Cooled, j: nat) {
    (j in c <==> j in d) && (j in c ==> c[j] == d[j])
  }

  /** What a visit leaves of a cooldown of its tier. */
  predicate Leaves(w: World, c: Cooled, d: Cooled, j: nat, v: Visit) {
    match v
    case Skipped => j in c && SameAt(c, d, j)
    case Unprepared => SameAt(c, d, j)
    case Abandoned(_) => SameAt(c, d, j)
    case Serving(_, _) => j !in d
    case _ => j in d && d[j] == w.markedAt(j) + TTL
  }

  lemma CooledOne(w: World, n: nat, i: nat, c: Cooled, j: nat)
    ensures var v := VisitAt(w, n, i, w.others(i, c));
            var met, after := Met(w, i, Considered(w, i, c), v), CooledAfter(w, i, Considered(w, i, c), v);
            (j != i ==> SameAt(met, after, j)) && Leaves(w, met, after, i, v)
  {
    var v := VisitAt(w, n, i, w.others(i, c));
    match v
    case Skipped =>
    case Unprepared =>
    case Abandoned(_) =>
    case Serving(_, _) =>
    case _ =>
  }

  /** The cooldowns a tier sees when the walk from `i` comes to it. */
  function SeenBy(w: World, n: nat, i: nat, c: Cooled, k: nat): Cooled
    requires i <= k
    decreases k - i
  {
    if k == i then w.others(i, c)
    else SeenBy(w, n, i + 1, CooledAfter(w, i, Considered(w, i, c), VisitAt(w, n, i, w.others(i, c))), k)
  }

  /** The cooldowns a visit finds when it is done, and those it leaves. */
  datatype Write = Write(found: Cooled, left: Cooled)

  function WriteBy(w: World, n: nat, i: nat, c: Cooled, k: nat): Write
    requires i <= k
    decreases k - i
  {
    var v := VisitAt(w, n, i, w.others(i, c));
    var after := CooledAfter(w, i, Considered(w, i, c), v);
    if k == i then Write(Met(w, i, Considered(w, i, c), v), after) else WriteBy(w, n, i + 1, after, k)
  }

  /** Whatever other requests do, before a tier is considered and while it is called, a visit changes no
      cooldown but that of its own tier, and that one as its outcome says: not at all for a tier skipped,
      not prepared, or failing for a client that is gone. */
  lemma {:induction false} VisitCools(w: World, n: nat, i: nat, c: Cooled, k: nat, j: nat)
    requires i <= k < i + |Walk(w, n, i, c).visits|
    ensures var wr := WriteBy(w, n, i, c, k);
            (j != k ==> SameAt(wr.found, wr.left, j)) && Leaves(w, wr.found, wr.left, k, Walk(w, n, i, c).visits[k - i])
    decreases n - i
  {
    if k == i {
      CooledOne(w, n, i, c, j);
    } else {
      var after := CooledAfter(w, i, Considered(w, i, c), VisitAt(w, n, i, w.others(i, c)));
      WalkGoesOn(w, n, i, c, k);
      VisitCools(w, n, i + 1, after, k, j);
      assert WriteBy(w, n, i, c, k) == WriteBy(w, n, i + 1, after, k);
    }
  }

  lemma WalkGoesOn(w: World, n: nat, i: nat, c: Cooled, k: nat)
    requires i < k < i + |Walk(w, n, i, c).visits|
    ensures var after := CooledAfter(w, i, Considered(w, i, c), VisitAt(w, n, i, w.others(i, c)));
            var more := Walk(w, n, i + 1, after).visits;
            k < i + 1 + |more| && Walk(w, n, i, c).visits[k - i] == more[k - (i + 1)]
  {
  }

  /** Alone, a visit leaves every other tier's cooldown as it was. */
  lemma AloneCools(w: World, n: nat, i: nat, c: Cooled, j: nat)
    requires Alone(w)
    ensures var v := VisitAt(w, n, i, c);
            var after := CooledAfter(w, i, Considered(w, i, c), v);
            (j != i ==> SameAt(c, after, j)) && Leaves(w, Expire(c, i, w.now(i)), after, i, v)
  {
    assert w.others(i, c) == c;
    var seen := Considered(w, i, c);
    assert w.meanwhile(i, seen) == seen;
    CooledOne(w, n, i, c, j);
  }

  lemma ExpireSame(c: Cooled, d: Cooled, j: nat, now: int)
    requires SameAt(c, d, j)
    ensures SameAt(Expire(c, j, now), Expire(d, j, now), j)
  {
  }

  lemma LeavesSame(w: World, c: Cooled, d: Cooled, e: Cooled, j: nat, v: Visit)
    requires SameAt(c, d, j) && Leaves(w, d, e, j, v)
    ensures Leaves(w, c, e, j, v)
  {
  }

  lemma {:induction false} CooldownsOf(w: World, n: nat, i: nat, c: Cooled, j: nat)
    requires Alone(w)
    ensures var r := Walk(w, n, i, c);
            && (j < i || j >= i + |r.visits| ==> SameAt(c, r.cooled, j))
            && (i <= j < i + |r.visits| ==> Leaves(w, Expire(c, j, w.now(j)), r.cooled, j, r.visits[j - i]))
    decreases n - i
  {
    if i < n {
      assert w.others(i, c) == c;
      var v := VisitAt(w, n, i, c);
      var after := CooledAfter(w, i, Considered(w, i, c), v);
      AloneCools(w, n, i, c, j);
      if !Stops(v) {
        CooldownsOf(w, n, i + 1, after, j);
        if i < j < i + |Walk(w, n, i, c).visits| {
          ExpireSame(c, after, j, w.now(j));
          LeavesSame(w, Expire(c, j, w.now(j)), Expire(after, j, w.now(j)), Walk(w, n, i, c).cooled, j,
                     Walk(w, n, i, c).visits[j - i]);
        } else if j == i {
          LastingAt(w, n, i, c);
        }
      }
    }
  }

  /** Alone, what a visit left of its tier's cooldown stays. */
  lemma LastingAt(w: World, n: nat, i: nat, c: Cooled)
    requires Alone(w) && i < n && !Stops(VisitAt(w, n, i, c))
    ensures Leaves(w, Expire(c, i, w.now(i)), Walk(w, n, i, c).cooled, i, VisitAt(w, n, i, c))
    decreases n - i, 0
  {
    assert w.others(i, c) == c;
    var after := CooledAfter(w, i, Considered(w, i, c), VisitAt(w, n, i, c));
    AloneCools(w, n, i, c, i);
    CooldownsOf(w, n, i + 1, after, i);
  }

  /** Alone, a request leaves each tier it reached cooled down exactly if it was skipped for that or
      failed for a reason other than the client, and every other tier as it was. */
  lemma CooldownsLeft(w: World, n: nat, c: Cooled, j: nat)
    requires Alone(w)
    ensures var r := Walk(w, n, 0, c);
            && (j >= |r.visits| ==> SameAt(c, r.cooled, j))
            && (j < |r.visits| ==> Leaves(w, Expire(c, j, w.now(j)), r.cooled, j, r.visits[j]))
  {
    CooldownsOf(w, n, 0, c, j);
  }

  /** A client that is gone spares a tier the cooldown exactly when the tier reports an error or has its
      response used: a tier that returns nothing at all is cooled down even then. */
  lemma GoneClientMayStillCool(w: World, n: nat, c: Cooled, k: nat)
    requires k < |Walk(w, n, 0, c).visits| && w.prepares(k) && !Walk(w, n, 0, c).visits[k].Skipped?
    requires w.goneEarly(k) || w.goneLate(k)
    ensures var v, reply := Walk(w, n, 0, c).visits[k], LastReply(w, k);
            (v.Faulted? || v.Silent? || v.Discarded?) <==>
            (reply.Empty? || (reply.Responded? && reply.resp.retryable && k < n - 1))
  {
    WalkAttempts(w, n, 0, c, k);
  }

  /** A fresh tier that the walk reaches is not skipped. */
  lemma {:induction false} FreshIsTried(w: World, n: nat, i: nat, c: Cooled, j: nat, now: int)
    requires Alone(w) && i <= j < i + |Walk(w, n, i, c).visits| && Fresh(c, j, now) && now <= w.now(j)
    ensures !Walk(w, n, i, c).visits[j - i].Skipped?
    decreases n - i
  {
    assert w.others(i, c) == c;
    if i < j {
      var v := VisitAt(w, n, i, c);
      AloneCools(w, n, i, c, j);
      FreshIsTried(w, n, i + 1, CooledAfter(w, i, Considered(w, i, c), v), j, now);
    }
  }

  ghost predicate ClockRuns(w: World) {
    forall i, j :: i <= j ==> w.now(i) <= w.now(j)
  }

  /** A tier that the walk from `i` came to and did not skip: it was called, or its body could not be
      prepared. */
  predicate Processed(w: World, n: nat, vs: seq<Visit>, i: nat, j: nat)
    requires i <= j < i + |vs|
  {
    var v := vs[j - i];
    (v == Unprepared && !w.prepares(j)) || (w.prepares(j) && v == Attempt(w, n, j))
  }

  /** The tier for which tier `k` was skipped: a later one, fresh in the cooldowns and at the time tier
      `k` looked, which was then processed, unless a tier in between served or found the client gone. */
  ghost predicate Preferred(w: World, n: nat, i: nat, c: Cooled, k: nat, j: nat)
    requires i <= k
  {
    var vs := Walk(w, n, i, c).visits;
    && k < j < n && Fresh(SeenBy(w, n, i, c, k), j, w.now(k))
    && (if j < i + |vs| then Processed(w, n, vs, i, j)
        else k < i + |vs| - 1 < j && Stops(vs[|vs| - 1]))
  }

  lemma SkippedShape(w: World, n: nat, i: nat, c: Cooled)
    requires i < n && w.others(i, c) == c && VisitAt(w, n, i, c).Skipped?
    ensures Considered(w, i, c) == c && Walk(w, n, i, c).visits == [Skipped] + Walk(w, n, i + 1, c).visits
    ensures FirstFresh(c, n, i + 1, w.now(i)).Some?
  {
  }

  lemma FreshIsProcessed(w: World, n: nat, i: nat, c: Cooled, j: nat, now: int)
    requires Alone(w) && i <= j < i + |Walk(w, n, i, c).visits| && Fresh(c, j, now) && now <= w.now(j)
    ensures Processed(w, n, Walk(w, n, i, c).visits, i, j)
  {
    FreshIsTried(w, n, i, c, j, now);
    WalkAttempts(w, n, i, c, j - i);
  }

  lemma ProcessedLater(w: World, n: nat, v: Visit, more: seq<Visit>, i: nat, j: nat)
    requires i + 1 <= j < i + 1 + |more| && Processed(w, n, more, i + 1, j)
    ensures Processed(w, n, [v] + more, i, j)
  {
    assert ([v] + more)[j - i] == more[j - (i + 1)];
  }

  lemma SkippedHere(w: World, n: nat, i: nat, c: Cooled) returns (j: nat)
    requires Alone(w) && ClockRuns(w) && i < n && VisitAt(w, n, i, c).Skipped?
    ensures Preferred(w, n, i, c, i, j)
  {
    assert w.others(i, c) == c;
    SkippedShape(w, n, i, c);
    var more := Walk(w, n, i + 1, c).visits;
    j := FirstFresh(c, n, i + 1, w.now(i)).value;
    if j < i + 1 + |more| {
      FreshIsProcessed(w, n, i + 1, c, j, w.now(i));
      ProcessedLater(w, n, Skipped, more, i, j);
    } else {
      WalkShape(w, n, i + 1, c);
      assert ([Skipped] + more)[|more|] == more[|more| - 1];
    }
  }

  /** Alone, a tier is skipped only for a later tier that was fresh when it was skipped; and that tier is
      processed, unless the request ends at a tier in between. */
  lemma {:induction false} SkippedForAnother(w: World, n: nat, i: nat, c: Cooled, k: nat) returns (j: nat)
    requires Alone(w) && ClockRuns(w) && i <= k < i + |Walk(w, n, i, c).visits|
             && Walk(w, n, i, c).visits[k - i].Skipped?
    ensures Preferred(w, n, i, c, k, j)
    decreases n - i
  {
    var v := VisitAt(w, n, i, c);
    assert w.others(i, c) == c;
    if k == i {
      j := SkippedHere(w, n, i, c);
    } else {
      var after := CooledAfter(w, i, Considered(w, i, c), v);
      var more := Walk(w, n, i + 1, after).visits;
      assert Walk(w, n, i, c).visits == [v] + more;
      assert more[k - (i + 1)] == Walk(w, n, i, c).visits[k - i];
      j := SkippedForAnother(w, n, i + 1, after, k);
      PreferredLater(w, n, i, c, k, j);
    }
  }

  lemma PreferredLater(w: World, n: nat, i: nat, c: Cooled, k: nat, j: nat)
    requires i < k && i < n && !Stops(VisitAt(w, n, i, w.others(i, c)))
    requires Preferred(w, n, i + 1, CooledAfter(w, i, Considered(w, i, c), VisitAt(w, n, i, w.others(i, c))), k, j)
    ensures Preferred(w, n, i, c, k, j)
  {
    var v := VisitAt(w, n, i, w.others(i, c));
    var vs, more := Walk(w, n, i, c).visits, Walk(w, n, i + 1, CooledAfter(w, i, Considered(w, i, c), v)).visits;
    assert vs == [v] + more;
    assert SeenBy(w, n, i, c, k) == SeenBy(w, n, i + 1, CooledAfter(w, i, Considered(w, i, c), v), k);
    if j < i + |vs| {
      assert vs[j - i] == more[j - (i + 1)];
    } else {
      assert vs[|vs| - 1] == more[|more| - 1];
    }
  }

  // ----- The request loop -----

  class ComboUpstream {
    const tiers: nat
    var cooled: Cooled

    constructor (n: nat)
      ensures tiers == n && cooled == map[]
    {
      tiers, cooled := n, map[];
    }

    method InCooldown(i: nat, now: int) returns (r: bool)
      modifies this`cooled
      ensures r == !Fresh(old(cooled), i, now) && cooled == Expire(old(cooled), i, now)
    {
      if i !in cooled {
        return false;
      }
      if now > cooled[i] {
        cooled := cooled - {i};
        return false;
      }
      return true;
    }

    method HasFreshTierFrom(from: nat, now: int) returns (r: bool)
      ensures r == FirstFresh(cooled, tiers, from, now).Some?
    {
      var j := from;
      while j < tiers
        invariant from <= j
        invariant FirstFresh(cooled, tiers, from, now).Some? == FirstFresh(cooled, tiers, j, now).Some?
      {
        if Fresh(cooled, j, now) {
          return true;
        }
        j := j + 1;
      }
      return false;
    }

    /** Up to two calls to one tier. */
    method CallTier(w: World, i: nat) returns (reply: Reply, calls: nat)
      ensures calls == CallsMade(w, i) && reply == LastReply(w, i)
    {
      reply, calls := Failed, 0;
      for attempt := 0 to 2
        invariant calls == attempt
        invariant attempt > 0 ==> reply == w.reply(i, attempt - 1)
        invariant attempt > 0 ==> !w.reply(i, 0).Responded? && !w.goneEarly(i)
      {
        reply := w.reply(i, attempt);
        calls := calls + 1;
        if reply.Responded? {
          break;
        }
        if attempt == 0 && w.goneEarly(i) {
          break;
        }
      }
    }

    /** One turn of the loop. */
    method VisitTier(w: World, i: nat) returns (v: Visit)
      requires i < tiers
      modifies this`cooled
      ensures v == VisitAt(w, tiers, i, w.others(i, old(cooled)))
      ensures cooled == CooledAfter(w, i, Considered(w, i, old(cooled)), v)
    {
      cooled := w.others(i, cooled);
      var cold := InCooldown(i, w.now(i));
      var freshBelow := HasFreshTierFrom(i + 1, w.now(i));
      if cold && freshBelow {
        return Skipped;
      }
      if !w.prepares(i) {
        return Unprepared;
      }
      var reply, calls := CallTier(w, i);
      cooled := w.meanwhile(i, cooled);
      if reply.Responded? && !(reply.resp.retryable && i < tiers - 1) {
        cooled := cooled - {i};
        return Serving(reply.resp, calls);
      }
      if reply.Failed? && (w.goneEarly(i) || w.goneLate(i)) {
        return Abandoned(calls);
      }
      cooled := cooled[i := w.markedAt(i) + TTL];
      v := match reply
        case Failed => Faulted(calls)
        case Empty => Silent(calls)
        case Responded(resp) => Discarded(resp, calls);
    }

    method ChatCompletion(w: World) returns (answer: Answer, calls: nat, closed: seq<Resp>, ghost visits: seq<Visit>)
      modifies this`cooled
      ensures visits == Walk(w, tiers, 0, old(cooled)).visits && cooled == Walk(w, tiers, 0, old(cooled)).cooled
      ensures answer == AnswerOf(visits) && calls == TotalCalls(visits) && closed == Closed(visits)
    {
      answer, calls, closed, visits := NothingTried, 0, [], [];
      for i := 0 to tiers
        invariant |visits| == i && calls == TotalCalls(visits) && closed == Closed(visits)
        invariant answer == AnswerOf(visits)
        invariant var r := Walk(w, tiers, i, cooled);
                  Walk(w, tiers, 0, old(cooled)) == Walked(visits + r.visits, r.cooled)
      {
        ghost var done, before := visits, cooled;
        var v := VisitTier(w, i);
        WalkTurn(w, tiers, i, before, done);
        Visited(done, v);
        visits := done + [v];
        match v {
          case Serving(resp, n) => return Response(i, resp), calls + n, closed, visits;
          case Abandoned(n) => return ClientGone(i), calls + n, closed, visits;
          case Discarded(resp, n) => calls, closed, answer := calls + n, closed + [resp], Error(i);
          case Faulted(n) => calls, answer := calls + n, Error(i);
          case Silent(n) => calls, answer := calls + n, Error(i);
          case Unprepared => answer := Error(i);
          case Skipped => answer := NothingTried;
        }
      }
    }
  }
}
