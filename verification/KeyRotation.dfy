/** API-key rotation and the 429 retry loop (internal/infrastructure/upstream/client.go). One client,
    one thread, no relay, and a clock that stands still during a request, so that no cooldown runs out
    halfway. */
module KeyRotation {
  import opened Basics

  const WORD: nat := 0x1_0000_0000_0000_0000

  /** The rotation counter, a 64-bit word, and the cooldown of every limited key. */
  datatype Rotation = Rotation(counter: nat, until: map<string, int>)

  /** A key is limited up to and including the end of its cooldown. */
  predicate Limited(until: map<string, int>, key: string, now: int) {
    key in until && now <= until[key]
  }

  /** `isLimited` forgets a cooldown that has run out. */
  function Checked(until: map<string, int>, key: string, now: int): map<string, int> {
    if key in until && now > until[key] then until - {key} else until
  }

  lemma CheckingChangesNothing(until: map<string, int>, key: string, now: int, other: string)
    ensures Limited(Checked(until, key, now), other, now) == Limited(until, other, now)
  {
  }

  /** Adding one to a 64-bit word, which wraps around. */
  function Tick(counter: nat): nat {
    if counter + 1 < WORD then counter + 1 else 0
  }

  datatype Pick = Pick(index: nat, rotation: Rotation)

  /** Up to `tries` positions are tried in turn; the next one is taken anyway. */
  function Scan(keys: seq<string>, r: Rotation, now: int, tries: nat): (p: Pick)
    requires keys != []
    ensures p.index < |keys|
    decreases tries
  {
    var i, next := r.counter % |keys|, Tick(r.counter);
    if tries == 0 then Pick(i, r.(counter := next))
    else if !Limited(r.until, keys[i], now) then Pick(i, Rotation(next, Checked(r.until, keys[i], now)))
    else Scan(keys, r.(counter := next), now, tries - 1)
  }

  /** `currentKey` on at least one key; a single key is used whatever its state. */
  function CurrentKey(keys: seq<string>, r: Rotation, now: int): (p: Pick)
    requires keys != []
    ensures p.index < |keys|
  {
    if |keys| == 1 then Pick(0, r) else Scan(keys, r, now, |keys|)
  }

  predicate Distinct(keys: seq<string>) {
    forall i, j :: 0 <= i < j < |keys| ==> keys[i] != keys[j]
  }

  function Free(keys: seq<string>, until: map<string, int>, now: int): set<nat> {
    set i: nat | i < |keys| && !Limited(until, keys[i], now)
  }

  // ----- Positions and keys -----

  /** The counter `d` ticks after `c`. */
  function At(c: nat, d: nat): nat {
    if c + d < WORD then c + d else c + d - WORD
  }

  lemma {:induction false} Multiples(a: nat, b: nat, n: nat)
    ensures a < b ==> a * n + n <= b * n
    decreases b
  {
    if a < b {
      Multiples(a, b - 1, n);
      assert b * n == (b - 1) * n + n;
    }
  }

  lemma Unique(n: nat, x: nat, q: nat, r: nat)
    requires n > 0 && r < n && x == q * n + r
    ensures x % n == r
  {
    var p, s := x / n, x % n;
    assert x == p * n + s;
    Multiples(p, q, n);
    Multiples(q, p, n);
  }

  /** The remainder `d` further on, for `d` up to the divisor. */
  lemma Ahead(n: nat, c: nat, d: nat)
    requires n > 0 && d <= n
    ensures (c + d) % n == if c % n + d < n then c % n + d else c % n + d - n
  {
    var q, r := c / n, c % n;
    assert c + d == q * n + (r + d);
    if r + d < n {
      Unique(n, c + d, q, r + d);
    } else {
      assert q * n + (r + d) == (q + 1) * n + (r + d - n);
      Unique(n, c + d, q + 1, r + d - n);
    }
  }

  /** The remainder `t` further back, for `t` up to the divisor. */
  lemma Back(n: nat, x: nat, t: nat)
    requires n > 0 && t <= n && t <= x
    ensures (x - t) % n == if t <= x % n then x % n - t else x % n - t + n
  {
    Ahead(n, x - t, t);
  }

  /** The key at a position of a rotation that wraps on the way. */
  lemma Wrapped(n: nat, c: nat, d: nat)
    requires 2 <= n <= WORD < c + n && c < WORD && d <= n
    ensures var w, r := WORD - c, WORD % n;
            At(c, d) % n == if d >= w then d - w else if w - d <= r then r - (w - d) else r - (w - d) + n
  {
    var w := WORD - c;
    if d >= w {
      Unique(n, d - w, 0, d - w);
    } else {
      Back(n, WORD, w - d);
      assert At(c, d) == WORD - (w - d);
    }
  }

  /** How far from position `c` a key comes up in the rotation. */
  function Distance(n: nat, c: nat, i: nat): (d: nat)
    requires i < n
    ensures d < n && (c + d) % n == i
  {
    var r := c % n;
    var d := if i >= r then i - r else n - r + i;
    Ahead(n, c, d);
    d
  }

  /** Key `i` of `n` comes up within `m` positions from `c` on. */
  ghost predicate ComesUp(n: nat, c: nat, m: nat, i: nat)
    requires n > 0
  {
    exists d: nat :: d < m && At(c, d) % n == i
  }

  /** The rotation from `c` on meets every key within one position more than there are keys: it does
      not wrap, or wraps at once, or hardly breaks step at the wrap. */
  predicate Meets(n: nat, c: nat)
    requires n > 0
  {
    c + n <= WORD || c == WORD - 1 || WORD % n <= 1
  }

  lemma EveryKeyComesUp(n: nat, c: nat, i: nat)
    requires 2 <= n <= WORD && c < WORD && i < n && Meets(n, c)
    ensures ComesUp(n, c, n + 1, i)
  {
    if c + n <= WORD {
      var d := Distance(n, c, i);
      assert At(c, d) % n == i;
    } else {
      var w, r := WORD - c, WORD % n;
      var d := if i <= n - w then w + i else w - (n - i) - r;
      Wrapped(n, c, d);
      assert At(c, d) % n == i;
    }
  }

  /** Where the rotation breaks step at the wrap, this key falls into the gap. */
  function Gap(n: nat, c: nat): nat
    requires n > 0 && !Meets(n, c) && c < WORD
  {
    var r, w := WORD % n, WORD - c;
    if r >= w then n - 1 else n - (w - r + 1)
  }

  lemma GapIsMissed(n: nat, c: nat, d: nat)
    requires 2 <= n <= WORD && c < WORD && !Meets(n, c) && d <= n
    ensures Gap(n, c) < n && At(c, d) % n != Gap(n, c)
  {
    Wrapped(n, c, d);
  }

  // ----- Picking a key -----

  /** The scan takes the first free position, or the one after the last try. */
  lemma {:induction false} ScanTakes(keys: seq<string>, r: Rotation, now: int, tries: nat) returns (e: nat)
    requires keys != [] && r.counter < WORD && tries <= WORD
    ensures e <= tries && forall d: nat :: d < e ==> Limited(r.until, keys[At(r.counter, d) % |keys|], now)
    ensures var p := Scan(keys, r, now, tries);
            && p.index == At(r.counter, e) % |keys| && p.rotation.counter == Tick(At(r.counter, e))
            && (e < tries ==>
                !Limited(r.until, keys[p.index], now) && p.rotation.until == Checked(r.until, keys[p.index], now))
            && (e == tries ==> p.rotation.until == r.until)
    decreases tries
  {
    if tries == 0 || !Limited(r.until, keys[r.counter % |keys|], now) {
      e := 0;
    } else {
      var next := r.(counter := Tick(r.counter));
      var f := ScanTakes(keys, next, now, tries - 1);
      e := f + 1;
      assert forall d: nat :: d < e ==> At(next.counter, d) == At(r.counter, d + 1);
      forall d: nat | d < e ensures Limited(r.until, keys[At(r.counter, d) % |keys|], now) {
        assert d > 0 ==> At(r.counter, d) == At(next.counter, d - 1);
      }
    }
  }

  /** A pick is free if some free key comes up in time. */
  lemma PickIsFree(keys: seq<string>, r: Rotation, now: int, i: nat)
    requires 2 <= |keys| <= WORD && r.counter < WORD && i in Free(keys, r.until, now)
    requires forall j: nat :: j in Free(keys, r.until, now) ==> ComesUp(|keys|, r.counter, |keys| + 1, j)
    ensures CurrentKey(keys, r, now).index in Free(keys, r.until, now)
  {
    var e := ScanTakes(keys, r, now, |keys|);
    var d: nat :| d < |keys| + 1 && At(r.counter, d) % |keys| == i;
  }

  /** Whatever the cooldowns, a free key is picked whenever there is one. */
  ghost predicate PicksFree(keys: seq<string>, c: nat)
    requires keys != []
  {
    forall until, now :: Free(keys, until, now) != {} ==>
      CurrentKey(keys, Rotation(c, until), now).index in Free(keys, until, now)
  }

  /** Cooldowns that leave one key free. */
  function AllBut(keys: seq<string>, i: nat): map<string, int>
    requires i < |keys|
  {
    map k | k in keys && k != keys[i] :: 0
  }

  lemma OnlyOneFree(keys: seq<string>, i: nat)
    requires Distinct(keys) && i < |keys|
    ensures Free(keys, AllBut(keys, i), 0) == {i}
  {
    forall j: nat | j < |keys| ensures Limited(AllBut(keys, i), keys[j], 0) <==> j != i {
      assert keys[j] in keys;
    }
  }

  /** The pick that misses the key in the gap. */
  lemma GapIsNotPicked(keys: seq<string>, c: nat)
    requires 2 <= |keys| <= WORD && c < WORD && !Meets(|keys|, c) && Distinct(keys)
    ensures var m := Gap(|keys|, c);
            m < |keys| && Free(keys, AllBut(keys, m), 0) == {m}
            && CurrentKey(keys, Rotation(c, AllBut(keys, m)), 0).index != m
  {
    GapIsMissed(|keys|, c, 0);
    var m := Gap(|keys|, c);
    OnlyOneFree(keys, m);
    var e := ScanTakes(keys, Rotation(c, AllBut(keys, m)), 0, |keys|);
    GapIsMissed(|keys|, c, e);
  }

  /** A free key is picked whenever there is one, whatever the cooldowns, exactly when the rotation
      from the counter on meets every key. */
  lemma PicksFreeExactly(keys: seq<string>, c: nat)
    requires 2 <= |keys| <= WORD && Distinct(keys) && c < WORD
    ensures PicksFree(keys, c) <==> Meets(|keys|, c)
  {
    if Meets(|keys|, c) {
      forall until, now | Free(keys, until, now) != {}
        ensures CurrentKey(keys, Rotation(c, until), now).index in Free(keys, until, now)
      {
        PickMeets(keys, Rotation(c, until), now);
      }
    } else {
      GapIsNotPicked(keys, c);
      var until := AllBut(keys, Gap(|keys|, c));
      assert Free(keys, until, 0) != {};
    }
  }

  lemma PickMeets(keys: seq<string>, r: Rotation, now: int)
    requires 2 <= |keys| <= WORD && r.counter < WORD && Meets(|keys|, r.counter) && Free(keys, r.until, now) != {}
    ensures CurrentKey(keys, r, now).index in Free(keys, r.until, now)
  {
    forall j: nat | j in Free(keys, r.until, now) ensures ComesUp(|keys|, r.counter, |keys| + 1, j) {
      EveryKeyComesUp(|keys|, r.counter, j);
    }
    var i :| i in Free(keys, r.until, now);
    PickIsFree(keys, r, now, i);
  }

  /** For instance, with six keys and two ticks before the wrap, the sixth key is missed. */
  lemma WrapMissesFreeKey(keys: seq<string>)
    requires |keys| == 6 && Distinct(keys)
    ensures Free(keys, AllBut(keys, 5), 0) == {5} && CurrentKey(keys, Rotation(WORD - 2, AllBut(keys, 5)), 0).index != 5
  {
    assert WORD % 6 == 4;
    GapIsNotPicked(keys, WORD - 2);
  }

  // ----- Consecutive picks -----

  function Picks(keys: seq<string>, r: Rotation, now: int, m: nat): seq<nat>
    requires keys != []
    decreases m
  {
    if m == 0 then [] else
      var p := CurrentKey(keys, r, now);
      [p.index] + Picks(keys, p.rotation, now, m - 1)
  }

  lemma {:induction false} PicksInTurn(keys: seq<string>, r: Rotation, now: int, m: nat)
    requires 2 <= |keys| && m <= WORD && r.counter < WORD
    requires forall i :: 0 <= i < |keys| ==> !Limited(r.until, keys[i], now)
    ensures |Picks(keys, r, now, m)| == m
    ensures forall k :: 0 <= k < m ==> Picks(keys, r, now, m)[k] == At(r.counter, k) % |keys|
    decreases m
  {
    if m > 0 {
      var p := CurrentKey(keys, r, now);
      NextInTurn(keys, r, now);
      PicksInTurn(keys, p.rotation, now, m - 1);
      var rest := Picks(keys, p.rotation, now, m - 1);
      forall k | 0 <= k < m ensures ([p.index] + rest)[k] == At(r.counter, k) % |keys| {
        if k > 0 {
          assert At(p.rotation.counter, k - 1) == At(r.counter, k);
        }
      }
    }
  }

  lemma NextInTurn(keys: seq<string>, r: Rotation, now: int)
    requires |keys| >= 2 && r.counter < WORD && forall i :: 0 <= i < |keys| ==> !Limited(r.until, keys[i], now)
    ensures var p := CurrentKey(keys, r, now);
            && p.index == r.counter % |keys| && p.rotation.counter == Tick(r.counter)
            && forall i :: 0 <= i < |keys| ==> !Limited(p.rotation.until, keys[i], now)
  {
    var p := CurrentKey(keys, r, now);
    assert p == Scan(keys, r, now, |keys|);
    forall i | 0 <= i < |keys| ensures !Limited(p.rotation.until, keys[i], now) {
      CheckingChangesNothing(r.until, keys[p.index], now, keys[i]);
    }
  }

  /** Each of `n` keys occurs, and none twice. */
  predicate EachOnce(ps: seq<nat>, n: nat) {
    (forall i: nat :: i < n ==> i in ps) && (forall j, k :: 0 <= j < k < |ps| ==> ps[j] != ps[k])
  }

  /** With no cooldown, as many picks as there are keys use each key exactly once, if and only if the
      counter does not wrap on the way or the number of keys divides its range. */
  lemma EachKeyOnce(keys: seq<string>, r: Rotation, now: int)
    requires 2 <= |keys| <= WORD && r.counter < WORD && forall i :: 0 <= i < |keys| ==> !Limited(r.until, keys[i], now)
    ensures |Picks(keys, r, now, |keys|)| == |keys|
    ensures EachOnce(Picks(keys, r, now, |keys|), |keys|) <==> r.counter + |keys| <= WORD || WORD % |keys| == 0
  {
    var n, c, ps := |keys|, r.counter, Picks(keys, r, now, |keys|);
    PicksInTurn(keys, r, now, n);
    if c + n <= WORD {
      StraightOnce(ps, n, c);
    } else if WORD % n == 0 {
      WrappedOnce(ps, n, c);
    } else {
      WrappedTwice(ps, n, c);
    }
  }

  lemma StraightOnce(ps: seq<nat>, n: nat, c: nat)
    requires n > 0 && |ps| == n && c + n <= WORD && forall k :: 0 <= k < n ==> ps[k] == At(c, k) % n
    ensures EachOnce(ps, n)
  {
    forall i: nat | i < n ensures i in ps {
      assert ps[Distance(n, c, i)] == i;
    }
    forall j, k | 0 <= j < k < n ensures ps[j] != ps[k] {
      Ahead(n, c, j);
      Ahead(n, c, k);
    }
  }

  lemma WrappedOnce(ps: seq<nat>, n: nat, c: nat)
    requires 2 <= n <= WORD < c + n && c < WORD && WORD % n == 0
    requires |ps| == n && forall k :: 0 <= k < n ==> ps[k] == At(c, k) % n
    ensures EachOnce(ps, n)
  {
    var w := WORD - c;
    forall k | 0 <= k < n ensures ps[k] == if k < w then n - w + k else k - w {
      Wrapped(n, c, k);
    }
    forall i: nat | i < n ensures i in ps {
      assert ps[if i < n - w then w + i else i - (n - w)] == i;
    }
  }

  lemma WrappedTwice(ps: seq<nat>, n: nat, c: nat)
    requires 2 <= n <= WORD < c + n && c < WORD && WORD % n != 0
    requires |ps| == n && forall k :: 0 <= k < n ==> ps[k] == At(c, k) % n
    ensures !EachOnce(ps, n)
  {
    var w, r := WORD - c, WORD % n;
    Wrapped(n, c, w);
    assert ps[w] == 0;
    if r <= w {
      Wrapped(n, c, w - r);
      assert ps[w - r] == 0;
    } else {
      forall k | 0 <= k < n ensures ps[k] != n - 1 {
        Wrapped(n, c, k);
      }
      assert n - 1 !in ps;
    }
  }

  // ----- A request -----

  datatype Reply = TooManyRequests | Other | TransportError

  /** The keys a request tries, from attempt `a` on: every 429 but the last cools its key down. */
  function Attempts(keys: seq<string>, r: Rotation, now: int, ttl: int, reply: nat -> Reply, a: nat): seq<nat>
    requires keys != [] && a < |keys|
    decreases |keys| - a
  {
    var p := CurrentKey(keys, r, now);
    if reply(a) == TooManyRequests && |keys| > 1 && a + 1 < |keys| then
      [p.index] + Attempts(keys, Mark(p.rotation, keys[p.index], now, ttl), now, ttl, reply, a + 1)
    else [p.index]
  }

  function Mark(r: Rotation, key: string, now: int, ttl: int): Rotation {
    r.(until := r.until[key := now + ttl])
  }

  lemma MarkedIsNotFree(keys: seq<string>, until: map<string, int>, now: int, ttl: int, i: nat)
    requires Distinct(keys) && i < |keys| && ttl >= 0
    ensures Free(keys, Checked(until, keys[i], now)[keys[i] := now + ttl], now) == Free(keys, until, now) - {i}
    ensures Free(keys, until[keys[i] := now + ttl], now) == Free(keys, until, now) - {i}
  {
    var after, plain := Checked(until, keys[i], now)[keys[i] := now + ttl], until[keys[i] := now + ttl];
    forall j: nat | j < |keys|
      ensures Limited(after, keys[j], now) <==> j == i || Limited(until, keys[j], now)
      ensures Limited(plain, keys[j], now) <==> j == i || Limited(until, keys[j], now)
    {
      CheckingChangesNothing(until, keys[i], now, keys[j]);
    }
  }

  /** The first picks of a sequence, without repetition, are exactly the set `s`. */
  predicate StartsWithAll(ps: seq<nat>, s: set<nat>) {
    && |s| <= |ps|
    && (forall k :: 0 <= k < |s| ==> ps[k] in s)
    && (forall j, k :: 0 <= j < k < |s| ==> ps[j] != ps[k])
  }

  lemma AddFirst(ps: seq<nat>, s: set<nat>, i: nat)
    requires i in s && StartsWithAll(ps, s - {i})
    ensures StartsWithAll([i] + ps, s)
  {
    var qs := [i] + ps;
    assert |s - {i}| == |s| - 1;
    forall k | 0 <= k < |s| ensures qs[k] in s && (k > 0 ==> qs[k] != i) {
      if k > 0 {
        assert qs[k] == ps[k - 1] && ps[k - 1] in s - {i};
      }
    }
    forall j, k | 0 <= j < k < |s| ensures qs[j] != qs[k] {
      if j > 0 {
        assert qs[j] == ps[j - 1] && qs[k] == ps[k - 1];
      }
    }
  }

  /** Every key of a set comes up before the counter wraps. */
  ghost predicate StraightAhead(n: nat, free: set<nat>, c: nat)
    requires n > 0
  {
    forall i :: i in free ==> exists p: nat :: c <= p < WORD && p < c + n && p % n == i
  }

  /** From here on every pick is free, as long as a free key is left. */
  ghost predicate OnTrack(n: nat, free: set<nat>, c: nat)
    requires n > 0
  {
    c < WORD && (WORD % n <= 1 || c == WORD - 1 || StraightAhead(n, free, c))
  }

  lemma TrackStarts(n: nat, free: set<nat>, c: nat)
    requires n > 0 && c < WORD && Meets(n, c) && forall i :: i in free ==> i < n
    ensures OnTrack(n, free, c)
  {
    if c + n <= WORD {
      forall i | i in free ensures exists p: nat :: c <= p < WORD && p < c + n && p % n == i {
        var p := c + Distance(n, c, i);
        assert c <= p < WORD && p < c + n && p % n == i;
      }
    }
  }

  /** On track, a free key is picked, and what is left stays on track. */
  lemma TrackedPick(keys: seq<string>, r: Rotation, now: int)
    requires 2 <= |keys| <= WORD && OnTrack(|keys|, Free(keys, r.until, now), r.counter)
             && Free(keys, r.until, now) != {}
    ensures var p, free := CurrentKey(keys, r, now), Free(keys, r.until, now);
            && p.index in free && OnTrack(|keys|, free - {p.index}, p.rotation.counter)
            && (p.rotation.until == r.until || p.rotation.until == Checked(r.until, keys[p.index], now))
  {
    var n, p, free := |keys|, CurrentKey(keys, r, now), Free(keys, r.until, now);
    var e := ScanTakes(keys, r, now, n);
    if WORD % n <= 1 {
      PickMeets(keys, r, now);
    } else if r.counter == WORD - 1 {
      PickMeets(keys, r, now);
      EdgePick(keys, r, now, e);
    } else {
      StraightPick(keys, r, now, e);
    }
  }

  /** After a pick that starts at the last counter before the wrap, what is left lies straight ahead. */
  lemma EdgePick(keys: seq<string>, r: Rotation, now: int, e: nat)
    requires 2 <= |keys| <= WORD && r.counter == WORD - 1 && e <= |keys|
    requires forall d: nat :: d < e ==> Limited(r.until, keys[At(r.counter, d) % |keys|], now)
    ensures var n, free := |keys|, Free(keys, r.until, now);
            OnTrack(n, free - {At(r.counter, e) % n}, Tick(At(r.counter, e)))
  {
    var n, c, free, next := |keys|, r.counter, Free(keys, r.until, now), Tick(At(r.counter, e));
    Wrapped(n, c, e);
    forall i | i in free - {At(c, e) % n} ensures exists p: nat :: next <= p < WORD && p < next + n && p % n == i {
      Wrapped(n, c, i + 1);
      Unique(n, i, 0, i);
      assert next <= i < WORD && i < next + n && i % n == i;
    }
  }

  lemma StraightPick(keys: seq<string>, r: Rotation, now: int, e: nat)
    requires 2 <= |keys| <= WORD && r.counter < WORD && e <= |keys| && Free(keys, r.until, now) != {}
    requires StraightAhead(|keys|, Free(keys, r.until, now), r.counter)
    requires forall d: nat :: d < e ==> Limited(r.until, keys[At(r.counter, d) % |keys|], now)
    requires e < |keys| ==> !Limited(r.until, keys[At(r.counter, e) % |keys|], now)
    ensures var n, free := |keys|, Free(keys, r.until, now);
            At(r.counter, e) % n in free && OnTrack(n, free - {At(r.counter, e) % n}, Tick(At(r.counter, e)))
  {
    var n, c, free := |keys|, r.counter, Free(keys, r.until, now);
    var next := Tick(At(c, e));
    forall i | i in free ensures exists p: nat :: c + e <= p < WORD && p < c + n && p % n == i {
      var p: nat :| c <= p < WORD && p < c + n && p % n == i;
      assert At(c, p - c) == p;
    }
    var i :| i in free;
    var p: nat :| c + e <= p < WORD && p < c + n && p % n == i;
    assert At(c, e) == c + e && e < n;
    forall j | j in free - {At(c, e) % n} ensures exists q: nat :: next <= q < WORD && q < next + n && q % n == j {
      var q: nat :| c + e <= q < WORD && q < c + n && q % n == j;
      assert next <= q < WORD && q < next + n && q % n == j;
    }
  }

  /** From attempt `a` on, the free keys come first, each once. */
  lemma {:induction false} FreeKeysFirst(keys: seq<string>, r: Rotation, now: int, ttl: int, reply: nat -> Reply,
                                         a: nat)
    requires 2 <= |keys| <= WORD && Distinct(keys) && ttl >= 0 && a < |keys| && forall k :: reply(k) == TooManyRequests
    requires OnTrack(|keys|, Free(keys, r.until, now), r.counter) && |Free(keys, r.until, now)| <= |keys| - a
    ensures StartsWithAll(Attempts(keys, r, now, ttl, reply, a), Free(keys, r.until, now))
    decreases |keys| - a
  {
    var n, p, free := |keys|, CurrentKey(keys, r, now), Free(keys, r.until, now);
    if free != {} {
      TrackedPick(keys, r, now);
      assert |free - {p.index}| == |free| - 1;
      if a + 1 < n {
        var next := Mark(p.rotation, keys[p.index], now, ttl);
        MarkedIsNotFree(keys, r.until, now, ttl, p.index);
        FreeKeysFirst(keys, next, now, ttl, reply, a + 1);
        AddFirst(Attempts(keys, next, now, ttl, reply, a + 1), free, p.index);
      } else {
        AddFirst([], free, p.index);
      }
    }
  }

  /** A request that is always answered 429 makes exactly one attempt per key. */
  lemma {:induction false} OneAttemptPerKey(keys: seq<string>, r: Rotation, now: int, ttl: int, reply: nat -> Reply,
                                            a: nat)
    requires |keys| >= 2 && a < |keys| && forall k :: reply(k) == TooManyRequests
    ensures |Attempts(keys, r, now, ttl, reply, a)| == |keys| - a
    ensures Attempts(keys, r, now, ttl, reply, a)[0] == CurrentKey(keys, r, now).index
    decreases |keys| - a
  {
    if a + 1 < |keys| {
      var p := CurrentKey(keys, r, now);
      OneAttemptPerKey(keys, Mark(p.rotation, keys[p.index], now, ttl), now, ttl, reply, a + 1);
    }
  }

  /** Whatever the cooldowns, the first attempts use the keys not cooled down, once each. */
  ghost predicate TriesFreeFirst(keys: seq<string>, c: nat, ttl: int, reply: nat -> Reply)
    requires keys != []
  {
    forall until, now :: StartsWithAll(Attempts(keys, Rotation(c, until), now, ttl, reply, 0), Free(keys, until, now))
  }

  /** A request that is always answered 429 tries the keys not cooled down first, once each, exactly
      when the rotation from the counter on meets every key. */
  lemma RequestTriesFreeKeysFirst(keys: seq<string>, c: nat, ttl: int, reply: nat -> Reply)
    requires 2 <= |keys| <= WORD && Distinct(keys) && ttl >= 0 && c < WORD && forall k :: reply(k) == TooManyRequests
    ensures TriesFreeFirst(keys, c, ttl, reply) <==> Meets(|keys|, c)
  {
    if Meets(|keys|, c) {
      forall until, now
        ensures StartsWithAll(Attempts(keys, Rotation(c, until), now, ttl, reply, 0), Free(keys, until, now))
      {
        FewFree(keys, until, now);
        TrackStarts(|keys|, Free(keys, until, now), c);
        FreeKeysFirst(keys, Rotation(c, until), now, ttl, reply, 0);
      }
    } else {
      GapIsNotPicked(keys, c);
      var until := AllBut(keys, Gap(|keys|, c));
      OneAttemptPerKey(keys, Rotation(c, until), 0, ttl, reply, 0);
      assert !StartsWithAll(Attempts(keys, Rotation(c, until), 0, ttl, reply, 0), Free(keys, until, 0));
    }
  }

  lemma FewFree(keys: seq<string>, until: map<string, int>, now: int)
    ensures |Free(keys, until, now)| <= |keys|
  {
    SubsetSize(Free(keys, until, now), Below(|keys|));
  }

  function Below(n: nat): (s: set<nat>)
    ensures |s| == n && forall i: nat :: i in s <==> i < n
  {
    if n == 0 then {} else Below(n - 1) + {n - 1}
  }

  lemma {:induction false} SubsetSize(a: set<nat>, b: set<nat>)
    requires a <= b
    ensures |a| <= |b|
    decreases b
  {
    if x :| x in a {
      SubsetSize(a - {x}, b - {x});
    }
  }

  // ----- The client -----

  class HttpClient {
    const keys: seq<string>
    const ttl: int
    var nextKey: nat
    var until: map<string, int>

    constructor (apiKeys: seq<string>, cooldown: int)
      ensures keys == apiKeys && ttl == cooldown && View() == Rotation(0, map[])
    {
      keys, ttl, nextKey, until := apiKeys, cooldown, 0, map[];
    }

    function View(): Rotation
      reads this
    {
      Rotation(nextKey, until)
    }

    method IsLimited(key: string, now: int) returns (r: bool)
      modifies this`until
      ensures r == Limited(old(until), key, now) && until == Checked(old(until), key, now)
    {
      if key !in until {
        return false;
      }
      if now < until[key] {
        return true;
      }
      if now > until[key] {
        until := until - {key};
        return false;
      }
      return true;
    }

    method Current(now: int) returns (i: nat)
      requires keys != []
      modifies this`nextKey, this`until
      ensures Pick(i, View()) == CurrentKey(keys, old(View()), now)
    {
      if |keys| == 1 {
        return 0;
      }
      for t := 0 to |keys|
        invariant until == old(until)
        invariant Scan(keys, View(), now, |keys| - t) == CurrentKey(keys, old(View()), now)
      {
        i := nextKey % |keys|;
        nextKey := Tick(nextKey);
        var limited := IsLimited(keys[i], now);
        if !limited {
          return;
        }
      }
      i := nextKey % |keys|;
      nextKey := Tick(nextKey);
    }

    /** The attempt loop; `tried` is the keys used, in order. */
    method Do(now: int, reply: nat -> Reply) returns (last: Reply, tried: seq<nat>)
      requires keys != []
      modifies this`nextKey, this`until
      ensures tried == Attempts(keys, old(View()), now, ttl, reply, 0)
      ensures tried != [] && last == reply(|tried| - 1)
    {
      tried, last := [], Other;
      var attempt := 0;
      while true
        invariant 0 <= attempt < |keys| && |tried| == attempt
        invariant Attempts(keys, old(View()), now, ttl, reply, 0) ==
                  tried + Attempts(keys, View(), now, ttl, reply, attempt)
        decreases |keys| - attempt
      {
        ghost var before := tried;
        var i := Current(now);
        tried, last := tried + [i], reply(attempt);
        if last == TooManyRequests && |keys| > 1 && attempt + 1 < |keys| {
          until := until[keys[i] := now + ttl];
          attempt := attempt + 1;
          SeqAssoc(before, [i], Attempts(keys, View(), now, ttl, reply, attempt));
        } else {
          return;
        }
      }
    }
  }
}
