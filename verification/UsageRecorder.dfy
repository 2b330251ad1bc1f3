/** The client-key usage recorder (internal/infrastructure/registry/apikeys.go): enqueued uses are
    counted in batches and added to the rows of their keys. Enqueuing callers, the recorder's loop,
    `Close` and the administrators interleave step by step. */
module UsageRecorder {
  import opened Basics

  const QUEUE_SIZE: nat := 1024
  const BATCH_SIZE: nat := 64

  type Hash = string

  /** How far a call of `Enqueue` has come: past the closed check, returned nil, or returned an error. */
  datatype Outcome = Checked | Accepted | Refused

  datatype Call = Call(hash: Hash, outcome: Outcome)

  /** `rows` is the use count of every key row. The last three are history: uses counted for a row that
      was deleted since, uses of a hash without a row, and uses in batches that failed. */
  datatype State = State(
    queue: seq<Hash>,
    pending: map<Hash, nat>,
    closed: bool,
    done: bool,
    rows: map<Hash, nat>,
    calls: map<nat, Call>,
    deleted: Hash -> nat,
    unmatched: Hash -> nat,
    lost: Hash -> nat)

  datatype Event =
    | Check(e: nat, hash: Hash)
    | Send(e: nat)
    | GiveUp(e: nat)
    | Close
    | Receive(fails: bool)
    | Tick(fails: bool)
    | Finish(fails: bool)
    | CreateRow(hash: Hash)
    | DeleteRow(hash: Hash)

  function Of(m: map<Hash, nat>, h: Hash): nat {
    if h in m then m[h] else 0
  }

  function Occurs(q: seq<Hash>, h: Hash): nat {
    if q == [] then 0 else (if q[0] == h then 1 else 0) + Occurs(q[1..], h)
  }

  /** The batch is added to the rows that exist. */
  function Credited(rows: map<Hash, nat>, batch: map<Hash, nat>): map<Hash, nat> {
    map h | h in rows :: rows[h] + Of(batch, h)
  }

  /** A history count that grows by the batch, but for the hashes in `except`. */
  function Grown(count: Hash -> nat, batch: map<Hash, nat>, except: set<Hash>): Hash -> nat {
    (h: Hash) => count(h) + if h in except then 0 else Of(batch, h)
  }

  /** One transaction for the batch, which is gone afterwards whether it committed or not. */
  function Flush(s: State, fails: bool): State {
    if fails then s.(pending := map[], lost := Grown(s.lost, s.pending, {}))
    else s.(pending := map[], rows := Credited(s.rows, s.pending),
            unmatched := Grown(s.unmatched, s.pending, s.rows.Keys))
  }

  function Take(s: State): State
    requires s.queue != []
  {
    var h := s.queue[0];
    s.(queue := s.queue[1..], pending := s.pending[h := Of(s.pending, h) + 1])
  }

  function Received(s: State, fails: bool): State
    requires s.queue != []
  {
    if |Take(s).pending| >= BATCH_SIZE then Flush(Take(s), fails) else Take(s)
  }

  predicate Possible(s: State, e: Event) {
    match e
    case Check(n, _) => n !in s.calls
    case Send(n) => n in s.calls && s.calls[n].outcome == Checked && (s.closed || |s.queue| < QUEUE_SIZE)
    case GiveUp(n) => n in s.calls && s.calls[n].outcome == Checked
    case Close => true
    case Receive(_) => !s.done && s.queue != []
    case Tick(_) => !s.done
    case Finish(_) => !s.done && s.closed && s.queue == []
    case CreateRow(h) => h !in s.rows
    case DeleteRow(h) => h in s.rows
  }

  function Returns(s: State, n: nat, o: Outcome): State
    requires n in s.calls
  {
    s.(calls := s.calls[n := s.calls[n].(outcome := o)])
  }

  function Next(s: State, e: Event): State
    requires Possible(s, e)
  {
    match e
    case Check(n, h) => s.(calls := s.calls[n := Call(h, if s.closed then Refused else Checked)])
    case Send(n) =>
      if s.closed then Returns(s, n, Refused)
      else Returns(s, n, Accepted).(queue := s.queue + [s.calls[n].hash])
    case GiveUp(n) => Returns(s, n, Refused)
    case Close => s.(closed := true)
    case Receive(fails) => Received(s, fails)
    case Tick(fails) => Flush(s, fails)
    case Finish(fails) => Flush(s, fails).(done := true)
    case CreateRow(h) => s.(rows := s.rows[h := 0])
    case DeleteRow(h) => s.(rows := s.rows - {h}, deleted := k => s.deleted(k) + if k == h then s.rows[h] else 0)
  }

  ghost predicate Runs(s: State, es: seq<Event>, after: State)
    decreases |es|
  {
    if es == [] then after == s
    else Possible(s, es[0]) && Runs(Next(s, es[0]), es[1..], after)
  }

  ghost predicate Fresh(s: State) {
    && s.queue == [] && s.pending == map[] && !s.closed && !s.done && s.calls == map[]
    && (forall h :: h in s.rows ==> s.rows[h] == 0)
    && (forall h :: s.deleted(h) == 0 && s.unmatched(h) == 0 && s.lost(h) == 0)
  }

  // ----- Conservation -----

  function AcceptedCalls(calls: map<nat, Call>, h: Hash): set<nat> {
    set n | n in calls && calls[n] == Call(h, Accepted)
  }

  /** Where the accepted uses of a hash are. */
  function Whereabouts(s: State, h: Hash): nat {
    Of(s.rows, h) + s.deleted(h) + s.unmatched(h) + s.lost(h) + Of(s.pending, h) + Occurs(s.queue, h)
  }

  ghost predicate Conserved(s: State) {
    forall h :: |AcceptedCalls(s.calls, h)| == Whereabouts(s, h)
  }

  ghost predicate Bounded(s: State) {
    && |s.queue| <= QUEUE_SIZE && |s.pending| < BATCH_SIZE
    && (s.done ==> s.closed && s.queue == [] && s.pending == map[])
  }

  ghost predicate Inv(s: State) {
    Conserved(s) && Bounded(s)
  }

  lemma {:induction false} OccursSnoc(q: seq<Hash>, x: Hash, h: Hash)
    ensures Occurs(q + [x], h) == Occurs(q, h) + if x == h then 1 else 0
  {
    if q == [] {
      assert q + [x] == [x] && [x][1..] == [];
    } else {
      OccursSnoc(q[1..], x, h);
      assert (q + [x])[1..] == q[1..] + [x];
    }
  }

  lemma FlushKeeps(s: State, fails: bool)
    requires Conserved(s)
    ensures Conserved(Flush(s, fails)) && Flush(s, fails).queue == s.queue
  {
    var n := Flush(s, fails);
    forall h ensures Whereabouts(n, h) == Whereabouts(s, h) {
      assert Of(n.pending, h) == 0;
      if !fails {
        assert Of(n.rows, h) == if h in s.rows then s.rows[h] + Of(s.pending, h) else 0;
      }
    }
  }

  lemma TakeKeeps(s: State)
    requires Conserved(s) && s.queue != []
    ensures Conserved(Take(s))
  {
    var n := Take(s);
    forall h ensures Whereabouts(n, h) == Whereabouts(s, h) {
    }
  }

  lemma TakeGrows(pending: map<Hash, nat>, h: Hash, n: nat)
    ensures |pending[h := n]| <= |pending| + 1
  {
    assert pending[h := n].Keys == pending.Keys + {h};
    assert |pending[h := n]| == |pending[h := n].Keys| && |pending| == |pending.Keys|;
  }

  lemma ReceiveKeeps(s: State, fails: bool)
    requires Inv(s) && !s.done && s.queue != []
    ensures Inv(Received(s, fails))
  {
    TakeKeeps(s);
    TakeGrows(s.pending, s.queue[0], Of(s.pending, s.queue[0]) + 1);
    if |Take(s).pending| >= BATCH_SIZE {
      FlushKeeps(Take(s), fails);
    }
  }

  /** A call that is not accepted leaves the accepted calls of every hash as they were. */
  lemma NotAccepted(calls: map<nat, Call>, n: nat, c: Call, h: Hash)
    requires c.outcome != Accepted && (n in calls ==> calls[n].outcome != Accepted)
    ensures AcceptedCalls(calls[n := c], h) == AcceptedCalls(calls, h)
  {
  }

  lemma SendAccepts(calls: map<nat, Call>, n: nat, h: Hash)
    requires n in calls && calls[n].outcome == Checked
    ensures var hash := calls[n].hash;
            |AcceptedCalls(calls[n := Call(hash, Accepted)], h)| ==
            |AcceptedCalls(calls, h)| + if h == hash then 1 else 0
  {
    var hash, was := calls[n].hash, AcceptedCalls(calls, h);
    assert n !in was;
    if h == hash {
      assert AcceptedCalls(calls[n := Call(hash, Accepted)], h) == was + {n};
    } else {
      assert AcceptedCalls(calls[n := Call(hash, Accepted)], h) == was;
    }
  }

  lemma SendKeeps(s: State, n: nat)
    requires Inv(s) && Possible(s, Send(n)) && !s.closed
    ensures Inv(Next(s, Send(n)))
  {
    var hash, t := s.calls[n].hash, Next(s, Send(n));
    assert t.calls == s.calls[n := Call(hash, Accepted)];
    forall h ensures |AcceptedCalls(t.calls, h)| == Whereabouts(t, h) {
      OccursSnoc(s.queue, hash, h);
      SendAccepts(s.calls, n, h);
      assert |AcceptedCalls(s.calls, h)| == Whereabouts(s, h);
    }
  }

  lemma RowsKeep(s: State, e: Event)
    requires Inv(s) && Possible(s, e) && (e.CreateRow? || e.DeleteRow?)
    ensures Inv(Next(s, e))
  {
    var t := Next(s, e);
    forall h ensures Whereabouts(t, h) == Whereabouts(s, h) {
    }
  }

  lemma RefusalKeeps(s: State, n: nat, c: Call)
    requires Inv(s) && c.outcome != Accepted && (n in s.calls ==> s.calls[n].outcome == Checked)
    ensures Inv(s.(calls := s.calls[n := c]))
  {
    var t := s.(calls := s.calls[n := c]);
    forall h ensures |AcceptedCalls(t.calls, h)| == Whereabouts(t, h) {
      NotAccepted(s.calls, n, c, h);
      assert Whereabouts(t, h) == Whereabouts(s, h);
    }
  }

  lemma StepKeeps(s: State, e: Event)
    requires Inv(s) && Possible(s, e)
    ensures Inv(Next(s, e))
  {
    match e
    case Check(n, h) => RefusalKeeps(s, n, Call(h, if s.closed then Refused else Checked));
    case Send(n) =>
      if s.closed {
        RefusalKeeps(s, n, s.calls[n].(outcome := Refused));
      } else {
        SendKeeps(s, n);
      }
    case GiveUp(n) => RefusalKeeps(s, n, s.calls[n].(outcome := Refused));
    case Close => assert forall h :: Whereabouts(Next(s, e), h) == Whereabouts(s, h);
    case Receive(fails) => ReceiveKeeps(s, fails);
    case Tick(fails) => FlushKeeps(s, fails);
    case Finish(fails) =>
      FlushKeeps(s, fails);
      assert forall h :: Whereabouts(Next(s, e), h) == Whereabouts(Flush(s, fails), h);
    case CreateRow(_) => RowsKeep(s, e);
    case DeleteRow(_) => RowsKeep(s, e);
  }

  lemma {:induction false} RunKeeps(s: State, es: seq<Event>, after: State)
    requires Inv(s) && Runs(s, es, after)
    ensures Inv(after)
    decreases |es|
  {
    if es != [] {
      StepKeeps(s, es[0]);
      RunKeeps(Next(s, es[0]), es[1..], after);
    }
  }

  /** In every reachable state the calls of `Enqueue` that returned nil, and no others, are accounted
      for: counted in a row, pending, queued, or lost with a deleted row, an unknown hash or a failed
      batch. Once `Close` has returned nothing is queued or pending, for good. */
  lemma UsageConserved(s: State, es: seq<Event>, after: State, h: Hash)
    requires Fresh(s) && Runs(s, es, after)
    ensures |AcceptedCalls(after.calls, h)| == Whereabouts(after, h)
    ensures |after.queue| <= QUEUE_SIZE && |after.pending| < BATCH_SIZE
    ensures after.done ==> after.queue == [] && after.pending == map[]
  {
    assert Conserved(s) by {
      forall k ensures |AcceptedCalls(s.calls, k)| == Whereabouts(s, k) {
        assert AcceptedCalls(s.calls, k) == {};
      }
    }
    RunKeeps(s, es, after);
  }

  // ----- The recorder's own loop -----

  /** The body of the batch transaction: one update per pending hash, in any order. */
  method CreditRows(rows: map<Hash, nat>, batch: map<Hash, nat>) returns (r: map<Hash, nat>)
    ensures r == Credited(rows, batch)
  {
    r := rows;
    var left := batch.Keys;
    while left != {}
      invariant left <= batch.Keys && r.Keys == rows.Keys
      invariant forall h :: h in rows ==> r[h] == rows[h] + if h in left then 0 else Of(batch, h)
      decreases left
    {
      var h :| h in left;
      if h in r {
        r := r[h := r[h] + batch[h]];
      }
      left := left - {h};
    }
  }

  class Recorder {
    var queue: seq<Hash>
    var pending: map<Hash, nat>
    var closed: bool
    var done: bool
    var rows: map<Hash, nat>
    ghost var calls: map<nat, Call>
    ghost var deleted: Hash -> nat
    ghost var unmatched: Hash -> nat
    ghost var lost: Hash -> nat

    ghost function View(): State
      reads this
    {
      State(queue, pending, closed, done, rows, calls, deleted, unmatched, lost)
    }

    method FlushPending(fails: bool)
      modifies this`pending, this`rows, this`unmatched, this`lost
      ensures View() == Flush(old(View()), fails)
    {
      if fails {
        lost := Grown(lost, pending, {});
      } else {
        unmatched := Grown(unmatched, pending, rows.Keys);
        rows := CreditRows(rows, pending);
      }
      pending := map[];
    }

    method ReceiveOne(fails: bool)
      requires queue != []
      modifies this`queue, this`pending, this`rows, this`unmatched, this`lost
      ensures View() == Received(old(View()), fails)
    {
      var h := queue[0];
      queue := queue[1..];
      pending := pending[h := Of(pending, h) + 1];
      if |pending| >= BATCH_SIZE {
        FlushPending(fails);
      }
    }

    /** What the loop does after `Close`: it empties the queue, flushes what is pending and is done. */
    method Drain(fails: bool)
      requires closed && !done && Inv(View())
      modifies this`queue, this`pending, this`rows, this`unmatched, this`lost, this`done
      ensures Inv(View()) && done && queue == [] && pending == map[]
    {
      while queue != []
        invariant Inv(View()) && !done && closed == old(closed)
        decreases |queue|
      {
        ReceiveKeeps(View(), fails);
        ReceiveOne(fails);
      }
      StepKeeps(View(), Finish(fails));
      FlushPending(fails);
      done := true;
    }
  }
}
