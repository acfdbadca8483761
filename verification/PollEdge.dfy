/**
  The same-thread edge (src/poll/edge/poll), and its agreement with the sync edge for one producer:
  a refusal flag against an epoch and a list of wakers.
  */
module PollEdge {
  import opened Basics
  import opened SyncEdge

  /** The cells both ends share. */
  datatype Cells = Cells(buffer: seq<Letter>, bound: Option<nat>, closed: bool, refused: bool,
      producer: Option<Waker>) {
    predicate IsFull() {
      bound.Some? && |buffer| >= bound.value
    }
  }

  /** What a pop finds. */
  datatype Popped = Got(m: Letter) | Empty | AtEnd

  function Send(c: Cells, m: Letter): (Answer, Cells) {
    if c.closed then (Refused, c)
    else if c.IsFull() then (if c.refused then Stuck else Full, c.(refused := true))
    else (Pushed, c.(buffer := c.buffer + [m]))
  }

  /** Takes the refusal flag; the producer woken, if one was refused and is scheduled. */
  function Forgive(c: Cells): (Cells, seq<Waker>) {
    (c.(refused := false), if c.refused && c.producer.Some? then [c.producer.value] else [])
  }

  function Receive(c: Cells): (Popped, Cells, seq<Waker>) {
    if c.buffer != [] then
      var (c', woken) := Forgive(c.(buffer := c.buffer[1..]));
      (Got(c.buffer[0]), c', woken)
    else (if c.closed then AtEnd else Empty, c, [])
  }

  /** The edge as an object. `consumerWakes` counts the consumer's wakes. */
  class Edge {
    var buffer: seq<Letter>
    const bound: Option<nat>
    var closed: bool
    var refused: bool
    var producer: Option<Waker>
    var consumerWakes: nat

    ghost function View(): Cells
      reads this
    {
      Cells(buffer, bound, closed, refused, producer)
    }

    constructor (bound: Option<nat>)
      ensures View() == Cells([], bound, false, false, None) && consumerWakes == 0
    {
      this.bound := bound;
      buffer, closed, refused, producer, consumerWakes := [], false, false, None, 0;
    }

    /** The consumer is woken exactly when a message landed. */
    method TryPush(m: Letter) returns (answer: Answer)
      modifies this
      ensures (answer, View()) == Send(old(View()), m)
      ensures consumerWakes == old(consumerWakes) + if answer.Pushed? then 1 else 0
    {
      if closed {
        return Refused;
      }
      if bound.Some? && |buffer| >= bound.value {
        var before := refused;
        refused := true;
        return if before then Stuck else Full;
      }
      buffer := buffer + [m];
      consumerWakes := consumerWakes + 1;
      answer := Pushed;
    }

    /** The consumer is woken at the first close only. */
    method CloseAndWake()
      modifies this
      ensures View() == old(View()).(closed := true)
      ensures consumerWakes == old(consumerWakes) + if old(closed) then 0 else 1
    {
      var before := closed;
      closed := true;
      if !before {
        consumerWakes := consumerWakes + 1;
      }
    }

    method Schedule(w: Waker)
      modifies this
      ensures View() == old(View()).(producer := Some(w)) && consumerWakes == old(consumerWakes)
    {
      producer := Some(w);
    }

    /** The next message, if any; the producer hears of the room only if it was refused. */
    method TryRecv() returns (popped: Popped, woken: seq<Waker>)
      modifies this
      ensures (popped, View(), woken) == Receive(old(View())) && consumerWakes == old(consumerWakes)
    {
      woken := [];
      if buffer != [] {
        popped := Got(buffer[0]);
        buffer := buffer[1..];
        if refused {
          refused := false;
          woken := WakeProducer();
        }
      } else if closed {
        popped := AtEnd;
      } else {
        popped := Empty;
      }
    }

    method CloseReceiver() returns (woken: seq<Waker>)
      modifies this
      ensures (View(), woken) == Forgive(old(View()).(closed := true)) && consumerWakes == old(consumerWakes)
    {
      closed := true;
      woken := [];
      if refused {
        refused := false;
        woken := WakeProducer();
      }
    }

    /** The producer's waker, if it has one, is called and stays bound. */
    method WakeProducer() returns (woken: seq<Waker>)
      modifies `producer
      ensures woken == (if producer.Some? then [producer.value] else []) && producer == old(producer)
    {
      var taken := producer;
      producer := None;
      producer := taken;
      woken := if taken.Some? then [taken.value] else [];
    }
  }

  // ---- against the sync edge ----

  const ONLY: HandleId := 0

  datatype Op = Try(m: Letter) | Pop | Close | Rebind(w: Waker)

  /** What the two ends see of a step: the push's answer, the pop's result, the producer's wakes. */
  datatype Seen = Seen(answer: Option<Answer>, popped: Option<Popped>, woken: seq<Waker>)

  function WakersOf(entries: seq<Entry>): (r: seq<Waker>)
    ensures |r| == |entries|
  {
    seq(|entries|, k requires 0 <= k < |entries| => entries[k].waker)
  }

  function SyncStep(i: Inner, h: Handle, op: Op): (Inner, Handle, Seen) {
    match op
    case Try(m) =>
      var (answer, h', i') := TryPush(i, h, ONLY, m);
      (i', h', Seen(Some(answer), None, []))
    case Pop =>
      if i.buffer != [] then (i.Drained(i.buffer[1..]), h, Seen(None, Some(Got(i.buffer[0])), WakersOf(i.refused)))
      else (i, h, Seen(None, Some(if i.closed then AtEnd else Empty), []))
    case Close => (i.Closed(), h, Seen(None, None, WakersOf(i.refused)))
    case Rebind(w) => (i, h.Schedule(w), Seen(None, None, []))
  }

  function PollStep(c: Cells, op: Op): (Cells, Seen) {
    match op
    case Try(m) =>
      var (answer, c') := Send(c, m);
      (c', Seen(Some(answer), None, []))
    case Pop =>
      var (popped, c', woken) := Receive(c);
      (c', Seen(None, Some(popped), woken))
    case Close =>
      var (c', woken) := Forgive(c.(closed := true));
      (c', Seen(None, None, woken))
    case Rebind(w) => (c.(producer := Some(w)), Seen(None, None, []))
  }

  /** The epoch says what the flag says, and the list what the flag and the binding say. */
  ghost predicate Alike(i: Inner, h: Handle, c: Cells) {
    && i.buffer == c.buffer && i.bound == c.bound && i.closed == c.closed && h.waker == c.producer && !h.released
    && (h.refusedAt.Some? ==> h.refusedAt.value <= i.progress)
    && (c.closed ==> !c.refused)
    && (c.refused ==> c.IsFull())
    && (!c.closed ==> (c.refused <==> h.refusedAt == Some(i.progress)))
    && WakersOf(i.refused) == (if c.refused && c.producer.Some? then [c.producer.value] else [])
  }

  /** A producer may rebind, but not to another waker while a refusal stands. */
  predicate Steady(c: Cells, op: Op) {
    op.Rebind? && c.refused ==> c.producer == Some(op.w)
  }

  lemma StepAlike(i: Inner, h: Handle, c: Cells, op: Op)
    requires Alike(i, h, c) && Steady(c, op)
    ensures var (i', h', seen) := SyncStep(i, h, op); var (c', seen') := PollStep(c, op);
      Alike(i', h', c') && seen == seen'
  {
    assert WakersOf([]) == [];
  }

  function SyncRun(i: Inner, h: Handle, ops: seq<Op>): seq<Seen>
    decreases |ops|
  {
    if ops == [] then []
    else
      var (i', h', seen) := SyncStep(i, h, ops[0]);
      [seen] + SyncRun(i', h', ops[1..])
  }

  function PollRun(c: Cells, ops: seq<Op>): seq<Seen>
    decreases |ops|
  {
    if ops == [] then []
    else
      var (c', seen) := PollStep(c, ops[0]);
      [seen] + PollRun(c', ops[1..])
  }

  predicate AllSteady(c: Cells, ops: seq<Op>)
    decreases |ops|
  {
    ops == [] || (Steady(c, ops[0]) && AllSteady(PollStep(c, ops[0]).0, ops[1..]))
  }

  lemma {:induction false} RunsAlike(i: Inner, h: Handle, c: Cells, ops: seq<Op>)
    requires Alike(i, h, c) && AllSteady(c, ops)
    ensures SyncRun(i, h, ops) == PollRun(c, ops)
    decreases |ops|
  {
    if ops != [] {
      var op := ops[0];
      StepAlike(i, h, c, op);
      var (i', h', seen) := SyncStep(i, h, op);
      RunsAlike(i', h', PollStep(c, op).0, ops[1..]);
    }
  }

  function NewInner(bound: Option<nat>): Inner {
    Inner([], false, false, bound, 0, 0, [])
  }

  const NEW_HANDLE: Handle := Handle(None, None, 0, false)

  function NewCells(bound: Option<nat>): Cells {
    Cells([], bound, false, false, None)
  }

  lemma NewAlike(bound: Option<nat>)
    ensures Alike(NewInner(bound), NEW_HANDLE, NewCells(bound))
  {
    assert WakersOf([]) == [];
  }

  /** From new edges of the same bound, every run of pushes, pops, closes and steady bindings
      answers and wakes alike. */
  lemma Bisimilar(bound: Option<nat>, ops: seq<Op>)
    requires AllSteady(NewCells(bound), ops)
    ensures SyncRun(NewInner(bound), NEW_HANDLE, ops) == PollRun(NewCells(bound), ops)
  {
    NewAlike(bound);
    RunsAlike(NewInner(bound), NEW_HANDLE, NewCells(bound), ops);
  }

  /** One step of each run. */
  lemma RunFirst(i: Inner, h: Handle, c: Cells, op: Op, rest: seq<Op>)
    ensures var (i', h', seen) := SyncStep(i, h, op); SyncRun(i, h, [op] + rest) == [seen] + SyncRun(i', h', rest)
    ensures var (c', seen) := PollStep(c, op); PollRun(c, [op] + rest) == [seen] + PollRun(c', rest)
  {
    assert ([op] + rest)[1..] == rest;
  }

  /** A push right behind a binding: seen alike if the binding is steady; else the sync edge, which
      forgot the refusal, answers Full, and the same-thread edge Stuck. */
  lemma UnsteadyDiffers(i: Inner, h: Handle, c: Cells, w: Waker, m: Letter)
    requires Alike(i, h, c)
    ensures var sync, poll := SyncRun(i, h, [Rebind(w), Try(m)]), PollRun(c, [Rebind(w), Try(m)]);
      && |sync| == |poll| == 2
      && (Steady(c, Rebind(w)) ==> sync == poll)
      && (!Steady(c, Rebind(w)) ==> sync[1].answer == Some(Full) && poll[1].answer == Some(Stuck) && sync != poll)
  {
    var (i1, h1, s1) := SyncStep(i, h, Rebind(w));
    var (c1, t1) := PollStep(c, Rebind(w));
    assert [Rebind(w), Try(m)] == [Rebind(w)] + ([Try(m)] + []);
    RunFirst(i, h, c, Rebind(w), [Try(m)] + []);
    RunFirst(i1, h1, c1, Try(m), []);
    if Steady(c, Rebind(w)) {
      StepAlike(i, h, c, Rebind(w));
      StepAlike(i1, h1, c1, Try(m));
    }
  }

  /** A push offered at the end of a run. */
  ghost predicate SeenAlike(i: Inner, h: Handle, c: Cells, ops: seq<Op>, m: Letter) {
    SyncRun(i, h, ops + [Try(m)]) == PollRun(c, ops + [Try(m)])
  }

  lemma SeenAlikeFirst(i: Inner, h: Handle, c: Cells, op: Op, rest: seq<Op>, m: Letter)
    requires Alike(i, h, c) && Steady(c, op)
    ensures var (i', h', _) := SyncStep(i, h, op);
      SeenAlike(i, h, c, [op] + rest, m) <==> SeenAlike(i', h', PollStep(c, op).0, rest, m)
  {
    StepAlike(i, h, c, op);
    var (i', h', seen) := SyncStep(i, h, op);
    assert [op] + rest + [Try(m)] == [op] + (rest + [Try(m)]);
    RunFirst(i, h, c, op, rest + [Try(m)]);
    var sync, poll := SyncRun(i', h', rest + [Try(m)]), PollRun(PollStep(c, op).0, rest + [Try(m)]);
    assert ([seen] + sync)[1..] == sync && ([seen] + poll)[1..] == poll;
  }

  /** An unsteady binding shows: some prefix of the run, with a push behind it, is seen apart. */
  lemma {:induction false} UnsteadyShows(i: Inner, h: Handle, c: Cells, ops: seq<Op>, m: Letter) returns (k: nat)
    requires Alike(i, h, c) && !AllSteady(c, ops)
    ensures k <= |ops| && !SeenAlike(i, h, c, ops[..k], m)
    decreases |ops|
  {
    var op, rest := ops[0], ops[1..];
    if Steady(c, op) {
      StepAlike(i, h, c, op);
      var (i', h', _) := SyncStep(i, h, op);
      var j := UnsteadyShows(i', h', PollStep(c, op).0, rest, m);
      k := j + 1;
      assert ops[..k] == [op] + rest[..j];
      SeenAlikeFirst(i, h, c, op, rest[..j], m);
    } else {
      k := 1;
      assert ops[..1] + [Try(m)] == [op, Try(m)];
      UnsteadyDiffers(i, h, c, op.w, m);
    }
  }

  lemma {:induction false} SteadyMore(c: Cells, ops: seq<Op>, k: nat, m: Letter)
    requires AllSteady(c, ops) && k <= |ops|
    ensures AllSteady(c, ops[..k] + [Try(m)])
    decreases |ops|
  {
    if k == 0 {
      assert ops[..k] + [Try(m)] == [Try(m)];
      assert [Try(m)][1..] == [];
    } else {
      SteadyMore(PollStep(c, ops[0]).0, ops[1..], k - 1, m);
      assert (ops[..k] + [Try(m)])[1..] == ops[1..][..k - 1] + [Try(m)];
    }
  }

  /** The exact condition: the bindings of a run are steady if and only if no push, offered at any
      point of the run, tells the edges apart. */
  lemma AlikeExactly(i: Inner, h: Handle, c: Cells, ops: seq<Op>, m: Letter)
    requires Alike(i, h, c)
    ensures AllSteady(c, ops) <==> forall k: nat :: k <= |ops| ==> SeenAlike(i, h, c, ops[..k], m)
  {
    if AllSteady(c, ops) {
      forall k: nat | k <= |ops| ensures SeenAlike(i, h, c, ops[..k], m) {
        SteadyMore(c, ops, k, m);
        RunsAlike(i, h, c, ops[..k] + [Try(m)]);
      }
    } else {
      var k := UnsteadyShows(i, h, c, ops, m);
    }
  }

  /** From new edges of the same bound, for every run. */
  lemma BisimilarExactly(bound: Option<nat>, ops: seq<Op>, m: Letter)
    ensures AllSteady(NewCells(bound), ops) <==>
            forall k: nat :: k <= |ops| ==> SeenAlike(NewInner(bound), NEW_HANDLE, NewCells(bound), ops[..k], m)
  {
    NewAlike(bound);
    AlikeExactly(NewInner(bound), NEW_HANDLE, NewCells(bound), ops, m);
  }

  /** A failing run from new edges: the producer binds its first waker after a refusal. */
  lemma LateBindingShows(w: Waker, m: Letter)
    ensures var ops := [Try(m), Try(m), Rebind(w), Try(m)];
      && Answers(SyncRun(NewInner(Some(1)), NEW_HANDLE, ops)) == [Some(Pushed), Some(Full), None, Some(Full)]
      && Answers(PollRun(NewCells(Some(1)), ops)) == [Some(Pushed), Some(Full), None, Some(Stuck)]
  {
    var i0, h0, c0 := NewInner(Some(1)), NEW_HANDLE, NewCells(Some(1));
    var (i1, h1, s1) := SyncStep(i0, h0, Try(m));
    var (i2, h2, s2) := SyncStep(i1, h1, Try(m));
    var (i3, h3, s3) := SyncStep(i2, h2, Rebind(w));
    var (i4, h4, s4) := SyncStep(i3, h3, Try(m));
    var (c1, t1) := PollStep(c0, Try(m));
    var (c2, t2) := PollStep(c1, Try(m));
    var (c3, t3) := PollStep(c2, Rebind(w));
    var (c4, t4) := PollStep(c3, Try(m));
    assert [Try(m), Try(m), Rebind(w), Try(m)] == [Try(m)] + ([Try(m)] + ([Rebind(w)] + ([Try(m)] + [])));
    RunFirst(i0, h0, c0, Try(m), [Try(m)] + ([Rebind(w)] + ([Try(m)] + [])));
    RunFirst(i1, h1, c1, Try(m), [Rebind(w)] + ([Try(m)] + []));
    RunFirst(i2, h2, c2, Rebind(w), [Try(m)] + []);
    RunFirst(i3, h3, c3, Try(m), []);
    assert SyncRun(i0, h0, [Try(m), Try(m), Rebind(w), Try(m)]) == [s1, s2, s3, s4];
    assert PollRun(c0, [Try(m), Try(m), Rebind(w), Try(m)]) == [t1, t2, t3, t4];
  }

  /** Without a push behind it an unsteady binding can go unseen: bound to `b` and back to `a`
      while a refusal stands, the producer is woken alike by the pop. */
  lemma UnsteadyUnseen(a: Waker, b: Waker, m: Letter)
    requires a != b
    ensures var ops := [Rebind(a), Try(m), Try(m), Rebind(b), Rebind(a), Pop];
      && !AllSteady(NewCells(Some(1)), ops)
      && SyncRun(NewInner(Some(1)), NEW_HANDLE, ops) == PollRun(NewCells(Some(1)), ops)
  {
    var ops := [Rebind(a), Try(m), Try(m), Rebind(b), Rebind(a), Pop];
    var i0, h0, c0 := NewInner(Some(1)), NEW_HANDLE, NewCells(Some(1));
    var (i1, h1, s1) := SyncStep(i0, h0, Rebind(a));
    var (i2, h2, s2) := SyncStep(i1, h1, Try(m));
    var (i3, h3, s3) := SyncStep(i2, h2, Try(m));
    var (i4, h4, s4) := SyncStep(i3, h3, Rebind(b));
    var (i5, h5, s5) := SyncStep(i4, h4, Rebind(a));
    var (i6, h6, s6) := SyncStep(i5, h5, Pop);
    var (c1, t1) := PollStep(c0, Rebind(a));
    var (c2, t2) := PollStep(c1, Try(m));
    var (c3, t3) := PollStep(c2, Try(m));
    var (c4, t4) := PollStep(c3, Rebind(b));
    var (c5, t5) := PollStep(c4, Rebind(a));
    var (c6, t6) := PollStep(c5, Pop);
    RunFirst(i5, h5, c5, Pop, []);
    RunFirst(i4, h4, c4, Rebind(a), [Pop] + []);
    RunFirst(i3, h3, c3, Rebind(b), [Rebind(a)] + ([Pop] + []));
    RunFirst(i2, h2, c2, Try(m), [Rebind(b)] + ([Rebind(a)] + ([Pop] + [])));
    RunFirst(i1, h1, c1, Try(m), [Try(m)] + ([Rebind(b)] + ([Rebind(a)] + ([Pop] + []))));
    RunFirst(i0, h0, c0, Rebind(a), [Try(m)] + ([Try(m)] + ([Rebind(b)] + ([Rebind(a)] + ([Pop] + [])))));
    assert ops == [Rebind(a)] + ([Try(m)] + ([Try(m)] + ([Rebind(b)] + ([Rebind(a)] + ([Pop] + [])))));
    assert WakersOf(i5.refused) == [a];
    assert AllSteady(c0, ops) ==> AllSteady(c1, ops[1..]);
    assert AllSteady(c1, ops[1..]) ==> AllSteady(c2, ops[1..][1..]);
    assert AllSteady(c2, ops[1..][1..]) ==> AllSteady(c3, ops[1..][1..][1..]);
    assert ops[1..][1..][1..][0] == Rebind(b) && !Steady(c3, Rebind(b));
  }

  /** What each push was answered. */
  function Answers(seen: seq<Seen>): (r: seq<Option<Answer>>)
    ensures |r| == |seen|
  {
    seq(|seen|, k requires 0 <= k < |seen| => seen[k].answer)
  }

  /** A close by the sender is where they part: the sync edge wakes the refused producer at the
      close and not at the next pop, the same-thread edge the other way round. */
  lemma SenderCloseParts(i: Inner, h: Handle, c: Cells)
    requires Alike(i, h, c) && i.buffer != []
    ensures var owed := WakersOf(i.refused);
      && SyncStep(i, h, Close).2.woken == owed
      && PollStep(c.(closed := true), Pop).1.woken == owed
      && SyncStep(i.Closed(), h, Pop).2.woken == []
      && PollStep(c.(closed := true), Pop).1.popped == SyncStep(i.Closed(), h, Pop).2.popped
      && (owed != [] <==> c.refused && c.producer.Some?)
  {
    assert WakersOf([]) == [];
  }
}
