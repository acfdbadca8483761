/**
  A fan-out: each message to every edge, a refused one held (src/edge/fanout.rs), and the single
  edge (src/edge/single.rs). An edge is the sequence of messages it accepted; how it answers each
  push is arbitrary.
  */
module Fanout {
  import opened Basics

  /** How an edge answers a push: it takes the message, hands it back, or errors. `lands` says
      whether a push that then blocks gets through. */
  datatype Answer = Pushed | Full | Stuck(lands: bool) | Failed {
    predicate Refuses() {
      Full? || Stuck?
    }
  }

  /** Where a rotation stands still: at an edge, with the message that edge would not take and, if
      any edge is left behind it, the original to copy for those. */
  datatype Suspended<M> = Suspended(index: nat, refused: M, rest: Option<M>)

  datatype Fan<M> = Fan(edges: seq<seq<M>>, suspended: Option<Suspended<M>>)

  /** Where a call leaves the fan-out, and whether an edge's error ended it. */
  datatype Turn<M> = Turn(fan: Fan<M>, ok: bool)

  function Deliver<M>(f: Fan<M>, i: nat, m: M): Fan<M> {
    if i < |f.edges| then f.(edges := f.edges[i := f.edges[i] + [m]]) else f
  }

  /** A rotation of `m` from edge `from`: each edge in turn, as far as the first that does not take it. */
  function RotateFrom<M>(f: Fan<M>, from: nat, m: M, answers: seq<Answer>): Turn<M>
    requires |answers| == |f.edges|
    decreases |f.edges| - from
  {
    if from >= |f.edges| then Turn(f, true)
    else match answers[from]
      case Pushed => RotateFrom(Deliver(f, from, m), from + 1, m, answers)
      case Failed => Turn(f, false)
      case _ => Turn(f.(suspended := Some(Suspended(from, m, if from == |f.edges| - 1 then None else Some(m)))), true)
  }

  /** Starts a rotation; only for a fan-out that holds nothing. */
  function Push<M>(f: Fan<M>, m: M, answers: seq<Answer>): Turn<M>
    requires |answers| == |f.edges|
  {
    RotateFrom(f, 0, m, answers)
  }

  /** The held message landed: go on with the later edges. */
  function Landed<M>(f: Fan<M>, answers: seq<Answer>): Turn<M>
    requires |answers| == |f.edges| && f.suspended.Some?
  {
    var h := f.suspended.value;
    var g := Deliver(f.(suspended := None), h.index, h.refused);
    if h.rest.None? then Turn(g, true) else RotateFrom(g, h.index + 1, h.rest.value, answers)
  }

  /** The answer of the edge that holds up the rotation. */
  function HeldAnswer<M>(f: Fan<M>, answers: seq<Answer>): Answer
    requires f.suspended.Some?
  {
    if f.suspended.value.index < |answers| then answers[f.suspended.value.index] else Failed
  }

  /** The suspended edge is offered its message once more; an answer short of taken leaves things
      as they are, and an error loses the message. */
  function Retry<M>(f: Fan<M>, answers: seq<Answer>): Turn<M>
    requires |answers| == |f.edges|
  {
    if f.suspended.None? then Turn(f, true)
    else match HeldAnswer(f, answers)
      case Pushed => Landed(f, answers)
      case Failed => Turn(f.(suspended := None), false)
      case _ => Turn(f, true)
  }

  /** Full suspends again; Stuck blocks until the message lands or the edge errors. */
  function Resume<M>(f: Fan<M>, answers: seq<Answer>): Turn<M>
    requires |answers| == |f.edges|
  {
    if f.suspended.None? then Turn(f, true)
    else match HeldAnswer(f, answers)
      case Pushed => Landed(f, answers)
      case Full => Turn(f, true)
      case Stuck(lands) => if lands then Landed(f, answers) else Turn(f.(suspended := None), false)
      case Failed => Turn(f.(suspended := None), false)
  }

  /** The edges before `k` accepted all of `pushed`, the rest all but its last message. */
  ghost predicate Upto<M>(edges: seq<seq<M>>, k: nat, pushed: seq<M>) {
    && k <= |edges| && (k < |edges| ==> pushed != [])
    && (forall i :: 0 <= i < k ==> edges[i] == pushed)
    && (forall i :: k <= i < |edges| ==> edges[i] == pushed[..|pushed| - 1])
  }

  /** Exact broadcast of `pushed`: with nothing held every edge accepted all of it; else the edges
      before the suspended one did, the rest all but the last message, which is held. */
  ghost predicate Broadcast<M>(f: Fan<M>, pushed: seq<M>) {
    match f.suspended
    case None => Upto(f.edges, |f.edges|, pushed)
    case Some(h) =>
      && h.index < |f.edges| && Upto(f.edges, h.index, pushed)
      && h.refused == pushed[|pushed| - 1]
      && h.rest == (if h.index == |f.edges| - 1 then None else Some(h.refused))
  }

  /** After an edge's error: nothing is held, and the last message stopped at that edge. */
  ghost predicate CutShort<M>(f: Fan<M>, pushed: seq<M>) {
    f.suspended.None? && exists k: nat :: k < |f.edges| && Upto(f.edges, k, pushed)
  }

  /** A call's end: an exact broadcast, or one cut short by an error. */
  ghost predicate Keeps<M>(t: Turn<M>, edges: nat, pushed: seq<M>) {
    |t.fan.edges| == edges && if t.ok then Broadcast(t.fan, pushed) else CutShort(t.fan, pushed)
  }

  lemma {:induction false} RotateBroadcasts<M>(f: Fan<M>, from: nat, m: M, answers: seq<Answer>, before: seq<M>)
    requires |answers| == |f.edges| && f.suspended.None? && Upto(f.edges, from, before + [m])
    ensures Keeps(RotateFrom(f, from, m, answers), |f.edges|, before + [m])
    decreases |f.edges| - from
  {
    if from < |f.edges| {
      assert (before + [m])[..|before + [m]| - 1] == before;
      if answers[from].Pushed? {
        RotateBroadcasts(Deliver(f, from, m), from + 1, m, answers, before);
      }
    }
  }

  ghost predicate AllTake(answers: seq<Answer>) {
    forall i :: 0 <= i < |answers| ==> answers[i].Pushed?
  }

  /** While every edge takes, a rotation goes through. */
  lemma {:induction false} RotateLands<M>(f: Fan<M>, from: nat, m: M, answers: seq<Answer>)
    requires |answers| == |f.edges| && AllTake(answers)
    ensures RotateFrom(f, from, m, answers).ok && RotateFrom(f, from, m, answers).fan.suspended == f.suspended
    decreases |f.edges| - from
  {
    if from < |f.edges| {
      RotateLands(Deliver(f, from, m), from + 1, m, answers);
    }
  }

  lemma LandedBroadcasts<M>(f: Fan<M>, answers: seq<Answer>, pushed: seq<M>)
    requires Broadcast(f, pushed) && |answers| == |f.edges| && f.suspended.Some?
    ensures Keeps(Landed(f, answers), |f.edges|, pushed)
    ensures AllTake(answers) ==> Landed(f, answers).ok && Landed(f, answers).fan.suspended.None?
  {
    var h := f.suspended.value;
    var before := pushed[..|pushed| - 1];
    assert pushed == before + [h.refused];
    var g := Deliver(f.(suspended := None), h.index, h.refused);
    if h.rest.Some? {
      RotateBroadcasts(g, h.index + 1, h.refused, answers, before);
      if AllTake(answers) {
        RotateLands(g, h.index + 1, h.refused, answers);
      }
    }
  }

  lemma ResumeBroadcasts<M>(f: Fan<M>, answers: seq<Answer>, pushed: seq<M>)
    requires Broadcast(f, pushed) && |answers| == |f.edges|
    ensures Keeps(Retry(f, answers), |f.edges|, pushed) && Keeps(Resume(f, answers), |f.edges|, pushed)
    ensures AllTake(answers) ==> Resume(f, answers).ok && Resume(f, answers).fan.suspended.None?
  {
    if f.suspended.Some? {
      LandedBroadcasts(f, answers, pushed);
      assert Upto(f.edges, f.suspended.value.index, pushed);
    }
  }

  lemma PushBroadcasts<M>(f: Fan<M>, m: M, answers: seq<Answer>, pushed: seq<M>)
    requires Broadcast(f, pushed) && |answers| == |f.edges| && f.suspended.None?
    ensures Keeps(Push(f, m, answers), |f.edges|, pushed + [m])
    ensures AllTake(answers) ==> Push(f, m, answers).ok && Push(f, m, answers).fan.suspended.None?
  {
    assert (pushed + [m])[..|pushed + [m]| - 1] == pushed;
    RotateBroadcasts(f, 0, m, answers, pushed);
    if AllTake(answers) {
      RotateLands(f, 0, m, answers);
    }
  }

  // ---- every run ----

  datatype Op<M> =
    | OpPush(message: M, answers: seq<Answer>)
    | OpRetry(answers: seq<Answer>)
    | OpResume(answers: seq<Answer>)

  /** A push is only possible while nothing is held. */
  function Apply<M>(f: Fan<M>, op: Op<M>): Turn<M>
    requires |op.answers| == |f.edges|
  {
    match op
    case OpPush(m, answers) => if f.suspended.Some? then Turn(f, true) else Push(f, m, answers)
    case OpRetry(answers) => Retry(f, answers)
    case OpResume(answers) => Resume(f, answers)
  }

  function Taken<M>(f: Fan<M>, op: Op<M>): seq<M> {
    if op.OpPush? && f.suspended.None? then [op.message] else []
  }

  /** Runs the operations until one errors, and collects the messages whose rotation was started. */
  function Run<M>(f: Fan<M>, pushed: seq<M>, ops: seq<Op<M>>): (Turn<M>, seq<M>)
    decreases |ops|
  {
    if ops == [] || |ops[0].answers| != |f.edges| then (Turn(f, true), pushed)
    else
      var t, all := Apply(f, ops[0]), pushed + Taken(f, ops[0]);
      if t.ok then Run(t.fan, all, ops[1..]) else (t, all)
  }

  /** Whatever the edges refuse and whenever they take, a run is an exact broadcast; an error cuts
      short its last message alone. */
  lemma {:induction false} AlwaysBroadcasts<M>(f: Fan<M>, pushed: seq<M>, ops: seq<Op<M>>)
    requires Broadcast(f, pushed)
    ensures var (t, all) := Run(f, pushed, ops); Keeps(t, |f.edges|, all) && pushed <= all
    decreases |ops|
  {
    if ops != [] && |ops[0].answers| == |f.edges| {
      var op := ops[0];
      assert pushed + [] == pushed;
      if op.OpPush? && f.suspended.None? {
        PushBroadcasts(f, op.message, op.answers, pushed);
      } else {
        ResumeBroadcasts(f, op.answers, pushed);
      }
      var t := Apply(f, op);
      if t.ok {
        AlwaysBroadcasts(t.fan, pushed + Taken(f, op), ops[1..]);
      }
    }
  }

  // ---- the single edge ----

  datatype One<M> = One(edge: seq<M>, held: Option<M>)

  /** The flag is false when the edge errs: then the message is gone. */
  function DeliverOne<M>(s: One<M>, m: M, answer: Answer): (One<M>, bool) {
    match answer
    case Pushed => (s.(edge := s.edge + [m]), true)
    case Failed => (s, false)
    case _ => (s.(held := Some(m)), true)
  }

  function RetryOne<M>(s: One<M>, answer: Answer): (One<M>, bool) {
    if s.held.None? then (s, true) else DeliverOne(s.(held := None), s.held.value, answer)
  }

  /** A fan-out of one edge, seen as a single. */
  function AsOne<M>(f: Fan<M>): One<M> {
    One(if |f.edges| == 1 then f.edges[0] else [], if f.suspended.None? then None else Some(f.suspended.value.refused))
  }

  function TurnAsOne<M>(t: Turn<M>): (One<M>, bool) {
    (AsOne(t.fan), t.ok)
  }

  /** The single edge and the one-edge fan-out answer alike and hold alike, step by step. */
  lemma SingleIsFanoutOfOne<M>(f: Fan<M>, m: M, answer: Answer, pushed: seq<M>)
    requires |f.edges| == 1 && Broadcast(f, pushed)
    ensures f.suspended.None? ==> TurnAsOne(Push(f, m, [answer])) == DeliverOne(AsOne(f), m, answer)
    ensures TurnAsOne(Retry(f, [answer])) == RetryOne(AsOne(f), answer)
    ensures f.suspended.Some? <==> AsOne(f).held.Some?
  {
    if f.suspended.None? {
      var g := Deliver(f, 0, m);
      assert RotateFrom(g, 1, m, [answer]) == Turn(g, true);
    }
  }

  // ---- as objects ----

  class FanoutEdges<M> {
    var edges: seq<seq<M>>
    var suspended: Option<Suspended<M>>

    ghost function View(): Fan<M>
      reads this
    {
      Fan(edges, suspended)
    }

    constructor ()
      ensures View() == Fan([], None)
    {
      edges, suspended := [], None;
    }

    /** Edges are added before anything is pushed. */
    method Add()
      modifies this
      ensures View() == Fan(old(edges) + [[]], old(suspended))
    {
      edges := edges + [[]];
    }

    method Rotate(from: nat, m: M, answers: seq<Answer>) returns (ok: bool)
      requires |answers| == |edges| && suspended.None?
      modifies this
      ensures Turn(View(), ok) == RotateFrom(old(View()), from, m, answers)
    {
      var i := from;
      while i < |edges|
        invariant from <= i && |edges| == |old(edges)| && suspended.None?
        invariant RotateFrom(old(View()), from, m, answers) == RotateFrom(View(), i, m, answers)
      {
        if answers[i].Failed? {
          return false;
        }
        if answers[i].Refuses() {
          suspended := Some(Suspended(i, m, if i == |edges| - 1 then None else Some(m)));
          return true;
        }
        edges := edges[i := edges[i] + [m]];
        i := i + 1;
      }
      ok := true;
    }

    /** `ready` and `push`: `started` unless something is held. */
    method PushNew(m: M, answers: seq<Answer>) returns (started: bool, ok: bool)
      requires |answers| == |edges|
      modifies this
      ensures started <==> old(suspended).None?
      ensures Turn(View(), ok) == if started then Push(old(View()), m, answers) else Turn(old(View()), true)
    {
      started, ok := suspended.None?, true;
      if started {
        ok := Rotate(0, m, answers);
      }
    }

    method RetryHeld(answers: seq<Answer>) returns (ok: bool)
      requires |answers| == |edges| && (suspended.Some? ==> suspended.value.index < |edges|)
      modifies this
      ensures Turn(View(), ok) == Retry(old(View()), answers)
    {
      if suspended.None? {
        return true;
      }
      match answers[suspended.value.index] {
        case Pushed => ok := Land(answers);
        case Failed => suspended, ok := None, false;
        case _ => ok := true;
      }
    }

    method ResumeHeld(answers: seq<Answer>) returns (ok: bool)
      requires |answers| == |edges| && (suspended.Some? ==> suspended.value.index < |edges|)
      modifies this
      ensures Turn(View(), ok) == Resume(old(View()), answers)
    {
      if suspended.None? {
        return true;
      }
      match answers[suspended.value.index] {
        case Full => ok := true;
        case Failed => suspended, ok := None, false;
        case Pushed => ok := Land(answers);
        case Stuck(lands) =>
          if lands {
            ok := Land(answers);
          } else {
            suspended, ok := None, false;
          }
      }
    }

    /** The held message lands and the rotation goes on. */
    method Land(answers: seq<Answer>) returns (ok: bool)
      requires |answers| == |edges| && suspended.Some? && suspended.value.index < |edges|
      modifies this
      ensures Turn(View(), ok) == Landed(old(View()), answers)
    {
      var h := suspended.value;
      suspended := None;
      edges := edges[h.index := edges[h.index] + [h.refused]];
      ok := true;
      if h.rest.Some? {
        ok := Rotate(h.index + 1, h.rest.value, answers);
      }
    }
  }
}
