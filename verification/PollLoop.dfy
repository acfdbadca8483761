/**
  The poll thread's loop (src/poll/scheduler/consumer.rs): its arena, its timers and its parker
  together, with a clock that never goes back. What other threads push while it sleeps, and when its
  waits return, is given.
  */
module PollLoop {
  import opened Basics
  import opened Consumer
  import opened Deadlines
  import P = Parking
  import S = Scheduler

  /** One turn of a wait: how long it took at most, and what other threads pushed meanwhile. A turn
      without a push is a spurious return, or the deadline's. */
  datatype Turn = Turn(elapsed: nat, pushed: seq<S.Id>)

  /** How a park ended: by a wake, at its deadline, or not within the given turns. */
  datatype Slept = Woken | TimedOut | StillAsleep

  function Later(a: int, b: int): int {
    if a <= b then b else a
  }

  function Sooner(a: int, b: int): int {
    if a <= b then a else b
  }

  /** A node is the one handed out, or in the batch being walked. */
  ghost predicate Served(node: NodeId, id: Option<S.Id>, view: S.View) {
    id == Some(node) || node in view.batch
  }

  /** A timer that is due by `now`. */
  ghost predicate IsDue(timers: map<TimerKey, Timer>, now: int, k: TimerKey) {
    k in timers && timers[k].deadline <= now
  }

  /** The nodes of the timers due by `now` and what was pushed before are served; and the one handed
      out is one of those. */
  ghost predicate DueServed(timers: map<TimerKey, Timer>, now: int, n: nat, pushed: seq<S.Id>, id: Option<S.Id>,
      view: S.View) {
    && (forall k :: IsDue(timers, now, k) && timers[k].node < n ==> Served(timers[k].node, id, view))
    && (forall i :: i in pushed ==> Served(i, id, view))
    && (id.Some? && id.value !in pushed ==> exists k :: IsDue(timers, now, k) && timers[k].node == id.value)
  }

  /** What a try behind a park comes to: the nodes of the timers due, and everything pushed during
      the park, are served; and the one handed out is one of those. */
  ghost predicate ServedBehind(timers: map<TimerKey, Timer>, now: int, n: nat, arrived: seq<S.Id>,
      id: Option<S.Id>, view: S.View) {
    && DueServed(timers, now, n, PushAll(S.View([], []), n, arrived).stack, id, view)
    && (forall i :: i in arrived && i < n ==> Served(i, id, view))
  }

  /** Pushed where nothing was queued, every id of the graph is on the stack. */
  lemma ArrivedQueued(n: nat, arrived: seq<S.Id>)
    ensures var v := PushAll(S.View([], []), n, arrived);
      v.batch == [] && forall i :: i in arrived && i < n ==> i in v.stack
  {
    LeadPushed(S.View([], []), n, arrived);
    LeadExactly(S.View([], []), n, arrived);
  }

  /** The timers left are those not due. */
  ghost predicate OnlyDueGone(timers: map<TimerKey, Timer>, now: int, left: map<TimerKey, Timer>) {
    forall k :: k in left <==> k in timers && !IsDue(timers, now, k)
  }

  lemma LeftNotDue(timers: map<TimerKey, Timer>, now: int, fired: seq<TimerKey>, nodes: seq<NodeId>,
      left: map<TimerKey, Timer>)
    requires Fired(timers, now, fired, nodes, left) && forall k :: k in left ==> left[k].deadline > now
    ensures OnlyDueGone(timers, now, left)
  {
  }

  /** The nodes fired are those of the timers due. */
  lemma FiredNode(timers: map<TimerKey, Timer>, now: int, fired: seq<TimerKey>, nodes: seq<NodeId>,
      left: map<TimerKey, Timer>, k: TimerKey)
    requires Fired(timers, now, fired, nodes, left) && forall j :: j in left ==> left[j].deadline > now
    requires IsDue(timers, now, k)
    ensures timers[k].node in nodes
  {
    var i :| 0 <= i < |fired| && fired[i] == k;
    assert nodes[i] == timers[k].node;
  }

  lemma NodeFired(timers: map<TimerKey, Timer>, now: int, fired: seq<TimerKey>, nodes: seq<NodeId>,
      left: map<TimerKey, Timer>, node: NodeId)
    requires Fired(timers, now, fired, nodes, left) && node in nodes
    ensures exists k :: IsDue(timers, now, k) && timers[k].node == node
  {
    var i :| 0 <= i < |nodes| && nodes[i] == node;
    assert IsDue(timers, now, fired[i]);
  }

  /** What a boundary hands out, and puts in the batch, is the expired nodes and the stack. */
  lemma BoundaryServes(n: nat, before: S.View, expired: seq<S.Id>, id: Option<S.Id>, view: S.View)
    requires before.batch == [] && (id, view) == HandNext(before, n, expired)
    ensures forall i :: i in expired && i < n ==> Served(i, id, view)
    ensures forall i :: i in before.stack ==> Served(i, id, view)
    ensures id.Some? ==> id.value in before.stack || id.value in expired
    ensures id.None? ==> view == S.View([], [])
  {
    TimersLead(before, n, expired);
    LeadExactly(before, n, expired);
    var lead := Lead(before, n, expired);
    var next := if id.None? then [] else [id.value] + view.batch;
    forall i | i in before.stack ensures i in next {
      assert i in lead + before.stack;
    }
    if id.Some? {
      assert next[0] == id.value;
    }
  }

  /** What the timers fired, pushed at a boundary, comes to. */
  lemma ServesDue(timers: map<TimerKey, Timer>, now: int, n: nat, before: S.View, fired: seq<TimerKey>,
      expired: seq<S.Id>,
      left: map<TimerKey, Timer>, id: Option<S.Id>, view: S.View)
    requires before.batch == [] && (id, view) == HandNext(before, n, expired)
    requires Fired(timers, now, fired, expired, left) && forall k :: k in left ==> left[k].deadline > now
    ensures DueServed(timers, now, n, before.stack, id, view)
    ensures id.None? ==> view == S.View([], [])
  {
    BoundaryServes(n, before, expired, id, view);
    forall k | IsDue(timers, now, k) ensures timers[k].node in expired {
      FiredNode(timers, now, fired, expired, left, k);
    }
    if id.Some? && id.value !in before.stack {
      NodeFired(timers, now, fired, expired, left, id.value);
    }
  }

  class PollThread {
    const nodes: Nodes
    const timers: DeadlineHeap
    const parker: P.Parker
    var now: int

    ghost predicate Valid()
      reads this, nodes, nodes.queued, nodes.below, timers
    {
      nodes.Valid() && timers.Valid()
    }

    constructor (n: nat)
      ensures Valid() && nodes.view == S.View([], []) && timers.timers == map[] && nodes.n == n
      ensures fresh(nodes) && fresh(nodes.queued) && fresh(nodes.below) && fresh(timers) && fresh(parker)
    {
      nodes := new Nodes(n);
      timers := new DeadlineHeap();
      parker := new P.Parker();
      now := 0;
    }

    /** A batch boundary: every timer due by then fires, and its node is handed out or in the batch
        now walked, with whatever was pushed. */
    method AtBoundary() returns (id: Option<S.Id>, ghost expired: seq<NodeId>)
      requires Valid() && nodes.view.batch == []
      modifies this, nodes, nodes.queued, nodes.below, timers
      ensures Valid() && now >= old(now)
      ensures (id, nodes.view) == HandNext(old(nodes.view), nodes.n, expired)
      ensures OnlyDueGone(old(timers.timers), now, timers.timers)
      ensures DueServed(old(timers.timers), now, nodes.n, old(nodes.view.stack), id, nodes.view)
      ensures id.None? ==> nodes.view == S.View([], [])
    {
      assert now <= now;
      var at :| now <= at;
      now := at;
      ghost var live, before := timers.timers, nodes.view;
      var due;
      ghost var fired;
      due, fired := timers.Expire(at);
      expired := due;
      ghost var left := timers.timers;
      id := nodes.Boundary(due);
      ServesDue(live, at, nodes.n, before, fired, expired, left, id, nodes.view);
      LeftNotDue(live, at, fired, expired, left);
    }

    /** The next id, or `None` where the loop parks. */
    method TryNext() returns (id: Option<S.Id>, ghost expired: seq<NodeId>)
      requires Valid()
      modifies this, nodes, nodes.queued, nodes.below, timers
      ensures Valid() && now >= old(now)
      ensures (id, nodes.view) == HandNext(old(nodes.view), nodes.n, expired)
      ensures old(nodes.view.batch) != [] ==> timers.timers == old(timers.timers)
      ensures old(nodes.view.batch) == [] ==>
                && OnlyDueGone(old(timers.timers), now, timers.timers)
                && DueServed(old(timers.timers), now, nodes.n, old(nodes.view.stack), id, nodes.view)
      ensures id.None? ==> nodes.view == S.View([], [])
    {
      expired := [];
      id := nodes.Next();
      if id.None? {
        id, expired := AtBoundary();
      }
    }

    /** Other threads push, each waking the parker behind its push. */
    method PushEach(ids: seq<S.Id>)
      requires nodes.Valid()
      modifies nodes, nodes.queued, nodes.below, parker
      ensures nodes.Valid() && nodes.view == PushAll(old(nodes.view), nodes.n, ids)
      ensures parker.woken <==> old(parker.woken) || ids != []
    {
      var i := 0;
      while i < |ids|
        invariant 0 <= i <= |ids| && nodes.Valid() && nodes.view == PushAll(old(nodes.view), nodes.n, ids[..i])
        invariant parker.woken <==> old(parker.woken) || i > 0
      {
        assert ids[..i + 1][..i] == ids[..i];
        nodes.Push(ids[i], 0);
        var notify := parker.WakeByRef();
        i := i + 1;
      }
      assert ids[..i] == ids;
    }

    /** `park` and `park_until`: sleeps until a wake, or until the deadline. A wait never outlasts
        the deadline. `pushed` is what other threads pushed meanwhile. */
    method Park(deadline: Option<int>, script: seq<Turn>) returns (slept: Slept, ghost pushed: seq<S.Id>)
      requires Valid()
      modifies this, nodes, nodes.queued, nodes.below, parker
      ensures Valid() && nodes.view == PushAll(old(nodes.view), nodes.n, pushed)
      ensures slept.TimedOut? ==> deadline.Some? && now >= deadline.value
      ensures slept.StillAsleep? ==> deadline.None?
      ensures slept.Woken? ==> old(parker.woken) || pushed != []
      ensures pushed != [] ==> slept.Woken?
      ensures old(now) <= now && (deadline.Some? ==> now <= Later(old(now), deadline.value))
    {
      pushed := [];
      var woken := parker.woken;
      var verdict := parker.Sleep(deadline.Some? && deadline.value <= now);
      if verdict.Return? {
        return if woken then Woken else TimedOut, [];
      }
      var i := 0;
      while i < |script|
        invariant Valid() && nodes.view == old(nodes.view) && pushed == [] && !parker.woken
        invariant old(now) <= now && (deadline.Some? ==> now < deadline.value)
      {
        var turn := script[i];
        now := if deadline.Some? then Sooner(now + turn.elapsed, deadline.value) else now + turn.elapsed;
        PushEach(turn.pushed);
        pushed := turn.pushed;
        verdict := parker.Turn(deadline.Some? && deadline.value <= now);
        if verdict.Return? {
          return if turn.pushed != [] then Woken else TimedOut, pushed;
        }
        i := i + 1;
      }
      if deadline.None? {
        return StillAsleep, [];
      }
      now := deadline.value;
      verdict := parker.Turn(true);
      slept := TimedOut;
    }

    /** The try behind a park that began with nothing queued. */
    method TryBehind(ghost arrived: seq<S.Id>) returns (id: Option<S.Id>)
      requires Valid() && nodes.view == PushAll(S.View([], []), nodes.n, arrived)
      modifies this, nodes, nodes.queued, nodes.below, timers
      ensures Valid() && now >= old(now) && OnlyDueGone(old(timers.timers), now, timers.timers)
      ensures ServedBehind(old(timers.timers), now, nodes.n, arrived, id, nodes.view)
    {
      ArrivedQueued(nodes.n, arrived);
      ghost var expired;
      id, expired := TryNext();
    }

    /** One pass of `next`: an id, or a park bounded by the earliest timer, and then another try. A
        park with a live timer ends no later than the least live deadline. However it ended, the try
        behind it fires every timer then due and no other, and serves their nodes and whatever was
        pushed meanwhile; if nothing woke it, at least one timer is due. `arrived` is what was
        pushed, `live` the timers, `parkedAt` and `wokeAt` the times the park began and ended. */
    method Pass(script: seq<Turn>)
      returns (id: Option<S.Id>, slept: Option<Slept>, ghost live: map<TimerKey, Timer>, ghost parkedAt: int,
          ghost wokeAt: int, ghost arrived: seq<S.Id>)
      requires Valid()
      modifies this, nodes, nodes.queued, nodes.below, timers, parker
      ensures Valid()
      ensures slept.None? ==> id.Some?
      ensures slept.Some? && live != map[] ==>
                && !slept.value.StillAsleep?
                && exists k :: Earliest(live, k) && parkedAt <= wokeAt <= Later(parkedAt, live[k].deadline)
      ensures slept.Some? && !slept.value.StillAsleep? ==>
                && now >= wokeAt && OnlyDueGone(live, now, timers.timers)
                && ServedBehind(live, now, nodes.n, arrived, id, nodes.view)
      ensures slept == Some(TimedOut) ==>
                arrived == [] && exists k :: Earliest(live, k) && IsDue(live, now, k)
    {
      slept, live, parkedAt, wokeAt, arrived := None, map[], now, now, [];
      ghost var expired;
      id, expired := TryNext();
      if id.Some? {
        return;
      }
      var deadline := timers.Peek();
      live, parkedAt := timers.timers, now;
      var how;
      how, arrived := Park(deadline, script);
      slept, wokeAt := Some(how), now;
      if how.StillAsleep? {
        return;
      }
      id := TryBehind(arrived);
    }
  }
}
