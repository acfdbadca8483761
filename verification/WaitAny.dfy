/**
  One waiter on several waking edges (src/work/multiedge.rs, src/edge/waking.rs): a scan that reads
  the edges one by one, and a parker whose waker every edge's senders hold. A step is one critical
  section or one atomic operation; a sender wakes only after its message landed or its release.
  */
module WaitAny {
  import opened Parking

  /** An edge to its waiter: how much is buffered, the live producers, and whether it was closed. */
  datatype Edge = Edge(buffered: nat, producers: nat, closed: bool) {
    predicate Ready() {
      buffered > 0
    }

    predicate Exhausted() {
      buffered == 0 && (closed || producers == 0)
    }
  }

  /** A sending thread. */
  datatype Sender =
    | Resting
    | Closing(edge: nat) // released the last producer, about to close the edge
    | Landed             // its message, release or close is in; about to wake
    | Notifying          // claimed the notify

  datatype Waiter =
    | Away                        // not in the call: the only place it pops
    | Scanning(k: nat, idle: bool)
    | Parking                     // found some edge idle and none ready
    | Asleep
    | Awake                       // out of the wait, about to look at the token
    | Found                       // returning: some edge is ready
    | Over                        // returning: every edge is exhausted

  datatype State = State(edges: seq<Edge>, senders: seq<Sender>, token: Token, waiter: Waiter)

  datatype Action =
    | Push(t: nat, e: nat)
    | Release(t: nat, e: nat)
    | CloseEdge(t: nat)
    | Clone(e: nat)
    | CallAgain(t: nat) // a close once closed, or the drop of a handle: only the wake is left
    | WakeUp(t: nat)
    | Notify(t: nat)
    | Call
    | Scan
    | Park
    | Stir
    | LookAgain
    | Leave
    | Pop(e: nat)
    | Shut(e: nat)      // the consumer closes an edge; it does not wake itself

  ghost predicate Init(s: State) {
    && (forall t :: 0 <= t < |s.senders| ==> s.senders[t] == Resting)
    && !s.token.parked && s.waiter == Away
  }

  ghost predicate Enabled(s: State, a: Action) {
    match a
    case Push(t, e) => t < |s.senders| && e < |s.edges| && s.senders[t].Resting? && s.edges[e].producers > 0
        && !s.edges[e].closed
    case Release(t, e) => t < |s.senders| && e < |s.edges| && s.senders[t].Resting? && s.edges[e].producers > 0
    case CloseEdge(t) => t < |s.senders| && s.senders[t].Closing?
    case Clone(e) => e < |s.edges| && s.edges[e].producers > 0
    case CallAgain(t) => t < |s.senders| && s.senders[t].Resting?
    case WakeUp(t) => t < |s.senders| && s.senders[t].Landed?
    case Notify(t) => t < |s.senders| && s.senders[t].Notifying?
    case Call => s.waiter.Away?
    case Scan => s.waiter.Scanning?
    case Park => s.waiter.Parking?
    case Stir => s.waiter.Asleep?
    case LookAgain => s.waiter.Awake?
    case Leave => s.waiter.Found? || s.waiter.Over?
    case Pop(e) => s.waiter.Away? && e < |s.edges| && s.edges[e].buffered > 0
    case Shut(e) => s.waiter.Away? && e < |s.edges|
  }

  /** The scan's next edge, or its end. */
  function ScanStep(s: State, k: nat, idle: bool): Waiter {
    if k >= |s.edges| then (if idle then Parking else Over)
    else if s.edges[k].Ready() then Found
    else Scanning(k + 1, idle || !s.edges[k].Exhausted())
  }

  function Settle(s: State, outcome: (Token, Verdict)): State {
    s.(token := outcome.0, waiter := if outcome.1.Return? then Scanning(0, false) else Asleep)
  }

  function Next(s: State, a: Action): State
    requires Enabled(s, a)
  {
    match a
    case Push(t, e) => s.(edges := s.edges[e := s.edges[e].(buffered := s.edges[e].buffered + 1)],
        senders := s.senders[t := Landed])
    case Release(t, e) =>
      var left := s.edges[e].producers - 1;
      s.(edges := s.edges[e := s.edges[e].(producers := left)],
          senders := s.senders[t := if left == 0 then Closing(e) else Landed])
    case CloseEdge(t) =>
      var e := s.senders[t].edge;
      s.(edges := if e < |s.edges| then s.edges[e := s.edges[e].(closed := true)] else s.edges,
          senders := s.senders[t := Landed])
    case Clone(e) => s.(edges := s.edges[e := s.edges[e].(producers := s.edges[e].producers + 1)])
    case CallAgain(t) => s.(senders := s.senders[t := Landed])
    case WakeUp(t) =>
      var (token, notify) := Wake(s.token);
      s.(token := token, senders := s.senders[t := if notify then Notifying else Resting])
    case Notify(t) => s.(senders := s.senders[t := Resting], waiter := if s.waiter.Asleep? then Awake else s.waiter)
    case Call => s.(waiter := Scanning(0, false))
    case Scan => s.(waiter := ScanStep(s, s.waiter.k, s.waiter.idle))
    case Park => Settle(s, Enter(s.token, false))
    case Stir => s.(waiter := Awake)
    case LookAgain => Settle(s, Look(s.token, false))
    case Leave => s.(waiter := Away)
    case Pop(e) => s.(edges := s.edges[e := s.edges[e].(buffered := s.edges[e].buffered - 1)])
    case Shut(e) => s.(edges := s.edges[e := s.edges[e].(closed := true)])
  }

  /** One turn of the loop, given what each look at an edge shows: return, or park. */
  method Turn(shown: seq<Edge>) returns (outcome: Waiter)
    ensures outcome.Found? <==> exists e :: 0 <= e < |shown| && shown[e].Ready()
    ensures outcome.Over? <==> forall e :: 0 <= e < |shown| ==> shown[e].Exhausted()
    ensures outcome.Parking? <==>
              && (forall e :: 0 <= e < |shown| ==> !shown[e].Ready())
              && (exists e :: 0 <= e < |shown| && !shown[e].Exhausted())
  {
    var idle := false;
    for k := 0 to |shown|
      invariant forall e :: 0 <= e < k ==> !shown[e].Ready()
      invariant idle <==> exists e :: 0 <= e < k && !shown[e].Exhausted()
    {
      if shown[k].Ready() {
        return Found;
      }
      if !shown[k].Exhausted() {
        idle := true;
      }
    }
    outcome := if idle then Parking else Over;
  }

  // ---- the invariant ----

  /** A sender between its landing, release or close, and its wake. */
  ghost predicate Coming(s: State) {
    exists t :: 0 <= t < |s.senders| && (s.senders[t].Landed? || s.senders[t].Closing?)
  }

  ghost predicate Notified(s: State) {
    exists t :: 0 <= t < |s.senders| && s.senders[t].Notifying?
  }

  ghost predicate SomeReady(edges: seq<Edge>, k: nat) {
    exists e :: 0 <= e < |edges| && e < k && edges[e].Ready()
  }

  ghost predicate AllExhausted(edges: seq<Edge>, k: nat) {
    forall e :: 0 <= e < |edges| && e < k ==> edges[e].Exhausted()
  }

  /** What the waiter has yet to learn of the edges below `k`, someone is about to tell it. */
  ghost predicate Told(s: State, k: nat, idle: bool) {
    && (SomeReady(s.edges, k) ==> s.token.woken || Coming(s))
    && (idle && AllExhausted(s.edges, k) ==> s.token.woken || Coming(s))
  }

  /** The waiter's place and the token agree, and nothing it missed goes untold. */
  ghost predicate Inv(s: State) {
    && (s.waiter.Scanning? ==>
        Told(s, s.waiter.k, s.waiter.idle) && (!s.waiter.idle ==> AllExhausted(s.edges, s.waiter.k)))
    && (s.waiter.Parking? || s.waiter.Asleep? || s.waiter.Awake? ==> Told(s, |s.edges|, true))
    && (s.waiter.Asleep? || s.waiter.Awake? ==> s.token.woken || s.token.parked)
    && (s.token.parked ==> !s.token.woken && (s.waiter.Asleep? || s.waiter.Awake?))
    && (s.waiter.Asleep? && s.token.woken ==> Notified(s))
    && (s.waiter.Found? ==> SomeReady(s.edges, |s.edges|))
    && (s.waiter.Over? ==> AllExhausted(s.edges, |s.edges|))
  }

  // ---- every step keeps it ----

  /** A sender's step makes no edge less ready, leaves exhausted edges as they are, and is coming if
      it makes one ready or exhausted. */
  lemma SenderStep(s: State, a: Action)
    requires Enabled(s, a) && (a.Push? || a.Release? || a.CloseEdge? || a.CallAgain?)
    ensures Coming(Next(s, a)) && |Next(s, a).edges| == |s.edges|
    ensures forall e :: 0 <= e < |s.edges| ==> (s.edges[e].Ready() ==> Next(s, a).edges[e].Ready())
    ensures forall e :: 0 <= e < |s.edges| ==> (s.edges[e].Exhausted() ==> Next(s, a).edges[e].Exhausted())
  {
    var s' := Next(s, a);
    assert s'.senders[a.t].Landed? || s'.senders[a.t].Closing?;
  }

  lemma SenderKeeps(s: State, a: Action)
    requires Inv(s) && Enabled(s, a) && (a.Push? || a.Release? || a.CloseEdge? || a.CallAgain?)
    ensures Inv(Next(s, a))
  {
    SenderStep(s, a);
    var s' := Next(s, a);
    if s.waiter.Asleep? && s.token.woken {
      var t :| 0 <= t < |s.senders| && s.senders[t].Notifying?;
      assert s'.senders[t].Notifying?;
    }
    if SomeReady(s.edges, |s.edges|) {
      var e :| 0 <= e < |s.edges| && s.edges[e].Ready();
      assert s'.edges[e].Ready();
    }
  }

  lemma CloneKeeps(s: State, e: nat)
    requires Inv(s) && Enabled(s, Clone(e))
    ensures Inv(Next(s, Clone(e)))
  {
    var s' := Next(s, Clone(e));
    forall i | 0 <= i < |s.edges| ensures s'.edges[i].Ready() == s.edges[i].Ready()
        && s'.edges[i].Exhausted() == s.edges[i].Exhausted() {
    }
    SameEdges(s.edges, s'.edges);
    assert s'.senders == s.senders;
  }

  lemma SameEdges(a: seq<Edge>, b: seq<Edge>)
    requires |a| == |b| && forall i :: 0 <= i < |a| ==>
        a[i].Ready() == b[i].Ready() && a[i].Exhausted() == b[i].Exhausted()
    ensures forall k: nat :: SomeReady(a, k) == SomeReady(b, k) && AllExhausted(a, k) == AllExhausted(b, k)
  {
    forall k: nat ensures SomeReady(a, k) == SomeReady(b, k) {
      if SomeReady(a, k) {
        var e :| 0 <= e < |a| && e < k && a[e].Ready();
        assert b[e].Ready();
      }
      if SomeReady(b, k) {
        var e :| 0 <= e < |b| && e < k && b[e].Ready();
        assert a[e].Ready();
      }
    }
  }

  lemma WakeKeeps(s: State, t: nat)
    requires Inv(s) && Enabled(s, WakeUp(t))
    ensures Inv(Next(s, WakeUp(t)))
  {
    var s' := Next(s, WakeUp(t));
    if s.token.parked {
      assert s'.senders[t].Notifying?;
    } else if s.waiter.Asleep? && s.token.woken {
      var u :| 0 <= u < |s.senders| && s.senders[u].Notifying?;
      assert s'.senders[u].Notifying?;
    }
  }

  lemma NotifyKeeps(s: State, t: nat)
    requires Inv(s) && Enabled(s, Notify(t))
    ensures Inv(Next(s, Notify(t)))
  {
    var s' := Next(s, Notify(t));
    if Coming(s) {
      var u :| 0 <= u < |s.senders| && (s.senders[u].Landed? || s.senders[u].Closing?);
      assert s'.senders[u] == s.senders[u];
    }
  }

  lemma ScanKeeps(s: State)
    requires Inv(s) && Enabled(s, Scan)
    ensures Inv(Next(s, Scan))
  {
    var k, s' := s.waiter.k, Next(s, Scan);
    if k < |s.edges| {
      assert SomeReady(s.edges, k + 1) ==> SomeReady(s.edges, k) || s.edges[k].Ready();
      if !s.edges[k].Exhausted() {
        assert !AllExhausted(s.edges, k + 1);
      }
    }
  }

  lemma WaiterKeeps(s: State, a: Action)
    requires Inv(s) && Enabled(s, a) && (a.Call? || a.Park? || a.Stir? || a.LookAgain? || a.Leave? || a.Pop? || a.Shut?)
    ensures Inv(Next(s, a))
  {
  }

  lemma InvStep(s: State, a: Action)
    requires Inv(s) && Enabled(s, a)
    ensures Inv(Next(s, a))
  {
    match a
    case Push(_, _) => SenderKeeps(s, a);
    case Release(_, _) => SenderKeeps(s, a);
    case CloseEdge(_) => SenderKeeps(s, a);
    case CallAgain(_) => SenderKeeps(s, a);
    case Clone(e) => CloneKeeps(s, e);
    case WakeUp(t) => WakeKeeps(s, t);
    case Notify(t) => NotifyKeeps(s, t);
    case Scan => ScanKeeps(s);
    case _ => WaiterKeeps(s, a);
  }

  // ---- every run ----

  ghost predicate Runs(s: State, actions: seq<Action>)
    decreases |actions|
  {
    actions == [] || (Enabled(s, actions[0]) && Runs(Next(s, actions[0]), actions[1..]))
  }

  ghost function Final(s: State, actions: seq<Action>): State
    requires Runs(s, actions)
    decreases |actions|
  {
    if actions == [] then s else Final(Next(s, actions[0]), actions[1..])
  }

  lemma {:induction false} Always(s: State, actions: seq<Action>)
    requires Inv(s) && Runs(s, actions)
    ensures Inv(Final(s, actions))
    decreases |actions|
  {
    if actions != [] {
      InvStep(s, actions[0]);
      Always(Next(s, actions[0]), actions[1..]);
    }
  }

  /** Parked with the token clear while some edge is ready or all are exhausted, a sender is still
      between its landing or close and its wake; with the token set, a notify is on its way. */
  lemma NoLostWake(s0: State, actions: seq<Action>)
    requires Init(s0) && Runs(s0, actions) && Final(s0, actions).waiter.Asleep?
    ensures var s := Final(s0, actions);
      && (!s.token.woken && (SomeReady(s.edges, |s.edges|) || AllExhausted(s.edges, |s.edges|)) ==> Coming(s))
      && (s.token.woken ==> Notified(s))
  {
    Always(s0, actions);
  }

  /** With every sender at rest, a sleeping waiter rightly sleeps: no edge is ready, some is idle. */
  lemma RightlyAsleep(s0: State, actions: seq<Action>)
    requires Init(s0) && Runs(s0, actions)
    requires var s := Final(s0, actions); s.waiter.Asleep? && forall t :: 0 <= t < |s.senders| ==> s.senders[t].Resting?
    ensures var s := Final(s0, actions);
      !SomeReady(s.edges, |s.edges|) && exists e :: 0 <= e < |s.edges| && !s.edges[e].Ready() && !s.edges[e].Exhausted()
  {
    Always(s0, actions);
    var s := Final(s0, actions);
    assert !AllExhausted(s.edges, |s.edges|);
  }

  lemma ExhaustedStays(s: State, a: Action)
    requires Enabled(s, a) && AllExhausted(s.edges, |s.edges|)
    ensures |Next(s, a).edges| == |s.edges| && AllExhausted(Next(s, a).edges, |s.edges|)
  {
  }

  lemma {:induction false} ExhaustedForGood(s: State, actions: seq<Action>)
    requires Runs(s, actions) && AllExhausted(s.edges, |s.edges|)
    ensures |Final(s, actions).edges| == |s.edges| && AllExhausted(Final(s, actions).edges, |s.edges|)
    decreases |actions|
  {
    if actions != [] {
      ExhaustedStays(s, actions[0]);
      ExhaustedForGood(Next(s, actions[0]), actions[1..]);
    }
  }

  /** What the call reports is true: an edge is ready when it returns; or every edge is exhausted,
      and stays so whatever happens later. */
  lemma ReportsTruly(s0: State, before: seq<Action>, later: seq<Action>)
    requires Init(s0) && Runs(s0, before) && Runs(Final(s0, before), later)
    ensures var s := Final(s0, before);
      && (s.waiter.Found? ==> SomeReady(s.edges, |s.edges|))
      && (s.waiter.Over? ==> AllExhausted(Final(s, later).edges, |s.edges|) && |Final(s, later).edges| == |s.edges|)
  {
    Always(s0, before);
    if Final(s0, before).waiter.Over? {
      ExhaustedForGood(Final(s0, before), later);
    }
  }
}
