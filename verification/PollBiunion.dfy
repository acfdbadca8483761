/**
  A poll biunion (src/node/biunion/poll/node.rs): two Input phases, Work and Output over one shared
  state. Work and Output are the line node's; an Input hands the line one message at a time. A step
  is one message of a phase's poll, or an event outside; a poll that goes on leaves its phase woken.
  */
module PollBiunion {
  import opened Basics
  import opened PollNode

  datatype Which = Left | Right {
    function Other(): Which {
      if this == Left then Right else Left
    }
  }

  /** An Input phase: its edge, whether it still feeds the node, the message the routine refused it
      and the wake the routine then owes it. `arrived` and `read` are history. */
  datatype Side = Side(
    inbox: seq<Msg>,
    closed: bool,
    open: bool,
    held: Option<int>,
    owed: bool,
    woken: bool,
    done: bool,
    arrived: seq<Msg>,
    read: seq<Msg>)

  /** `line` is the state both sides share, its own inlet unused; `merged` what the routine took,
      and from which side. */
  datatype Node = Node(line: Moment, left: Side, right: Side, merged: seq<(Which, Msg)>)

  datatype Action =
    | PollInput(w: Which, c: Choice)
    | PollWork(c: Choice)
    | PollOutput(e: EdgeAnswer)
    | Arrive(w: Which, m: Msg)
    | CloseUpstream(w: Which)
    | EdgeWakes
    | RoutineWakesWork
    | RoutineMakesRoom(w: Which)

  function Get(n: Node, w: Which): Side {
    if w.Left? then n.left else n.right
  }

  function Put(n: Node, w: Which, s: Side): Node {
    if w.Left? then n.(left := s) else n.(right := s)
  }

  function WakeSides(n: Node): Node {
    n.(left := n.left.(woken := true), right := n.right.(woken := true))
  }

  ghost predicate Init(n: Node) {
    && n.line.state == Running
    && n.line.inlet == Inlet([], false, true, None)
    && n.line.routine == Routine([], false, false, false, false)
    && n.line.outlet == Outlet(None, false)
    && n.line.woken == Phases(true, true, true)
    && n.line.done == Phases(false, false, false)
    && n.line.log == Log([], [], [], [], [])
    && n.left == n.right == Side([], false, true, None, false, true, false, [], [])
    && n.merged == []
  }

  ghost predicate Enabled(n: Node, a: Action) {
    match a
    case PollInput(w, c) => Get(n, w).woken && !Get(n, w).done
    case PollWork(c) => n.line.woken.work && !n.line.done.work && (c.yes ==> n.line.state.Flushing?)
    case PollOutput(e) => n.line.woken.output && !n.line.done.output
    case Arrive(w, m) => !Get(n, w).closed
    case CloseUpstream(w) => true
    case EdgeWakes => n.line.outlet.owes
    case RoutineWakesWork => true
    case RoutineMakesRoom(w) => Get(n, w).owed
  }

  // ---- an Input's poll, one message of it ----

  /** The line takes a message from a side as it would from its own inlet. */
  function Hand(v: Moment, m: Msg, c: Choice): Moment {
    FeedOne(v.(inlet := v.inlet.(inbox := [m])), c).0
  }

  /** The message is the routine's, or the node's signal. */
  function Enter(n: Node, w: Which, s: Side, m: Msg, c: Choice): Node {
    Put(n.(line := Hand(n.line, m, c), merged := n.merged + [(w, m)]), w, s)
  }

  /** A datum the side holds is offered: accepted, the side goes on; refused, it waits for room. */
  function OfferHeld(n: Node, w: Which, s: Side, d: int, c: Choice): Node {
    if c.yes then Enter(n, w, s.(held := None), Data(d), c)
    else Put(n, w, s.(held := Some(d), owed := true, woken := false))
  }

  /** A side ends: alone if the other still feeds the node, else the node starts to end. */
  function CloseSide(n: Node, w: Which, s: Side, c: Choice): Node {
    var t := s.(open := false, woken := false);
    if Get(n, w.Other()).open then Put(n, w, t)
    else
      var line := FeedOne(n.line.(inlet := n.line.inlet.(closed := true)), c).0;
      Put(Put(n.(line := line), w, t.(done := true)), w.Other(), Get(n, w.Other()).(woken := true))
  }

  function InputStep(n: Node, w: Which, c: Choice): Node {
    var s := Get(n, w);
    if !n.line.state.IsOpen() then Put(n, w, s.(woken := false, done := true))
    else if !n.line.state.Running? then Put(n, w, s.(woken := false))
    else if s.held.Some? then OfferHeld(n, w, s, s.held.value, c)
    else if !s.open then Put(n, w, s.(woken := false))
    else if s.inbox == [] then
      if s.closed then CloseSide(n, w, s, c) else Put(n, w, s.(woken := false))
    else
      var m := s.inbox[0];
      var t := s.(inbox := s.inbox[1..], read := s.read + [m]);
      if m.Data? then OfferHeld(n, w, t, m.data, c) else Enter(n, w, t.(woken := false), m, c)
  }

  // ---- Output's poll, one message of it ----

  function Sleep(v: Moment): Moment {
    v.(woken := v.woken.(output := false))
  }

  /** What follows a push: taken, Output goes on; refused, it waits, or a closing node ends; failed,
      the node ends. `went` and `stayed` are the node with Output woken and not. */
  function Pushed(went: Moment, stayed: Moment, e: EdgeAnswer): Moment {
    match e
    case Takes => went
    case Refuses => if stayed.state.CloseReady? then Fail(stayed) else stayed
    case Fails => Fail(stayed)
  }

  function OutputLine(v: Moment, e: EdgeAnswer): Moment {
    if v.state.Closed? then v
    else if v.state.Forwarding? then Settled(Sleep(v), e)
    else if v.outlet.held.Some? then Pushed(Retry(v, e), Retry(Sleep(v), e), e)
    else if v.routine.ready != [] then Pushed(Pull(v, false, e), Pull(Sleep(v), false, e), e)
    else DrainedLine(v, e)
  }

  /** The routine is drained: the signal goes, or the node ends, or Output sleeps. */
  function DrainedLine(v: Moment, e: EdgeAnswer): Moment {
    if v.state.FlushReady? || v.state.MarkerReady? then Forward(Sleep(v), e)
    else if v.state.CloseReady? then Fail(Sleep(v))
    else Sleep(v)
  }

  /** Back to Running, or closed: both inputs are woken. */
  function OutputStep(n: Node, e: EdgeAnswer): Node {
    var line := OutputLine(n.line, e);
    var m := n.(line := line);
    if line.state != n.line.state && !line.state.Forwarding? then WakeSides(m) else m
  }

  function Next(n: Node, a: Action): Node
    requires Enabled(n, a)
  {
    match a
    case PollInput(w, c) => InputStep(n, w, c)
    case PollWork(c) => n.(line := Work(n.line, c))
    case PollOutput(e) => OutputStep(n, e)
    case Arrive(w, m) =>
      var s := Get(n, w);
      Put(n, w, s.(inbox := s.inbox + [m], arrived := s.arrived + [m], woken := true))
    case CloseUpstream(w) => Put(n, w, Get(n, w).(closed := true, woken := true))
    case EdgeWakes =>
      var outlet, woken := n.line.outlet.(owes := false), n.line.woken.(output := true);
      n.(line := n.line.(outlet := outlet, woken := woken))
    case RoutineWakesWork =>
      var routine, woken := n.line.routine.(owesWork := false, needsPoll := true), n.line.woken.(work := true);
      n.(line := n.line.(routine := routine, woken := woken))
    case RoutineMakesRoom(w) => Put(n, w, Get(n, w).(owed := false, woken := true))
  }

  // ---- the invariant ----

  /** The line's own inlet stays out of use. */
  ghost predicate Unused(v: Moment) {
    && v.inlet.inbox == [] && v.inlet.held.None? && !v.routine.owesInput
    && (v.state.IsOpen() ==> !v.inlet.closed)
  }

  /** A side with something to do in Running is woken, or is owed its wake by the routine. In any
      other open state it may sleep: the return to Running wakes it. */
  ghost predicate SideAwake(state: NodeState, s: Side) {
    && (state.Running? && s.open && s.held.None? && (s.inbox != [] || s.closed) ==> s.woken)
    && (state.Running? && s.held.Some? ==> s.woken || s.owed)
    && (s.held.Some? ==> s.open)
    && (!s.open ==> s.closed && s.inbox == [])
    && (state.IsOpen() ==> !s.done)
    && (!state.IsOpen() ==> s.woken || s.done)
  }

  function OfSide(merged: seq<(Which, Msg)>, w: Which): seq<Msg> {
    if merged == [] then []
    else
      var last := merged[|merged| - 1];
      OfSide(merged[..|merged| - 1], w) + if last.0 == w then [last.1] else []
  }

  function Plain(merged: seq<(Which, Msg)>): (r: seq<Msg>)
    ensures |r| == |merged|
  {
    seq(|merged|, i requires 0 <= i < |merged| => merged[i].1)
  }

  /** What a side read is what entered and the message it holds; what arrived and was not read is
      still on its edge. */
  ghost predicate SideKept(merged: seq<(Which, Msg)>, w: Which, s: Side) {
    OfSide(merged, w) + DataOf(s.held) == s.read && s.read + s.inbox == s.arrived
  }

  ghost predicate Inv(n: Node) {
    && PollNode.Inv(n.line) && Unused(n.line)
    && SideAwake(n.line.state, n.left) && SideAwake(n.line.state, n.right)
    && (n.line.state.IsOpen() ==> n.left.open || n.right.open)
    && (n.line.state.CloseReady? ==> !n.left.open && !n.right.open)
    && Kept(n)
  }

  ghost predicate Kept(n: Node) {
    && Plain(n.merged) == n.line.log.read
    && SideKept(n.merged, Left, n.left) && SideKept(n.merged, Right, n.right)
  }

  // ---- the line ----

  /** Handing the line a message keeps its invariant and its inlet unused. */
  lemma HandKeeps(v: Moment, m: Msg, c: Choice)
    requires PollNode.Inv(v) && Unused(v) && v.state.Running? && (m.Data? ==> c.yes)
    ensures var w := Hand(v, m, c);
      && PollNode.Inv(w) && Unused(w) && w.log.read == v.log.read + [m]
      && w.state == match m { case Data(_) => Running case Flush(g) => Flushing(g) case Marker(g) => MarkerReady(g) }
  {
    var u := v.(inlet := v.inlet.(inbox := [m]));
    assert InputRuns(u);
    FeedKeeps(u, c);
    Quietly(Hand(v, m, c));
  }

  lemma Quietly(w: Moment)
    requires w.inlet.inbox == [] && !w.inlet.closed && w.inlet.held.None?
    ensures InputRuns(w) && w.state.Running? ==> PollNode.Inv(w)
  {
  }

  lemma LastClose(v: Moment, c: Choice)
    requires PollNode.Inv(v) && Unused(v) && v.state.Running?
    ensures var w := FeedOne(v.(inlet := v.inlet.(closed := true)), c).0;
      PollNode.Inv(w) && Unused(w) && w.state.CloseReady? && w.log.read == v.log.read
  {
    var u := v.(inlet := v.inlet.(closed := true));
    assert InputRuns(u);
    FeedKeeps(u, c);
  }

  lemma WorkLine(v: Moment, c: Choice)
    requires PollNode.Inv(v) && Unused(v) && !v.done.work && (c.yes ==> v.state.Flushing?)
    ensures var w := Work(v, c);
      && PollNode.Inv(w) && Unused(w) && w.log.read == v.log.read
      && (w.state.IsOpen() <==> v.state.IsOpen()) && (w.state.Running? <==> v.state.Running?)
      && (w.state.CloseReady? <==> v.state.CloseReady?)
  {
    WorkKeeps(v, c);
  }

  /** What a push leaves. */
  lemma PushedLine(went: Moment, stayed: Moment, e: EdgeAnswer)
    requires went == stayed.(woken := stayed.woken.(output := true))
    requires e.Takes? ==> OutputRuns(stayed)
    requires e.Refuses? && stayed.state.IsOpen() ==> PollNode.Inv(stayed)
    requires PollNode.Inv(Fail(stayed)) && (stayed.state.IsOpen() || stayed.state.CloseReady?)
    ensures PollNode.Inv(Pushed(went, stayed, e))
  {
  }

  lemma RetriedLine(v: Moment, e: EdgeAnswer)
    requires OutputRuns(Sleep(v)) && v.woken.output && !v.state.Closed? && !v.state.Forwarding? && v.outlet.held.Some?
    ensures PollNode.Inv(Pushed(Retry(v, e), Retry(Sleep(v), e), e))
  {
    RetryKeeps(Sleep(v), e);
    PushedLine(Retry(v, e), Retry(Sleep(v), e), e);
  }

  lemma PulledLine(v: Moment, e: EdgeAnswer)
    requires OutputRuns(Sleep(v)) && v.woken.output && !v.state.Closed? && !v.state.Forwarding?
    requires v.outlet.held.None? && v.routine.ready != []
    ensures PollNode.Inv(Pushed(Pull(v, false, e), Pull(Sleep(v), false, e), e))
  {
    PullKeeps(Sleep(v), false, e);
    PushedLine(Pull(v, false, e), Pull(Sleep(v), false, e), e);
  }

  lemma DrainedLineKeeps(v: Moment, e: EdgeAnswer)
    requires OutputRuns(Sleep(v)) && !v.state.Closed? && !v.state.Forwarding?
    requires v.outlet.held.None? && v.routine.ready == []
    ensures PollNode.Inv(DrainedLine(v, e))
  {
    if v.state.FlushReady? || v.state.MarkerReady? {
      ForwardKeeps(Sleep(v), e);
    } else if v.state.CloseReady? {
      FailKeeps(Sleep(v));
    } else {
      IdleKeeps(Sleep(v));
    }
  }

  lemma OutputLineKeeps(v: Moment, e: EdgeAnswer)
    requires PollNode.Inv(v) && v.woken.output && !v.done.output
    ensures PollNode.Inv(OutputLine(v, e))
  {
    PhaseStarts(v);
    if v.state.Forwarding? {
      SettledKeeps(Sleep(v), e);
    } else if !v.state.Closed? {
      if v.outlet.held.Some? {
        RetriedLine(v, e);
      } else if v.routine.ready != [] {
        PulledLine(v, e);
      } else {
        DrainedLineKeeps(v, e);
      }
    }
  }

  /** Output leaves the inlet alone; and it changes the state only by ending a signal or the node. */
  lemma OutputLineState(v: Moment, e: EdgeAnswer)
    requires Unused(v)
    ensures var w := OutputLine(v, e);
      && Unused(w) && w.log.read == v.log.read
      && (w.state == v.state || w.state.Forwarding? || w.state.Closed? || w.state.Running?)
      && (w.state.Forwarding? ==> v.state.IsOpen() && !v.state.Running?)
      && (w.state.Running? && v.state != w.state ==> v.state.IsOpen())
      && (v.state.Closed? ==> w == v)
      && (w.state.CloseReady? ==> v.state.CloseReady?)
  {
  }

  // ---- the streams ----

  lemma EnterKept(merged: seq<(Which, Msg)>, w: Which, m: Msg)
    ensures Plain(merged + [(w, m)]) == Plain(merged) + [m]
    ensures OfSide(merged + [(w, m)], w) == OfSide(merged, w) + [m]
    ensures OfSide(merged + [(w, m)], w.Other()) == OfSide(merged, w.Other())
  {
    var all := merged + [(w, m)];
    assert all[..|all| - 1] == merged;
  }

  lemma ReadKept(merged: seq<(Which, Msg)>, w: Which, s: Side, m: Msg)
    requires SideKept(merged, w, s) && s.held.None? && s.inbox != [] && m == s.inbox[0]
    ensures OfSide(merged, w) + [m] == s.read + [m] && (s.read + [m]) + s.inbox[1..] == s.arrived
  {
    MoveOne(s.read, s.inbox);
    assert OfSide(merged, w) + [] == OfSide(merged, w);
  }

  // ---- every step keeps it ----

  lemma EnterStreams(n: Node, w: Which, s: Side, m: Msg)
    requires Kept(n) && s.held.None? && OfSide(n.merged, w) + [m] == s.read && s.read + s.inbox == s.arrived
    ensures var merged := n.merged + [(w, m)];
      && Plain(merged) == n.line.log.read + [m]
      && SideKept(merged, w, s) && SideKept(merged, w.Other(), Get(n, w.Other()))
  {
    EnterKept(n.merged, w, m);
    assert s.read + [] == s.read;
  }

  /** Leaving Running for an open state asks nothing of a side. */
  lemma SideAfterEnter(after: NodeState, s: Side)
    requires SideAwake(Running, s) && after.IsOpen()
    ensures SideAwake(after, s)
  {
  }

  lemma Entered(after: NodeState, s: Side)
    requires after.IsOpen() && s.held.None? && s.open && !s.done && (after.Running? ==> s.woken)
    ensures SideAwake(after, s)
  {
  }

  lemma EnterLine(n: Node, w: Which, s: Side, m: Msg, c: Choice)
    requires PollNode.Inv(n.line) && Unused(n.line) && n.line.state.Running? && (m.Data? ==> c.yes)
    ensures var line := Enter(n, w, s, m, c).line;
      && PollNode.Inv(line) && Unused(line) && line.state.IsOpen() && (line.state.Running? ==> m.Data?)
      && line.log.read == n.line.log.read + [m]
  {
    HandKeeps(n.line, m, c);
  }

  lemma EnterKeepsStreams(n: Node, w: Which, s: Side, m: Msg, c: Choice)
    requires Kept(n) && s.held.None? && OfSide(n.merged, w) + [m] == s.read && s.read + s.inbox == s.arrived
    requires Enter(n, w, s, m, c).line.log.read == n.line.log.read + [m]
    ensures Kept(Enter(n, w, s, m, c))
  {
    EnterStreams(n, w, s, m);
  }

  lemma EnterSides(n: Node, w: Which, s: Side, m: Msg, c: Choice)
    requires SideAwake(Running, Get(n, w.Other())) && s.held.None? && s.open && !s.done && (m.Data? ==> s.woken)
    requires var state := Enter(n, w, s, m, c).line.state; state.IsOpen() && (state.Running? ==> m.Data?)
    ensures var after := Enter(n, w, s, m, c);
      SideAwake(after.line.state, after.left) && SideAwake(after.line.state, after.right)
  {
    Entered(Enter(n, w, s, m, c).line.state, s);
    SideAfterEnter(Enter(n, w, s, m, c).line.state, Get(n, w.Other()));
  }

  /** A message enters from side `w`, which is then as `s` says. */
  lemma EnterKeeps(n: Node, w: Which, s: Side, m: Msg, c: Choice)
    requires Inv(n) && n.line.state.Running? && (m.Data? ==> c.yes)
    requires s.held.None? && s.open && !s.done && OfSide(n.merged, w) + [m] == s.read && s.read + s.inbox == s.arrived
    requires m.Data? ==> s.woken
    ensures Inv(Enter(n, w, s, m, c))
  {
    EnterLine(n, w, s, m, c);
    EnterKeepsStreams(n, w, s, m, c);
    EnterSides(n, w, s, m, c);
  }

  lemma OfferKeeps(n: Node, w: Which, s: Side, d: int, c: Choice)
    requires Inv(n) && n.line.state.Running?
    requires s.open && !s.done && s.woken && OfSide(n.merged, w) + [Data(d)] == s.read && s.read + s.inbox == s.arrived
    ensures Inv(OfferHeld(n, w, s, d, c))
  {
    if c.yes {
      EnterKeeps(n, w, s.(held := None), Data(d), c);
    }
  }

  lemma CloseKeeps(n: Node, w: Which, c: Choice)
    requires Inv(n) && n.line.state.Running?
    requires var s := Get(n, w); s.open && s.held.None? && s.inbox == [] && s.closed
    ensures Inv(CloseSide(n, w, Get(n, w), c))
  {
    LastClose(n.line, c);
  }

  lemma InputKeeps(n: Node, w: Which, c: Choice)
    requires Inv(n) && Enabled(n, Action.PollInput(w, c))
    ensures Inv(InputStep(n, w, c))
  {
    var s := Get(n, w);
    if n.line.state.Running? {
      if s.held.Some? {
        OfferKeeps(n, w, s, s.held.value, c);
      } else if s.open && s.inbox == [] && s.closed {
        CloseKeeps(n, w, c);
      } else if s.open && s.inbox != [] {
        var m := s.inbox[0];
        var t := s.(inbox := s.inbox[1..], read := s.read + [m]);
        ReadKept(n.merged, w, s, m);
        if m.Data? {
          OfferKeeps(n, w, t, m.data, c);
        } else {
          EnterKeeps(n, w, t.(woken := false), m, c);
        }
      }
    }
  }

  /** A side after Output moved the state from `before` to `after`. */
  lemma SideAfterOutput(before: NodeState, after: NodeState, s: Side)
    requires SideAwake(before, s)
    requires after == before || (before.IsOpen() && !before.Running? && after.Forwarding?)
          || (before.IsOpen() && after.Running?) || after.Closed?
    ensures SideAwake(after, if after != before && !after.Forwarding? then s.(woken := true) else s)
  {
  }

  lemma OutputKeeps(n: Node, e: EdgeAnswer)
    requires Inv(n) && Enabled(n, Action.PollOutput(e))
    ensures Inv(OutputStep(n, e))
  {
    var before, after, m := n.line.state, OutputLine(n.line, e).state, OutputStep(n, e);
    OutputLineKeeps(n.line, e);
    OutputLineState(n.line, e);
    assert SideAwake(after, m.left) && SideAwake(after, m.right) by {
      SideAfterOutput(before, after, n.left);
      SideAfterOutput(before, after, n.right);
    }
    assert Kept(m);
  }

  lemma ArriveKeeps(n: Node, w: Which, m: Msg)
    requires Inv(n) && Enabled(n, Arrive(w, m))
    ensures Inv(Next(n, Arrive(w, m)))
  {
    var s := Get(n, w);
    Assoc(s.read, s.inbox, [m]);
  }

  lemma SideEventKeeps(n: Node, a: Action)
    requires Inv(n) && Enabled(n, a) && (a.CloseUpstream? || a.RoutineMakesRoom?)
    ensures Inv(Next(n, a))
  {
  }

  lemma LineEventKeeps(n: Node, a: Action)
    requires Inv(n) && Enabled(n, a) && (a.EdgeWakes? || a.RoutineWakesWork?)
    ensures Inv(Next(n, a))
  {
  }

  lemma InvStep(n: Node, a: Action)
    requires Inv(n) && Enabled(n, a)
    ensures Inv(Next(n, a))
  {
    match a
    case PollInput(w, c) => InputKeeps(n, w, c);
    case PollWork(c) => WorkLine(n.line, c);
    case PollOutput(e) => OutputKeeps(n, e);
    case Arrive(w, m) => ArriveKeeps(n, w, m);
    case CloseUpstream(w) => SideEventKeeps(n, a);
    case RoutineMakesRoom(w) => SideEventKeeps(n, a);
    case EdgeWakes => LineEventKeeps(n, a);
    case RoutineWakesWork => LineEventKeeps(n, a);
  }

  // ---- every run ----

  ghost predicate Runs(n: Node, actions: seq<Action>)
    decreases |actions|
  {
    actions == [] || (Enabled(n, actions[0]) && Runs(Next(n, actions[0]), actions[1..]))
  }

  ghost function Final(n: Node, actions: seq<Action>): Node
    requires Runs(n, actions)
    decreases |actions|
  {
    if actions == [] then n else Final(Next(n, actions[0]), actions[1..])
  }

  lemma {:induction false} RunKeepsInv(n: Node, actions: seq<Action>)
    requires Inv(n) && Runs(n, actions)
    ensures Inv(Final(n, actions))
    decreases |actions|
  {
    if actions != [] {
      InvStep(n, actions[0]);
      RunKeepsInv(Next(n, actions[0]), actions[1..]);
    }
  }

  lemma Always(n: Node, actions: seq<Action>)
    requires Init(n) && Runs(n, actions)
    ensures Inv(Final(n, actions))
  {
    RunKeepsInv(n, actions);
  }

  /** A side that has something to do. */
  ghost predicate SideBusy(s: Side) {
    s.held.Some? || (s.open && (s.inbox != [] || s.closed))
  }

  /** In every reachable state each phase with something to do is woken or owed its own wake; a side
      holding a datum while the other's signal is on its way waits for Output, which is. */
  lemma NeverStranded(n0: Node, actions: seq<Action>, w: Which)
    requires Init(n0) && Runs(n0, actions)
    ensures var n := Final(n0, actions); var s := Get(n, w);
      && EachPhaseOwed(n.line)
      && (n.line.state.Running? && SideBusy(s) ==> s.woken || (s.held.Some? && s.owed))
      && (n.line.state.IsOpen() && !n.line.state.Running? && SideBusy(s) ==>
            (n.line.state.Flushing? && (n.line.woken.work || n.line.routine.owesWork))
            || n.line.woken.work || OutputOwed(n.line))
      && (!n.line.state.IsOpen() ==> s.woken || s.done)
  {
    Always(n0, actions);
    NextPhaseOwed(Final(n0, actions).line);
  }

  /** An open node with nothing woken and nothing owed has nothing to do on either side. */
  lemma QuietlyDone(n0: Node, actions: seq<Action>)
    requires Init(n0) && Runs(n0, actions)
    requires var n := Final(n0, actions);
      && n.line.state.IsOpen() && Quiet(n.line.(woken := n.line.woken.(input := false)))
      && !n.left.woken && !n.right.woken && !n.left.owed && !n.right.owed
    ensures var n := Final(n0, actions);
      && n.line.state.Running? && n.line.routine.ready == [] && n.line.outlet.held.None? && !n.line.routine.needsPoll
      && !SideBusy(n.left) && !SideBusy(n.right)
  {
    Always(n0, actions);
  }

  /** What the routine took interleaves what each side read, in order, but for the one datum a side
      may hold; the signals among it leave once and in order, a Flush only after the routine's Ready. */
  lemma Interleaves(n0: Node, actions: seq<Action>)
    requires Init(n0) && Runs(n0, actions)
    ensures var n := Final(n0, actions);
      && Plain(n.merged) == n.line.log.read
      && OfSide(n.merged, Left) + DataOf(n.left.held) + n.left.inbox == n.left.arrived
      && OfSide(n.merged, Right) + DataOf(n.right.held) + n.right.inbox == n.right.arrived
      && (n.line.state.IsOpen() ==> SignalsKept(n.line))
      && Signals(n.line.log.sent) <= Signals(n.line.log.read) && Flushes(n.line.log.sent) <= n.line.log.readied
  {
    Always(n0, actions);
    Meaning(Final(n0, actions).line);
  }

  /** The node starts to end only once both inputs did, everything on them read and taken. */
  lemma EndsWithLast(n0: Node, actions: seq<Action>)
    requires Init(n0) && Runs(n0, actions) && Final(n0, actions).line.state.CloseReady?
    ensures var n := Final(n0, actions);
      && !n.left.open && !n.right.open && n.left.closed && n.right.closed
      && OfSide(n.merged, Left) == n.left.arrived && OfSide(n.merged, Right) == n.right.arrived
  {
    Always(n0, actions);
    var n := Final(n0, actions);
    assert forall s: seq<Msg> :: s + [] == s;
  }

  /** Until the node is closed it is ending if and only if both inputs did. */
  lemma EndsExactly(n0: Node, actions: seq<Action>)
    requires Init(n0) && Runs(n0, actions)
    ensures var n := Final(n0, actions);
      !n.line.state.Closed? ==> (n.line.state.CloseReady? <==> !n.left.open && !n.right.open)
  {
    Always(n0, actions);
  }

  /** The step that starts the end: an input that reads its own end while the other is done. */
  ghost predicate StartsEnd(n: Node, a: Action) {
    && a.PollInput? && n.line.state.Running? && !Get(n, a.w.Other()).open
    && var s := Get(n, a.w);
      s.open && s.closed && s.inbox == [] && s.held.None?
  }

  /** An open node starts to end by exactly that step; any other way out is an edge that failed. */
  lemma StepExactly(n0: Node, actions: seq<Action>, a: Action)
    requires Init(n0) && Runs(n0, actions) && Enabled(Final(n0, actions), a)
    ensures var n := Final(n0, actions); var n' := Next(n, a);
      && (n.line.state.IsOpen() && n'.line.state.CloseReady? <==> StartsEnd(n, a))
      && (n.line.state.IsOpen() && n'.line.state.Closed? ==> a.PollOutput? && a.e.Fails?)
  {
    var n := Final(n0, actions);
    assert n.line.inlet.inbox == [] by {
      Always(n0, actions);
    }
    match a
    case PollInput(w, c) => InputEnds(n, w, c);
    case PollWork(c) => WorkEnds(n.line, c);
    case PollOutput(e) =>
      if n.line.state.IsOpen() {
        OutputEnds(n.line, e);
      }
    case _ =>
  }

  lemma InputEnds(n: Node, w: Which, c: Choice)
    requires n.line.inlet.inbox == []
    ensures var state := InputStep(n, w, c).line.state;
      && (n.line.state.IsOpen() && state.CloseReady? <==> StartsEnd(n, Action.PollInput(w, c)))
      && (n.line.state.IsOpen() ==> !state.Closed?)
  {
    var s := Get(n, w);
    if n.line.state.Running? && s.held.Some? {
      OfferStays(n, w, s, s.held.value, c);
    } else if n.line.state.Running? && s.open && s.inbox != [] {
      var m := s.inbox[0];
      var t := s.(inbox := s.inbox[1..], read := s.read + [m]);
      if m.Data? {
        OfferStays(n, w, t, m.data, c);
      } else {
        HandState(n.line, m, c);
      }
    }
  }

  lemma HandState(v: Moment, m: Msg, c: Choice)
    requires v.state.Running?
    ensures Hand(v, m, c).state
         == match m { case Data(_) => Running case Flush(g) => Flushing(g) case Marker(g) => MarkerReady(g) }
  {
  }

  lemma OfferStays(n: Node, w: Which, s: Side, d: int, c: Choice)
    requires n.line.state.Running?
    ensures OfferHeld(n, w, s, d, c).line.state.Running?
  {
    HandState(n.line, Data(d), c);
  }

  lemma WorkEnds(v: Moment, c: Choice)
    ensures var state := Work(v, c).state; state == v.state || state.FlushReady?
  {
  }

  lemma OutputEnds(v: Moment, e: EdgeAnswer)
    requires v.state.IsOpen()
    ensures var state := OutputLine(v, e).state;
      !state.CloseReady? && (state.Closed? ==> e.Fails?)
  {
  }

  /** A node with one input closed, read to its end, and the node running on. */
  lemma OneCloseLeavesOpen(n0: Node, w: Which, c: Choice)
    requires Init(n0)
    ensures var actions := [CloseUpstream(w), Action.PollInput(w, c)];
      && Runs(n0, actions)
      && !Get(Final(n0, actions), w).open && Get(Final(n0, actions), w.Other()).open
      && Final(n0, actions).line.state.Running?
  {
    var actions := [CloseUpstream(w), Action.PollInput(w, c)];
    assert actions[1..] == [Action.PollInput(w, c)] && actions[1..][1..] == [];
    var n1 := Next(n0, actions[0]);
    var n2 := Next(n1, actions[1]);
    assert Runs(n2, []) && Runs(n1, actions[1..]);
    assert Final(n1, actions[1..]) == n2;
  }
}
