/**
  A poll line node: the Input, Work and Output phases over one shared state (src/node/poll and
  src/node/line/poll/node). The routine, the outlet and the upstream answer as their contracts
  allow, in any order; every other step is the code's own.
  */
module PollNode {
  import opened Basics

  type Msg = Message<int, int>

  datatype NodeState =
    | Running
    | Flushing(signal: int)
    | FlushReady(signal: int)
    | MarkerReady(signal: int)
    | Forwarding
    | CloseReady
    | Closed
  {
    predicate IsOpen() {
      !CloseReady? && !Closed?
    }
  }

  /** The edge Input reads, and the message the routine refused. */
  datatype Inlet = Inlet(inbox: seq<Msg>, closed: bool, open: bool, held: Option<int>)

  /** The routine: outputs it holds, wakes it owes Input (after a refusal) and Work (after a pending
      poll), whether it was woken and not polled since, and whether it was told to flush and has not
      answered Ready. */
  datatype Routine = Routine(ready: seq<int>, owesInput: bool, owesWork: bool, needsPoll: bool, flushing: bool)

  /** The message an edge refused, and whether that edge owes Output a wake. */
  datatype Outlet = Outlet(held: Option<Msg>, owes: bool)

  /** One flag per phase: woken, or returned Closed. */
  datatype Phases = Phases(input: bool, work: bool, output: bool)

  /** History: what Input took, what the routine took, the flushes it answered Ready to, the stream
      the node owes downstream, and what was delivered. */
  datatype Log = Log(read: seq<Msg>, fed: seq<Msg>, readied: seq<Msg>, made: seq<Msg>, sent: seq<Msg>)

  /** The node at one moment. */
  datatype Moment = Moment(state: NodeState, inlet: Inlet, routine: Routine, outlet: Outlet, woken: Phases,
      done: Phases, log: Log)

  function ListOf(m: Option<Msg>): seq<Msg> {
    if m.None? then [] else [m.value]
  }

  function DataOf(d: Option<int>): seq<Msg> {
    if d.None? then [] else [Data(d.value)]
  }

  /** The signal that was read and is not in the owed stream yet. */
  function InFlight(s: NodeState): seq<Msg> {
    match s
    case Flushing(g) => [Flush(g)]
    case MarkerReady(g) => [Marker(g)]
    case _ => []
  }

  function Behind(s: NodeState): seq<Msg> {
    if s.FlushReady? then [Flush(s.signal)] else []
  }

  /** What the node still holds of the owed stream: the refused message, the routine's outputs and
      a Flush behind them. */
  function Tail(s: NodeState, out: Option<Msg>, ready: seq<int>): seq<Msg> {
    ListOf(out) + AsData(ready) + Behind(s)
  }

  function WithoutMarkers(s: seq<Msg>): seq<Msg> {
    if s == [] then []
    else WithoutMarkers(s[..|s| - 1]) + if s[|s| - 1].Marker? then [] else [s[|s| - 1]]
  }

  function Flushes(s: seq<Msg>): seq<Msg> {
    if s == [] then [] else Flushes(s[..|s| - 1]) + if s[|s| - 1].Flush? then [s[|s| - 1]] else []
  }

  // ---- the invariant ----

  /** Whoever must act next was woken, or is owed a wake. */
  ghost predicate Awake(s: NodeState, i: Inlet, r: Routine, o: Outlet, w: Phases, d: Phases) {
    && (s.Running? && (i.inbox != [] || i.closed) ==> w.input || i.held.Some?)
    && (s.IsOpen() && i.held.Some? ==> w.input || r.owesInput)
    && (s.IsOpen() && r.ready != [] ==> w.output || o.held.Some?)
    && (s.IsOpen() && o.held.Some? ==> w.output || o.owes)
    && (s.Flushing? ==> w.work || r.owesWork)
    && (s.FlushReady? ==> w.output || o.held.Some?)
    && (s.MarkerReady? ==> w.work || w.output || o.held.Some?)
    && (s.IsOpen() && r.needsPoll ==> w.work || s.FlushReady? || s.Forwarding?)
    && (s.CloseReady? ==> w.output && (w.work || d.work) && d.input)
    && (s.Closed? ==> d.output && (w.input || d.input) && (w.work || d.work))
  }

  /** Which phase holds what in which state. */
  ghost predicate Roles(s: NodeState, i: Inlet, r: Routine, o: Outlet, d: Phases) {
    && (s.IsOpen() ==> i.open && !d.input && !d.work && !d.output)
    && (s.CloseReady? ==> !d.output)
    && (i.held.Some? ==> s.Running? || s.Closed?)
    && (s.Forwarding? ==> r.ready == [])
    && (s.IsOpen() ==> (r.flushing <==> s.Flushing?))
    && (!s.Closed? ==> (s.Forwarding? <==> o.held.Some? && o.held.value.IsSignal()))
  }

  /** Nothing is lost, doubled or reordered on the way through. */
  ghost predicate Streams(s: NodeState, held: Option<int>, ready: seq<int>, out: Option<Msg>, log: Log) {
    && (!s.Closed? ==> log.sent + Tail(s, out, ready) == log.made)
    && log.sent <= log.made
    && (s.IsOpen() ==> Signals(log.made) + InFlight(s) == Signals(log.read))
    && Signals(log.made) <= Signals(log.read)
    && (!s.Closed? ==> log.fed + DataOf(held) == WithoutMarkers(log.read))
    && log.fed <= WithoutMarkers(log.read)
  }

  ghost predicate Control(v: Moment) {
    Awake(v.state, v.inlet, v.routine, v.outlet, v.woken, v.done)
        && Roles(v.state, v.inlet, v.routine, v.outlet, v.done)
  }

  ghost predicate Flows(v: Moment) {
    Streams(v.state, v.inlet.held, v.routine.ready, v.outlet.held, v.log) && FlushesReadied(v.log)
  }

  /** The owed stream has exactly the flushes the routine answered Ready to, in order. */
  ghost predicate FlushesReadied(log: Log) {
    Flushes(log.made) == log.readied
  }

  ghost predicate Inv(v: Moment) {
    Control(v) && Flows(v)
  }

  // ---- what each piece of a phase does, given how the routine and the edges answer ----

  /** How the routine answers a call: `yes` accepts or is Ready; `more` appears in its output;
      `async` leaves work for a later poll; `freed` makes room. */
  datatype Choice = Choice(yes: bool, more: seq<int>, async: bool, freed: bool)

  /** How an edge answers a push: it takes the message, hands it back, or is closed. */
  datatype EdgeAnswer = Takes | Refuses | Fails

  function WakeInput(w: Phases, b: bool): Phases {
    if b then w.(input := true) else w
  }

  function WakeWork(w: Phases, b: bool): Phases {
    if b then w.(work := true) else w
  }

  function WakeOutput(w: Phases, b: bool): Phases {
    if b then w.(output := true) else w
  }

  /** New output wakes Output; room that frees wakes the Input it was refused to. */
  function Produced(v: Moment, c: Choice): Moment {
    Moment(v.state, v.inlet,
           v.routine.(ready := v.routine.ready + c.more, owesInput := v.routine.owesInput && !c.freed),
           v.outlet,
           WakeOutput(WakeInput(v.woken, v.routine.owesInput && c.freed), c.more != []),
           v.done,
           v.log.(made := v.log.made + AsData(c.more)))
  }

  /** The routine took a datum, before what it makes of it. */
  function Fed(v: Moment, d: int, async: bool): Moment {
    v.(inlet := v.inlet.(held := None),
       routine := v.routine.(needsPoll := v.routine.needsPoll || async),
       woken := WakeWork(v.woken, async),
       log := v.log.(fed := v.log.fed + [Data(d)]))
  }

  /** Feed offers data: accepted, or held with a wake owed. */
  function Offer(v: Moment, d: int, c: Choice): Moment {
    if c.yes then Produced(Fed(v, d, c.async), c)
    else v.(inlet := v.inlet.(held := Some(d)), routine := v.routine.(owesInput := true))
  }

  /** The routine was told to flush, before what it makes of it. */
  function Begun(v: Moment, m: Msg, g: int): Moment {
    v.(state := Flushing(g),
       routine := v.routine.(flushing := true),
       woken := v.woken.(work := true),
       log := v.log.(fed := v.log.fed + [m]))
  }

  /** Feed takes one message from the edge; the flag says whether it goes on. */
  function Receive(v: Moment, c: Choice): (Moment, bool) {
    if v.inlet.inbox == [] then
      var ended := v.(state := CloseReady, inlet := v.inlet.(open := false), woken := v.woken.(work := true));
      (if v.inlet.closed then ended else v, false)
    else
      var m := v.inlet.inbox[0];
      var w := v.(inlet := v.inlet.(inbox := v.inlet.inbox[1..]), log := v.log.(read := v.log.read + [m]));
      match m
      case Data(d) => (Offer(w, d, c), c.yes)
      case Flush(g) => (Produced(Begun(w, m, g), c), false)
      case Marker(g) => (w.(state := MarkerReady(g), woken := w.woken.(work := true)), false)
  }

  /** The phase around Feed: on a close it wakes Output and is done. */
  function AfterFeed(v: Moment): Moment {
    if v.state.CloseReady? then v.(woken := v.woken.(output := true), done := v.done.(input := true)) else v
  }

  function FeedOne(v: Moment, c: Choice): (Moment, bool) {
    var (w, go) := Receive(v, c);
    (AfterFeed(w), go)
  }

  /** The routine is polled; Ready ends its flush. */
  function Polled(v: Moment, c: Choice): Moment {
    Produced(Answered(v, c), c)
  }

  function Answered(v: Moment, c: Choice): Moment {
    v.(routine := v.routine.(needsPoll := false, owesWork := c.async, flushing := v.routine.flushing && !c.yes),
       log := v.log.(readied := v.log.readied + if c.yes then InFlight(v.state) else []))
  }

  /** A poll of the Work phase. */
  function Work(v: Moment, c: Choice): Moment {
    var w := v.(woken := v.woken.(work := false));
    match v.state
    case Closed => w.(done := w.done.(work := true))
    case CloseReady => w.(done := w.done.(work := true))
    case Flushing(g) =>
      if c.yes then
        var p := Polled(w, c);
        p.(state := FlushReady(g), woken := p.woken.(output := true), log := p.log.(made := p.log.made + [Flush(g)]))
      else Polled(w, c.(async := true))
    case Running => Polled(w, c)
    case MarkerReady(g) =>
      var p := Polled(w, c);
      p.(woken := p.woken.(output := true))
    case FlushReady(g) => w
    case Forwarding => w
  }

  /** Emit retries the held message. */
  function Retry(v: Moment, e: EdgeAnswer): Moment {
    if v.outlet.held.None? then v
    else match e
      case Takes => v.(outlet := v.outlet.(held := None), log := v.log.(sent := v.log.sent + [v.outlet.held.value]))
      case Refuses => v.(outlet := v.outlet.(owes := true))
      case Fails => v.(outlet := v.outlet.(held := None))
  }

  /** Emit starts a rotation; nothing is held. */
  function Rotate(v: Moment, m: Msg, e: EdgeAnswer): Moment {
    match e
    case Takes => v.(log := v.log.(sent := v.log.sent + [m]))
    case Refuses => v.(outlet := Outlet(Some(m), true))
    case Fails => v
  }

  /** Emit takes the routine's next output and rotates it. */
  function Pull(v: Moment, freed: bool, e: EdgeAnswer): Moment
    requires v.routine.ready != []
  {
    Rotate(v.(routine := v.routine.(ready := v.routine.ready[1..], owesInput := v.routine.owesInput && !freed),
              woken := WakeInput(v.woken, v.routine.owesInput && freed)),
           Data(v.routine.ready[0]), e)
  }

  function Resumed(v: Moment): Moment {
    v.(state := Running, woken := v.woken.(input := true, work := true))
  }

  function Fail(v: Moment): Moment {
    v.(state := Closed, woken := v.woken.(input := true, work := true), done := v.done.(output := true),
       outlet := v.outlet.(held := None))
  }

  /** Emit forwards the signal once the routine is drained. */
  function Forward(v: Moment, e: EdgeAnswer): Moment
    requires v.state.FlushReady? || v.state.MarkerReady?
  {
    var m := if v.state.FlushReady? then Flush(v.state.signal) else Marker(v.state.signal);
    var made := if m.Marker? then v.log.made + [m] else v.log.made;
    var w := Rotate(v.(state := Forwarding, log := v.log.(made := made)), m, e);
    match e
    case Takes => Resumed(w)
    case Refuses => w
    case Fails => Fail(w)
  }

  function Alert(v: Moment, w: Phases): Moment {
    v.(woken := w)
  }

  // ---- each piece keeps the invariant ----

  lemma Regroup(a: seq<Msg>, b: seq<Msg>, c: seq<Msg>, d: seq<Msg>)
    ensures a + (b + c + d) == (a + b) + (c + d)
  {
  }

  lemma SignalsThroughData(s: seq<Msg>, d: seq<int>)
    ensures Signals(s + AsData(d)) == Signals(s)
  {
    SignalsConcat(s, AsData<int, int>(d));
    SignalsOfData(AsData<int, int>(d));
  }

  lemma TailGrows(sent: seq<Msg>, s: NodeState, out: Option<Msg>, ready: seq<int>, more: seq<int>)
    requires !s.FlushReady?
    ensures sent + Tail(s, out, ready + more) == sent + Tail(s, out, ready) + AsData(more)
  {
    var a: seq<Msg>, b: seq<Msg>, c: seq<Msg> := ListOf(out), AsData(ready), AsData(more);
    AsDataConcat<int, int>(ready, more);
    assert Tail(s, out, ready) == a + b;
    assert Tail(s, out, ready + more) == a + (b + c);
    assert sent + (a + (b + c)) == sent + (a + b) + c;
  }

  /** Outputs extend the owed stream behind what the node already holds. */
  lemma ProducedStreams(s: NodeState, held: Option<int>, ready: seq<int>, out: Option<Msg>, log: Log, more: seq<int>)
    requires Streams(s, held, ready, out, log) && (s.Running? || s.Flushing? || s.MarkerReady?)
    ensures Streams(s, held, ready + more, out, log.(made := log.made + AsData(more)))
  {
    SignalsThroughData(log.made, more);
    TailGrows(log.sent, s, out, ready, more);
  }

  lemma FlushesConcat(a: seq<Msg>, b: seq<Msg>)
    ensures |b| == 1 ==> Flushes(a + b) == Flushes(a) + if b[0].Flush? then b else []
  {
    if |b| == 1 {
      assert (a + b)[..|a + b| - 1] == a;
    }
  }

  /** Outputs are no flushes. */
  lemma {:induction false} FlushesThroughData(s: seq<Msg>, d: seq<int>)
    ensures Flushes(s + AsData(d)) == Flushes(s)
    decreases |d|
  {
    var all := s + AsData(d);
    if d == [] {
      assert all == s;
    } else {
      FlushesThroughData(s, d[..|d| - 1]);
      assert all[..|all| - 1] == s + AsData(d[..|d| - 1]);
    }
  }

  lemma ProducedFlows(v: Moment, c: Choice)
    requires Flows(v) && (v.state.Running? || v.state.Flushing? || v.state.MarkerReady?)
    ensures Flows(Produced(v, c))
  {
    FlushesThroughData(v.log.made, c.more);
    ProducedStreams(v.state, v.inlet.held, v.routine.ready, v.outlet.held, v.log, c.more);
  }

  lemma OfferFlows(v: Moment, d: int, c: Choice)
    requires v.state.Running? && Flows(v.(inlet := v.inlet.(held := Some(d))))
    ensures Flows(Offer(v, d, c))
  {
    if c.yes {
      assert v.log.fed + [Data(d)] + DataOf(None) == v.log.fed + DataOf(Some(d));
      ProducedFlows(Fed(v, d, c.async), c);
    }
  }

  lemma OfferControl(v: Moment, d: int, c: Choice)
    requires v.state.Running? && Control(v.(inlet := v.inlet.(held := Some(d)), woken := v.woken.(input := true)))
    ensures c.yes ==> Control(Alert(Offer(v, d, c), Offer(v, d, c).woken.(input := true)))
    ensures !c.yes ==> Control(Offer(v, d, c))
  {
  }

  /** Reading one more message. */
  lemma ReadOne(read: seq<Msg>, m: Msg)
    ensures Signals(read + [m]) == Signals(read) + if m.IsSignal() then [m] else []
    ensures WithoutMarkers(read + [m]) == WithoutMarkers(read) + if m.Marker? then [] else [m]
  {
    assert (read + [m])[..|read + [m]| - 1] == read;
  }

  /** A signal taken from the edge is in flight. */
  lemma SignalRead(s: NodeState, ready: seq<int>, out: Option<Msg>, log: Log, m: Msg)
    requires Streams(Running, None, ready, out, log) && m.IsSignal()
    requires s == if m.Flush? then Flushing(m.signal) else MarkerReady(m.signal)
    ensures Streams(s, None, ready, out,
        log.(read := log.read + [m], fed := if m.Flush? then log.fed + [m] else log.fed))
  {
    ReadOne(log.read, m);
    assert Signals(log.made) + [] == Signals(log.made);
    assert Tail(s, out, ready) == Tail(Running, out, ready);
    assert log.fed + [] == log.fed && log.fed + [m] + [] == log.fed + [m];
  }

  /** Data taken from the edge is with Feed. */
  lemma DataRead(ready: seq<int>, out: Option<Msg>, log: Log, d: int)
    requires Streams(Running, None, ready, out, log)
    ensures Streams(Running, Some(d), ready, out, log.(read := log.read + [Data(d)]))
  {
    ReadOne(log.read, Data(d));
    assert log.fed + [] == log.fed;
  }

  lemma ReceiveFlows(v: Moment, c: Choice)
    requires Flows(v) && v.state.Running? && v.inlet.held.None?
    ensures Flows(Receive(v, c).0)
  {
    if v.inlet.inbox != [] {
      var m := v.inlet.inbox[0];
      var u := v.(inlet := v.inlet.(inbox := v.inlet.inbox[1..]), log := v.log.(read := v.log.read + [m]));
      match m
      case Data(d) =>
        DataRead(v.routine.ready, v.outlet.held, v.log, d);
        OfferFlows(u, d, c);
      case Flush(g) =>
        SignalRead(Flushing(g), v.routine.ready, v.outlet.held, v.log, m);
        ProducedFlows(Begun(u, m, g), c);
      case Marker(g) =>
        SignalRead(MarkerReady(g), v.routine.ready, v.outlet.held, v.log, m);
    }
  }

  lemma ReceiveControl(v: Moment, c: Choice)
    requires Control(Alert(v, v.woken.(input := true))) && v.state.Running? && v.inlet.held.None?
    ensures var (w, go) := Receive(v, c);
      && (go ==> Control(Alert(w, w.woken.(input := true))) && w.state.Running? && w.inlet.held.None?)
      && (!go ==> Control(AfterFeed(w)))
  {
    if v.inlet.inbox != [] && v.inlet.inbox[0].Data? {
      var u := v.(inlet := v.inlet.(inbox := v.inlet.inbox[1..]),
          log := v.log.(read := v.log.read + [v.inlet.inbox[0]]));
      OfferControl(u, v.inlet.inbox[0].data, c);
    } else if v.inlet.inbox == [] {
      ReceiveEnd(v, c);
    } else {
      ReceiveSignal(v, c);
    }
  }

  lemma ReceiveSignal(v: Moment, c: Choice)
    requires Control(Alert(v, v.woken.(input := true))) && v.state.Running? && v.inlet.held.None?
    requires v.inlet.inbox != [] && v.inlet.inbox[0].IsSignal()
    ensures !Receive(v, c).1 && Control(AfterFeed(Receive(v, c).0))
  {
  }

  lemma ReceiveEnd(v: Moment, c: Choice)
    requires Control(Alert(v, v.woken.(input := true))) && v.state.Running? && v.inlet.held.None?
    requires v.inlet.inbox == []
    ensures !Receive(v, c).1 && Control(AfterFeed(Receive(v, c).0))
  {
  }

  lemma WorkControl(v: Moment, c: Choice)
    requires Control(v) && !v.done.work && (c.yes ==> v.state.Flushing?)
    ensures Control(Work(v, c))
  {
  }

  lemma PolledFlows(v: Moment, c: Choice)
    requires Flows(v) && (v.state.Running? || v.state.Flushing? || v.state.MarkerReady?) && !c.yes
    ensures Flows(Polled(v, c))
  {
    assert v.log.readied + [] == v.log.readied;
    ProducedFlows(Answered(v, c), c);
  }

  /** Only the routine's Ready lets a Flush join the owed stream, behind everything it then holds. */
  lemma FlushedFlows(v: Moment, c: Choice)
    requires Flows(v) && v.state.Flushing? && c.yes
    ensures var p, g := Polled(v, c), v.state.signal;
      && p.log.readied == v.log.readied + [Flush(g)]
      && p.log.made == v.log.sent + ListOf(v.outlet.held) + AsData(p.routine.ready)
      && Flows(p.(state := FlushReady(g), log := p.log.(made := p.log.made + [Flush(g)])))
  {
    var p, g := Polled(v, c), v.state.signal;
    FlushesThroughData(v.log.made, c.more);
    ProducedStreams(v.state, v.inlet.held, v.routine.ready, v.outlet.held, v.log, c.more);
    FlushJoins(g, p.inlet.held, p.routine.ready, p.outlet.held, p.log);
    FlushesConcat(p.log.made, [Flush(g)]);
  }

  lemma FlushJoins(g: int, held: Option<int>, ready: seq<int>, out: Option<Msg>, log: Log)
    requires Streams(Flushing(g), held, ready, out, log)
    ensures log.made == log.sent + ListOf(out) + AsData(ready)
    ensures Streams(FlushReady(g), held, ready, out, log.(made := log.made + [Flush(g)]))
  {
    var kept: seq<Msg> := ListOf(out) + AsData(ready);
    assert Tail(Flushing(g), out, ready) == kept + [] == kept;
    Assoc(log.sent, ListOf(out), AsData<int, int>(ready));
    assert log.sent + Tail(FlushReady(g), out, ready) == log.made + [Flush(g)] by {
      Assoc(log.sent, kept, [Flush(g)]);
    }
    assert Signals(log.made + [Flush(g)]) == Signals(log.made) + [Flush(g)] by {
      SignalsConcat(log.made, [Flush(g)]);
      HeldSignals(Some(Flush(g)));
    }
    assert Signals(log.read) + [] == Signals(log.read);
  }

  lemma WorkFlows(v: Moment, c: Choice)
    requires Flows(v) && (c.yes ==> v.state.Flushing?)
    ensures Flows(Work(v, c))
  {
    var u := v.(woken := v.woken.(work := false));
    if v.state.Flushing? {
      if c.yes {
        FlushedFlows(u, c);
      } else {
        PolledFlows(u, c.(async := true));
      }
    } else if v.state.Running? || v.state.MarkerReady? {
      PolledFlows(u, c);
    }
  }

  lemma RetryControl(v: Moment, e: EdgeAnswer)
    requires Control(Alert(v, v.woken.(output := true))) && !v.state.Closed? && !v.state.Forwarding?
    ensures e.Takes? || v.outlet.held.None? ==>
              Control(Alert(Retry(v, e), v.woken.(output := true))) && Retry(v, e).outlet.held.None?
    ensures e.Refuses? && v.state.IsOpen() && v.outlet.held.Some? ==> Control(Retry(v, e))
    ensures Control(Fail(Retry(v, e)))
  {
  }

  lemma RetryFlows(v: Moment, e: EdgeAnswer)
    requires Flows(v) && !v.state.Closed?
    ensures !e.Fails? || v.outlet.held.None? ==> Flows(Retry(v, e))
    ensures Flows(Fail(Retry(v, e)))
  {
    var w := Retry(v, e);
    Regroup(v.log.sent, ListOf(v.outlet.held), AsData(v.routine.ready), Behind(v.state));
    if e.Takes? {
      Regroup(w.log.sent, [], AsData(v.routine.ready), Behind(v.state));
      assert w.log.sent == v.log.sent + ListOf(v.outlet.held) == w.log.sent + [];
    }
  }

  lemma PullControl(v: Moment, freed: bool, e: EdgeAnswer)
    requires Control(Alert(v, v.woken.(output := true))) && !v.state.Closed? && !v.state.Forwarding?
    requires v.outlet.held.None? && v.routine.ready != []
    ensures e.Takes? ==>
        Control(Alert(Pull(v, freed, e), Pull(v, freed, e).woken.(output := true)))
            && Pull(v, freed, e).outlet.held.None?
    ensures e.Refuses? && v.state.IsOpen() ==> Control(Pull(v, freed, e))
    ensures Control(Fail(Pull(v, freed, e)))
  {
  }

  lemma PullFlows(v: Moment, freed: bool, e: EdgeAnswer)
    requires Flows(v) && !v.state.Closed? && v.outlet.held.None? && v.routine.ready != []
    ensures !e.Fails? ==> Flows(Pull(v, freed, e))
    ensures Flows(Fail(Pull(v, freed, e)))
  {
    var first: seq<Msg>, rest := [Data(v.routine.ready[0])], v.routine.ready[1..];
    assert [] + AsData<int, int>(v.routine.ready) == first + AsData(rest);
    Regroup(v.log.sent, first, AsData(rest), Behind(v.state));
    Regroup(v.log.sent + first, [], AsData(rest), Behind(v.state));
    assert v.log.sent + first + [] == v.log.sent + first;
  }

  lemma ForwardControl(v: Moment, e: EdgeAnswer)
    requires Control(Alert(v, v.woken.(output := true))) && (v.state.FlushReady? || v.state.MarkerReady?)
    requires v.outlet.held.None? && v.routine.ready == []
    ensures Control(Forward(v, e))
  {
  }

  /** Once only the signal is left of the owed stream, it can be delivered, held or dropped. */
  lemma LastStreams(held: Option<int>, log: Log, m: Msg)
    requires log.sent + [m] == log.made && Signals(log.made) == Signals(log.read)
    requires log.fed + DataOf(held) == WithoutMarkers(log.read)
    ensures Streams(Running, held, [], None, log.(sent := log.made))
    ensures Streams(Forwarding, held, [], Some(m), log)
    ensures Streams(Closed, held, [], None, log)
  {
    DrainedTail(Running);
    assert Tail(Forwarding, Some(m), []) == [m];
    assert log.made + [] == log.made;
  }

  lemma ForwardFlows(v: Moment, e: EdgeAnswer)
    requires Flows(v) && (v.state.FlushReady? || v.state.MarkerReady?) && v.outlet.held.None? && v.routine.ready == []
    ensures Flows(Forward(v, e))
  {
    DrainedTail(v.state);
    if v.state.FlushReady? {
      LastStreams(v.inlet.held, v.log, Flush(v.state.signal));
    } else {
      var m := Marker(v.state.signal);
      SignalsConcat(v.log.made, [m]);
      FlushesConcat(v.log.made, [m]);
      assert v.log.sent + [] == v.log.sent;
      LastStreams(v.inlet.held, v.log.(made := v.log.made + [m]), m);
    }
  }

  lemma DrainedTail(s: NodeState)
    ensures Tail(s, None, []) == Behind(s)
  {
  }

  /** The held signal's delivery takes the node back to Running. */
  lemma ResumeKeeps(v: Moment)
    requires Control(Alert(v, v.woken.(output := true))) && Flows(v) && v.state.Forwarding?
    ensures Inv(Resumed(Retry(v, Takes)))
  {
    RetryFlows(v, Takes);
  }

  /** Refused again, it stays, and the edge owes a wake. */
  lemma StayKeeps(v: Moment)
    requires Control(Alert(v, v.woken.(output := true))) && Flows(v) && v.state.Forwarding?
    ensures Inv(Retry(v, Refuses))
  {
    RetryFlows(v, Refuses);
  }

  /** Failed, it is dropped with the node. */
  lemma DropKeeps(v: Moment)
    requires Control(Alert(v, v.woken.(output := true))) && Flows(v) && v.state.Forwarding?
    ensures Inv(Fail(Retry(v, Fails)))
  {
    RetryFlows(v, Fails);
  }

  /** While a phase runs it counts as woken. */
  ghost predicate InputRuns(v: Moment) {
    Control(Alert(v, v.woken.(input := true))) && Flows(v)
  }

  ghost predicate OutputRuns(v: Moment) {
    Control(Alert(v, v.woken.(output := true))) && Flows(v)
  }

  lemma PhaseStarts(v: Moment)
    requires Inv(v)
    ensures v.woken.input ==> InputRuns(v.(woken := v.woken.(input := false)))
    ensures v.woken.output ==> OutputRuns(v.(woken := v.woken.(output := false)))
    ensures !v.state.Running? && v.state.IsOpen() ==> Inv(v.(woken := v.woken.(input := false)))
    ensures !v.state.IsOpen() ==> Inv(v.(woken := v.woken.(input := false), done := v.done.(input := true)))
  {
    assert v.woken.input ==> v.woken.(input := false).(input := true) == v.woken;
    assert v.woken.output ==> v.woken.(output := false).(output := true) == v.woken;
  }

  lemma FeedKeeps(v: Moment, c: Choice)
    requires InputRuns(v) && v.state.Running? && v.inlet.held.None?
    ensures var (w, go) := FeedOne(v, c);
      && (go ==> InputRuns(w) && w.state.Running? && w.inlet.held.None?)
      && (!go ==> Inv(w))
  {
    ReceiveControl(v, c);
    ReceiveFlows(v, c);
  }

  /** One message at most is moved from the front of the edge; the phase goes on only after it took
      data, and stops at nothing but a refusal, a signal, the end or an empty edge. */
  lemma FeedTakes(v: Moment, c: Choice)
    requires v.state.Running? && v.inlet.held.None?
    ensures var (w, go) := FeedOne(v, c);
      && w.log.sent == v.log.sent
      && w.log.read + w.inlet.inbox == v.log.read + v.inlet.inbox && v.log.read <= w.log.read
      && |w.log.read| == |v.log.read| + (if v.inlet.inbox == [] then 0 else 1)
      && (go ==> v.inlet.inbox != [])
      && (!go ==> StoppedRightly(w))
  {
    if v.inlet.inbox != [] {
      assert v.inlet.inbox == [v.inlet.inbox[0]] + v.inlet.inbox[1..];
      assert v.log.read + v.inlet.inbox == (v.log.read + [v.inlet.inbox[0]]) + v.inlet.inbox[1..];
    }
  }

  /** Input left the edge for a reason: it is empty and open, or it ended, or a signal or a refused
      datum is in hand. */
  ghost predicate StoppedRightly(w: Moment) {
    && (w.state.Running? && w.inlet.held.None? ==> w.inlet.inbox == [] && !w.inlet.closed)
    && (w.state.CloseReady? ==> w.inlet.inbox == [] && w.inlet.closed)
  }

  lemma HeldKeeps(v: Moment, c: Choice)
    requires InputRuns(v) && v.state.Running? && v.inlet.held.Some?
    ensures var w := Offer(v, v.inlet.held.value, c);
      && (c.yes ==> InputRuns(w) && w.inlet.held.None?) && (!c.yes ==> Inv(w)) && w.state.Running?
  {
    assert v.inlet.(held := Some(v.inlet.held.value)) == v.inlet;
    OfferControl(v, v.inlet.held.value, c);
    OfferFlows(v, v.inlet.held.value, c);
  }

  lemma WorkKeeps(v: Moment, c: Choice)
    requires Inv(v) && !v.done.work && (c.yes ==> v.state.Flushing?)
    ensures Inv(Work(v, c))
  {
    WorkControl(v, c);
    WorkFlows(v, c);
  }

  lemma FailKeeps(v: Moment)
    requires OutputRuns(v) && !v.state.Closed?
    ensures Inv(Fail(v))
  {
    assert v.log.sent <= v.log.made;
  }

  lemma RetryKeeps(v: Moment, e: EdgeAnswer)
    requires OutputRuns(v) && !v.state.Closed? && !v.state.Forwarding?
    ensures var w := Retry(v, e);
      && (e.Takes? || v.outlet.held.None? ==> OutputRuns(w) && w.outlet.held.None?)
      && (e.Refuses? && v.outlet.held.Some? && v.state.IsOpen() ==> Inv(w))
      && Inv(Fail(w))
  {
    RetryControl(v, e);
    RetryFlows(v, e);
  }

  lemma PullKeeps(v: Moment, freed: bool, e: EdgeAnswer)
    requires OutputRuns(v) && !v.state.Closed? && !v.state.Forwarding? && v.outlet.held.None? && v.routine.ready != []
    ensures var w := Pull(v, freed, e);
      && (e.Takes? ==> OutputRuns(w) && w.outlet.held.None?)
      && (e.Refuses? && v.state.IsOpen() ==> Inv(w))
      && Inv(Fail(w))
  {
    PullControl(v, freed, e);
    PullFlows(v, freed, e);
  }

  lemma ForwardKeeps(v: Moment, e: EdgeAnswer)
    requires OutputRuns(v) && (v.state.FlushReady? || v.state.MarkerReady?)
    requires v.outlet.held.None? && v.routine.ready == []
    ensures Inv(Forward(v, e))
  {
    ForwardControl(v, e);
    ForwardFlows(v, e);
  }

  lemma ForwardSends(v: Moment, e: EdgeAnswer)
    requires v.state.FlushReady? || v.state.MarkerReady?
    ensures var w := Forward(v, e);
      Delivers(v, w, Single(e)) && w.log.read == v.log.read && w.inlet.inbox == v.inlet.inbox
  {
  }

  /** How a drain of the routine stopped. `Failed`: an edge returned Closed. */
  datatype Drained = Done | Parked | Yielded | Failed

  /** What the edges answered to a stretch of pushes: `taken` were taken, and then, unless `last`
      is Takes too, one more was refused or failed. Nothing is pushed past that one. */
  datatype Heard = Heard(taken: nat, last: EdgeAnswer) {
    function Stops(): seq<EdgeAnswer> {
      if last.Takes? then [] else [last]
    }

    /** And then another stretch. */
    function Then(more: Heard): Heard {
      Heard(taken + more.taken, more.last)
    }
  }

  const NOTHING: Heard := Heard(0, Takes)

  function Single(e: EdgeAnswer): Heard {
    Heard(if e.Takes? then 1 else 0, e)
  }

  /** One message is delivered per push taken. */
  ghost predicate Delivers(v: Moment, w: Moment, h: Heard) {
    v.log.sent <= w.log.sent && |w.log.sent| == |v.log.sent| + h.taken
  }

  /** How a drain of up to `most` pushes stopped says what the last edge answered. */
  ghost predicate Drains(d: Drained, h: Heard, most: nat, w: Moment) {
    && h.taken <= most
    && (d.Yielded? <==> h == Heard(most, Takes))
    && (d.Parked? <==> h.last.Refuses?)
    && (d.Failed? <==> h.last.Fails?)
    && (d.Parked? ==> w.outlet.held.Some? && w.outlet.owes)
  }

  lemma DeliversOn(v: Moment, mid: Moment, h: Heard, w: Moment, more: Heard)
    requires Delivers(v, mid, h) && Delivers(mid, w, more)
    ensures Delivers(v, w, h.Then(more))
  {
  }

  /** Where a drain may stop, and what is known there. */
  ghost predicate StopsAt(d: Drained, w: Moment) {
    && (d.Done? ==> OutputRuns(w) && w.routine.ready == [] && w.outlet.held.None?)
    && (d.Yielded? || (d.Parked? && w.state.IsOpen()) ==> Inv(w))
    && (d.Parked? || d.Failed? ==> Inv(Fail(w)))
  }

  /** A row of the routine's outputs, each taken. */
  function Pulls(v: Moment, freed: seq<bool>): (w: Moment)
    requires |freed| <= |v.routine.ready|
    ensures |w.routine.ready| == |v.routine.ready| - |freed|
    decreases |freed|
  {
    if freed == [] then v else Pull(Pulls(v, freed[..|freed| - 1]), freed[|freed| - 1], Takes)
  }

  lemma PullsMore(v: Moment, freed: seq<bool>, room: bool)
    requires |freed| < |v.routine.ready|
    ensures Pulls(v, freed + [room]) == Pull(Pulls(v, freed), room, Takes)
  {
    assert (freed + [room])[..|freed|] == freed;
  }

  lemma {:induction false} PullsKeep(v: Moment, freed: seq<bool>)
    requires OutputRuns(v) && !v.state.Closed? && !v.state.Forwarding? && v.outlet.held.None?
    requires |freed| <= |v.routine.ready|
    ensures OutputRuns(Pulls(v, freed)) && SameBut(v, Pulls(v, freed)) && Pulls(v, freed).outlet.held.None?
    ensures Delivers(v, Pulls(v, freed), Heard(|freed|, Takes))
    decreases |freed|
  {
    if freed != [] {
      var init := freed[..|freed| - 1];
      PullsKeep(v, init);
      PullKeeps(Pulls(v, init), freed[|freed| - 1], Takes);
    }
  }

  /** Draining leaves the state, and what is upstream. */
  ghost predicate SameBut(v: Moment, w: Moment) {
    w.state == v.state && w.log.read == v.log.read && w.inlet.inbox == v.inlet.inbox
  }

  /** Where the drain of the routine's outputs stops, `freed` of them taken. */
  function StopOf(v: Moment, freed: seq<bool>, last: bool, d: Drained): Moment
    requires |freed| <= |v.routine.ready| && (d.Parked? || d.Failed? ==> |freed| < |v.routine.ready|)
  {
    var w := Pulls(v, freed);
    match d
    case Done => w
    case Yielded => w.(woken := w.woken.(output := true))
    case Parked => Pull(w, last, Refuses)
    case Failed => Pull(w, last, Fails)
  }

  function LastOf(d: Drained): EdgeAnswer {
    if d.Parked? then Refuses else if d.Failed? then Fails else Takes
  }

  lemma StopKeeps(v: Moment, freed: seq<bool>, last: bool, d: Drained)
    requires OutputRuns(v) && !v.state.Closed? && !v.state.Forwarding? && v.outlet.held.None?
    requires |freed| <= |v.routine.ready| && (d.Parked? || d.Failed? ==> |freed| < |v.routine.ready|)
    requires d.Done? ==> |freed| == |v.routine.ready|
    ensures var w := StopOf(v, freed, last, d);
      && StopsAt(d, w) && SameBut(v, w) && Delivers(v, w, Heard(|freed|, LastOf(d)))
      && (d.Parked? ==> w.outlet.held.Some? && w.outlet.owes)
  {
    PullsKeep(v, freed);
    if d.Parked? || d.Failed? {
      PullKeeps(Pulls(v, freed), last, LastOf(d));
    }
  }

  /** The outputs are taken up to the budget; a drain stops short of it only where none is left, or
      at one that is not taken. */
  ghost predicate PullsUpTo(budget: nat, ready: seq<int>, freed: seq<bool>, d: Drained) {
    && |freed| <= budget && |freed| <= |ready|
    && (d.Yielded? <==> |freed| == budget)
    && (d.Done? ==> |freed| == |ready|)
    && (d.Parked? || d.Failed? ==> |freed| < |ready|)
  }

  /** Behind a held message that was taken. */
  lemma HeldDrains(v: Moment, freed: seq<bool>, last: bool, d: Drained)
    requires OutputRuns(v) && !v.state.Closed? && !v.state.Forwarding? && v.outlet.held.Some?
    requires |freed| <= |v.routine.ready| && (d.Parked? || d.Failed? ==> |freed| < |v.routine.ready|)
    requires d.Done? ==> |freed| == |v.routine.ready|
    ensures var w := StopOf(Retry(v, Takes), freed, last, d);
      && StopsAt(d, w) && SameBut(v, w) && Delivers(v, w, Heard(1 + |freed|, LastOf(d)))
      && (d.Parked? ==> w.outlet.held.Some? && w.outlet.owes)
  {
    var mid := Retry(v, Takes);
    HeldStops(v, Takes);
    StopKeeps(mid, freed, last, d);
    DeliversOn(v, mid, Single(Takes), StopOf(mid, freed, last, d), Heard(|freed|, LastOf(d)));
  }

  /** What the retry of the held message leaves. */
  lemma HeldStops(v: Moment, e: EdgeAnswer)
    requires OutputRuns(v) && !v.state.Closed? && !v.state.Forwarding? && v.outlet.held.Some?
    ensures var w := Retry(v, e);
      && (e.Takes? ==> OutputRuns(w) && w.outlet.held.None?)
      && (e.Refuses? ==> StopsAt(Parked, w) && w.outlet.held.Some? && w.outlet.owes)
      && (e.Fails? ==> StopsAt(Failed, w))
      && SameBut(v, w) && Delivers(v, w, Single(e))
  {
    RetryKeeps(v, e);
  }

  /** A held signal's retry. */
  function Settled(v: Moment, e: EdgeAnswer): Moment {
    match e
    case Takes => Resumed(Retry(v, e))
    case Refuses => Retry(v, e)
    case Fails => Fail(Retry(v, e))
  }

  /** What follows a drain that stopped at `v`. */
  ghost predicate Concluded(v: Moment, w: Moment, d: Drained, h: Heard) {
    if d.Yielded? then h == NOTHING && w == v
    else if d.Failed? || v.state.CloseReady? then h == NOTHING && w == Fail(v)
    else if d.Done? && (v.state.FlushReady? || v.state.MarkerReady?) then h == Single(h.last) && w == Forward(v, h.last)
    else h == NOTHING && w == v
  }

  /** What a poll of Output heard: its drain's answers, and then the signal's. */
  function Overall(first: Heard, more: Heard): Heard {
    if first.last.Takes? then first.Then(more) else first
  }

  lemma OverallAdds(first: Heard, more: Heard)
    requires !first.last.Takes? ==> more == NOTHING
    ensures Overall(first, more).Stops() == first.Stops() + more.Stops()
    ensures Overall(first, more).taken == first.taken + more.taken
    ensures more == NOTHING ==> Overall(first, more) == first
  {
  }

  /** A drain that stopped early: the node stays, or closes. */
  lemma StopEmits(v: Moment, mid: Moment, w: Moment, d: Drained, h: Heard, budget: nat)
    requires Drains(d, h, budget + (if v.outlet.held.Some? then 1 else 0), mid) && !d.Done?
    requires v.outlet.held.Some? || (budget > 0 && v.routine.ready != []) ==> h != NOTHING
    requires Concluded(mid, w, d, NOTHING) && budget > 0
    requires mid.state == v.state && !v.state.Closed? && !v.state.Forwarding?
    ensures Emitted(v, w, budget, h)
  {
  }

  /** A drain to the end: the signal goes, or there is none. */
  lemma DoneEmits(v: Moment, mid: Moment, w: Moment, first: Heard, more: Heard, budget: nat)
    requires Drains(Done, first, budget + (if v.outlet.held.Some? then 1 else 0), mid)
    requires mid.routine.ready == [] && mid.outlet.held.None?
    requires v.outlet.held.Some? || (budget > 0 && v.routine.ready != []) ==> first != NOTHING
    requires Concluded(mid, w, Done, more) && budget > 0
    requires mid.state == v.state && !v.state.Closed? && !v.state.Forwarding?
    ensures Emitted(v, w, budget, Overall(first, more))
  {
    if v.state.FlushReady? || v.state.MarkerReady? {
      assert Overall(first, more).last == more.last;
    }
  }

  lemma ConcludedEmits(v: Moment, mid: Moment, w: Moment, d: Drained, first: Heard, more: Heard, budget: nat)
    requires Drains(d, first, budget + (if v.outlet.held.Some? then 1 else 0), mid)
    requires d.Done? ==> mid.routine.ready == [] && mid.outlet.held.None?
    requires v.outlet.held.Some? || (budget > 0 && v.routine.ready != []) ==> first != NOTHING
    requires Concluded(mid, w, d, more) && budget > 0
    requires mid.state == v.state && !v.state.Closed? && !v.state.Forwarding?
    ensures Emitted(v, w, budget, Overall(first, more))
    ensures !first.last.Takes? ==> more == NOTHING
  {
    if d.Done? {
      DoneEmits(v, mid, w, first, more, budget);
    } else {
      OverallAdds(first, more);
      StopEmits(v, mid, w, d, first, budget);
    }
  }

  /** What a poll of Output does, given what the edges answered: it closes the node for a failure or
      a close alone; a refusal leaves the message held with a wake owed; it pushes unless there is
      nothing to deliver; and if the edges take all and the budget is not spent, all is out. */
  ghost predicate Emitted(v: Moment, w: Moment, budget: nat, h: Heard) {
    && (h == NOTHING ==>
        v.outlet.held.None? && v.routine.ready == []
            && !(v.state.FlushReady? || v.state.MarkerReady? || v.state.Forwarding?))
    && (h.last.Fails? ==> w.state.Closed?)
    && (w.state.Closed? ==> v.state.CloseReady? || h.last.Fails?)
    && (v.state.CloseReady? && !(h.last.Takes? && h.taken >= budget) ==> w.state.Closed?)
    && (h.last.Refuses? && !w.state.Closed? ==> w.outlet.held.Some? && w.outlet.owes)
    && (h.last.Takes? && h.taken < budget && v.state.IsOpen() ==>
          && w.outlet.held.None? && w.routine.ready == []
          && w.state == (if v.state.Flushing? then v.state else Running))
  }

  lemma SettledKeeps(v: Moment, e: EdgeAnswer)
    requires OutputRuns(v) && v.state.Forwarding?
    ensures var w := Settled(v, e);
      && Inv(w) && Delivers(v, w, Single(e))
      && w.log.read == v.log.read && w.inlet.inbox == v.inlet.inbox
  {
    match e
    case Takes => ResumeKeeps(v);
    case Refuses => StayKeeps(v);
    case Fails => DropKeeps(v);
  }

  /** A drained node with no signal waiting has nothing for Output to do. */
  lemma IdleKeeps(v: Moment)
    requires OutputRuns(v) && (v.state.Running? || v.state.Flushing?) && v.routine.ready == [] && v.outlet.held.None?
    ensures Inv(v)
  {
  }

  // ---- what the invariant means ----

  /** No phase is woken, and nobody owes one a wake. */
  ghost predicate Quiet(v: Moment) {
    && !v.woken.input && !v.woken.work && !v.woken.output
    && !v.routine.owesInput && !v.routine.owesWork && !v.outlet.owes
  }

  ghost predicate NothingToDo(v: Moment) {
    && v.state.Running? && v.inlet.inbox == [] && !v.inlet.closed && v.inlet.held.None?
    && v.routine.ready == [] && v.outlet.held.None? && !v.routine.needsPoll
  }

  /** The signals read are those delivered, then the one on its way. */
  ghost predicate SignalsKept(v: Moment) {
    Signals(v.log.sent) + Signals(ListOf(v.outlet.held)) + Behind(v.state) + InFlight(v.state) == Signals(v.log.read)
  }

  /** Phase by phase: each that has something to do is woken, or is owed its own wake by the routine
      or the edge that stopped it; and where Work's wake was swallowed, Output is about to end the
      signal, which wakes Work. */
  ghost predicate EachPhaseOwed(v: Moment) {
    && (v.state.Running? && (v.inlet.inbox != [] || v.inlet.closed || v.inlet.held.Some?) ==>
          v.woken.input || (v.inlet.held.Some? && v.routine.owesInput))
    && (v.state.Flushing? ==> v.woken.work || v.routine.owesWork)
    && (v.state.IsOpen() && v.routine.needsPoll ==> v.woken.work || v.state.FlushReady? || v.state.Forwarding?)
    && (v.state.MarkerReady? ==> v.woken.work || OutputOwed(v))
    && (v.state.IsOpen() && (v.outlet.held.Some? || v.routine.ready != []) ==> OutputOwed(v))
    && (v.state.FlushReady? || v.state.Forwarding? ==> OutputOwed(v))
    && (v.state.CloseReady? ==> v.woken.output && (v.woken.work || v.done.work) && v.done.input)
    && (v.state.Closed? ==> v.done.output && (v.woken.input || v.done.input) && (v.woken.work || v.done.work))
  }

  ghost predicate OutputOwed(v: Moment) {
    v.woken.output || (v.outlet.held.Some? && v.outlet.owes)
  }

  lemma NextPhaseOwed(v: Moment)
    requires Inv(v)
    ensures EachPhaseOwed(v)
  {
  }

  /** An open node with nothing woken and nothing owed has nothing to do: its inlet is empty and
      open, and neither the routine nor the outlet holds anything. */
  lemma NeverStranded(v: Moment)
    requires Inv(v) && v.state.IsOpen() && Quiet(v)
    ensures NothingToDo(v)
  {
  }

  /** Every signal read leaves exactly once and in order; at most one is on its way, and it sits
      behind everything else the node holds. */
  lemma SignalsOnceInOrder(v: Moment)
    requires Inv(v) && v.state.IsOpen()
    ensures SignalsKept(v)
    ensures |Signals(ListOf(v.outlet.held)) + Behind(v.state) + InFlight(v.state)| <= 1
    ensures v.state.Forwarding? <==> Signals(ListOf(v.outlet.held)) != []
  {
    SignalsOwed(v.state, v.inlet.held, v.routine.ready, v.outlet.held, v.log);
    HeldSignals(v.outlet.held);
  }

  lemma HeldSignals(out: Option<Msg>)
    ensures Signals(ListOf(out)) == if out.Some? && out.value.IsSignal() then [out.value] else []
  {
    if out.Some? {
      SignalsOne(out.value);
    }
  }

  lemma SignalsOwed(s: NodeState, held: Option<int>, ready: seq<int>, out: Option<Msg>, log: Log)
    requires Streams(s, held, ready, out, log) && s.IsOpen()
    ensures Signals(log.sent) + Signals(ListOf(out)) + Behind(s) + InFlight(s) == Signals(log.read)
  {
    TailSignals(s, out, ready);
    SignalsConcat(log.sent, Tail(s, out, ready));
    Assoc(Signals(log.sent), Signals(ListOf(out)), Behind(s));
  }

  lemma TailSignals(s: NodeState, out: Option<Msg>, ready: seq<int>)
    ensures Signals(Tail(s, out, ready)) == Signals(ListOf(out)) + Behind(s)
  {
    SignalsConcat(ListOf(out) + AsData(ready), Behind(s));
    SignalsThroughData(ListOf(out), ready);
    SignalsBehind(s);
  }

  lemma SignalsBehind(s: NodeState)
    ensures Signals(Behind(s)) == Behind(s)
  {
    if s.FlushReady? {
      SignalsOne<int, int>(Flush(s.signal));
    }
  }

  /** Closed or failed, what was delivered is still a prefix of the owed stream, and its signals a
      prefix of those read. */
  lemma PrefixAlways(v: Moment)
    requires Inv(v)
    ensures v.log.sent <= v.log.made
    ensures Signals(v.log.sent) <= Signals(v.log.read)
    ensures Flushes(v.log.sent) <= v.log.readied
  {
    var rest := v.log.made[|v.log.sent|..];
    assert v.log.made == v.log.sent + rest;
    SignalsConcat(v.log.sent, rest);
    FlushesPrefix(v.log.sent, v.log.made);
  }

  lemma {:induction false} FlushesPrefix(a: seq<Msg>, b: seq<Msg>)
    requires a <= b
    ensures Flushes(a) <= Flushes(b)
    decreases |b|
  {
    if |a| < |b| {
      FlushesPrefix(a, b[..|b| - 1]);
    } else {
      assert a == b;
    }
  }

  lemma Meaning(v: Moment)
    requires Inv(v)
    ensures v.state.IsOpen() && Quiet(v) ==> NothingToDo(v)
    ensures v.state.IsOpen() ==> SignalsKept(v)
    ensures v.log.sent <= v.log.made && Signals(v.log.sent) <= Signals(v.log.read)
    ensures Flushes(v.log.sent) <= v.log.readied && EachPhaseOwed(v)
  {
    PrefixAlways(v);
    NextPhaseOwed(v);
    if v.state.IsOpen() {
      SignalsOnceInOrder(v);
      if Quiet(v) {
        NeverStranded(v);
      }
    }
  }

  // ---- the node as an object ----

  class LineNode {
    var state: NodeState
    var inlet: Inlet
    var routine: Routine
    var outlet: Outlet
    var woken: Phases
    var done: Phases
    ghost var log: Log
    /** How many pushes the edges took, and their other answers in order. */
    ghost var takes: nat
    ghost var stops: seq<EdgeAnswer>

    ghost function View(): Moment
      reads this
    {
      Moment(state, inlet, routine, outlet, woken, done, log)
    }

    ghost predicate Valid()
      reads this
    {
      Inv(View())
    }

    /** What the edges answered since the counts stood at `takes0` and `stops0`. */
    ghost predicate Asked(takes0: nat, stops0: seq<EdgeAnswer>, h: Heard)
      reads this
    {
      takes == takes0 + h.taken && stops == stops0 + h.Stops()
    }

    constructor ()
      ensures Valid() && state == Running && log == Log([], [], [], [], [])
    {
      state := Running;
      inlet := Inlet([], false, true, None);
      routine := Routine([], false, false, false, false);
      outlet := Outlet(None, false);
      woken := Phases(true, true, true);
      done := Phases(false, false, false);
      log, takes, stops := Log([], [], [], [], []), 0, [];
    }

    // ---- Input ----

    method Produce() returns (ghost c: Choice)
      modifies this
      ensures View() == Produced(old(View()), c)
    {
      var more: seq<int> := *;
      var freed: bool := *;
      c := Choice(true, more, false, freed);
      routine := routine.(ready := routine.ready + more);
      log := log.(made := log.made + AsData(more));
      if routine.owesInput && freed {
        routine := routine.(owesInput := false);
        woken := woken.(input := true);
      }
      if more != [] {
        woken := woken.(output := true);
      }
    }

    /** `try_send`: refused, it comes back and is held. */
    method TrySend(data: int) returns (accepted: bool, ghost c: Choice)
      modifies this
      ensures View() == Offer(old(View()), data, c) && accepted == c.yes
    {
      accepted := *;
      var async: bool := *;
      c := Choice(accepted, [], async, false);
      if accepted {
        inlet := inlet.(held := None);
        log := log.(fed := log.fed + [Data(data)]);
        if async {
          routine := routine.(needsPoll := true);
          woken := woken.(work := true);
        }
        ghost var p := Produce();
        c := Choice(true, p.more, async, p.freed);
      } else {
        inlet := inlet.(held := Some(data));
        routine := routine.(owesInput := true);
      }
    }

    method Recv() returns (go: bool, ghost c: Choice)
      modifies this
      ensures (View(), go) == Receive(old(View()), c)
    {
      c := Choice(true, [], false, false);
      if inlet.inbox == [] {
        if inlet.closed {
          inlet := inlet.(open := false);
          state := CloseReady;
          woken := woken.(work := true);
        }
        return false, c;
      }
      var m := inlet.inbox[0];
      inlet := inlet.(inbox := inlet.inbox[1..]);
      log := log.(read := log.read + [m]);
      match m {
        case Data(d) =>
          go, c := TrySend(d);
        case Flush(g) =>
          c := BeginFlush(m, g);
          go := false;
        case Marker(g) =>
          state := MarkerReady(g);
          woken := woken.(work := true);
          go := false;
      }
    }

    /** The routine is told to flush, and Work is woken to poll it until Ready. */
    method BeginFlush(m: Msg, g: int) returns (ghost c: Choice)
      modifies this
      ensures View() == Produced(Begun(old(View()), m, g), c)
    {
      log := log.(fed := log.fed + [m]);
      routine := routine.(flushing := true);
      c := Produce();
      state := Flushing(g);
      woken := woken.(work := true);
    }

    /** A poll of the Input phase: the held message first, then up to `budget` messages, each moved
        from the front of the edge. */
    method PollInput(budget: nat)
      requires Valid() && woken.input && !done.input && budget > 0
      modifies this
      ensures Valid() && log.sent == old(log.sent)
      ensures !old(state).Running? ==> log == old(log) && inlet.inbox == old(inlet.inbox)
      ensures log.read + inlet.inbox == old(log.read) + old(inlet.inbox) && old(log.read) <= log.read
      ensures |log.read| <= |old(log.read)| + budget
      ensures old(state).Running? && |log.read| < |old(log.read)| + budget ==> StoppedRightly(View())
      ensures old(state).Running? && old(inlet).held.None? && old(inlet).inbox != [] ==> log.read != old(log.read)
      ensures old(state).Running? && old(inlet).held.Some? && log.read == old(log.read) && state.Running? ==>
                inlet == old(inlet) || inlet == old(inlet).(held := None)
      ensures !old(state).Running? ==> state == old(state) && (done.input <==> !state.IsOpen())
    {
      PhaseStarts(View());
      BeginInput();
      if state.Running? {
        RetryThenFeed(budget);
      }
    }

    /** The phase's wake is taken; a node that closes ends the phase. */
    method BeginInput()
      modifies `woken, `done
      ensures var w := old(View()).(woken := old(woken).(input := false));
        View() == if state.Closed? || state.CloseReady? then w.(done := old(done).(input := true)) else w
    {
      woken := woken.(input := false);
      if state.Closed? || state.CloseReady? {
        done := done.(input := true);
      }
    }

    method RetryThenFeed(budget: nat)
      requires InputRuns(View()) && state.Running?
      modifies this
      ensures Valid() && log.sent == old(log.sent)
      ensures log.read + inlet.inbox == old(log.read) + old(inlet.inbox) && old(log.read) <= log.read
      ensures |log.read| <= |old(log.read)| + budget
      ensures |log.read| < |old(log.read)| + budget ==> StoppedRightly(View())
      ensures budget > 0 && old(inlet).held.None? && old(inlet).inbox != [] ==> log.read != old(log.read)
      ensures old(inlet).held.Some? && log.read == old(log.read) && state.Running? ==>
                inlet == old(inlet) || inlet == old(inlet).(held := None)
    {
      var go := true;
      if inlet.held.Some? {
        go := RetryHeld();
      }
      if go {
        Feed(budget);
      }
    }

    /** The held datum is offered ahead of whatever the edge has. */
    method RetryHeld() returns (accepted: bool)
      requires InputRuns(View()) && state.Running? && inlet.held.Some?
      modifies this
      ensures accepted ==> InputRuns(View()) && inlet.held.None?
      ensures !accepted ==> Valid()
      ensures state.Running? && log.read == old(log.read) && log.sent == old(log.sent)
      ensures inlet == if accepted then old(inlet).(held := None) else old(inlet)
    {
      ghost var v := View();
      ghost var c;
      accepted, c := TrySend(inlet.held.value);
      HeldKeeps(v, c);
    }

    /** Takes messages until the edge is empty, a signal, a refusal, a close or the budget. */
    method Feed(budget: nat)
      requires InputRuns(View()) && state.Running? && inlet.held.None?
      modifies this
      ensures Valid() && log.sent == old(log.sent)
      ensures log.read + inlet.inbox == old(log.read) + old(inlet.inbox) && old(log.read) <= log.read
      ensures |log.read| <= |old(log.read)| + budget
      ensures |log.read| < |old(log.read)| + budget ==> StoppedRightly(View())
      ensures budget > 0 && old(inlet).inbox != [] ==> log.read != old(log.read)
      ensures log.read == old(log.read) && state.Running? ==> inlet == old(inlet)
    {
      var i: nat := 0;
      while i < budget
        invariant InputRuns(View()) && state.Running? && inlet.held.None?
        invariant log.sent == old(log.sent) && i <= budget
        invariant log.read + inlet.inbox == old(log.read) + old(inlet.inbox) && old(log.read) <= log.read
        invariant |log.read| == |old(log.read)| + i
        invariant i == 0 ==> inlet == old(inlet)
      {
        var go := Step();
        if !go {
          return;
        }
        i := i + 1;
      }
      woken := woken.(input := true);
    }

    /** One message, and what the phase does around it. */
    method Step() returns (go: bool)
      requires InputRuns(View()) && state.Running? && inlet.held.None?
      modifies this
      ensures go ==> InputRuns(View()) && state.Running? && inlet.held.None?
      ensures !go ==> Valid()
      ensures log.sent == old(log.sent)
      ensures log.read + inlet.inbox == old(log.read) + old(inlet.inbox) && old(log.read) <= log.read
      ensures |log.read| == |old(log.read)| + if old(inlet).inbox == [] then 0 else 1
      ensures go ==> old(inlet).inbox != []
      ensures !go ==> StoppedRightly(View())
      ensures log.read == old(log.read) && state.Running? ==> inlet == old(inlet)
    {
      ghost var v := View();
      ghost var c;
      go, c := RecvAndTell();
      FeedKeeps(v, c);
      FeedTakes(v, c);
    }

    /** One message; on a close Output is woken and the phase is done. */
    method RecvAndTell() returns (go: bool, ghost c: Choice)
      modifies this
      ensures (View(), go) == FeedOne(old(View()), c)
    {
      go, c := Recv();
      if state.CloseReady? {
        woken := woken.(output := true);
        done := done.(input := true);
      }
    }

    // ---- Work ----

    /** A poll of the Work phase. A wake in FlushReady or Forwarding is swallowed here. */
    method PollWork() returns (ghost c: Choice)
      requires Valid() && woken.work && !done.work
      modifies this
      ensures Valid() && View() == Work(old(View()), c) && (c.yes ==> old(state).Flushing?)
      ensures log.sent == old(log.sent) && log.read == old(log.read)
      ensures log.fed == old(log.fed) && inlet.inbox == old(inlet.inbox)
      ensures !old(state).Flushing? ==> state == old(state)
      ensures old(state).Flushing? ==> state == old(state) || (state == FlushReady(old(state).signal) && woken.output)
    {
      ghost var v := View();
      c := Drive();
      WorkKeeps(v, c);
    }

    method Drive() returns (ghost c: Choice)
      requires state.IsOpen() ==> (routine.flushing <==> state.Flushing?)
      modifies this
      ensures c.yes ==> old(state).Flushing?
      ensures View() == Work(old(View()), c)
    {
      c := Choice(false, [], false, false);
      woken := woken.(work := false);
      match state {
        case Closed => done := done.(work := true);
        case CloseReady => done := done.(work := true);
        case Flushing(g) =>
          c := DriveFlush(g);
        case Running =>
          var finished, p := PollRoutine();
          // Ready outside a flush would be fatal: it never happens.
          assert !finished;
          c := p;
        case MarkerReady(g) =>
          var finished, p := PollRoutine();
          assert !finished;
          c := p;
          woken := woken.(output := true);
        case FlushReady(_) =>
        case Forwarding =>
      }
    }

    /** Polls a flushing routine; Ready completes the flush and wakes Output to forward it. */
    method DriveFlush(g: int) returns (ghost c: Choice)
      requires state == Flushing(g) && routine.flushing && !woken.work
      modifies this
      ensures View() == Work(old(View()), c)
    {
      var finished, p := PollRoutine();
      c := p;
      if finished {
        state := FlushReady(g);
        log := log.(made := log.made + [Flush(g)]);
        woken := woken.(output := true);
      }
    }

    /** The routine's poll: Ready only once told to flush, and while pending in a flush it will
        wake Work. */
    method PollRoutine() returns (finished: bool, ghost c: Choice)
      modifies this
      ensures finished ==> old(routine.flushing)
      ensures finished ==> c.yes && View() == Polled(old(View()), c)
      ensures !finished ==>
          !c.yes && View() == Polled(old(View()), if old(routine.flushing) then c.(async := true) else c)
    {
      finished := *;
      finished := finished && routine.flushing;
      log := log.(readied := log.readied + if finished then InFlight(state) else []);
      var async: bool := *;
      routine := routine.(needsPoll := false);
      routine := routine.(owesWork := async || (routine.flushing && !finished));
      routine := routine.(flushing := routine.flushing && !finished);
      ghost var p := Produce();
      c := Choice(finished, p.more, async, p.freed);
    }

    // ---- Output ----

    /** An edge answers. */
    method Ask() returns (e: EdgeAnswer)
      modifies `takes, `stops
      ensures Asked(old(takes), old(stops), Single(e))
    {
      e := *;
      if e.Takes? {
        takes := takes + 1;
      } else {
        stops := stops + [e];
      }
    }

    /** Retries the held message, if there is one. */
    method RetryOut() returns (e: EdgeAnswer)
      modifies `outlet, `log, `takes, `stops
      ensures View() == Retry(old(View()), e)
      ensures Asked(old(takes), old(stops), if old(outlet).held.Some? then Single(e) else NOTHING)
    {
      if outlet.held.None? {
        return Takes;
      }
      e := Ask();
      match e {
        case Takes =>
          log := log.(sent := log.sent + [outlet.held.value]);
          outlet := outlet.(held := None);
        case Refuses => outlet := outlet.(owes := true);
        case Fails => outlet := outlet.(held := None);
      }
    }

    /** A rotation of a message begins; none is underway. */
    method Start(m: Msg) returns (e: EdgeAnswer)
      requires outlet.held.None?
      modifies `outlet, `log, `takes, `stops
      ensures View() == Rotate(old(View()), m, e) && Asked(old(takes), old(stops), Single(e))
    {
      e := Ask();
      match e {
        case Takes => log := log.(sent := log.sent + [m]);
        case Refuses => outlet := outlet.(held := Some(m), owes := true);
        case Fails =>
      }
    }

    method PullOne() returns (e: EdgeAnswer, ghost freed: bool)
      requires routine.ready != [] && outlet.held.None?
      modifies this
      ensures View() == Pull(old(View()), freed, e) && Asked(old(takes), old(stops), Single(e))
    {
      var data := routine.ready[0];
      var room: bool := *;
      freed := room;
      routine := routine.(ready := routine.ready[1..]);
      if routine.owesInput && room {
        routine := routine.(owesInput := false);
        woken := woken.(input := true);
      }
      e := Start(Data(data));
    }

    /** Offers what the outlet holds, and once that is gone the routine's outputs, `budget` at most. */
    method Drain(budget: nat) returns (d: Drained, ghost h: Heard)
      requires OutputRuns(View()) && !state.Closed? && !state.Forwarding?
      modifies this
      ensures StopsAt(d, View()) && SameBut(old(View()), View())
      ensures Asked(old(takes), old(stops), h) && Delivers(old(View()), View(), h)
      ensures Drains(d, h, budget + (if old(outlet).held.Some? then 1 else 0), View())
      ensures old(outlet).held.Some? || (budget > 0 && old(routine).ready != []) ==> h != NOTHING
    {
      if outlet.held.Some? {
        d, h := DrainHeld(budget);
      } else {
        d, h := DrainReady(budget);
      }
    }

    method DrainHeld(budget: nat) returns (d: Drained, ghost h: Heard)
      requires OutputRuns(View()) && !state.Closed? && !state.Forwarding? && outlet.held.Some?
      modifies this
      ensures StopsAt(d, View()) && SameBut(old(View()), View())
      ensures Asked(old(takes), old(stops), h) && Delivers(old(View()), View(), h)
      ensures Drains(d, h, budget + 1, View()) && h != NOTHING
    {
      ghost var v := View();
      var e;
      ghost var freed, last;
      e, d, freed, last := RetryReady(budget);
      if e.Takes? {
        HeldDrains(v, freed, last, d);
      } else {
        HeldStops(v, e);
      }
      h := if e.Takes? then Heard(1 + |freed|, LastOf(d)) else Single(e);
    }

    /** The held message, and behind it the routine's outputs. */
    method RetryReady(budget: nat) returns (e: EdgeAnswer, d: Drained, ghost freed: seq<bool>, ghost last: bool)
      requires outlet.held.Some?
      modifies this
      ensures !e.Takes? ==> View() == Retry(old(View()), e) && d == (if e.Refuses? then Parked else Failed)
      ensures !e.Takes? ==> Asked(old(takes), old(stops), Single(e))
      ensures e.Takes? ==>
                && PullsUpTo(budget, old(routine).ready, freed, d)
                && View() == StopOf(Retry(old(View()), Takes), freed, last, d)
                && Asked(old(takes), old(stops), Heard(1 + |freed|, LastOf(d)))
    {
      freed, last := [], false;
      e := RetryOut();
      if !e.Takes? {
        d := if e.Refuses? then Parked else Failed;
      } else {
        d, freed, last := PullReady(budget);
      }
    }

    method DrainReady(budget: nat) returns (d: Drained, ghost h: Heard)
      requires OutputRuns(View()) && !state.Closed? && !state.Forwarding? && outlet.held.None?
      modifies this
      ensures StopsAt(d, View()) && SameBut(old(View()), View())
      ensures Asked(old(takes), old(stops), h) && Delivers(old(View()), View(), h) && Drains(d, h, budget, View())
      ensures budget > 0 && old(routine).ready != [] ==> h != NOTHING
    {
      ghost var v := View();
      ghost var freed, last;
      d, freed, last := PullReady(budget);
      StopKeeps(v, freed, last, d);
      h := Heard(|freed|, LastOf(d));
    }

    /** Pushes the routine's outputs up to `budget`, until one is not taken; `freed` says whose
        taking made room, `last` whether that one's did. */
    method PullReady(budget: nat) returns (d: Drained, ghost freed: seq<bool>, ghost last: bool)
      requires outlet.held.None?
      modifies this
      ensures PullsUpTo(budget, old(routine).ready, freed, d)
      ensures View() == StopOf(old(View()), freed, last, d)
      ensures Asked(old(takes), old(stops), Heard(|freed|, LastOf(d)))
    {
      ghost var v := View();
      freed, last, d := [], false, Yielded;
      var i := 0;
      while i < budget
        invariant i <= budget && i == |freed| <= |v.routine.ready| && View() == Pulls(v, freed)
        invariant outlet.held.None? && d.Yielded?
        invariant takes == old(takes) + i && stops == old(stops)
      {
        if routine.ready == [] {
          return Done, freed, last;
        }
        var e;
        ghost var room;
        e, room := PullOne();
        if !e.Takes? {
          return if e.Refuses? then Parked else Failed, freed, room;
        }
        PullsMore(v, freed, room);
        freed := freed + [room];
        i := i + 1;
      }
      woken := woken.(output := true);
    }

    method Close()
      modifies `state, `woken, `done, `outlet
      ensures View() == Fail(old(View()))
    {
      state := Closed;
      woken := woken.(input := true, work := true);
      done := done.(output := true);
      outlet := outlet.(held := None);
    }

    method Resume()
      modifies `state, `woken
      ensures View() == Resumed(old(View()))
    {
      state := Running;
      woken := woken.(input := true, work := true);
    }

    /** Forwards the signal behind the drained outputs. */
    method ForwardSignal() returns (e: EdgeAnswer)
      requires (state.FlushReady? || state.MarkerReady?) && outlet.held.None?
      modifies this
      ensures View() == Forward(old(View()), e) && Asked(old(takes), old(stops), Single(e))
    {
      var m := if state.FlushReady? then Flush(state.signal) else Marker(state.signal);
      if m.Marker? {
        log := log.(made := log.made + [m]);
      }
      state := Forwarding;
      e := Start(m);
      match e {
        case Takes => Resume();
        case Refuses =>
        case Fails => Close();
      }
    }

    /** A poll of the Output phase; `h` is what the edges answered. */
    method PollOutput(budget: nat) returns (ghost h: Heard)
      requires Valid() && woken.output && !done.output && budget > 0
      modifies this
      ensures Valid()
      ensures log.read == old(log.read) && inlet.inbox == old(inlet.inbox)
      ensures Asked(old(takes), old(stops), h) && Delivers(old(View()), View(), h)
      ensures Emitted(old(View()), View(), budget, h)
    {
      ghost var v := View();
      PhaseStarts(v);
      woken := woken.(output := false);
      assert View() == v.(woken := v.woken.(output := false));
      if state.Forwarding? {
        h := Settle();
      } else {
        h := Emit(budget);
      }
    }

    /** The held signal is retried; once delivered the node is Running again. */
    method Settle() returns (ghost h: Heard)
      requires OutputRuns(View()) && state.Forwarding?
      modifies this
      ensures Valid()
      ensures log.read == old(log.read) && inlet.inbox == old(inlet.inbox)
      ensures Asked(old(takes), old(stops), h) && Delivers(old(View()), View(), h)
      ensures h == Single(h.last) && View() == Settled(old(View()), h.last)
    {
      ghost var v := View();
      var e := RetrySignal();
      h := Single(e);
      SettledKeeps(v, e);
    }

    method RetrySignal() returns (e: EdgeAnswer)
      requires outlet.held.Some?
      modifies `state, `outlet, `woken, `done, `log, `takes, `stops
      ensures View() == Settled(old(View()), e) && Asked(old(takes), old(stops), Single(e))
    {
      e := RetryOut();
      match e {
        case Takes => Resume();
        case Refuses =>
        case Fails => Close();
      }
    }

    method Emit(budget: nat) returns (ghost h: Heard)
      requires OutputRuns(View()) && !state.Closed? && !state.Forwarding? && budget > 0
      modifies this
      ensures Valid()
      ensures log.read == old(log.read) && inlet.inbox == old(inlet.inbox)
      ensures Asked(old(takes), old(stops), h) && Delivers(old(View()), View(), h)
      ensures Emitted(old(View()), View(), budget, h)
    {
      ghost var v := View();
      var d;
      ghost var first;
      d, first := Drain(budget);
      ghost var mid := View();
      ghost var more := Conclude(d);
      h := Overall(first, more);
      ConcludedEmits(v, mid, View(), d, first, more, budget);
      OverallAdds(first, more);
      Assoc(old(stops), first.Stops(), more.Stops());
    }

    /** After the drain: close, forward the waiting signal, or leave it at that. */
    method Conclude(d: Drained) returns (ghost h: Heard)
      requires StopsAt(d, View()) && !state.Closed? && !state.Forwarding?
      modifies this
      ensures Valid()
      ensures log.read == old(log.read) && inlet.inbox == old(inlet.inbox)
      ensures Asked(old(takes), old(stops), h) && Delivers(old(View()), View(), h)
      ensures Concluded(old(View()), View(), d, h)
    {
      h := NOTHING;
      if d.Yielded? {
        return;
      }
      if d.Done? {
        FailKeeps(View());
      }
      if d.Failed? || state.CloseReady? {
        Close();
      } else if d.Done? {
        h := Finish();
      }
    }

    /** The routine is drained: a waiting signal goes now. */
    method Finish() returns (ghost h: Heard)
      requires OutputRuns(View()) && state.IsOpen() && !state.Forwarding? && routine.ready == [] && outlet.held.None?
      modifies this
      ensures Valid()
      ensures log.read == old(log.read) && inlet.inbox == old(inlet.inbox)
      ensures Asked(old(takes), old(stops), h) && Delivers(old(View()), View(), h)
      ensures if old(state).FlushReady? || old(state).MarkerReady?
          then h == Single(h.last) && View() == Forward(old(View()), h.last)
              else h == NOTHING && View() == old(View())
    {
      ghost var v := View();
      h := NOTHING;
      if state.FlushReady? || state.MarkerReady? {
        var e := ForwardSignal();
        ForwardKeeps(v, e);
        ForwardSends(v, e);
        h := Single(e);
      } else {
        IdleKeeps(v);
      }
    }

    // ---- what the upstream, the routine and the edges may do between polls ----

    method UpstreamPushes(m: Msg)
      requires Valid() && !inlet.closed
      modifies this
      ensures Valid() && log == old(log)
      ensures View() == old(View()).(inlet := old(inlet).(inbox := old(inlet).inbox + [m]),
          woken := old(woken).(input := true))
    {
      inlet := inlet.(inbox := inlet.inbox + [m]);
      woken := woken.(input := true);
    }

    method UpstreamCloses()
      requires Valid()
      modifies this
      ensures Valid() && log == old(log)
      ensures View() == old(View()).(inlet := old(inlet).(closed := true), woken := old(woken).(input := true))
    {
      inlet := inlet.(closed := true);
      woken := woken.(input := true);
    }

    /** The refusing edge takes more again, or closes. */
    method EdgeWakes()
      requires Valid() && outlet.owes
      modifies this
      ensures Valid() && log == old(log)
      ensures View() == old(View()).(outlet := old(outlet).(owes := false), woken := old(woken).(output := true))
    {
      outlet := outlet.(owes := false);
      woken := woken.(output := true);
    }

    /** What the routine awaited arrives: it wakes Work, which must poll it. */
    method RoutineWakesWork()
      requires Valid()
      modifies this
      ensures Valid() && log == old(log)
      ensures View() == old(View()).(routine := old(routine).(owesWork := false, needsPoll := true),
          woken := old(woken).(work := true))
    {
      routine := routine.(owesWork := false);
      routine := routine.(needsPoll := true);
      woken := woken.(work := true);
    }

    method RoutineMakesRoom()
      requires Valid() && routine.owesInput
      modifies this
      ensures Valid() && log == old(log)
      ensures View() == old(View()).(routine := old(routine).(owesInput := false), woken := old(woken).(input := true))
    {
      routine := routine.(owesInput := false);
      woken := woken.(input := true);
    }

    method PollSome(input: nat, output: nat)
      requires Valid() && input > 0 && output > 0
      modifies this
      ensures Valid() && old(log.read) <= log.read && old(log.sent) <= log.sent
    {
      if
      case woken.input && !done.input => PollInput(input);
      case woken.work && !done.work =>
        ghost var c := PollWork();
      case woken.output && !done.output =>
        ghost var h := PollOutput(output);
      case true =>
    }

    method OutsideEvent()
      requires Valid()
      modifies this
      ensures Valid() && log == old(log)
    {
      if
      case !inlet.closed =>
        var m: Msg := *;
        UpstreamPushes(m);
      case true => UpstreamCloses();
      case outlet.owes => EdgeWakes();
      case true => RoutineWakesWork();
      case routine.owesInput => RoutineMakesRoom();
    }

    /** Any interleaving of polls of woken phases and outside events, of any length: the node is
        never stranded, and its signals leave once and in order. */
    method Run(steps: nat, input: nat, output: nat)
      requires Valid() && input > 0 && output > 0
      modifies this
      ensures Valid()
      ensures old(log.read) <= log.read && old(log.sent) <= log.sent
      ensures state.IsOpen() && Quiet(View()) ==> NothingToDo(View())
      ensures state.IsOpen() ==> SignalsKept(View())
      ensures log.sent <= log.made && Signals(log.sent) <= Signals(log.read) && Flushes(log.sent) <= log.readied
      ensures EachPhaseOwed(View())
    {
      var k := 0;
      while k < steps
        invariant Valid() && old(log.read) <= log.read && old(log.sent) <= log.sent
      {
        if * {
          PollSome(input, output);
        } else {
          OutsideEvent();
        }
        k := k + 1;
      }
      Meaning(View());
    }
  }
}
