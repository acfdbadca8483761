/**
  The work nodes: a fan-out per output (`Side`), and the bifurcation with two of them
  (src/node/bifurcation/work/node.rs). How the edges answer each round is arbitrary.
  */
module WorkNodes {
  import opened Basics
  import opened Transducer
  import opened Fanout

  function Listed<A>(a: Option<A>): seq<A> {
    if a.None? then [] else [a.value]
  }

  /** How a side's part of a round went. */
  datatype Part = Busy | Quiet | Torn

  /** How a call ended: it moved on, the node closed, an edge errored, or it blocked on its inputs. */
  datatype Outcome = Moved | Closed | Errored | Waiting

  /** One output of a node: the routine's outputs for it, a signal waiting behind them, and the
      fan-out. What was pushed and what is waiting is the stream the node owes it. */
  class Side<O, G> {
    var outputs: seq<O>
    var pending: Option<Message<O, G>>
    var fan: Fan<Message<O, G>>
    ghost var pushed: seq<Message<O, G>>

    /** Up to an edge's error. */
    ghost predicate Valid()
      reads this
    {
      Broadcast(fan, pushed)
    }

    /** The error cut the last message short; the node is not worked again. */
    ghost predicate Broken()
      reads this
    {
      CutShort(fan, pushed)
    }

    ghost function Owed(): seq<Message<O, G>>
      reads this
    {
      pushed + (AsData(outputs) + Listed(pending))
    }

    ghost predicate Idle()
      reads this
    {
      fan.suspended.None? && outputs == [] && pending.None?
    }

    /** At most one more message. */
    ghost predicate Grew(before: seq<Message<O, G>>)
      reads this
    {
      before <= pushed && |pushed| <= |before| + 1
    }

    /** Went on with the suspended push, or else started one. */
    ghost predicate Moved(before: Fan<Message<O, G>>, pushedBefore: seq<Message<O, G>>, answers: seq<Answer>)
      requires |answers| == |before.edges|
      reads this
    {
      if before.suspended.Some? then pushed == pushedBefore && fan == Resume(before, answers).fan
      else |pushed| == |pushedBefore| + 1 && fan == Push(before, pushed[|pushedBefore|], answers).fan
    }

    /** Moved, or had nothing to do. */
    ghost predicate Stepped(before: Fan<Message<O, G>>, pushedBefore: seq<Message<O, G>>, answers: seq<Answer>)
      requires |answers| == |before.edges|
      reads this
    {
      Moved(before, pushedBefore, answers) || (fan == before && pushed == pushedBefore && Idle())
    }

    constructor (edges: nat)
      ensures Valid() && Idle() && Owed() == [] && pushed == [] && |fan.edges| == edges
    {
      outputs, pending, pushed := [], None, [];
      fan := Fan(seq(edges, _ => []), None);
    }

    lemma Delivered(stream: seq<Message<O, G>>, end: bool)
      requires (Valid() || Broken()) && Owed() <= stream
      requires end ==> Valid() && Idle() && Owed() == stream
      ensures Reaches(fan, stream, end)
    {
      assert pushed <= Owed();
    }

    /** A side's part of a round: its suspended push, else its next output, else its signal. */
    method Round(answers: seq<Answer>) returns (part: Part)
      requires Valid() && |answers| == |fan.edges|
      modifies this
      ensures if part.Torn? then Broken() else Valid()
      ensures Owed() == old(Owed()) && |fan.edges| == |old(fan.edges)|
      ensures part.Quiet? <==> old(Idle())
      ensures part.Quiet? ==> Idle() && pushed == old(pushed) && fan == old(fan)
      ensures Grew(old(pushed))
      ensures !part.Quiet? ==> Moved(old(fan), old(pushed), answers)
      ensures AllTake(answers) ==> !part.Torn? && fan.suspended.None?
    {
      if fan.suspended.Some? {
        ResumeBroadcasts(fan, answers, pushed);
        var t := Resume(fan, answers);
        fan := t.fan;
        return if t.ok then Busy else Torn;
      }
      if outputs == [] && pending.None? {
        return Quiet;
      }
      var message: Message<O, G>;
      ghost var waiting := AsData<O, G>(outputs) + Listed(pending);
      if outputs != [] {
        message := Data(outputs[0]);
        outputs := outputs[1..];
      } else {
        message := pending.value;
        pending := None;
      }
      assert waiting == [message] + (AsData(outputs) + Listed(pending));
      assert pushed + waiting == (pushed + [message]) + (AsData(outputs) + Listed(pending));
      PushBroadcasts(fan, message, answers, pushed);
      var t := Push(fan, message, answers);
      fan := t.fan;
      pushed := pushed + [message];
      part := if t.ok then Busy else Torn;
    }

    /** What the routine made of one input message, and the signal behind it. */
    method Accept(made: seq<O>, passed: seq<Message<O, G>>)
      requires Valid() && Idle() && |passed| <= 1
      modifies this
      ensures Valid() && fan == old(fan) && pushed == old(pushed) && Owed() == old(Owed()) + AsData(made) + passed
    {
      assert Owed() == pushed;
      outputs := made;
      pending := if passed == [] then None else Some(passed[0]);
      assert Listed(pending) == passed;
    }
  }

  /** Each edge has a prefix of `stream`, the whole of it at the end. */
  ghost predicate Reaches<M>(f: Fan<M>, stream: seq<M>, end: bool) {
    && (forall i :: 0 <= i < |f.edges| ==> f.edges[i] <= stream)
    && (end ==> forall i :: 0 <= i < |f.edges| ==> f.edges[i] == stream)
  }

  /** A routine with two outputs. */
  datatype Splitter<!S, !I, L, R> = Splitter(start: S, send: (S, I) -> (S, seq<L>, seq<R>),
      flush: S -> (S, seq<L>, seq<R>)) {
    function Left(): Machine<S, I, L> {
      Machine(start, (s: S, i: I) => (send(s, i).0, send(s, i).1), (s: S) => (flush(s).0, flush(s).1))
    }

    function Right(): Machine<S, I, R> {
      Machine(start, (s: S, i: I) => (send(s, i).0, send(s, i).2), (s: S) => (flush(s).0, flush(s).2))
    }
  }

  lemma {:induction false} SidesAgree<S, I, L, R, G>(m: Splitter<S, I, L, R>, input: seq<Message<I, G>>)
    ensures StateAfter(m.Left(), input) == StateAfter(m.Right(), input)
    decreases |input|
  {
    if input != [] {
      SidesAgree(m, input[..|input| - 1]);
    }
  }

  class Bifurcation<S, I, L, R, G> {
    const routine: Splitter<S, I, L, R>
    const left: Side<L, G>
    const right: Side<R, G>
    var state: S
    /** What the input still yields; then it is closed. */
    var input: seq<Message<I, G>>
    ghost var consumed: seq<Message<I, G>>

    ghost predicate Valid()
      reads this, left, right
    {
      Owing() && left.Valid() && right.Valid()
    }

    /** An edge of one side errored; the other side is left as it was. */
    ghost predicate Broken()
      reads this, left, right
    {
      Owing() && ((left.Broken() && right.Valid()) || (left.Valid() && right.Broken()))
    }

    /** Each side owes exactly its transduction of the input taken. */
    ghost predicate Owing()
      reads this, left, right
    {
      && (left as object) != right
      && state == StateAfter(routine.Left(), consumed)
      && left.Owed() == Transduce(routine.Left(), consumed)
      && right.Owed() == Transduce(routine.Right(), consumed)
    }

    ghost predicate Idle()
      reads this, left, right
    {
      left.Idle() && right.Idle()
    }

    constructor (routine: Splitter<S, I, L, R>, input: seq<Message<I, G>>, lefts: nat, rights: nat)
      ensures Valid() && this.routine == routine && this.input == input && consumed == []
      ensures fresh(left) && fresh(right)
    {
      this.routine := routine;
      this.input := input;
      state := routine.start;
      consumed := [];
      left := new Side<L, G>(lefts);
      right := new Side<R, G>(rights);
    }

    /** Both sides' part of a round; an error on the left leaves the right alone. */
    method Rounds(lefts: seq<Answer>, rights: seq<Answer>) returns (part: Part)
      requires Valid() && |lefts| == |left.fan.edges| && |rights| == |right.fan.edges|
      modifies left, right
      ensures if part.Torn? then Broken() else Valid()
      ensures part.Quiet? <==> old(Idle())
      ensures part.Quiet? ==> Idle() && left.pushed == old(left.pushed) && right.pushed == old(right.pushed)
      ensures part.Quiet? ==> left.fan == old(left.fan) && right.fan == old(right.fan)
      ensures left.Grew(old(left.pushed)) && right.Grew(old(right.pushed))
      ensures |left.fan.edges| == |lefts| && |right.fan.edges| == |rights|
      ensures AllTake(lefts) && AllTake(rights) ==> !part.Torn? && Flowing()
      ensures part.Busy? ==>
          left.Stepped(old(left.fan), old(left.pushed), lefts)
              && right.Stepped(old(right.fan), old(right.pushed), rights)
      ensures part.Busy? ==>
          left.Moved(old(left.fan), old(left.pushed), lefts) || right.Moved(old(right.fan), old(right.pushed), rights)
    {
      var l := left.Round(lefts);
      if l.Torn? {
        return Torn;
      }
      var r := right.Round(rights);
      part := if r.Torn? then Torn else if l.Busy? || r.Busy? then Busy else Quiet;
    }

    /** What the routine makes of a message, per side. */
    method Consume(message: Message<I, G>) returns (ls: seq<L>, rs: seq<R>)
      modifies `state
      ensures state == StateStep(routine.Left(), old(state), message) == StateStep(routine.Right(), old(state), message)
      ensures ls == Made(routine.Left(), old(state), message) && rs == Made(routine.Right(), old(state), message)
    {
      match message {
        case Data(d) =>
          var t := routine.send(state, d);
          state, ls, rs := t.0, t.1, t.2;
        case Flush(g) =>
          var t := routine.flush(state);
          state, ls, rs := t.0, t.1, t.2;
        case Marker(g) =>
          ls, rs := [], [];
      }
    }

    /** One input message, both sides idle: the routine's share of a datum, or the signal, becomes
        each side's debt. */
    method Accept(message: Message<I, G>)
      requires Valid() && Idle()
      modifies `state, `consumed, left, right
      ensures Valid() && consumed == old(consumed) + [message]
      ensures left.fan == old(left.fan) && right.fan == old(right.fan)
      ensures left.pushed == old(left.pushed) && right.pushed == old(right.pushed)
    {
      SidesAgree(routine, consumed);
      TransduceMore<S, I, L, G>(routine.Left(), consumed, message);
      TransduceMore<S, I, R, G>(routine.Right(), consumed, message);
      var ls, rs := Consume(message);
      left.Accept(ls, Passed(message));
      right.Accept(rs, Passed(message));
      consumed := consumed + [message];
    }

    /** One call moves each side on by a message if it has any; only a call that finds both idle
        reads the input, and it closes the node at the input's end. */
    method Work(lefts: seq<Answer>, rights: seq<Answer>) returns (outcome: Outcome)
      requires Valid() && |lefts| == |left.fan.edges| && |rights| == |right.fan.edges|
      modifies this, left, right
      ensures if outcome.Errored? then Broken() else Valid()
      ensures consumed + input == old(consumed) + old(input) && !outcome.Waiting?
      ensures !old(Idle()) ==> consumed == old(consumed)
      ensures left.Grew(old(left.pushed)) && right.Grew(old(right.pushed))
      ensures |left.fan.edges| == |lefts| && |right.fan.edges| == |rights|
      ensures outcome.Closed? ==> input == [] && Idle()
      ensures AllTake(lefts) && AllTake(rights) ==> !outcome.Errored? && Flowing()
      ensures outcome.Moved? ==>
          left.Stepped(old(left.fan), old(left.pushed), lefts)
              && right.Stepped(old(right.fan), old(right.pushed), rights)
      ensures outcome.Moved? ==>
          left.Moved(old(left.fan), old(left.pushed), lefts) || right.Moved(old(right.fan), old(right.pushed), rights)
    {
      ghost var idle := Idle();
      while true
        invariant Valid() && consumed + input == old(consumed) + old(input)
        invariant |left.fan.edges| == |lefts| && |right.fan.edges| == |rights|
        invariant left.pushed == old(left.pushed) && right.pushed == old(right.pushed)
        invariant left.fan == old(left.fan) && right.fan == old(right.fan)
        invariant !idle ==> consumed == old(consumed) && !Idle()
        decreases |input|
      {
        var part := Rounds(lefts, rights);
        match part {
          case Busy => return Moved;
          case Torn => return Errored;
          case Quiet =>
        }
        if input == [] {
          return Closed;
        }
        var message := input[0];
        MoveOne(consumed, input);
        Accept(message);
        input := input[1..];
      }
    }

    lemma Reached(whole: seq<Message<I, G>>, end: bool)
      requires (Valid() || Broken()) && consumed <= whole
      requires end ==> Valid() && Idle() && consumed == whole
      ensures Reaches(left.fan, Transduce(routine.Left(), whole), end)
      ensures Reaches(right.fan, Transduce(routine.Right(), whole), end)
    {
      assert Reaches(left.fan, Transduce(routine.Left(), whole), end) by {
        TransducePrefix<S, I, L, G>(routine.Left(), consumed, whole);
        left.Delivered(Transduce(routine.Left(), whole), end);
      }
      assert Reaches(right.fan, Transduce(routine.Right(), whole), end) by {
        TransducePrefix<S, I, R, G>(routine.Right(), consumed, whole);
        right.Delivered(Transduce(routine.Right(), whole), end);
      }
    }

    /** Any calls, whatever either side's edges refuse or fail: every edge of a side has a prefix of
        that side's transduction of the whole input, and all of it once the node closed. */
    method Run(calls: seq<(seq<Answer>, seq<Answer>)>) returns (outcome: Outcome)
      requires Valid()
      requires forall i :: 0 <= i < |calls| ==> |calls[i].0| == |left.fan.edges| && |calls[i].1| == |right.fan.edges|
      modifies this, left, right
      ensures if outcome.Errored? then Broken() else Valid()
      ensures Reaches(left.fan, Transduce(routine.Left(), old(consumed) + old(input)), outcome.Closed?)
      ensures Reaches(right.fan, Transduce(routine.Right(), old(consumed) + old(input)), outcome.Closed?)
    {
      ghost var whole := consumed + input;
      outcome := Moved;
      var i := 0;
      while i < |calls| && outcome.Moved?
        invariant 0 <= i <= |calls| && consumed + input == whole
        invariant if outcome.Errored? then Broken() else Valid()
        invariant |left.fan.edges| == |old(left.fan.edges)| && |right.fan.edges| == |old(right.fan.edges)|
        invariant outcome.Closed? ==> Idle() && input == []
      {
        outcome := Work(calls[i].0, calls[i].1);
        i := i + 1;
      }
      assert input == [] ==> consumed == whole;
      Reached(whole, outcome.Closed?);
    }

    /** Once every edge takes, the node closes within two calls more than the messages it owes. */
    method Finish() returns (calls: nat)
      requires Valid()
      modifies this, left, right
      ensures Valid() && input == [] && Idle() && consumed == old(consumed) + old(input)
      ensures calls <= |Transduce<S, I, L, G>(routine.Left(), consumed)|
                    + |Transduce<S, I, R, G>(routine.Right(), consumed)| + 2
    {
      ghost var whole := consumed + input;
      ghost var bound := Bound(whole);
      var closed := false;
      calls := 0;
      while !closed
        invariant Valid() && consumed + input == whole
        invariant closed ==> input == [] && Idle()
        invariant calls <= bound + 2 && (!closed ==> calls <= bound + 1)
        invariant !closed && calls > 0 ==> Flowing() && calls <= Out() + 1
        decreases bound + 2 - calls, !closed
      {
        closed := WorkTaking(whole);
        calls := calls + 1;
      }
      assert consumed + [] == consumed;
    }

    ghost predicate Flowing()
      reads left, right
    {
      left.fan.suspended.None? && right.fan.suspended.None?
    }

    ghost function Out(): nat
      reads left, right
    {
      |left.pushed| + |right.pushed|
    }

    /** A call while every edge takes: unless it closes the node, a message more is out. */
    method WorkTaking(ghost whole: seq<Message<I, G>>) returns (closed: bool)
      requires Valid() && consumed + input == whole
      modifies this, left, right
      ensures Valid() && consumed + input == whole && Flowing()
      ensures closed ==> input == [] && Idle()
      ensures !closed && old(Flowing()) ==> Out() > old(Out())
      ensures Out() <= Bound(whole)
    {
      var lefts := seq(|left.fan.edges|, _ => Pushed);
      var rights := seq(|right.fan.edges|, _ => Pushed);
      var outcome := Work(lefts, rights);
      closed := outcome.Closed?;
      Within(whole);
    }

    ghost function Bound(whole: seq<Message<I, G>>): nat {
      |Transduce<S, I, L, G>(routine.Left(), whole)| + |Transduce<S, I, R, G>(routine.Right(), whole)|
    }

    lemma Within(whole: seq<Message<I, G>>)
      requires Valid() && consumed <= whole
      ensures |left.pushed| + |right.pushed| <= Bound(whole)
    {
      TransducePrefix<S, I, L, G>(routine.Left(), consumed, whole);
      TransducePrefix<S, I, R, G>(routine.Right(), consumed, whole);
      assert left.pushed <= left.Owed() && right.pushed <= right.Owed();
    }
  }
}
