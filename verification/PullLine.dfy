/** The pull line: a demand-driven loop over a parent (src/node/line/pull/node.rs). */
module PullLine {
  import opened Basics
  import opened Transducer

  /** A line's routine, its output queue and its buffer of messages to yield behind them. */
  class Line<S, I, O, G> {
    const routine: Machine<S, I, O>
    var state: S
    var outputs: seq<O>
    var buffer: seq<Message<O, G>>
    ghost var consumed: seq<Message<I, G>>
    ghost var yielded: seq<Message<O, G>>

    /** What was yielded and what is held is the transduction of what was pulled; the buffer holds at
        most one Flush. */
    ghost predicate Valid()
      reads this
    {
      && state == StateAfter(routine, consumed)
      && yielded + (AsData(outputs) + buffer) == Transduce(routine, consumed)
      && (buffer == [] || (|buffer| == 1 && buffer[0].Flush?))
    }

    ghost function Held(): nat
      reads this
    {
      |outputs| + |buffer|
    }

    constructor (routine: Machine<S, I, O>)
      ensures Valid() && consumed == [] && yielded == [] && this.routine == routine && Held() == 0
    {
      this.routine := routine;
      state := routine.start;
      outputs, buffer, consumed, yielded := [], [], [], [];
    }

    /** The routine's next output, else the buffered message. */
    method NextOutput() returns (message: Option<Message<O, G>>)
      requires Valid()
      modifies this`outputs, this`buffer, this`yielded
      ensures Valid()
      ensures message.None? ==> Held() == old(Held()) == 0 && yielded == old(yielded)
      ensures message.Some? ==> yielded == old(yielded) + [message.value] && Held() == old(Held()) - 1
    {
      if outputs != [] {
        message := Some(Data(outputs[0]));
        FirstOut<O, G>(yielded, outputs, buffer);
        yielded := yielded + [message.value];
        outputs := outputs[1..];
      } else if buffer != [] {
        message := Some(buffer[0]);
        Shift(yielded, message.value, []);
        assert AsData<O, G>(outputs) + buffer == [buffer[0]];
        yielded := yielded + [buffer[0]];
        buffer := buffer[1..];
        assert AsData<O, G>(outputs) + buffer == [];
      } else {
        message := None;
      }
    }

    /** One message pulled from the parent: what the loop returns for it, if anything. */
    method Accept(input: Message<I, G>) returns (message: Option<Message<O, G>>)
      requires Valid() && Held() == 0
      modifies this
      ensures Valid() && consumed == old(consumed) + [input]
      ensures message.None? ==> Held() == 0 && yielded == old(yielded)
      ensures message.Some? ==> yielded == old(yielded) + [message.value]
    {
      TransduceMore<S, I, O, G>(routine, consumed, input);
      assert yielded == Transduce(routine, consumed) by {
        assert yielded + (AsData(outputs) + buffer) == yielded;
      }
      consumed := consumed + [input];
      match input {
        case Data(d) =>
          var (next, made) := routine.send(state, d);
          state, outputs := next, made;
          Around(yielded, AsData(made), Passed<I, O, G>(input));
          message := NextOutput();
        case Flush(g) =>
          Around(yielded, AsData(routine.flush(state).1), Passed<I, O, G>(input));
          message := AcceptFlush(g);
        case Marker(g) =>
          message := Some(Marker(g));
          yielded := yielded + [message.value];
          Around(old(yielded), [], [Marker(g)]);
          assert yielded + (AsData(outputs) + buffer) == yielded;
      }
    }

    /** What the flush released goes first; the Flush waits in the buffer behind it. */
    method AcceptFlush(g: G) returns (message: Option<Message<O, G>>)
      requires outputs == [] && buffer == []
      requires StateAfter(routine, consumed) == routine.flush(state).0
      requires Transduce(routine, consumed) == yielded + (AsData(routine.flush(state).1) + [Flush(g)])
      modifies this`state, this`outputs, this`buffer, this`yielded
      ensures Valid() && message.Some? && yielded == old(yielded) + [message.value]
    {
      var (next, made) := routine.flush(state);
      FlushOut(yielded, made, g);
      state := next;
      if made == [] {
        message := Some(Flush(g));
      } else {
        message := Some(Data(made[0]));
        outputs := made[1..];
        buffer := [Flush(g)];
      }
      yielded := yielded + [message.value];
    }
  }

  lemma Shift<A>(y: seq<A>, a: A, rest: seq<A>)
    ensures y + ([a] + rest) == (y + [a]) + rest
    ensures y + [a] + [] == y + [a]
  {
  }

  /** Yielding the first output. */
  lemma FirstOut<O, G>(y: seq<Message<O, G>>, outputs: seq<O>, behind: seq<Message<O, G>>)
    requires outputs != []
    ensures y + (AsData(outputs) + behind) == (y + [Data(outputs[0])]) + (AsData(outputs[1..]) + behind)
  {
    assert AsData<O, G>(outputs) == [Data(outputs[0])] + AsData(outputs[1..]);
  }

  /** Yielding the first of what a flush released and the Flush behind it. */
  lemma FlushOut<O, G>(y: seq<Message<O, G>>, made: seq<O>, g: G)
    ensures y + (AsData(made) + [Flush(g)])
         == if made == [] then (y + [Flush(g)]) + (AsData<O, G>([]) + [])
            else (y + [Data(made[0])]) + (AsData(made[1..]) + [Flush(g)])
  {
    if made == [] {
      assert AsData<O, G>(made) == [];
    } else {
      FirstOut<O, G>(y, made, [Flush(g)]);
    }
  }

  lemma Around<A>(y: seq<A>, made: seq<A>, passed: seq<A>)
    ensures y + made + passed == y + (made + passed)
    ensures y + [] + passed == y + passed && made + [] == made
  {
  }

  /** `pull` over a parent that yields `parent` and is then closed: the next message and what the
      parent still has. `None` is the parent's close, and then everything was yielded. */
  method Pull<S, I, O, G>(line: Line<S, I, O, G>, parent: seq<Message<I, G>>)
    returns (message: Option<Message<O, G>>, rest: seq<Message<I, G>>)
    requires line.Valid()
    modifies line
    ensures line.Valid() && line.consumed + rest == old(line.consumed) + parent && |rest| <= |parent|
    ensures message.Some? ==> line.yielded == old(line.yielded) + [message.value]
    ensures message.Some? ==> |rest| < |parent| || (rest == parent && line.Held() < old(line.Held()))
    ensures message.None? ==> rest == [] && line.yielded == old(line.yielded) == Transduce(line.routine, line.consumed)
  {
    rest := parent;
    message := line.NextOutput();
    while message.None? && rest != []
      invariant line.Valid() && line.consumed + rest == old(line.consumed) + parent && |rest| <= |parent|
      invariant message.None? ==> line.Held() == 0 && line.yielded == old(line.yielded)
      invariant message.Some? ==> line.yielded == old(line.yielded) + [message.value]
      invariant message.Some? ==> |rest| < |parent| || (rest == parent && line.Held() < old(line.Held()))
      decreases |rest|, message.None?
    {
      MoveOne(line.consumed, rest);
      message := line.Accept(rest[0]);
      rest := rest[1..];
    }
    if message.None? {
      assert line.yielded + (AsData(line.outputs) + line.buffer) == line.yielded;
    }
  }

  /** Pulling to the end yields exactly the transduction of the parent's stream. */
  method PullAll<S, I, O, G>(routine: Machine<S, I, O>, parent: seq<Message<I, G>>) returns (all: seq<Message<O, G>>)
    ensures all == Transduce(routine, parent)
  {
    var line := new Line<S, I, O, G>(routine);
    var rest := parent;
    all := [];
    var go := true;
    while go
      invariant line.Valid() && line.routine == routine && line.yielded == all
      invariant line.consumed + rest == parent
      invariant !go ==> all == Transduce(routine, parent)
      decreases go, |rest|, line.Held()
    {
      var message;
      message, rest := Pull(line, rest);
      if message.Some? {
        all := all + [message.value];
      } else {
        assert line.consumed == parent;
        go := false;
      }
    }
  }

  /** `pull` of a line whose parent is a line. */
  method PullThrough<S, T, I, J, O, G>(above: Line<S, I, J, G>, line: Line<T, J, O, G>, parent: seq<Message<I, G>>)
    returns (message: Option<Message<O, G>>, rest: seq<Message<I, G>>)
    requires above.Valid() && line.Valid() && line.consumed == above.yielded && (above as object) != line
    modifies above, line
    ensures above.Valid() && line.Valid() && line.consumed == above.yielded
    ensures above.consumed + rest == old(above.consumed) + parent && |rest| <= |parent|
    ensures message.Some? ==> line.yielded == old(line.yielded) + [message.value]
    ensures message.Some? ==>
              (|| |rest| < |parent| || (rest == parent && above.Held() < old(above.Held()))
               || (rest == parent && above.Held() == old(above.Held()) && line.Held() < old(line.Held())))
    ensures message.None? ==> rest == [] && line.yielded == old(line.yielded)
                           == Transduce(line.routine, Transduce<S, I, J, G>(above.routine, above.consumed))
  {
    rest := parent;
    message := line.NextOutput();
    var open := true;
    while message.None? && open
      invariant above.Valid() && line.Valid() && line.consumed == above.yielded
      invariant above.consumed + rest == old(above.consumed) + parent && |rest| <= |parent|
      invariant message.None? ==> line.Held() == 0 && line.yielded == old(line.yielded)
      invariant message.Some? ==> line.yielded == old(line.yielded) + [message.value]
      invariant message.Some? ==>
                (|| |rest| < |parent| || (rest == parent && above.Held() < old(above.Held()))
                 || (rest == parent && above.Held() == old(above.Held()) && line.Held() < old(line.Held())))
      invariant |rest| < |parent| || (rest == parent && above.Held() <= old(above.Held()))
      invariant !open ==> rest == [] && above.yielded == Transduce(above.routine, above.consumed)
      decreases open, |rest|, above.Held()
    {
      var input;
      input, rest := Pull(above, rest);
      if input.Some? {
        message := line.Accept(input.value);
      } else {
        open := false;
      }
    }
    if message.None? {
      assert line.yielded + (AsData(line.outputs) + line.buffer) == line.yielded;
    }
  }

  /** A line pulling a line yields exactly the composed routine's stream. */
  method PullChain<S, T, I, J, O, G>(a: Machine<S, I, J>, b: Machine<T, J, O>, parent: seq<Message<I, G>>)
    returns (all: seq<Message<O, G>>)
    ensures all == Transduce(Compose(a, b), parent)
  {
    var above := new Line<S, I, J, G>(a);
    var line := new Line<T, J, O, G>(b);
    var rest := parent;
    all := [];
    var go := true;
    while go
      invariant above.Valid() && line.Valid() && line.consumed == above.yielded
      invariant above.routine == a && line.routine == b && line.yielded == all
      invariant above.consumed + rest == parent
      invariant !go ==> all == Transduce(b, Transduce<S, I, J, G>(a, parent))
      decreases go, |rest|, above.Held(), line.Held()
    {
      var message;
      message, rest := PullThrough(above, line, rest);
      if message.Some? {
        all := all + [message.value];
      } else {
        assert above.consumed == parent;
        go := false;
      }
    }
    ChainComposes<S, T, I, J, O, G>(a, b, parent);
  }
}
