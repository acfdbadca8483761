/** Routines as pure transducers of message streams, and their composition. */
module Transducer {
  import opened Basics

  /** A routine by its contract: what each Send and each Flush makes `next` yield, in order. */
  datatype Machine<!S, !I, O> = Machine(start: S, send: (S, I) -> (S, seq<O>), flush: S -> (S, seq<O>))

  function StateStep<S, I, O, G>(m: Machine<S, I, O>, s: S, message: Message<I, G>): S {
    match message
    case Data(d) => m.send(s, d).0
    case Flush(g) => m.flush(s).0
    case Marker(g) => s
  }

  /** What the routine makes of one message. */
  function Made<S, I, O, G>(m: Machine<S, I, O>, s: S, message: Message<I, G>): seq<O> {
    match message
    case Data(d) => m.send(s, d).1
    case Flush(g) => m.flush(s).1
    case Marker(g) => []
  }

  /** The signal itself, behind what it made. */
  function Passed<I, O, G>(message: Message<I, G>): seq<Message<O, G>> {
    match message
    case Data(d) => []
    case Flush(g) => [Flush(g)]
    case Marker(g) => [Marker(g)]
  }

  function StateAfter<S, I, O, G>(m: Machine<S, I, O>, input: seq<Message<I, G>>): S {
    if input == [] then m.start
    else StateStep(m, StateAfter(m, input[..|input| - 1]), input[|input| - 1])
  }

  /** The stream a routine makes of `input`: all outputs of each Data, what a Flush releases and then
      the Flush, Markers in place. */
  function Transduce<S, I, O, G>(m: Machine<S, I, O>, input: seq<Message<I, G>>): seq<Message<O, G>> {
    if input == [] then []
    else
      var before, last := input[..|input| - 1], input[|input| - 1];
      Transduce(m, before) + AsData(Made(m, StateAfter(m, before), last)) + Passed(last)
  }

  lemma TransduceMore<S, I, O, G>(m: Machine<S, I, O>, input: seq<Message<I, G>>, message: Message<I, G>)
    ensures StateAfter(m, input + [message]) == StateStep(m, StateAfter(m, input), message)
    ensures Transduce(m, input + [message])
         == Transduce(m, input) + AsData(Made(m, StateAfter(m, input), message)) + Passed(message)
  {
    assert (input + [message])[..|input + [message]| - 1] == input;
  }

  /** A longer input only adds to the stream. */
  lemma {:induction false} TransducePrefix<S, I, O, G>(m: Machine<S, I, O>, a: seq<Message<I, G>>,
      b: seq<Message<I, G>>)
    requires a <= b
    ensures Transduce(m, a) <= Transduce(m, b)
    decreases |b|
  {
    if |a| < |b| {
      TransducePrefix(m, a, b[..|b| - 1]);
    } else {
      assert a == b;
    }
  }

  // ---- signals pass exactly once ----

  ghost predicate SameSignal<I, O, G>(a: Message<I, G>, b: Message<O, G>) {
    (a.Flush? && b.Flush? && a.signal == b.signal) || (a.Marker? && b.Marker? && a.signal == b.signal)
  }

  ghost predicate SameSignals<I, O, G>(a: seq<Message<I, G>>, b: seq<Message<O, G>>) {
    |a| == |b| && forall i :: 0 <= i < |a| ==> SameSignal(a[i], b[i])
  }

  /** The signals of what one message makes: the message itself, if it is one. */
  lemma PassedSignals<I, O, G>(made: seq<O>, last: Message<I, G>)
    ensures Signals(AsData<O, G>(made)) == []
    ensures SameSignals(if last.IsSignal() then [last] else [], Signals(Passed<I, O, G>(last)))
  {
    SignalsOfData(AsData<O, G>(made));
    match last
    case Data(d) =>
    case Flush(g) => SignalsOne<O, G>(Flush(g));
    case Marker(g) => SignalsOne<O, G>(Marker(g));
  }

  lemma {:induction false} SignalsPass<S, I, O, G>(m: Machine<S, I, O>, input: seq<Message<I, G>>)
    ensures SameSignals(Signals(input), Signals(Transduce<S, I, O, G>(m, input)))
    decreases |input|
  {
    if input != [] {
      var before, last := input[..|input| - 1], input[|input| - 1];
      var made := Made(m, StateAfter(m, before), last);
      SignalsPass<S, I, O, G>(m, before);
      SignalsConcat<O, G>(Transduce(m, before) + AsData(made), Passed(last));
      SignalsConcat<O, G>(Transduce(m, before), AsData(made));
      PassedSignals<I, O, G>(made, last);
    }
  }

  // ---- composition ----

  /** Feeds a sequence of data. */
  function SendAll<S, I, O>(m: Machine<S, I, O>, s: S, data: seq<I>): (S, seq<O>) {
    if data == [] then (s, [])
    else
      var (s1, o1) := SendAll(m, s, data[..|data| - 1]);
      var (s2, o2) := m.send(s1, data[|data| - 1]);
      (s2, o1 + o2)
  }

  /** The second routine fed by the first. */
  function Compose<S, T, I, J, O>(a: Machine<S, I, J>, b: Machine<T, J, O>): Machine<(S, T), I, O> {
    Machine(
      (a.start, b.start),
      (st: (S, T), i: I) =>
        var (s, js) := a.send(st.0, i);
        var (t, os) := SendAll(b, st.1, js);
        ((s, t), os),
      (st: (S, T)) =>
        var (s, js) := a.flush(st.0);
        var (t, os) := SendAll(b, st.1, js);
        var (u, more) := b.flush(t);
        ((s, u), os + more))
  }

  lemma Regroup<A>(x: seq<A>, d: seq<A>, e: seq<A>, p: seq<A>)
    ensures (x + d) + e + p == x + (d + e) + p
    ensures x + d + [] == x + d
  {
  }

  lemma {:induction false} TransduceData<T, J, O, G>(b: Machine<T, J, O>, input: seq<Message<J, G>>, data: seq<J>)
    ensures StateAfter(b, input + AsData(data)) == SendAll(b, StateAfter(b, input), data).0
    ensures Transduce<T, J, O, G>(b, input + AsData(data))
        == Transduce(b, input) + AsData(SendAll(b, StateAfter(b, input), data).1)
    decreases |data|
  {
    if data == [] {
      assert input + AsData(data) == input;
      assert Transduce<T, J, O, G>(b, input) + AsData([]) == Transduce(b, input);
    } else {
      var init, last := data[..|data| - 1], data[|data| - 1];
      assert data == init + [last];
      TransduceData<T, J, O, G>(b, input, init);
      TransduceDatum(b, input, init, last);
    }
  }

  lemma TransduceDatum<T, J, O, G>(b: Machine<T, J, O>, input: seq<Message<J, G>>, init: seq<J>, d: J)
    requires StateAfter(b, input + AsData(init)) == SendAll(b, StateAfter(b, input), init).0
    requires Transduce<T, J, O, G>(b, input + AsData(init))
        == Transduce(b, input) + AsData(SendAll(b, StateAfter(b, input), init).1)
    ensures StateAfter(b, input + AsData(init + [d])) == SendAll(b, StateAfter(b, input), init + [d]).0
    ensures Transduce<T, J, O, G>(b, input + AsData(init + [d]))
        == Transduce(b, input) + AsData(SendAll(b, StateAfter(b, input), init + [d]).1)
  {
    var fed := input + AsData(init);
    assert input + AsData(init + [d]) == fed + [Data(d)];
    TransduceMore<T, J, O, G>(b, fed, Data(d));
    assert (init + [d])[..|init + [d]| - 1] == init;
    var (s1, o1) := SendAll(b, StateAfter(b, input), init);
    var o2 := b.send(s1, d).1;
    assert Made<T, J, O, G>(b, StateAfter(b, fed), Data(d)) == o2;
    AsDataConcat<O, G>(o1, o2);
    Regroup<Message<O, G>>(Transduce(b, input), AsData(o1), AsData(o2), []);
  }

  /** What one more input message makes of the second routine's stream. */
  lemma ChainMore<S, T, I, J, O, G>(a: Machine<S, I, J>, b: Machine<T, J, O>, s: S, first: seq<Message<J, G>>,
      last: Message<I, G>)
    ensures var js := Made(a, s, last);
      && StateAfter(b, first + AsData(js) + Passed(last))
          == StateStep<(S, T), I, O, G>(Compose(a, b), (s, StateAfter(b, first)), last).1
      && Transduce<T, J, O, G>(b, first + AsData(js) + Passed(last))
           == Transduce(b, first) + AsData(Made(Compose(a, b), (s, StateAfter(b, first)), last)) + Passed(last)
  {
    var js := Made(a, s, last);
    var fed: seq<Message<J, G>> := first + AsData(js);
    TransduceData<T, J, O, G>(b, first, js);
    var (t, os) := SendAll(b, StateAfter(b, first), js);
    match last
    case Data(d) =>
      assert fed + Passed<I, J, G>(last) == fed;
    case Flush(g) =>
      TransduceMore<T, J, O, G>(b, fed, Flush(g));
      AsDataConcat<O, G>(os, b.flush(t).1);
      Regroup<Message<O, G>>(Transduce(b, first), AsData(os), AsData(b.flush(t).1), [Flush(g)]);
    case Marker(g) =>
      TransduceMore<T, J, O, G>(b, fed, Marker(g));
      assert js == [] && fed == first;
  }

  /** Chaining two lines composes their transductions. */
  lemma {:induction false} ChainComposes<S, T, I, J, O, G>(a: Machine<S, I, J>, b: Machine<T, J, O>,
      input: seq<Message<I, G>>)
    ensures StateAfter(Compose(a, b), input) == (StateAfter(a, input), StateAfter(b, Transduce<S, I, J, G>(a, input)))
    ensures Transduce<(S, T), I, O, G>(Compose(a, b), input)
        == Transduce<T, J, O, G>(b, Transduce<S, I, J, G>(a, input))
    decreases |input|
  {
    if input != [] {
      var before, last := input[..|input| - 1], input[|input| - 1];
      ChainComposes<S, T, I, J, O, G>(a, b, before);
      ChainMore<S, T, I, J, O, G>(a, b, StateAfter(a, before), Transduce(a, before), last);
    }
  }
}
