/** Values every part of the model shares: an optional value and the traffic of an edge. */
module Basics {

  datatype Option<+T> = None | Some(value: T)

  /** A unit of traffic. Flush and Marker are the signals; they pass nodes unchanged. */
  datatype Message<+D, +G> = Data(data: D) | Flush(signal: G) | Marker(signal: G) {
    predicate IsSignal() {
      !Data?
    }
  }

  /** The signals of a stream, in order. */
  function Signals<D, G>(s: seq<Message<D, G>>): seq<Message<D, G>> {
    if s == [] then [] else
      Signals(s[..|s| - 1]) + if s[|s| - 1].IsSignal() then [s[|s| - 1]] else []
  }

  /** Data wrapped as messages, in order. */
  function AsData<D, G>(s: seq<D>): (r: seq<Message<D, G>>)
    ensures |r| == |s|
  {
    seq(|s|, i requires 0 <= i < |s| => Message<D, G>.Data(s[i]))
  }

  lemma {:induction false} SignalsConcat<D, G>(a: seq<Message<D, G>>, b: seq<Message<D, G>>)
    ensures Signals(a + b) == Signals(a) + Signals(b)
    decreases |b|
  {
    if b == [] {
      assert a + b == a;
    } else {
      var k := |b| - 1;
      assert (a + b)[..|a + b| - 1] == a + b[..k];
      SignalsConcat(a, b[..k]);
    }
  }

  lemma {:induction false} SignalsOfData<D, G>(s: seq<Message<D, G>>)
    requires forall i :: 0 <= i < |s| ==> s[i].Data?
    ensures Signals(s) == []
    decreases |s|
  {
    if s != [] {
      SignalsOfData(s[..|s| - 1]);
    }
  }

  lemma SignalsOne<D, G>(m: Message<D, G>)
    ensures Signals([m]) == if m.IsSignal() then [m] else []
  {
    var s := [m];
    assert s[..|s| - 1] == [];
  }

  lemma AsDataConcat<D, G>(a: seq<D>, b: seq<D>)
    ensures AsData<D, G>(a + b) == AsData<D, G>(a) + AsData<D, G>(b)
  {
  }

  /** Moving the first of `rest` to the end of `done`. */
  lemma MoveOne<A>(done: seq<A>, rest: seq<A>)
    requires rest != []
    ensures (done + [rest[0]]) + rest[1..] == done + rest
  {
  }

  lemma Assoc<A>(a: seq<A>, b: seq<A>, c: seq<A>)
    ensures a + b + c == a + (b + c)
  {
  }

  /** No element twice. */
  ghost predicate Distinct<T>(s: seq<T>) {
    forall i, j :: 0 <= i < j < |s| ==> s[i] != s[j]
  }

  /** Distinct naturals below `n` are at most `n` many. */
  lemma {:induction false} DistinctBelow(s: seq<nat>, n: nat)
    requires Distinct(s)
    requires forall i :: 0 <= i < |s| ==> s[i] < n
    ensures |s| <= n
  {
    DistinctSize(s);
    SubsetSize(set i | 0 <= i < |s| :: s[i], Below(n));
  }

  /** The naturals below `n`. */
  ghost function Below(n: nat): (r: set<nat>)
    ensures |r| == n
    ensures forall i: nat :: i in r <==> i < n
  {
    if n == 0 then {} else Below(n - 1) + {n - 1}
  }

  lemma {:induction false} DistinctSize<T>(s: seq<T>)
    requires Distinct(s)
    ensures |set i | 0 <= i < |s| :: s[i]| == |s|
    decreases |s|
  {
    if s != [] {
      var p := s[..|s| - 1];
      DistinctSize(p);
      assert (set i | 0 <= i < |s| :: s[i]) == (set i | 0 <= i < |p| :: p[i]) + {s[|s| - 1]};
    }
  }

  lemma {:induction false} SubsetSize<T>(a: set<T>, b: set<T>)
    requires a <= b
    ensures |a| <= |b|
  {
    if a != {} {
      var x :| x in a;
      SubsetSize(a - {x}, b - {x});
    }
  }
}
