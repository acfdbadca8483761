/**
  The biunion work node (src/node/biunion/work/node.rs): two inputs, one fan-out. When a message
  arrives and how the edges answer are arbitrary.
  */
module MergeNode {
  import opened Basics
  import opened Transducer
  import opened Fanout
  import opened WorkNodes

  datatype Either<L, R> = OfLeft(left: L) | OfRight(right: R)

  /** A message taken, with the side it came from. */
  datatype From<L, R, G> = FromLeft(l: Message<L, G>) | FromRight(r: Message<R, G>)

  /** What the routine sees of it. */
  function Untag<L, R, G>(f: From<L, R, G>): Message<Either<L, R>, G> {
    match f
    case FromLeft(Data(d)) => Data(OfLeft(d))
    case FromRight(Data(d)) => Data(OfRight(d))
    case FromLeft(Flush(g)) => Flush(g)
    case FromRight(Flush(g)) => Flush(g)
    case FromLeft(Marker(g)) => Marker(g)
    case FromRight(Marker(g)) => Marker(g)
  }

  function Untagged<L, R, G>(merged: seq<From<L, R, G>>): (r: seq<Message<Either<L, R>, G>>)
    ensures |r| == |merged|
  {
    seq(|merged|, i requires 0 <= i < |merged| => Untag(merged[i]))
  }

  function Lefts<L, R, G>(merged: seq<From<L, R, G>>): seq<Message<L, G>> {
    if merged == [] then [] else
      var last := merged[|merged| - 1];
      Lefts(merged[..|merged| - 1]) + if last.FromLeft? then [last.l] else []
  }

  function Rights<L, R, G>(merged: seq<From<L, R, G>>): seq<Message<R, G>> {
    if merged == [] then [] else
      var last := merged[|merged| - 1];
      Rights(merged[..|merged| - 1]) + if last.FromRight? then [last.r] else []
  }

  lemma MergeMore<L, R, G>(merged: seq<From<L, R, G>>, f: From<L, R, G>)
    ensures Lefts(merged + [f]) == Lefts(merged) + if f.FromLeft? then [f.l] else []
    ensures Rights(merged + [f]) == Rights(merged) + if f.FromRight? then [f.r] else []
    ensures Untagged(merged + [f]) == Untagged(merged) + [Untag(f)]
  {
    assert (merged + [f])[..|merged + [f]| - 1] == merged;
  }

  /** A poll: what an edge shows, if it shows anything yet. */
  datatype Seen<M> = Nothing | Taken(message: M) | Ended

  function Look<M>(stream: seq<M>, shows: bool): Seen<M> {
    if !shows then Nothing else if stream == [] then Ended else Taken(stream[0])
  }

  /** What a row of polls takes: one message each, left before right. */
  function TakenOver<L, R, G>(lefts: seq<Message<L, G>>, rights: seq<Message<R, G>>,
      polls: seq<(bool, bool)>): seq<From<L, R, G>>
    decreases |polls|
  {
    if polls == [] then []
    else if Look(lefts, polls[0].0).Taken? then [FromLeft(lefts[0])] + TakenOver(lefts[1..], rights, polls[1..])
    else if Look(rights, polls[0].1).Taken? then [FromRight(rights[0])] + TakenOver(lefts, rights[1..], polls[1..])
    else TakenOver(lefts, rights, polls[1..])
  }

  lemma TakenFirst<L, R, G>(merged: seq<From<L, R, G>>, lefts: seq<Message<L, G>>, rights: seq<Message<R, G>>,
      polls: seq<(bool, bool)>)
    requires polls != []
    ensures merged + TakenOver(lefts, rights, polls) ==
            if Look(lefts, polls[0].0).Taken?
                then (merged + [FromLeft(lefts[0])]) + TakenOver(lefts[1..], rights, polls[1..])
            else if Look(rights, polls[0].1).Taken?
                then (merged + [FromRight(rights[0])]) + TakenOver(lefts, rights[1..], polls[1..])
            else merged + TakenOver(lefts, rights, polls[1..])
  {
    if Look(lefts, polls[0].0).Taken? {
      Assoc(merged, [FromLeft(lefts[0])], TakenOver(lefts[1..], rights, polls[1..]));
    } else if Look(rights, polls[0].1).Taken? {
      Assoc(merged, [FromRight(rights[0])], TakenOver(lefts, rights[1..], polls[1..]));
    }
  }

  class Biunion<S, L, R, O, G> {
    const routine: Machine<S, Either<L, R>, O>
    const out: Side<O, G>
    var state: S
    /** What the inputs still yield; then they are closed. */
    var lefts: seq<Message<L, G>>
    var rights: seq<Message<R, G>>
    ghost var merged: seq<From<L, R, G>>

    ghost predicate Valid()
      reads this, out
    {
      Owing() && out.Valid()
    }

    /** An edge errored. */
    ghost predicate Broken()
      reads this, out
    {
      Owing() && out.Broken()
    }

    /** The output owes exactly the transduction of the merge taken. */
    ghost predicate Owing()
      reads this, out
    {
      && state == StateAfter(routine, Untagged(merged))
      && out.Owed() == Transduce(routine, Untagged(merged))
    }

    /** Each input is taken in order, nothing lost. */
    ghost predicate Splits(wholeLeft: seq<Message<L, G>>, wholeRight: seq<Message<R, G>>)
      reads this
    {
      Lefts(merged) + lefts == wholeLeft && Rights(merged) + rights == wholeRight
    }

    constructor (routine: Machine<S, Either<L, R>, O>, lefts: seq<Message<L, G>>, rights: seq<Message<R, G>>,
        edges: nat)
      ensures Valid() && Splits(lefts, rights) && merged == [] && fresh(out)
      ensures this.routine == routine && |out.fan.edges| == edges
    {
      this.routine := routine;
      this.lefts, this.rights := lefts, rights;
      state, merged := routine.start, [];
      out := new Side<O, G>(edges);
    }

    method Consume(message: Message<Either<L, R>, G>) returns (made: seq<O>)
      modifies `state
      ensures state == StateStep(routine, old(state), message) && made == Made(routine, old(state), message)
    {
      match message {
        case Data(d) =>
          var t := routine.send(state, d);
          state, made := t.0, t.1;
        case Flush(g) =>
          var t := routine.flush(state);
          state, made := t.0, t.1;
        case Marker(g) =>
          made := [];
      }
    }

    /** A datum feeds the routine; a signal stays behind what the routine made so far. */
    method Accept(f: From<L, R, G>)
      requires Valid() && out.Idle()
      modifies `state, `merged, out
      ensures Valid() && merged == old(merged) + [f]
      ensures out.fan == old(out.fan) && out.pushed == old(out.pushed)
    {
      MergeMore(merged, f);
      TransduceMore<S, Either<L, R>, O, G>(routine, Untagged(merged), Untag(f));
      var made := Consume(Untag(f));
      out.Accept(made, Passed(Untag(f)));
      merged := merged + [f];
    }

    /** Takes the next message of a side, left before right. */
    method Poll(shows: (bool, bool), ghost wholeLeft: seq<Message<L, G>>, ghost wholeRight: seq<Message<R, G>>)
      returns (took: bool, closed: bool)
      requires Valid() && out.Idle() && Splits(wholeLeft, wholeRight)
      modifies this, out
      ensures Valid() && Splits(wholeLeft, wholeRight)
      ensures out.fan == old(out.fan) && out.pushed == old(out.pushed)
      ensures took <==> Look(old(lefts), shows.0).Taken? || Look(old(rights), shows.1).Taken?
      ensures took ==>
                merged == old(merged) + [
                  if Look(old(lefts), shows.0).Taken? then FromLeft(old(lefts)[0]) else FromRight(old(rights)[0])]
      ensures Look(old(lefts), shows.0).Taken? ==> lefts == old(lefts)[1..] && rights == old(rights)
      ensures took && !Look(old(lefts), shows.0).Taken? ==> lefts == old(lefts) && rights == old(rights)[1..]
      ensures !took ==> merged == old(merged) && out.Idle() && lefts == old(lefts) && rights == old(rights)
      ensures closed <==> !took && shows.0 && shows.1
      ensures closed ==> lefts == [] && rights == []
    {
      var leftClosed, rightClosed := false, false;
      match Look(lefts, shows.0) {
        case Taken(message) =>
          Onward(FromLeft(message));
          Accept(FromLeft(message));
          lefts := lefts[1..];
          return true, false;
        case Nothing =>
        case Ended =>
          leftClosed := true;
      }
      match Look(rights, shows.1) {
        case Taken(message) =>
          Onward(FromRight(message));
          Accept(FromRight(message));
          rights := rights[1..];
          return true, false;
        case Nothing =>
        case Ended =>
          rightClosed := true;
      }
      return false, leftClosed && rightClosed;
    }

    lemma Onward(f: From<L, R, G>)
      requires f.FromLeft? ==> lefts != [] && f.l == lefts[0]
      requires f.FromRight? ==> rights != [] && f.r == rights[0]
      ensures Lefts(merged + [f]) + (if f.FromLeft? then lefts[1..] else lefts) == Lefts(merged) + lefts
      ensures Rights(merged + [f]) + (if f.FromRight? then rights[1..] else rights) == Rights(merged) + rights
    {
      MergeMore(merged, f);
      if f.FromLeft? {
        MoveOne(Lefts(merged), lefts);
      } else {
        MoveOne(Rights(merged), rights);
      }
    }

    /** The poll at `i`, and what the row of polls still takes. */
    method PollAt(polls: seq<(bool, bool)>, i: nat, ghost wholeLeft: seq<Message<L, G>>,
        ghost wholeRight: seq<Message<R, G>>, ghost all: seq<From<L, R, G>>)
      returns (closed: bool)
      requires Valid() && out.Idle() && Splits(wholeLeft, wholeRight)
      requires i < |polls| && merged + TakenOver(lefts, rights, polls[i..]) == all
      modifies this, out
      ensures Valid() && Splits(wholeLeft, wholeRight)
      ensures out.fan == old(out.fan) && out.pushed == old(out.pushed)
      ensures old(merged) <= merged && merged + TakenOver(lefts, rights, polls[i + 1..]) == all
      ensures closed ==> lefts == [] && rights == [] && out.Idle()
    {
      TakenFirst(merged, lefts, rights, polls[i..]);
      assert polls[i..][1..] == polls[i + 1..];
      var took;
      took, closed := Poll(polls[i], wholeLeft, wholeRight);
    }

    /** One call: at most one message out, and input only while nothing is held. */
    method Work(answers: seq<Answer>, polls: seq<(bool, bool)>, ghost wholeLeft: seq<Message<L, G>>,
        ghost wholeRight: seq<Message<R, G>>)
      returns (outcome: Outcome)
      requires Valid() && |answers| == |out.fan.edges| && Splits(wholeLeft, wholeRight)
      modifies this, out
      ensures if outcome.Errored? then Broken() else Valid()
      ensures Splits(wholeLeft, wholeRight) && |out.fan.edges| == |answers|
      ensures !old(out.Idle()) ==> merged == old(merged)
      ensures out.Grew(old(out.pushed))
      ensures old(merged) <= merged <= old(merged) + TakenOver(old(lefts), old(rights), polls)
      ensures outcome.Waiting? ==> merged == old(merged) + TakenOver(old(lefts), old(rights), polls)
      ensures outcome.Moved? ==> out.Moved(old(out.fan), old(out.pushed), answers)
      ensures outcome.Closed? ==> lefts == [] && rights == []
      ensures outcome.Closed? || outcome.Waiting? ==> out.Idle()
      ensures AllTake(answers) ==> !outcome.Errored? && out.fan.suspended.None?
    {
      ghost var idle := out.Idle();
      ghost var all := merged + TakenOver(lefts, rights, polls);
      var i := 0;
      while true
        invariant 0 <= i <= |polls|
        invariant Valid() && Splits(wholeLeft, wholeRight) && |out.fan.edges| == |answers|
        invariant out.pushed == old(out.pushed) && out.fan == old(out.fan) && old(merged) <= merged
        invariant merged + TakenOver(lefts, rights, polls[i..]) == all
        invariant !idle ==> merged == old(merged) && !out.Idle()
        decreases |polls| - i
      {
        var part := out.Round(answers);
        match part {
          case Busy => return Moved;
          case Torn => return Errored;
          case Quiet =>
        }
        if i == |polls| {
          return Waiting;
        }
        var closed := PollAt(polls, i, wholeLeft, wholeRight, all);
        if closed {
          return Closed;
        }
        i := i + 1;
      }
    }

    lemma Reached(end: bool)
      requires (Valid() || Broken()) && (end ==> Valid() && out.Idle())
      ensures Reaches(out.fan, Transduce(routine, Untagged(merged)), end)
    {
      out.Delivered(Transduce(routine, Untagged(merged)), end);
    }

    /** Any calls: the merge taken splits into prefixes of the two inputs, and every edge has a
        prefix of its transduction; once closed, the inputs and all of it. */
    method Run(calls: seq<(seq<Answer>, seq<(bool, bool)>)>) returns (outcome: Outcome)
      requires Valid()
      requires forall i :: 0 <= i < |calls| ==> |calls[i].0| == |out.fan.edges|
      modifies this, out
      ensures if outcome.Errored? then Broken() else Valid()
      ensures Splits(old(Lefts(merged) + lefts), old(Rights(merged) + rights)) && old(merged) <= merged
      ensures Reaches(out.fan, Transduce(routine, Untagged(merged)), outcome.Closed?)
      ensures outcome.Closed? ==>
          Lefts(merged) == old(Lefts(merged) + lefts) && Rights(merged) == old(Rights(merged) + rights)
    {
      ghost var wholeLeft, wholeRight := Lefts(merged) + lefts, Rights(merged) + rights;
      outcome := Waiting;
      var i := 0;
      while i < |calls| && !outcome.Closed? && !outcome.Errored?
        invariant 0 <= i <= |calls| && Splits(wholeLeft, wholeRight) && old(merged) <= merged
        invariant if outcome.Errored? then Broken() else Valid()
        invariant |out.fan.edges| == |old(out.fan.edges)|
        invariant outcome.Closed? ==> out.Idle() && lefts == [] && rights == []
      {
        outcome := Work(calls[i].0, calls[i].1, wholeLeft, wholeRight);
        i := i + 1;
      }
      Reached(outcome.Closed?);
    }
  }
}
