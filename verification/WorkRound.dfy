/** One fair round over the parents of a node (src/work/work_each.rs). */
module WorkRound {
  type Id = nat

  datatype Outcome = Ok | Closed | Failed

  /** Those that did not close, in the order worked. */
  function Kept(worked: seq<Id>, outcome: Id -> Outcome): seq<Id> {
    if worked == [] then [] else
      var last := worked[|worked| - 1];
      Kept(worked[..|worked| - 1], outcome) + if outcome(last).Ok? then [last] else []
  }

  function Rotated(s: seq<Id>): seq<Id> {
    if |s| > 1 then s[1..] + [s[0]] else s
  }

  lemma KeptMore(worked: seq<Id>, w: Id, outcome: Id -> Outcome)
    ensures Kept(worked + [w], outcome) == Kept(worked, outcome) + if outcome(w).Ok? then [w] else []
  {
    assert (worked + [w])[..|worked + [w]| - 1] == worked;
  }

  /** Kept once as often as worked, if it did not close. */
  lemma {:induction false} KeptCounts(worked: seq<Id>, outcome: Id -> Outcome, w: Id)
    ensures multiset(Kept(worked, outcome))[w] == if outcome(w).Ok? then multiset(worked)[w] else 0
    decreases |worked|
  {
    if worked != [] {
      var k := |worked| - 1;
      KeptCounts(worked[..k], outcome, w);
      assert worked == worked[..k] + [worked[k]];
    }
  }

  /** Removing by moving the last into the gap. */
  function SwapRemoved(list: seq<Id>, i: nat): seq<Id>
    requires i < |list|
  {
    list[i := list[|list| - 1]][..|list| - 1]
  }

  /** Where a round over `before` stands: `worked` so far, `i` the next index of what is left. */
  ghost predicate Midway(before: seq<Id>, worked: seq<Id>, list: seq<Id>, i: nat, outcome: Id -> Outcome) {
    && i <= |list|
    && multiset(worked + list[i..]) == multiset(before)
    && list[..i] == Kept(worked, outcome)
    && (forall k :: 0 <= k < |worked| ==> !outcome(worked[k]).Failed?)
  }

  lemma Onward(before: seq<Id>, worked: seq<Id>, list: seq<Id>, i: nat, outcome: Id -> Outcome)
    requires Midway(before, worked, list, i, outcome) && i < |list| && outcome(list[i]).Ok?
    ensures Midway(before, worked + [list[i]], list, i + 1, outcome)
  {
    KeptMore(worked, list[i], outcome);
    assert list[..i + 1] == list[..i] + [list[i]];
    Slide(worked, list, i);
  }

  lemma Slide(worked: seq<Id>, list: seq<Id>, i: nat)
    requires i < |list|
    ensures worked + [list[i]] + list[i + 1..] == worked + list[i..]
  {
  }

  lemma SwapKeeps(list: seq<Id>, i: nat)
    requires i < |list|
    ensures SwapRemoved(list, i)[..i] == list[..i]
    ensures multiset([list[i]] + SwapRemoved(list, i)[i..]) == multiset(list[i..])
  {
    var n, s := |list| - 1, SwapRemoved(list, i);
    if i < n {
      assert s[i..] == [list[n]] + list[i + 1..n];
      assert list[i..] == [list[i]] + (list[i + 1..n] + [list[n]]);
    } else {
      assert [list[i]] + s[i..] == list[i..];
    }
  }

  lemma SamePile(a: seq<Id>, w: Id, b: seq<Id>, c: seq<Id>)
    requires multiset([w] + b) == multiset(c)
    ensures multiset(a + [w] + b) == multiset(a + c)
  {
    assert a + [w] + b == a + ([w] + b);
  }

  lemma Without(before: seq<Id>, worked: seq<Id>, list: seq<Id>, i: nat, outcome: Id -> Outcome)
    requires Midway(before, worked, list, i, outcome) && i < |list| && outcome(list[i]).Closed?
    ensures Midway(before, worked + [list[i]], SwapRemoved(list, i), i, outcome)
  {
    KeptMore(worked, list[i], outcome);
    SwapKeeps(list, i);
    SamePile(worked, list[i], SwapRemoved(list, i)[i..], list[i..]);
  }

  /** How a round ended: what was worked, in order, and the list it leaves. */
  datatype Round = Round(ok: bool, worked: seq<Id>, list: seq<Id>)

  /** The rest of a round, from index `i` on. */
  function Rest(worked: seq<Id>, list: seq<Id>, i: nat, outcome: Id -> Outcome): Round
    requires i <= |list|
    decreases |list| - i
  {
    if i == |list| then Round(true, worked, Rotated(list))
    else
      match outcome(list[i])
      case Ok => Rest(worked + [list[i]], list, i + 1, outcome)
      case Closed => Rest(worked + [list[i]], SwapRemoved(list, i), i, outcome)
      case Failed => Round(false, worked + [list[i]], list)
  }

  /** A whole round. */
  function RoundOver(list: seq<Id>, outcome: Id -> Outcome): Round {
    Rest([], list, 0, outcome)
  }

  /** A round ends midway exactly when one fails other than by closing, right at that one. */
  lemma {:induction false} RestEnds(before: seq<Id>, worked: seq<Id>, list: seq<Id>, i: nat, outcome: Id -> Outcome)
    requires Midway(before, worked, list, i, outcome)
    ensures var r := Rest(worked, list, i, outcome);
      if r.ok then multiset(r.worked) == multiset(before) && r.list == Rotated(Kept(r.worked, outcome))
      else EndedEarly(before, r, outcome)
    ensures Rest(worked, list, i, outcome).ok ==> forall w :: w in before ==> !outcome(w).Failed?
    decreases |list| - i
  {
    if i == |list| {
      Ends(before, worked, list, outcome);
    } else {
      match outcome(list[i])
      case Ok =>
        Onward(before, worked, list, i, outcome);
        RestEnds(before, worked + [list[i]], list, i + 1, outcome);
      case Closed =>
        Without(before, worked, list, i, outcome);
        RestEnds(before, worked + [list[i]], SwapRemoved(list, i), i, outcome);
      case Failed =>
        assert (worked + [list[i]])[..|worked|] == worked;
    }
  }

  /** The last one worked failed; up to it, nothing is lost or worked twice. */
  ghost predicate EndedEarly(before: seq<Id>, r: Round, outcome: Id -> Outcome) {
    && r.worked != []
    && var done, i := r.worked[..|r.worked| - 1], |Kept(r.worked[..|r.worked| - 1], outcome)|;
    && Midway(before, done, r.list, i, outcome)
    && i < |r.list| && r.list[i] == r.worked[|r.worked| - 1] && outcome(r.list[i]).Failed?
  }

  /** A round worked to the end. */
  lemma Ends(before: seq<Id>, worked: seq<Id>, list: seq<Id>, outcome: Id -> Outcome)
    requires Midway(before, worked, list, |list|, outcome)
    ensures multiset(worked) == multiset(before) && list == Kept(worked, outcome)
    ensures forall w :: w in before ==> !outcome(w).Failed?
  {
    assert list[..|list|] == list && worked + list[|list|..] == worked;
    forall w | w in before ensures !outcome(w).Failed? {
      assert w in multiset(before);
      assert w in worked;
    }
  }

  /** A round without failures works everyone once, and leaves, turned by one, exactly those that
      did not close. */
  lemma WorksEachOnce(list: seq<Id>, outcome: Id -> Outcome)
    requires forall w :: w in list ==> !outcome(w).Failed?
    ensures var r := RoundOver(list, outcome);
      && r.ok && multiset(r.worked) == multiset(list)
      && r.list == Rotated(Kept(r.worked, outcome))
      && forall w :: multiset(r.list)[w] == if outcome(w).Closed? then 0 else multiset(list)[w]
  {
    var r := RoundOver(list, outcome);
    assert [] + list[0..] == list;
    RestEnds(list, [], list, 0, outcome);
    if !r.ok {
      FailedIsListed(list, r, outcome);
    }
    forall w: Id ensures multiset(r.list)[w] == if outcome(w).Closed? then 0 else multiset(list)[w] {
      LeftAfter(list, r.worked, outcome, w);
    }
  }

  /** A failure ends the round: what closed before it is gone, everything else is still listed. */
  lemma FailureKeepsRest(list: seq<Id>, outcome: Id -> Outcome, w: Id)
    requires exists f :: f in list && outcome(f).Failed?
    ensures var r := RoundOver(list, outcome);
      && !r.ok && r.worked != [] && outcome(r.worked[|r.worked| - 1]).Failed?
      && multiset(r.worked)[w] <= multiset(list)[w]
      && multiset(r.list)[w] == multiset(list)[w] - if outcome(w).Closed? then multiset(r.worked)[w] else 0
  {
    var r := RoundOver(list, outcome);
    assert [] + list[0..] == list;
    RestEnds(list, [], list, 0, outcome);
    var done := r.worked[..|r.worked| - 1];
    var i := |Kept(done, outcome)|;
    assert r.worked == done + [r.list[i]];
    EndsEarly(list, done, r.list, i, outcome, w);
  }

  lemma FailedIsListed(before: seq<Id>, r: Round, outcome: Id -> Outcome)
    requires EndedEarly(before, r, outcome)
    ensures exists f :: f in before && outcome(f).Failed?
  {
    var done := r.worked[..|r.worked| - 1];
    EndsEarly(before, done, r.list, |Kept(done, outcome)|, outcome, 0);
  }

  /** One that fails, at `list[i]`. */
  lemma EndsEarly(before: seq<Id>, worked: seq<Id>, list: seq<Id>, i: nat, outcome: Id -> Outcome, w: Id)
    requires Midway(before, worked, list, i, outcome) && i < |list| && outcome(list[i]).Failed?
    ensures list[i] in before && multiset(worked + [list[i]])[w] <= multiset(before)[w]
    ensures multiset(list)[w] == multiset(before)[w] - if outcome(w).Closed? then multiset(worked + [list[i]])[w] else 0
  {
    assert list == list[..i] + list[i..];
    assert worked + list[i..] == (worked + [list[i]]) + list[i + 1..];
    assert list[i] in multiset(before);
    KeptCounts(worked, outcome, w);
    if multiset(worked)[w] > 0 {
      assert w in worked;
    }
  }

  lemma {:induction false} AllStay(worked: seq<Id>, list: seq<Id>, i: nat, outcome: Id -> Outcome)
    requires i <= |list| && forall w :: w in list ==> outcome(w).Ok?
    ensures Rest(worked, list, i, outcome) == Round(true, worked + list[i..], Rotated(list))
    decreases |list| - i
  {
    if i < |list| {
      AllStay(worked + [list[i]], list, i + 1, outcome);
      assert worked + [list[i]] + list[i + 1..] == worked + list[i..];
    } else {
      assert worked + list[i..] == worked;
    }
  }

  lemma RotatedSame(s: seq<Id>)
    ensures multiset(Rotated(s)) == multiset(s)
  {
    if |s| > 1 {
      assert s == [s[0]] + s[1..];
    }
  }

  /** What is left after a round is what did not close, as often as before. */
  lemma LeftAfter(before: seq<Id>, worked: seq<Id>, outcome: Id -> Outcome, w: Id)
    requires multiset(worked) == multiset(before) && forall w :: w in before ==> !outcome(w).Failed?
    ensures multiset(Rotated(Kept(worked, outcome)))[w] == if outcome(w).Closed? then 0 else multiset(before)[w]
  {
    KeptCounts(worked, outcome, w);
    RotatedSame(Kept(worked, outcome));
    if multiset(before)[w] > 0 {
      assert w in before;
    }
  }

  class Workables {
    var list: seq<Id>

    constructor (list: seq<Id>)
      ensures this.list == list
    {
      this.list := list;
    }

    /** Works each once and drops those that closed; another failure ends the round at once.
        `outcome` is what each one's work reports. */
    method WorkEach(outcome: Id -> Outcome) returns (ok: bool, worked: seq<Id>)
      modifies this
      ensures Round(ok, worked, list) == RoundOver(old(list), outcome)
    {
      worked := [];
      var i := 0;
      while i < |list|
        invariant i <= |list| && Rest(worked, list, i, outcome) == RoundOver(old(list), outcome)
        decreases |list| - i
      {
        worked := worked + [list[i]];
        match outcome(list[i]) {
          case Ok =>
            i := i + 1;
          case Closed =>
            list := list[i := list[|list| - 1]][..|list| - 1];
          case Failed =>
            return false, worked;
        }
      }
      if |list| > 1 {
        list := list[1..] + [list[0]];
      }
      ok := true;
    }

    /** With no closings, as many rounds as there are workables start with each of them once. */
    method Rounds(outcome: Id -> Outcome) returns (starts: seq<Id>)
      requires forall w :: w in list ==> outcome(w).Ok?
      modifies this
      ensures starts == old(list) && list == old(list)
    {
      starts := [];
      var j, n := 0, |list|;
      while j < n
        invariant 0 <= j <= n == |old(list)|
        invariant list == old(list)[j..] + old(list)[..j]
        invariant starts == old(list)[..j]
      {
        TurnedSame(old(list), j);
        AllStay([], list, 0, outcome);
        assert [] + list[0..] == list;
        var ok, worked := WorkEach(outcome);
        starts := starts + [worked[0]];
        j := j + 1;
      }
    }
  }

  /** Turning by one more. */
  lemma TurnedSame(s: seq<Id>, j: nat)
    requires j < |s|
    ensures var t := s[j..] + s[..j];
      && t != [] && t[0] == s[j] && s[..j + 1] == s[..j] + [s[j]]
      && Rotated(t) == s[j + 1..] + s[..j + 1]
      && forall w :: w in t ==> w in s
  {
    var t := s[j..] + s[..j];
    assert s[j..] == [s[j]] + s[j + 1..];
    assert t[1..] == s[j + 1..] + s[..j];
  }
}
