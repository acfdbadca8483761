/** The edge that lets a signal pass only right behind data (src/edge/policy.rs). */
module FollowData {
  import opened Basics
  import opened Fanout

  /** Whether the last message of `s` is data; `before` says so of what came before `s`. */
  function LastIsData<D, G>(s: seq<Message<D, G>>, before: bool): bool {
    if s == [] then before else s[|s| - 1].Data?
  }

  function Passes<D, G>(m: Message<D, G>, lastWasData: bool): bool {
    m.Data? || lastWasData
  }

  /** The filter, message by message. */
  function Filtered<D, G>(s: seq<Message<D, G>>, before: bool): seq<Message<D, G>> {
    if s == [] then []
    else (if Passes(s[0], before) then [s[0]] else []) + Filtered(s[1..], s[0].Data?)
  }

  lemma {:induction false} FilteredConcat<D, G>(a: seq<Message<D, G>>, b: seq<Message<D, G>>, before: bool)
    ensures Filtered(a + b, before) == Filtered(a, before) + Filtered(b, LastIsData(a, before))
    decreases |a|
  {
    if a == [] {
      assert a + b == b;
    } else {
      assert (a + b)[1..] == a[1..] + b;
      FilteredConcat(a[1..], b, a[0].Data?);
    }
  }

  /** A message passes by what came right before it alone. */
  lemma FilteredMore<D, G>(s: seq<Message<D, G>>, m: Message<D, G>)
    ensures Filtered(s + [m], false)
         == Filtered(s, false) + if m.Data? || (s != [] && s[|s| - 1].Data?) then [m] else []
  {
    FilteredConcat(s, [m], false);
  }

  /** No signal first, and none right behind another. */
  ghost predicate EachBehindData<D, G>(s: seq<Message<D, G>>, before: bool) {
    forall i :: 0 <= i < |s| && s[i].IsSignal() ==> LastIsData(s[..i], before)
  }

  function DataOf<D, G>(s: seq<Message<D, G>>): seq<D> {
    if s == [] then [] else (if s[0].Data? then [s[0].data] else []) + DataOf(s[1..])
  }

  lemma BehindDataCons<D, G>(m: Message<D, G>, rest: seq<Message<D, G>>, before: bool)
    ensures EachBehindData([m] + rest, before) <==> Passes(m, before) && EachBehindData(rest, m.Data?)
  {
    var s := [m] + rest;
    forall i: nat | i < |rest| ensures s[i + 1] == rest[i]
        && LastIsData(s[..i + 1], before) == LastIsData(rest[..i], m.Data?) {
      assert s[..i + 1] == [m] + rest[..i];
    }
    assert s[..0] == [];
    if EachBehindData(s, before) {
      forall i | 0 <= i < |rest| && rest[i].IsSignal() ensures LastIsData(rest[..i], m.Data?) {
        assert s[i + 1].IsSignal();
      }
    }
    if Passes(m, before) && EachBehindData(rest, m.Data?) {
      forall i | 0 <= i < |s| && s[i].IsSignal() ensures LastIsData(s[..i], before) {
        if i > 0 {
          assert rest[i - 1].IsSignal();
        }
      }
    }
  }

  lemma {:induction false} Behaves<D, G>(s: seq<Message<D, G>>, before: bool)
    ensures EachBehindData(Filtered(s, before), before)
    ensures DataOf(Filtered(s, before)) == DataOf(s)
    decreases |s|
  {
    if s != [] {
      var rest := Filtered(s[1..], s[0].Data?);
      Behaves(s[1..], s[0].Data?);
      if Passes(s[0], before) {
        BehindDataCons(s[0], rest, before);
        assert ([s[0]] + rest)[1..] == rest;
      } else {
        assert Filtered(s, before) == rest;
      }
    }
  }

  /** The filter leaves a stream as it is exactly when every signal is right behind data. */
  lemma {:induction false} FixedExactly<D, G>(s: seq<Message<D, G>>, before: bool)
    ensures Filtered(s, before) == s <==> EachBehindData(s, before)
    ensures |Filtered(s, before)| <= |s|
    decreases |s|
  {
    if s != [] {
      var rest := Filtered(s[1..], s[0].Data?);
      FixedExactly(s[1..], s[0].Data?);
      assert s == [s[0]] + s[1..];
      BehindDataCons(s[0], s[1..], before);
      if Passes(s[0], before) {
        assert Filtered(s, before)[1..] == rest;
      }
    }
  }

  lemma FilterTwice<D, G>(s: seq<Message<D, G>>)
    ensures Filtered(Filtered(s, false), false) == Filtered(s, false)
  {
    Behaves(s, false);
    FixedExactly(Filtered(s, false), false);
  }

  /** The wrapper. `inner` is what the inner sink took; `consumed` the messages offered and not
      handed back; `passed` those of them given to the sink, where an error loses one. */
  class FollowEdge<D, G> {
    var inner: seq<Message<D, G>>
    var lastWasData: bool
    ghost var consumed: seq<Message<D, G>>
    ghost var passed: seq<Message<D, G>>
    ghost var errors: nat

    ghost predicate Valid()
      reads this
    {
      && lastWasData == LastIsData(consumed, false) && passed == Filtered(consumed, false)
      && |inner| + errors == |passed| && (errors == 0 ==> inner == passed)
    }

    constructor ()
      ensures Valid() && inner == [] && consumed == [] && errors == 0
    {
      inner, lastWasData, consumed, passed, errors := [], false, [], [], 0;
    }

    /** Whether `m` passes, advancing the follow state. */
    method Judge(m: Message<D, G>) returns (passes: bool)
      modifies `lastWasData
      ensures passes == Passes(m, old(lastWasData)) && lastWasData == m.Data?
    {
      passes := m.Data? || lastWasData;
      lastWasData := m.Data?;
    }

    /** `fails`: whether the inner sink errors, if it is asked. */
    method Push(m: Message<D, G>, fails: bool) returns (ok: bool)
      requires Valid()
      modifies this
      ensures Valid() && consumed == old(consumed) + [m]
      ensures ok <==> !(fails && Passes(m, LastIsData(old(consumed), false)))
      ensures errors == old(errors) + if ok then 0 else 1
    {
      FilteredMore(consumed, m);
      consumed := consumed + [m];
      var passes := Judge(m);
      if passes {
        passed := passed + [m];
        if fails {
          errors := errors + 1;
          return false;
        }
        inner := inner + [m];
      }
      ok := true;
    }

    /** A refused message comes back and leaves no trace; a dropped signal counts as pushed,
        whatever the inner sink would answer; an error loses the message, judged as if it passed. */
    method TryPush(m: Message<D, G>, sink: Answer) returns (answer: Answer)
      requires Valid()
      modifies this
      ensures Valid() && consumed == old(consumed) + if answer.Refuses() then [] else [m]
      ensures answer == if Passes(m, LastIsData(old(consumed), false)) then sink else Pushed
      ensures answer.Refuses() ==> inner == old(inner) && lastWasData == old(lastWasData)
      ensures errors == old(errors) + if answer.Failed? then 1 else 0
    {
      FilteredMore(consumed, m);
      var before := lastWasData;
      var passes := Judge(m);
      if !passes {
        consumed := consumed + [m];
        return Pushed;
      }
      match sink {
        case Pushed =>
          inner := inner + [m];
          consumed, passed := consumed + [m], passed + [m];
        case Failed =>
          errors := errors + 1;
          consumed, passed := consumed + [m], passed + [m];
        case _ =>
          lastWasData := before;
      }
      answer := sink;
    }

    /** A caller that re-offers what came back: after any refusals, the inner sink has exactly the
        filter of what was offered before and a prefix of the stream, all of it unless the answers
        ran out. An error ends the offering. */
    method OfferAll(stream: seq<Message<D, G>>, sinks: seq<Answer>) returns (taken: nat, ok: bool)
      requires Valid() && errors == 0
      modifies this
      ensures Valid() && taken <= |stream| && (ok <==> errors == 0)
      ensures ok ==> consumed == old(consumed) + stream[..taken] && inner == Filtered(consumed, false)
      ensures ok ==> taken == |stream| || taken + Refusals(sinks) >= |sinks|
      ensures !ok ==> taken < |stream| && consumed == old(consumed) + stream[..taken + 1]
      ensures !ok ==> |inner| + 1 == |Filtered(consumed, false)|
    {
      taken, ok := 0, true;
      var i := 0;
      while taken < |stream| && i < |sinks|
        invariant Valid() && errors == 0
        invariant taken <= |stream| && i <= |sinks| && consumed == old(consumed) + stream[..taken]
        invariant taken + Refusals(sinks[..i]) >= i
        decreases |sinks| - i
      {
        assert old(consumed) + stream[..taken + 1] == consumed + [stream[taken]];
        assert sinks[..i + 1][..i] == sinks[..i];
        var answer := TryPush(stream[taken], sinks[i]);
        if answer.Failed? {
          return taken, false;
        }
        if answer.Pushed? {
          taken := taken + 1;
        }
        i := i + 1;
      }
      assert sinks[..|sinks|] == sinks;
    }
  }

  function Refusals(sinks: seq<Answer>): nat {
    if sinks == [] then 0 else Refusals(sinks[..|sinks| - 1]) + if sinks[|sinks| - 1].Refuses() then 1 else 0
  }
}
