/**
  The consumer and its arena as objects, run by the poll thread alone: what the in-place loops and
  link writes compute. Interleavings with other threads are the subject of `Scheduler`.
  */
module Consumer {
  import opened Basics
  import opened Scheduler

  /** One push onto the simple scheduler: past the graph it is dropped, queued it coalesces. */
  function PushOnto(v: View, n: nat, id: Id): View {
    if id >= n || id in v.stack || id in v.batch then v else View([id] + v.stack, v.batch)
  }

  function PushAll(v: View, n: nat, ids: seq<Id>): View {
    if ids == [] then v else PushOnto(PushAll(v, n, ids[..|ids| - 1]), n, ids[|ids| - 1])
  }

  /** What the poll thread is handed, and what is left: the batch's next id, or at a batch
      boundary the newest id after the expired timers were pushed. */
  function HandNext(v: View, n: nat, expired: seq<Id>): (Option<Id>, View) {
    if v.batch != [] then (Some(v.batch[0]), View(v.stack, v.batch[1..]))
    else
      var w := PushAll(v, n, expired).stack;
      if w == [] then (None, View([], [])) else (Some(w[0]), View([], w[1..]))
  }

  /** `[k, ..., n-1]`. */
  function From(k: nat, n: nat): (r: seq<Id>)
    requires k <= n
    ensures |r| == n - k && forall i :: 0 <= i < |r| ==> r[i] == k + i
    decreases n - k
  {
    if k == n then [] else [k] + From(k + 1, n)
  }

  /** What is left once the batch's first is gone. */
  lemma Popped(stack: seq<Id>, batch: seq<Id>)
    requires Distinct(stack + batch) && batch != []
    ensures Distinct(stack + batch[1..])
    ensures forall i: Id :: i in stack || i in batch[1..] <==> (i in stack || i in batch) && i != batch[0]
  {
    var k, first, later := |stack|, batch[0], batch[1..];
    var all, rest := stack + batch, stack + later;
    forall a | 0 <= a < |rest| ensures rest[a] == all[if a < k then a else a + 1] {
    }
    assert all[k] == first;
    assert batch == [first] + later;
    assert first !in stack by {
      assert forall a :: 0 <= a < k ==> all[a] == stack[a];
    }
    assert first !in later by {
      assert forall a :: 0 <= a < |later| ==> all[k + 1 + a] == later[a];
    }
  }

  class Nodes {
    const n: nat
    const queued: array<bool>
    const below: array<Link>
    var head: Link
    var batch: Link
    ghost var view: View

    ghost predicate Valid()
      reads this, queued, below
    {
      && queued.Length == n && below.Length == n
      && Chain(below[..], head, view.stack)
      && Chain(below[..], batch, view.batch)
      && Distinct(view.stack + view.batch)
      && (forall i: Id :: i < n ==> (queued[i] <==> i in view.stack || i in view.batch))
    }

    /** All idle, as the arena is made at init. */
    constructor (n: nat)
      ensures Valid() && this.n == n && view == View([], []) && fresh(queued) && fresh(below)
    {
      this.n := n;
      queued := new bool[n](_ => false);
      below := new Link[n](_ => None);
      head, batch := None, None;
      view := View([], []);
    }

    /** Pushes `id`; the compare-and-swap fails `spurious` times before it sees the head. */
    method Push(id: Id, spurious: nat)
      requires Valid()
      modifies this, queued, below
      ensures Valid() && view == PushOnto(old(view), n, id)
    {
      if id >= n {
        return;
      }
      var was := queued[id];
      queued[id] := true;
      if was {
        return;
      }
      var top := head;
      var failures := spurious;
      var published := false;
      ghost var links := below[..];
      while !published
        invariant top == head == old(head) && batch == old(batch) && view == old(view)
        invariant published ==> below[..] == links[id := top]
        invariant published || below[..] == links || below[..] == links[id := top]
        invariant forall i: Id :: i < n ==> (queued[i] <==> i == id || old(queued[i]))
        decreases if published then 0 else failures + 1
      {
        below[id] := top;
        if failures == 0 {
          published := true;
        } else {
          failures := failures - 1;
        }
      }
      head := Some(id);
      view := View([id] + view.stack, view.batch);
      ChainFrame(links, top, old(view.stack), id, top);
      ChainFrame(links, batch, view.batch, id, top);
      assert view.stack[1..] == old(view.stack);
      assert view.stack + view.batch == [id] + (old(view.stack) + view.batch);
    }

    /** The cursor's id, released; the cursor moves below it. */
    method Next() returns (id: Option<Id>)
      requires Valid()
      modifies this, queued
      ensures Valid()
      ensures old(view.batch) == [] ==> id == None && view == old(view)
      ensures old(view.batch) != [] ==>
          id == Some(old(view.batch)[0]) && view == View(old(view.stack), old(view.batch)[1..])
    {
      match batch {
        case None =>
          id := None;
        case Some(i) =>
          id := batch;
          Popped(view.stack, view.batch);
          var link := below[i];
          queued[i] := false;
          batch := link;
          view := View(view.stack, view.batch[1..]);
      }
    }

    method Take()
      requires Valid() && view.batch == []
      modifies this
      ensures Valid() && view == View([], old(view.stack))
    {
      batch, head := head, None;
      view := View([], view.stack);
      assert old(view.stack) + old(view.batch) == view.stack + view.batch;
    }

    /** Every id pushed, in descending order: what a take then yields is ascending. */
    method Seed()
      requires Valid() && view == View([], [])
      modifies this, queued, below
      ensures Valid() && view == View(From(0, n), [])
    {
      var k: nat := n;
      while k > 0
        invariant Valid() && k <= n && view == View(From(k, n), [])
      {
        k := k - 1;
        Push(k, 0);
      }
    }

    /** A batch boundary: the expired timers' pushes, then a take. */
    method Boundary(expired: seq<Id>) returns (id: Option<Id>)
      requires Valid() && view.batch == []
      modifies this, queued, below
      ensures Valid() && (id, view) == HandNext(old(view), n, expired)
    {
      var i := 0;
      while i < |expired|
        invariant Valid() && 0 <= i <= |expired| && view.batch == []
        invariant view == PushAll(old(view), n, expired[..i])
      {
        Push(expired[i], 0);
        i := i + 1;
        assert expired[..i][..i - 1] == expired[..i - 1];
      }
      assert expired[..i] == expired;
      Take();
      id := Next();
    }
  }

  /** A push leaves every id queued at most once, and `id` of the graph queued. */
  lemma PushOntoKeeps(v: View, n: nat, id: Id)
    requires Distinct(v.stack + v.batch)
    ensures var w := PushOnto(v, n, id);
      && Distinct(w.stack + w.batch)
      && (id < n ==> id in w.stack || id in w.batch)
      && (id !in v.stack && id !in v.batch && id < n ==> w.stack[0] == id)
  {
    if id < n && id !in v.stack && id !in v.batch {
      assert ([id] + v.stack) + v.batch == [id] + (v.stack + v.batch);
    }
  }

  /** What a row of pushes puts on top: the ids of the graph not queued before, last pushed first,
      each at its first push. */
  function Lead(v: View, n: nat, ids: seq<Id>): seq<Id> {
    if ids == [] then []
    else
      var before, id := Lead(v, n, ids[..|ids| - 1]), ids[|ids| - 1];
      if id >= n || id in before || id in v.stack || id in v.batch then before else [id] + before
  }

  lemma {:induction false} LeadPushed(v: View, n: nat, ids: seq<Id>)
    ensures PushAll(v, n, ids) == View(Lead(v, n, ids) + v.stack, v.batch)
    decreases |ids|
  {
    if ids == [] {
      assert [] + v.stack == v.stack;
    } else {
      var before := Lead(v, n, ids[..|ids| - 1]);
      LeadPushed(v, n, ids[..|ids| - 1]);
      assert [ids[|ids| - 1]] + (before + v.stack) == [ids[|ids| - 1]] + before + v.stack;
    }
  }

  lemma {:induction false} FirstStays(ids: seq<Id>, last: Id, id: Id)
    ensures id in ids ==> IndexOf(ids + [last], id) == IndexOf(ids, id)
    ensures last !in ids ==> IndexOf(ids + [last], last) == |ids|
    decreases |ids|
  {
    if ids != [] {
      assert (ids + [last])[1..] == ids[1..] + [last];
      FirstStays(ids[1..], last, id);
    }
  }

  /** `lead` lists ids of `ids`, later first occurrences in front. */
  ghost predicate LatestFirst(ids: seq<Id>, lead: seq<Id>) {
    && (forall i :: 0 <= i < |lead| ==> lead[i] in ids)
    && forall i, j :: 0 <= i < j < |lead| ==> IndexOf(ids, lead[j]) < IndexOf(ids, lead[i])
  }

  lemma LatestFirstMore(ids: seq<Id>, lead: seq<Id>, last: Id)
    requires LatestFirst(ids, lead)
    ensures LatestFirst(ids + [last], lead)
    ensures last !in ids ==> LatestFirst(ids + [last], [last] + lead)
  {
    forall i | 0 <= i < |lead| ensures IndexOf(ids + [last], lead[i]) == IndexOf(ids, lead[i]) {
      FirstStays(ids, last, lead[i]);
    }
    FirstStays(ids, last, last);
  }

  /** The lead is exactly the ids of the graph pushed and not queued before, each once, later first
      pushes in front. */
  lemma {:induction false} LeadExactly(v: View, n: nat, ids: seq<Id>)
    ensures Distinct(Lead(v, n, ids)) && LatestFirst(ids, Lead(v, n, ids))
    ensures forall id :: id in Lead(v, n, ids) <==> id in ids && id < n && id !in v.stack && id !in v.batch
    decreases |ids|
  {
    if ids != [] {
      var init, last := ids[..|ids| - 1], ids[|ids| - 1];
      LeadExactly(v, n, init);
      LatestFirstMore(init, Lead(v, n, init), last);
      assert ids == init + [last];
    }
  }

  /** Timers lead: at a batch boundary the next ids handed out are those of the expired timers that
      were not queued yet, and then everything pushed earlier. */
  lemma TimersLead(v: View, n: nat, expired: seq<Id>)
    requires v.batch == []
    ensures var (id, w) := HandNext(v, n, expired);
      && w.stack == []
      && (if id.None? then [] else [id.value] + w.batch) == Lead(v, n, expired) + v.stack
      && forall due :: due in expired && due < n ==> id.Some? && (due == id.value || due in w.batch)
  {
    LeadPushed(v, n, expired);
    LeadExactly(v, n, expired);
    var next := Lead(v, n, expired) + v.stack;
    if next != [] {
      assert next == [next[0]] + next[1..];
    }
    forall due | due in expired && due < n ensures due in next {
      assert due in Lead(v, n, expired) || due in v.stack;
    }
  }
}
