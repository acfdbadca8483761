/**
  The per-thread deadline heap (src/poll/timer/deadline.rs): lazy deletion over recycled,
  generation-tagged cells, against a plain map of live timers. The binary heap of the standard
  library is taken by its contract: entries in order, the least one first.
  */
module Deadlines {
  import opened Basics

  type NodeId = nat

  datatype TimerKey = TimerKey(cell: nat, generation: nat)

  datatype Timer = Timer(node: NodeId, deadline: int)

  datatype Entry = Entry(deadline: int, cell: nat, generation: nat) {
    function Key(): TimerKey {
      TimerKey(cell, generation)
    }
  }

  /** `node` is `None` while the cell is vacant. */
  datatype Cell = Cell(generation: nat, node: Option<NodeId>)

  /** By deadline, then by cell and generation. */
  predicate Before(a: Entry, b: Entry) {
    || a.deadline < b.deadline
    || (a.deadline == b.deadline && (a.cell < b.cell || (a.cell == b.cell && a.generation <= b.generation)))
  }

  ghost predicate Ordered(heap: seq<Entry>) {
    forall i, j :: 0 <= i < j < |heap| ==> Before(heap[i], heap[j])
  }

  /** Where `e` goes: behind every entry before it. */
  function Place(heap: seq<Entry>, e: Entry): (k: nat)
    requires Ordered(heap)
    ensures k <= |heap|
    ensures forall i :: 0 <= i < k ==> Before(heap[i], e)
    ensures forall i :: k <= i < |heap| ==> Before(e, heap[i])
  {
    if heap == [] || Before(e, heap[0]) then 0 else 1 + Place(heap[1..], e)
  }

  /** The heap's push. */
  function Insert(heap: seq<Entry>, e: Entry): (r: seq<Entry>)
    requires Ordered(heap)
    ensures Ordered(r) && |r| == |heap| + 1
    ensures forall x :: x in r <==> x == e || x in heap
  {
    var k := Place(heap, e);
    heap[..k] + [e] + heap[k..]
  }

  /** True iff the key addresses an occupied cell of its generation. */
  predicate IsLive(cells: seq<Cell>, key: TimerKey) {
    key.cell < |cells| && cells[key.cell].generation == key.generation && cells[key.cell].node.Some?
  }

  /** The keys handed out so far. */
  ghost predicate Issued(cells: seq<Cell>, key: TimerKey) {
    key.cell < |cells| && (key.generation < cells[key.cell].generation || IsLive(cells, key))
  }

  ghost predicate HeapValid(heap: seq<Entry>, cells: seq<Cell>) {
    && Ordered(heap)
    && (forall i :: 0 <= i < |heap| ==> Issued(cells, heap[i].Key()))
    && (forall i, j :: 0 <= i < j < |heap| ==> heap[i].Key() != heap[j].Key())
  }

  lemma InsertDistinct(heap: seq<Entry>, e: Entry)
    requires Ordered(heap)
    requires forall i :: 0 <= i < |heap| ==> heap[i].Key() != e.Key()
    requires forall i, j :: 0 <= i < j < |heap| ==> heap[i].Key() != heap[j].Key()
    ensures var r := Insert(heap, e); forall i, j :: 0 <= i < j < |r| ==> r[i].Key() != r[j].Key()
  {
    var k, r := Place(heap, e), Insert(heap, e);
    assert forall i :: 0 <= i < |r| ==> r[i] == if i < k then heap[i] else if i == k then e else heap[i - 1];
  }

  /** Pushing an entry for a key that becomes live just now. */
  lemma HeapRegister(heap: seq<Entry>, cells: seq<Cell>, cells': seq<Cell>, e: Entry)
    requires HeapValid(heap, cells) && !Issued(cells, e.Key()) && Issued(cells', e.Key())
    requires forall k :: Issued(cells, k) ==> Issued(cells', k)
    ensures HeapValid(Insert(heap, e), cells')
  {
    InsertDistinct(heap, e);
    var r := Insert(heap, e);
    forall i | 0 <= i < |r| ensures Issued(cells', r[i].Key()) {
      assert r[i] in r;
    }
  }

  ghost predicate FreeValid(free: seq<nat>, cells: seq<Cell>) {
    && Distinct(free)
    && (forall c: nat :: c in free <==> c < |cells| && cells[c].node.None?)
  }

  /** The heap and its cells stand for `timers`. */
  ghost predicate Represents(heap: seq<Entry>, cells: seq<Cell>, timers: map<TimerKey, Timer>) {
    && (forall k :: k in timers <==> IsLive(cells, k))
    && (forall k :: k in timers ==>
          && timers[k].node == cells[k.cell].node.value
          && Entry(timers[k].deadline, k.cell, k.generation) in heap)
  }

  ghost predicate SameIssued(a: seq<Cell>, b: seq<Cell>) {
    forall k :: Issued(b, k) <==> Issued(a, k)
  }

  /** Every cell is free or holds a live timer. */
  ghost predicate Sound(heap: seq<Entry>, cells: seq<Cell>, free: seq<nat>, timers: map<TimerKey, Timer>) {
    HeapValid(heap, cells) && FreeValid(free, cells) && Represents(heap, cells, timers) && |timers| + |free| == |cells|
  }

  function Vacated(cells: seq<Cell>, cell: nat): seq<Cell>
    requires cell < |cells|
  {
    cells[cell := Cell(cells[cell].generation + 1, None)]
  }

  /** The cells once `key` was released: a live one's is vacated, under a new generation. */
  function Taken(cells: seq<Cell>, key: TimerKey): seq<Cell> {
    if IsLive(cells, key) then Vacated(cells, key.cell) else cells
  }

  function Freed(free: seq<nat>, cells: seq<Cell>, key: TimerKey): seq<nat> {
    if IsLive(cells, key) then free + [key.cell] else free
  }

  /** The earliest deadline of a timer that is live. */
  ghost predicate Earliest(timers: map<TimerKey, Timer>, k: TimerKey) {
    k in timers && forall j :: j in timers ==> timers[k].deadline <= timers[j].deadline
  }

  function Due(timers: map<TimerKey, Timer>, now: int): set<TimerKey> {
    set k | k in timers && timers[k].deadline <= now
  }

  class DeadlineHeap {
    var heap: seq<Entry>
    var cells: seq<Cell>
    var free: seq<nat>
    ghost var timers: map<TimerKey, Timer>
    /** The most timers ever live at once. */
    ghost var peak: nat

    ghost predicate Valid()
      reads this
    {
      Sound(heap, cells, free, timers) && |cells| == peak
    }

    constructor ()
      ensures Valid() && timers == map[] && peak == 0
    {
      heap, cells, free := [], [], [];
      timers, peak := map[], 0;
    }

    /** A vacant cell, or a new one. */
    method Occupy(node: NodeId) returns (cell: nat)
      requires FreeValid(free, cells)
      modifies this`free, this`cells
      ensures FreeValid(free, cells) && cell < |cells|
      ensures |free| + |old(cells)| + 1 == |old(free)| + |cells|
      ensures |cells| == if old(free) == [] then |old(cells)| + 1 else |old(cells)|
      ensures cells[cell].node == Some(node)
      ensures cell < |old(cells)| ==>
          old(cells)[cell].node.None? && cells == old(cells)[cell := Cell(old(cells)[cell].generation, Some(node))]
      ensures cell >= |old(cells)| ==> cells == old(cells) + [Cell(0, Some(node))] && cell == |old(cells)|
    {
      if |free| > 0 {
        cell := free[|free| - 1];
        assert cell in free;
        free := free[..|free| - 1];
        assert forall c: nat :: c in free <==> c in old(free) && c != cell;
        cells := cells[cell := Cell(cells[cell].generation, Some(node))];
      } else {
        cell := |cells|;
        cells := cells + [Cell(0, Some(node))];
      }
    }

    /** A new timer. Its key was never handed out before, and cells grow only to the peak. */
    method Register(node: NodeId, deadline: int) returns (key: TimerKey)
      requires Valid()
      modifies this
      ensures Valid()
      ensures !old(Issued(cells, key)) && timers == old(timers)[key := Timer(node, deadline)]
      ensures peak == if |timers| > old(peak) then |timers| else old(peak)
      ensures forall k :: old(Issued(cells, k)) ==> Issued(cells, k)
    {
      ghost var was, spare := cells, free;
      var cell := Occupy(node);
      var generation := cells[cell].generation;
      key := TimerKey(cell, generation);
      RegisterSound(heap, was, cells, spare, free, timers, Entry(deadline, cell, generation), node);
      heap := Insert(heap, Entry(deadline, cell, generation));
      timers := timers[key := Timer(node, deadline)];
      peak := |cells|;
    }

    /** Vacates a live cell, bumping its generation; nothing for a dead key. */
    method TakeLive(key: TimerKey) returns (node: Option<NodeId>)
      modifies this`cells, this`free
      ensures node == if IsLive(old(cells), key) then old(cells)[key.cell].node else None
      ensures cells == Taken(old(cells), key) && free == Freed(old(free), old(cells), key)
    {
      if !IsLive(cells, key) {
        return None;
      }
      node := cells[key.cell].node;
      cells := cells[key.cell := Cell(cells[key.cell].generation + 1, None)];
      free := free + [key.cell];
    }

    /** Releases a timer before it fires; a dead key is a no-op, even once its cell is recycled. */
    method Cancel(key: TimerKey)
      requires Valid()
      modifies this
      ensures Valid() && timers == old(timers) - {key} && peak == old(peak)
      ensures SameIssued(old(cells), cells)
    {
      TakenSound(heap, cells, free, timers, key);
      var node := Release(key);
    }

    /** `TakeLive`, and the timer is gone. */
    method Release(key: TimerKey) returns (node: Option<NodeId>)
      modifies `cells, `free, `timers
      ensures node == if IsLive(old(cells), key) then old(cells)[key.cell].node else None
      ensures cells == Taken(old(cells), key) && free == Freed(old(free), old(cells), key)
      ensures timers == old(timers) - {key}
    {
      node := TakeLive(key);
      timers := timers - {key};
    }

    /** Drops dead entries off the top. */
    method DiscardDead()
      requires Valid()
      modifies this`heap
      ensures Valid()
      ensures heap != [] ==> IsLive(cells, heap[0].Key())
      ensures |heap| <= |old(heap)|
    {
      while heap != [] && !IsLive(cells, heap[0].Key())
        invariant Valid() && |heap| <= |old(heap)|
        decreases |heap|
      {
        DiscardKeeps(heap, cells, timers);
        heap := heap[1..];
      }
    }

    /** The earliest live deadline. */
    method Peek() returns (deadline: Option<int>)
      requires Valid()
      modifies this
      ensures Valid() && timers == old(timers) && peak == old(peak)
      ensures deadline.None? <==> timers == map[]
      ensures deadline.Some? ==> exists k :: Earliest(timers, k) && timers[k].deadline == deadline.value
    {
      DiscardDead();
      if heap == [] {
        NothingLive(cells, timers);
        return None;
      }
      TopIsEarliest(heap, cells, timers);
      deadline := Some(heap[0].deadline);
    }

    /** Fires one timer due by `now`, an earliest one; `None` iff none is due. */
    method Pop(now: int) returns (node: Option<NodeId>, ghost key: TimerKey)
      requires Valid()
      modifies this
      ensures Valid() && peak == old(peak)
      ensures node.None? ==> timers == old(timers) && forall k :: k in timers ==> timers[k].deadline > now
      ensures node.Some? ==> Popped(old(timers), now, key, node.value, timers)
      ensures SameIssued(old(cells), cells)
    {
      DiscardDead();
      key := TimerKey(0, 0);
      if heap == [] {
        NothingLive(cells, timers);
        return None, key;
      }
      TopIsEarliest(heap, cells, timers);
      if heap[0].deadline > now {
        return None, key;
      }
      key := heap[0].Key();
      node := PopTop();
    }

    /** Physically pops the live top, and vacates its cell. */
    method PopTop() returns (node: Option<NodeId>)
      requires Valid() && heap != [] && IsLive(cells, heap[0].Key())
      modifies this
      ensures Valid() && peak == old(peak)
      ensures var key := old(heap)[0].Key();
        key in old(timers) && node == Some(old(timers)[key].node) && timers == old(timers) - {key}
      ensures SameIssued(old(cells), cells)
    {
      var top := heap[0];
      ghost var key, was := top.Key(), cells;
      heap := heap[1..];
      node := TakeLive(top.Key());
      assert cells == Vacated(was, key.cell);
      timers := timers - {key};
      assert HeapValid(heap, cells) && Represents(heap, cells, timers) by {
        PopKeeps(old(heap), was, old(timers));
      }
      assert FreeValid(free, cells) by {
        FreedValid(old(free), was, key.cell);
      }
      assert |timers| == |old(timers)| - 1 by {
        OneLess(old(timers), key);
      }
      assert SameIssued(was, cells) by {
        VacateKeeps(old(heap), was, old(timers), key);
      }
    }

    /** `Timers::expire`: fires every due timer once, earliest first. `fired` names them. */
    method Expire(now: int) returns (nodes: seq<NodeId>, ghost fired: seq<TimerKey>)
      requires Valid()
      modifies this
      ensures Valid() && peak == old(peak)
      ensures Fired(old(timers), now, fired, nodes, timers)
      ensures forall k :: k in timers ==> timers[k].deadline > now
      ensures (set k | k in fired) == Due(old(timers), now) && timers == old(timers) - Due(old(timers), now)
    {
      nodes, fired := [], [];
      var first := Peek();
      if first.None? {
        return;
      }
      var go := true;
      while go
        invariant Valid() && peak == old(peak)
        invariant Fired(old(timers), now, fired, nodes, timers)
        invariant !go ==> forall k :: k in timers ==> timers[k].deadline > now
        decreases |timers|, go
      {
        ghost var before := timers;
        var node, key := Pop(now);
        if node.Some? {
          FiredMore(old(timers), now, fired, nodes, before, key, node.value);
          OneLess(before, key);
          nodes := nodes + [node.value];
          fired := fired + [key];
        } else {
          go := false;
        }
      }
      FiredAllDue(old(timers), now, fired, nodes, timers);
    }
  }

  /** `key` was a timer of least deadline, due by `now`, and is gone. */
  ghost predicate Popped(timers: map<TimerKey, Timer>, now: int, key: TimerKey, node: NodeId,
      timers': map<TimerKey, Timer>) {
    && Earliest(timers, key) && timers[key].deadline <= now
    && node == timers[key].node && timers' == timers - {key}
  }

  /** The timers fired so far: due ones, each once, earliest first, and no later than any left. */
  ghost predicate Fired(timers: map<TimerKey, Timer>, now: int, fired: seq<TimerKey>, nodes: seq<NodeId>,
      left: map<TimerKey, Timer>) {
    && |nodes| == |fired| && Distinct(fired)
    && (forall i :: 0 <= i < |fired| ==>
        fired[i] in timers && fired[i] !in left && nodes[i] == timers[fired[i]].node
            && timers[fired[i]].deadline <= now)
    && (forall i, j :: 0 <= i < j < |fired| ==> timers[fired[i]].deadline <= timers[fired[j]].deadline)
    && (forall k :: k in left ==> k in timers && left[k] == timers[k])
    && (forall k :: k in timers ==> k in left || k in fired)
    && (forall i, k :: 0 <= i < |fired| && k in left ==> timers[fired[i]].deadline <= left[k].deadline)
  }

  lemma FiredMore(timers: map<TimerKey, Timer>, now: int, fired: seq<TimerKey>, nodes: seq<NodeId>,
      left: map<TimerKey, Timer>, key: TimerKey, node: NodeId)
    requires Fired(timers, now, fired, nodes, left) && Popped(left, now, key, node, left - {key})
    ensures Fired(timers, now, fired + [key], nodes + [node], left - {key})
  {
    var f := fired + [key];
    assert f[|fired|] == key;
    forall k | k in timers ensures k in left - {key} || k in f {
      if k in fired {
        var i :| 0 <= i < |fired| && fired[i] == k;
        assert f[i] == k;
      }
    }
  }

  /** Firing to the end is exactly the due timers. */
  lemma FiredAllDue(timers: map<TimerKey, Timer>, now: int, fired: seq<TimerKey>, nodes: seq<NodeId>,
      left: map<TimerKey, Timer>)
    requires Fired(timers, now, fired, nodes, left)
    requires forall k :: k in left ==> left[k].deadline > now
    ensures (set k | k in fired) == Due(timers, now) && |fired| == |Due(timers, now)|
    ensures left == timers - Due(timers, now)
  {
    DistinctSize(fired);
    assert (set i | 0 <= i < |fired| :: fired[i]) == Due(timers, now);
  }

  lemma OneLess(m: map<TimerKey, Timer>, key: TimerKey)
    requires key in m
    ensures |m - {key}| == |m| - 1
  {
    var rest := m - {key};
    assert rest.Keys == m.Keys - {key};
    assert |rest.Keys| == |rest| && |m.Keys| == |m|;
  }

  lemma VacateKeeps(heap: seq<Entry>, cells: seq<Cell>, timers: map<TimerKey, Timer>, key: TimerKey)
    requires HeapValid(heap, cells) && Represents(heap, cells, timers) && IsLive(cells, key)
    ensures HeapValid(heap, Vacated(cells, key.cell)) && Represents(heap, Vacated(cells, key.cell), timers - {key})
    ensures forall k :: Issued(cells, k) <==> Issued(Vacated(cells, key.cell), k)
  {
  }

  lemma DiscardKeeps(heap: seq<Entry>, cells: seq<Cell>, timers: map<TimerKey, Timer>)
    requires HeapValid(heap, cells) && Represents(heap, cells, timers)
    requires heap != [] && !IsLive(cells, heap[0].Key())
    ensures HeapValid(heap[1..], cells) && Represents(heap[1..], cells, timers)
  {
    forall k | k in timers ensures Entry(timers[k].deadline, k.cell, k.generation) in heap[1..] {
      var i :| 0 <= i < |heap| && heap[i] == Entry(timers[k].deadline, k.cell, k.generation);
      assert heap[1..][i - 1] == heap[i];
    }
  }

  /** The heap's top, once live, is a live timer of least deadline. */
  lemma TopIsEarliest(heap: seq<Entry>, cells: seq<Cell>, timers: map<TimerKey, Timer>)
    requires HeapValid(heap, cells) && Represents(heap, cells, timers)
    requires heap != [] && IsLive(cells, heap[0].Key())
    ensures Earliest(timers, heap[0].Key()) && timers[heap[0].Key()].deadline == heap[0].deadline
  {
    var key := heap[0].Key();
    var i :| 0 <= i < |heap| && heap[i] == Entry(timers[key].deadline, key.cell, key.generation);
    assert heap[i].Key() == key;
    forall j | j in timers ensures heap[0].deadline <= timers[j].deadline {
      var n :| 0 <= n < |heap| && heap[n] == Entry(timers[j].deadline, j.cell, j.generation);
      assert n > 0 ==> Before(heap[0], heap[n]);
    }
  }

  lemma NothingLive(cells: seq<Cell>, timers: map<TimerKey, Timer>)
    requires Represents([], cells, timers)
    ensures timers == map[]
  {
    forall k | k in timers ensures false {
    }
  }

  lemma FreedValid(free: seq<nat>, cells: seq<Cell>, cell: nat)
    requires FreeValid(free, cells) && cell < |cells| && cells[cell].node.Some?
    ensures FreeValid(free + [cell], Vacated(cells, cell))
  {
    assert cell !in free;
    assert forall c: nat :: c in free + [cell] <==> c in free || c == cell;
  }

  lemma VacatedSound(heap: seq<Entry>, cells: seq<Cell>, free: seq<nat>, timers: map<TimerKey, Timer>, key: TimerKey)
    requires Sound(heap, cells, free, timers) && IsLive(cells, key)
    ensures Sound(heap, Vacated(cells, key.cell), free + [key.cell], timers - {key})
    ensures SameIssued(cells, Vacated(cells, key.cell))
  {
    var after := Vacated(cells, key.cell);
    assert HeapValid(heap, after) && Represents(heap, after, timers - {key}) && SameIssued(cells, after) by {
      VacateKeeps(heap, cells, timers, key);
    }
    assert FreeValid(free + [key.cell], after) by {
      FreedValid(free, cells, key.cell);
    }
    assert |timers - {key}| == |timers| - 1 by {
      assert key in timers;
      OneLess(timers, key);
    }
  }

  /** Releasing a key, live or dead. */
  lemma TakenSound(heap: seq<Entry>, cells: seq<Cell>, free: seq<nat>, timers: map<TimerKey, Timer>, key: TimerKey)
    requires Sound(heap, cells, free, timers)
    ensures Sound(heap, Taken(cells, key), Freed(free, cells, key), timers - {key})
    ensures |Taken(cells, key)| == |cells| && SameIssued(cells, Taken(cells, key))
  {
    if IsLive(cells, key) {
      VacatedSound(heap, cells, free, timers, key);
    } else {
      assert timers - {key} == timers;
    }
  }

  lemma PopKeeps(heap: seq<Entry>, cells: seq<Cell>, timers: map<TimerKey, Timer>)
    requires HeapValid(heap, cells) && Represents(heap, cells, timers)
    requires heap != [] && IsLive(cells, heap[0].Key())
    ensures var key := heap[0].Key();
      HeapValid(heap[1..], Vacated(cells, key.cell)) && Represents(heap[1..], Vacated(cells, key.cell), timers - {key})
  {
    var key := heap[0].Key();
    VacateKeeps(heap, cells, timers, key);
    DiscardKeeps(heap, Vacated(cells, key.cell), timers - {key});
  }

  /** Occupying a vacant or new cell makes exactly its own key live. */
  lemma Occupied(was: seq<Cell>, cells: seq<Cell>, key: TimerKey)
    requires key.cell < |cells| && cells[key.cell].node.Some? && key.generation == cells[key.cell].generation
    requires if key.cell < |was|
        then was[key.cell].node.None? && cells == was[key.cell := cells[key.cell]]
            && cells[key.cell].generation == was[key.cell].generation
             else cells == was + [cells[key.cell]] && key.generation == 0
    ensures !Issued(was, key) && Issued(cells, key)
    ensures forall k :: Issued(was, k) ==> Issued(cells, k)
    ensures forall k :: IsLive(cells, k) <==> k == key || IsLive(was, k)
  {
  }

  lemma RepresentsMore(heap: seq<Entry>, was: seq<Cell>, cells: seq<Cell>, timers: map<TimerKey, Timer>, e: Entry,
      node: NodeId)
    requires Ordered(heap) && Represents(heap, was, timers)
    requires forall k :: IsLive(cells, k) <==> k == e.Key() || IsLive(was, k)
    requires forall k :: IsLive(was, k) ==> IsLive(cells, k) && cells[k.cell].node == was[k.cell].node
    requires e.cell < |cells| && cells[e.cell].node == Some(node)
    ensures Represents(Insert(heap, e), cells, timers[e.Key() := Timer(node, e.deadline)])
  {
  }

  /** Registering in an occupied cell. */
  lemma RegisterSound(heap: seq<Entry>, was: seq<Cell>, cells: seq<Cell>, spare: seq<nat>, free: seq<nat>,
      timers: map<TimerKey, Timer>, e: Entry, node: NodeId)
    requires Sound(heap, was, spare, timers) && FreeValid(free, cells)
    requires |free| + |was| + 1 == |spare| + |cells|
    requires e.cell < |cells| && cells[e.cell] == Cell(e.generation, Some(node))
    requires if e.cell < |was| then was[e.cell] == Cell(e.generation, None) && cells == was[e.cell := cells[e.cell]]
             else cells == was + [cells[e.cell]] && e.generation == 0
    ensures Sound(Insert(heap, e), cells, free, timers[e.Key() := Timer(node, e.deadline)])
    ensures e.Key() !in timers && !Issued(was, e.Key())
    ensures forall k :: Issued(was, k) ==> Issued(cells, k)
  {
    Occupied(was, cells, e.Key());
    HeapRegister(heap, was, cells, e);
    RepresentsMore(heap, was, cells, timers, e, node);
    OneMore(timers, e.Key(), Timer(node, e.deadline));
  }

  lemma OneMore(m: map<TimerKey, Timer>, key: TimerKey, t: Timer)
    requires key !in m
    ensures |m[key := t]| == |m| + 1
  {
  }
}
