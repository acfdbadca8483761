/**
  The bounded sync edge: the state behind its lock, and what each critical section does to it
  (src/edge/sync). The functions are the specification; `Edge` is the object that changes in place.
  */
module SyncEdge {
  import opened Basics

  type Waker = nat
  type HandleId = nat

  /** A message and the handle that pushed it. */
  datatype Letter = Letter(from: HandleId, body: int)

  /** A waker a refusal recorded: whose, under which of the handle's bindings, in which epoch. */
  datatype Entry = Entry(handle: HandleId, binding: nat, epoch: nat, waker: Waker)

  datatype Inner = Inner(
    buffer: seq<Letter>,
    closed: bool,
    consumerWaiting: bool,
    bound: Option<nat>,
    producersWaiting: nat,
    progress: nat,
    refused: seq<Entry>)
  {
    predicate IsFull() {
      bound.Some? && |buffer| >= bound.value
    }

    /** A push's last lines: the message lands and the consumer's flag is taken. */
    function Land(m: Letter): Inner {
      this.(buffer := buffer + [m], consumerWaiting := false)
    }

    /** A drain's critical section: one bump, and this epoch's refusals taken. */
    function Drained(rest: seq<Letter>): Inner {
      this.(buffer := rest, progress := progress + 1, refused := [])
    }

    function Closed(): Inner {
      this.(closed := true, refused := [])
    }
  }

  /** A producer handle. `binding` counts the wakers it was bound to. */
  datatype Handle = Handle(refusedAt: Option<nat>, waker: Option<Waker>, binding: nat, released: bool) {
    /** `schedule`: the same target is a no-op, another forgets the last refusal. */
    function Schedule(w: Waker): Handle {
      if waker == Some(w) then this else Handle(None, Some(w), binding + 1, released)
    }

    /** A clone is a new producer: unbound, never refused, done if this one is. */
    function Clone(): Handle {
      Handle(None, None, 0, released)
    }
  }

  datatype Answer = Pushed | Full | Stuck | Refused // `Refused` is the error `Closed`

  /** `try_push_back`: the answer, the handle and the state it leaves. */
  function TryPush(i: Inner, h: Handle, id: HandleId, m: Letter): (Answer, Handle, Inner) {
    if h.released || i.closed then (Refused, h, i)
    else if i.IsFull() then
      if h.refusedAt == Some(i.progress) then (Stuck, h, i)
      else
        (Full, h.(refusedAt := Some(i.progress)),
         if h.waker.None? then i else i.(refused := i.refused + [Entry(id, h.binding, i.progress, h.waker.value)]))
    else (Pushed, h, i.Land(m))
  }

  /** The edge's state as an object; each method is one critical section. */
  class Edge {
    var buffer: seq<Letter>
    var closed: bool
    var consumerWaiting: bool
    const bound: Option<nat>
    var producersWaiting: nat
    var progress: nat
    var refused: seq<Entry>

    ghost function View(): Inner
      reads this
    {
      Inner(buffer, closed, consumerWaiting, bound, producersWaiting, progress, refused)
    }

    constructor (bound: Option<nat>)
      ensures View() == Inner([], false, false, bound, 0, 0, [])
    {
      this.bound := bound;
      buffer, closed, consumerWaiting, producersWaiting, progress, refused := [], false, false, 0, 0, [];
    }

    method TryPushBack(h: Handle, id: HandleId, m: Letter) returns (answer: Answer, h': Handle, notify: bool)
      modifies this
      ensures (answer, h', View()) == TryPush(old(View()), h, id, m)
      ensures notify <==> answer == Pushed && old(consumerWaiting)
    {
      h', notify := h, false;
      if h.released || closed {
        return Refused, h, false;
      }
      if bound.Some? && |buffer| >= bound.value {
        if h.refusedAt == Some(progress) {
          return Stuck, h, false;
        }
        h' := h.(refusedAt := Some(progress));
        if h.waker.Some? {
          refused := refused + [Entry(id, h.binding, progress, h.waker.value)];
        }
        return Full, h', false;
      }
      buffer := buffer + [m];
      notify := consumerWaiting;
      consumerWaiting := false;
      answer := Pushed;
    }

    /** `read_front`, `poll` and `try_pop` once the buffer is known to hold a message. */
    method PopFront() returns (m: Letter, notify: bool, wakers: seq<Entry>)
      requires buffer != []
      modifies this
      ensures m == old(buffer)[0] && View() == old(View()).Drained(old(buffer)[1..])
      ensures notify == (old(producersWaiting) > 0) && wakers == old(refused)
    {
      m := buffer[0];
      buffer := buffer[1..];
      notify, wakers := Drain();
    }

    method ReadAll() returns (ms: seq<Letter>, notify: bool, wakers: seq<Entry>)
      requires buffer != []
      modifies this
      ensures ms == old(buffer) && View() == old(View()).Drained([])
      ensures notify == (old(producersWaiting) > 0) && wakers == old(refused)
    {
      ms := buffer;
      buffer := [];
      notify, wakers := Drain();
    }

    /** Where every pop ends: bump, and take the refused wakers in the same critical section. */
    method Drain() returns (notify: bool, wakers: seq<Entry>)
      modifies this
      ensures View() == old(View()).Drained(old(buffer))
      ensures notify == (old(producersWaiting) > 0) && wakers == old(refused)
    {
      progress := progress + 1;
      notify := producersWaiting > 0;
      wakers := [];
      if refused != [] {
        wakers := refused;
        refused := [];
      }
    }

    /** Where every close ends. */
    method Close() returns (wakers: seq<Entry>)
      modifies this
      ensures View() == old(View()).Closed() && wakers == old(refused)
    {
      closed := true;
      wakers := refused;
      refused := [];
    }
  }
}
