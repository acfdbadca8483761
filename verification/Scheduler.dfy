/**
  The poll scheduler: a lock-free take-all stack over an arena of graph ids, its consumer and the
  parker it sleeps on, as an interleaved step system. Each step is one atomic operation.
  */
module Scheduler {
  import opened Basics
  import opened Parking

  type Id = nat
  type Link = Option<Id>

  /** Where one pushing thread is. Pusher 0 is the poll thread's own: it never wakes the parker. */
  datatype Pusher =
    | Resting
    | Called(id: Id)                  // found the arena; about to claim
    | CalledEarly(id: Id)             // found none; about to look again
    | Claimed(id: Id)                 // owns the node; about to load the head
    | Loaded(id: Id, top: Link)       // about to write its link to the top it saw
    | Linked(id: Id, top: Link)       // about to compare and swap
    | Pushed                          // about to set the parker's token
    | Notifying                       // claimed the notify
  {
    /** Holds a node it claimed and has not published. */
    predicate Owning() {
      Claimed? || Loaded? || Linked?
    }
    /** Between a claim and the end of its wake. */
    predicate Waking() {
      Owning() || Pushed?
    }
  }

  /** Where the poll thread is. */
  datatype Control =
    | Starting                 // no arena yet
    | Seeding(left: nat)       // init still has ids left-1, ..., 0 to push
    | Walking(taken: bool)     // at the batch cursor; `taken` on the walk right after a take
    | Reading(below: Link)     // read the cursor's link; about to release the node
    | Polling                  // an id was handed out; user code runs
    | Expiring                 // batch boundary: timers push
    | Taking
    | Parking                  // about to take the parker's lock
    | Sleeping                 // waiting on the condvar
    | Rechecking               // out of the wait; about to retake the lock
  {
    predicate Parks() {
      Parking? || Sleeping? || Rechecking?
    }
  }

  /** `owed` and `polls` are history: wakes asked for and not yet followed by a poll, and the ids
      handed out. */
  datatype State = State(
    n: nat,
    ready: bool,
    head: Link,
    queued: seq<bool>,
    below: seq<Link>,
    pushers: seq<Pusher>,
    control: Control,
    batch: Link,
    token: Token,
    owed: set<Id>,
    polls: seq<Id>)

  datatype Action =
    | Wake(t: nat, id: Id)
    | LookAgain(t: nat)
    | Claim(t: nat)
    | Load(t: nat)
    | WriteLink(t: nat)
    | Cas(t: nat, spurious: bool)
    | SetToken(t: nat)
    | Notify(t: nat)
    | MakeNodes
    | Seed
    | ReadLink
    | Release
    | EndWalk
    | Boundary
    | Take
    | Enter(expired: bool)
    | Stir
    | Recheck(expired: bool)
    | Resume

  ghost predicate Init(s: State) {
    && !s.ready && s.head == None && s.batch == None
    && |s.queued| == s.n && |s.below| == s.n
    && (forall i :: 0 <= i < s.n ==> !s.queued[i])
    && |s.pushers| > 0 && (forall t :: 0 <= t < |s.pushers| ==> s.pushers[t] == Resting)
    && s.control == Starting && s.token == Token(false, false)
    && s.owed == Below(s.n) && s.polls == []
  }

  /** The pusher's place once its push returned. */
  function After(t: nat): Pusher {
    if t == 0 then Resting else Pushed
  }

  function At(s: State, t: nat): Pusher {
    if t < |s.pushers| then s.pushers[t] else Resting
  }

  function Put(s: State, t: nat, p: Pusher): State {
    if t < |s.pushers| then s.(pushers := s.pushers[t := p]) else s
  }

  /** The step relation: whether `a` can happen in `s`. */
  ghost predicate Enabled(s: State, a: Action) {
    match a
    case Wake(t, id) =>
      t < |s.pushers| && s.pushers[t] == Resting && (t == 0 ==> s.control.Polling? || s.control.Expiring?)
    case LookAgain(t) => At(s, t).CalledEarly?
    case Claim(t) => At(s, t).Called?
    case Load(t) => At(s, t).Claimed?
    case WriteLink(t) => At(s, t).Loaded?
    case Cas(t, spurious) => At(s, t).Linked?
    case SetToken(t) => At(s, t).Pushed?
    case Notify(t) => At(s, t).Notifying?
    case MakeNodes => s.control.Starting?
    case Seed => s.control.Seeding? && At(s, 0).Resting?
    case ReadLink => s.control.Walking? && s.batch.Some? && s.batch.value < s.n
    case Release => s.control.Reading? && s.batch.Some? && s.batch.value < s.n
    case EndWalk => s.control.Walking? && s.batch.None?
    case Boundary => s.control.Expiring? && At(s, 0).Resting?
    case Take => s.control.Taking?
    case Enter(expired) => s.control.Parking?
    case Stir => s.control.Sleeping?
    case Recheck(expired) => s.control.Rechecking?
    case Resume => s.control.Polling? && At(s, 0).Resting?
  }

  /** A claim: an id past the graph is dropped, a queued one coalesces, an idle one is owned. */
  function ClaimStep(s: State, t: nat, id: Id): State {
    if id >= |s.queued| then Put(s, t, After(t))
    else if s.queued[id] then Put(s, t, After(t))
    else Put(s.(queued := s.queued[id := true]), t, Claimed(id))
  }

  /** A weak compare-and-swap of the head: a failure hands back the head it saw. */
  function CasStep(s: State, t: nat, id: Id, top: Link, spurious: bool): State {
    if s.head == top && !spurious then Put(s.(head := Some(id)), t, After(t))
    else Put(s, t, Loaded(id, s.head))
  }

  function ParkStep(s: State, r: (Token, Verdict)): State {
    s.(token := r.0, control := if r.1.Return? then Walking(false) else Sleeping)
  }

  function Next(s: State, a: Action): State
    requires Enabled(s, a)
  {
    match a
    case Wake(t, id) =>
      Put(s.(owed := if id < s.n then s.owed + {id} else s.owed), t, if s.ready then Called(id) else CalledEarly(id))
    case LookAgain(t) => Put(s, t, if s.ready then Called(At(s, t).id) else After(t))
    case Claim(t) => ClaimStep(s, t, At(s, t).id)
    case Load(t) => Put(s, t, Loaded(At(s, t).id, s.head))
    case WriteLink(t) =>
      var p := At(s, t);
      Put(if p.id < |s.below| then s.(below := s.below[p.id := p.top]) else s, t, Linked(p.id, p.top))
    case Cas(t, spurious) => CasStep(s, t, At(s, t).id, At(s, t).top, spurious)
    case SetToken(t) =>
      var (token, notify) := Parking.Wake(s.token);
      Put(s.(token := token), t, if notify then Notifying else Resting)
    case Notify(t) =>
      Put(if s.control.Sleeping? then s.(control := Rechecking) else s, t, Resting)
    case MakeNodes => s.(ready := true, control := Seeding(s.n))
    case Seed =>
      if s.control.left == 0 then s.(control := Walking(false))
      else Put(s.(control := Seeding(s.control.left - 1)), 0, Called(s.control.left - 1))
    case ReadLink => s.(control := Reading(if s.batch.value < |s.below| then s.below[s.batch.value] else None))
    case Release =>
      var id := s.batch.value;
      s.(queued := if id < |s.queued| then s.queued[id := false] else s.queued,
         batch := s.control.below, control := Polling, owed := s.owed - {id}, polls := s.polls + [id])
    case EndWalk => s.(control := if s.control.taken then Parking else Expiring)
    case Boundary => s.(control := Taking)
    case Take => s.(batch := s.head, head := None, control := Walking(true))
    case Enter(expired) => ParkStep(s, Parking.Enter(s.token, expired))
    case Stir => s.(control := Rechecking)
    case Recheck(expired) => ParkStep(s, Look(s.token, expired))
    case Resume => s.(control := Walking(false))
  }

  // ---- the invariant ----

  /** What the links hold: the published ids, newest first, and the batch still to walk. */
  datatype View = View(stack: seq<Id>, batch: seq<Id>)

  /** Following the links from `from` visits exactly `ids`. */
  ghost predicate Chain(below: seq<Link>, from: Link, ids: seq<Id>)
    decreases |ids|
  {
    if ids == [] then from == None
    else from == Some(ids[0]) && ids[0] < |below| && Chain(below, below[ids[0]], ids[1..])
  }

  /** Ranges, and which steps of the threads exclude each other. */
  ghost predicate Shape(s: State) {
    && |s.queued| == s.n && |s.below| == s.n && |s.pushers| > 0
    && (forall i :: i in s.owed ==> i < s.n)
    && !(s.pushers[0].CalledEarly? || s.pushers[0].Pushed? || s.pushers[0].Notifying?)
    && (s.pushers[0] != Resting ==> s.control.Polling? || s.control.Expiring? || s.control.Seeding?)
    && (s.control.Seeding? ==> s.control.left <= s.n)
    && (!s.ready <==> s.control.Starting?)
    && (!s.ready ==> forall t :: 0 <= t < |s.pushers| ==>
        s.pushers[t].Resting? || s.pushers[t].CalledEarly? || s.pushers[t].Pushed? || s.pushers[t].Notifying?)
    && (s.control.Parks() || s.control.Expiring? || s.control.Taking? || s.control.Starting? || s.control.Seeding?
        ==> s.batch == None)
  }

  /** A claimed node and its link belong to one pusher until it is published. */
  ghost predicate Ownership(s: State, v: View)
    requires Shape(s)
  {
    && (forall t :: 0 <= t < |s.pushers| && s.pushers[t].Owning() ==>
          s.pushers[t].id < s.n && s.pushers[t].id !in v.stack && s.pushers[t].id !in v.batch)
    && (forall t, u :: 0 <= t < u < |s.pushers| && s.pushers[t].Owning() && s.pushers[u].Owning() ==>
          s.pushers[t].id != s.pushers[u].id)
    && (forall t :: 0 <= t < |s.pushers| && s.pushers[t].Linked? ==> s.below[s.pushers[t].id] == s.pushers[t].top)
  }

  ghost predicate Owned(pushers: seq<Pusher>, id: Id) {
    exists t :: 0 <= t < |pushers| && pushers[t].Owning() && pushers[t].id == id
  }

  /** `id` is published, in the batch, or claimed and on its way. */
  ghost predicate Held(s: State, v: View, id: Id) {
    id in v.stack || id in v.batch || Owned(s.pushers, id)
  }

  /** The structure of the stack: the two chains and the owned ids are apart, and together are
      exactly the queued ids. */
  ghost predicate Structure(s: State, v: View) {
    && Shape(s)
    && Chain(s.below, s.head, v.stack)
    && Chain(s.below, s.batch, v.batch)
    && Distinct(v.stack + v.batch)
    && Ownership(s, v)
    && (forall i: Id :: i < s.n ==> (s.queued[i] <==> Held(s, v, i)))
    && (s.control.Reading? ==> s.batch.Some? && s.batch.value < s.n && s.control.below == s.below[s.batch.value])
  }

  /** What a step does to the two chains. */
  function NextView(s: State, a: Action, v: View): View
  {
    match a
    case Cas(t, spurious) =>
      if At(s, t).Linked? && s.head == At(s, t).top && !spurious then v.(stack := [At(s, t).id] + v.stack) else v
    case Take => View([], v.stack)
    case Release => if v.batch == [] then v else v.(batch := v.batch[1..])
    case _ => v
  }

  lemma {:induction false} ChainFrame(below: seq<Link>, from: Link, ids: seq<Id>, x: Id, l: Link)
    requires Chain(below, from, ids) && x !in ids && x < |below|
    ensures Chain(below[x := l], from, ids)
    decreases |ids|
  {
    if ids != [] {
      ChainFrame(below, below[ids[0]], ids[1..], x, l);
    }
  }

  /** The links determine what they hold. */
  lemma {:induction false} ChainUnique(below: seq<Link>, from: Link, a: seq<Id>, b: seq<Id>)
    requires Chain(below, from, a) && Chain(below, from, b)
    ensures a == b
    decreases |a|
  {
    if a != [] && b != [] {
      ChainUnique(below, below[a[0]], a[1..], b[1..]);
    }
  }

  lemma {:induction false} ChainBelow(below: seq<Link>, from: Link, ids: seq<Id>)
    requires Chain(below, from, ids)
    ensures forall i :: 0 <= i < |ids| ==> ids[i] < |below|
    decreases |ids|
  {
    if ids != [] {
      ChainBelow(below, below[ids[0]], ids[1..]);
    }
  }

  /** Ownership after pusher `t` moved to `p`. */
  lemma OwnedPut(pushers: seq<Pusher>, t: nat, p: Pusher, id: Id)
    requires t < |pushers|
    requires forall u :: 0 <= u < |pushers| && u != t && pushers[u].Owning() && pushers[t].Owning() ==>
        pushers[u].id != pushers[t].id
    ensures Owned(pushers[t := p], id) <==>
            (p.Owning() && p.id == id) || (Owned(pushers, id) && !(pushers[t].Owning() && pushers[t].id == id))
  {
    var q := pushers[t := p];
    if p.Owning() && p.id == id {
      assert q[t] == p;
    }
    if u :| 0 <= u < |pushers| && pushers[u].Owning() && pushers[u].id == id {
      assert u == t || q[u] == pushers[u];
    }
  }

  /** A step that moves no link and no node, and at most one pusher that keeps what it owns. */
  lemma StructureQuiet(s: State, s': State, t: nat, v: View)
    requires Structure(s, v) && Shape(s')
    requires (s'.n, s'.head, s'.queued, s'.below, s'.batch) == (s.n, s.head, s.queued, s.below, s.batch)
    requires t < |s.pushers| == |s'.pushers| && s'.pushers == s.pushers[t := s'.pushers[t]]
    requires s'.pushers[t].Owning() <==> s.pushers[t].Owning()
    requires s'.pushers[t].Owning() ==> s'.pushers[t].id == s.pushers[t].id
    requires s'.pushers[t].Linked? ==> s'.pushers[t] == s.pushers[t]
    requires s'.control.Reading? ==> s.batch.Some? && s.batch.value < s.n && s'.control.below == s.below[s.batch.value]
    ensures Structure(s', v)
  {
    forall i: Id | i < s.n ensures Held(s', v, i) <==> Held(s, v, i) {
      OwnedPut(s.pushers, t, s'.pushers[t], i);
    }
  }

  lemma StructureWriteLink(s: State, t: nat, v: View)
    requires Structure(s, v) && Enabled(s, WriteLink(t))
    ensures Structure(Next(s, WriteLink(t)), v)
  {
    var p := s.pushers[t];
    var s' := Next(s, WriteLink(t));
    ChainFrame(s.below, s.head, v.stack, p.id, p.top);
    ChainFrame(s.below, s.batch, v.batch, p.id, p.top);
    forall i: Id | i < s.n ensures Held(s', v, i) <==> Held(s, v, i) {
      OwnedPut(s.pushers, t, s'.pushers[t], i);
    }
    if s.control.Reading? {
      assert s.batch.value in v.batch;
    }
  }

  /** An idle node of the graph comes to belong to the claiming pusher alone. */
  lemma StructureOwn(s: State, t: nat, v: View)
    requires Structure(s, v) && Enabled(s, Claim(t)) && s.pushers[t].id < s.n && !s.queued[s.pushers[t].id]
    ensures Structure(Next(s, Claim(t)), v)
  {
    var id := s.pushers[t].id;
    var s' := Next(s, Claim(t));
    assert !Held(s, v, id);
    forall i: Id | i < s.n ensures Held(s', v, i) <==> i == id || Held(s, v, i) {
      OwnedPut(s.pushers, t, s'.pushers[t], i);
    }
    if s.control.Reading? {
      assert s.batch.value in v.batch;
    }
  }

  /** A claim past the graph, or of an id somewhere in the chains or with another pusher, leaves
      everything as it is; any other makes the pusher the one owner of the node. */
  lemma StructureClaim(s: State, t: nat, v: View)
    requires Structure(s, v) && Enabled(s, Claim(t))
    ensures Structure(Next(s, Claim(t)), v)
    ensures var id, s' := s.pushers[t].id, Next(s, Claim(t));
      if id >= s.n || Held(s, v, id) then s' == Put(s, t, After(t))
      else
        && s'.pushers[t] == Claimed(id) && s'.queued[id] && id !in v.stack && id !in v.batch
        && forall u :: 0 <= u < |s.pushers| && u != t && s'.pushers[u].Owning() ==> s'.pushers[u].id != id
  {
    if s.pushers[t].id < s.n && !s.queued[s.pushers[t].id] {
      StructureOwn(s, t, v);
    } else {
      StructureQuiet(s, Next(s, Claim(t)), t, v);
    }
  }

  /** A published id, on top of the stack. */
  lemma OnTop(stack: seq<Id>, batch: seq<Id>, id: Id)
    requires Distinct(stack + batch) && id !in stack && id !in batch
    ensures Distinct([id] + stack + batch) && ([id] + stack)[1..] == stack
    ensures forall i: Id :: i in [id] + stack <==> i == id || i in stack
  {
    assert [id] + stack + batch == [id] + (stack + batch);
  }

  lemma StructureCas(s: State, t: nat, spurious: bool, v: View)
    requires Structure(s, v) && Enabled(s, Cas(t, spurious))
    ensures Structure(Next(s, Cas(t, spurious)), NextView(s, Cas(t, spurious), v))
  {
    var s' := Next(s, Cas(t, spurious));
    if s.head == s.pushers[t].top && !spurious {
      StructurePublish(s, t, v);
    } else {
      StructureQuiet(s, s', t, v);
    }
  }

  lemma StructurePublish(s: State, t: nat, v: View)
    requires Structure(s, v) && Enabled(s, Cas(t, false)) && s.head == s.pushers[t].top
    ensures Structure(Next(s, Cas(t, false)), NextView(s, Cas(t, false), v))
  {
    var p := s.pushers[t];
    var s' := Next(s, Cas(t, false));
    var v' := NextView(s, Cas(t, false), v);
    OnTop(v.stack, v.batch, p.id);
    assert s'.pushers == s.pushers[t := s'.pushers[t]];
    forall i: Id | i < s.n ensures Held(s', v', i) <==> Held(s, v, i) {
      OwnedPut(s.pushers, t, s'.pushers[t], i);
    }
  }

  lemma StructureTake(s: State, v: View)
    requires Structure(s, v) && Enabled(s, Take)
    ensures Structure(Next(s, Take), NextView(s, Take, v))
  {
    assert v.batch == [];
    assert v.stack + v.batch == v.stack == [] + v.stack;
    forall i | 0 <= i < s.n ensures Held(Next(s, Take), NextView(s, Take, v), i) <==> Held(s, v, i) {
    }
  }

  /** The first of the batch leaves. */
  lemma FirstLeaves(stack: seq<Id>, batch: seq<Id>)
    requires Distinct(stack + batch) && batch != []
    ensures Distinct(stack + batch[1..]) && batch[0] !in stack && batch[0] !in batch[1..]
  {
    var all, rest := stack + batch, stack + batch[1..];
    assert all[|stack|] == batch[0];
    forall i, j | 0 <= i < j < |rest| ensures rest[i] != rest[j] {
      var i1 := if i < |stack| then i else i + 1;
      var j1 := if j < |stack| then j else j + 1;
      assert rest[i] == all[i1] && rest[j] == all[j1];
    }
    forall i | 0 <= i < |rest| ensures rest[i] != batch[0] {
      assert rest[i] == all[if i < |stack| then i else i + 1];
    }
    forall i | 0 <= i < |stack| ensures stack[i] != batch[0] {
      assert rest[i] == stack[i];
    }
    forall i | 0 <= i < |batch[1..]| ensures batch[1..][i] != batch[0] {
      assert rest[|stack| + i] == batch[1..][i];
    }
  }

  lemma StructureRelease(s: State, v: View)
    requires Structure(s, v) && Enabled(s, Release)
    ensures v.batch != [] && s.batch == Some(v.batch[0])
    ensures Structure(Next(s, Release), NextView(s, Release, v))
  {
    var id := s.batch.value;
    var s' := Next(s, Release);
    var v' := NextView(s, Release, v);
    FirstLeaves(v.stack, v.batch);
    assert v.batch == [id] + v'.batch;
    forall i | 0 <= i < s.n && i != id ensures Held(s', v', i) <==> Held(s, v, i) {
      assert i in v.batch <==> i in v'.batch;
    }
  }

  lemma ShapeStep(s: State, a: Action, v: View)
    requires Structure(s, v) && Enabled(s, a)
    ensures Shape(Next(s, a))
  {
    match a
    case Wake(t, id) =>
    case LookAgain(t) =>
    case Load(t) =>
    case SetToken(t) =>
    case Notify(t) =>
    case Claim(t) => ShapeClaim(s, t, v);
    case WriteLink(t) => ShapePush(s, a, v);
    case Cas(t, spurious) => ShapePush(s, a, v);
    case _ => ShapeControl(s, a, v);
  }

  lemma ShapeClaim(s: State, t: nat, v: View)
    requires Structure(s, v) && Enabled(s, Claim(t))
    ensures Shape(Next(s, Claim(t)))
  {
    var s' := Next(s, Claim(t));
    assert s'.pushers == s.pushers[t := s'.pushers[t]];
  }

  lemma ShapePush(s: State, a: Action, v: View)
    requires Structure(s, v) && Enabled(s, a) && (a.WriteLink? || a.Cas?)
    ensures Shape(Next(s, a))
  {
  }

  lemma ShapeControl(s: State, a: Action, v: View)
    requires Structure(s, v) && Enabled(s, a)
    requires !(a.Wake? || a.LookAgain? || a.Load? || a.SetToken? || a.Notify? || a.Claim? || a.WriteLink? || a.Cas?)
    ensures Shape(Next(s, a))
  {
  }

  lemma StructurePush(s: State, a: Action, t: nat, v: View)
    requires Structure(s, v) && Enabled(s, a)
    requires (exists id :: a == Action.Wake(t, id)) || a == LookAgain(t) || a == Load(t) || a == SetToken(t)
        || a == Notify(t)
    ensures Structure(Next(s, a), v)
  {
    ShapeStep(s, a, v);
    StructureQuiet(s, Next(s, a), t, v);
  }

  lemma StructureControl(s: State, a: Action, v: View)
    requires Structure(s, v) && Enabled(s, a)
    requires a.MakeNodes? || a.Seed? || a.ReadLink? || a.EndWalk? || a.Boundary? || a.Enter? || a.Stir? || a.Recheck?
        || a.Resume?
    ensures Structure(Next(s, a), v)
  {
    ShapeStep(s, a, v);
    StructureQuiet(s, Next(s, a), 0, v);
  }

  /** Every step keeps the structure. */
  lemma StructureStep(s: State, a: Action, v: View)
    requires Structure(s, v) && Enabled(s, a)
    ensures Structure(Next(s, a), NextView(s, a, v))
  {
    match a
    case Claim(t) => StructureClaim(s, t, v);
    case WriteLink(t) => StructureWriteLink(s, t, v);
    case Cas(t, spurious) => StructureCas(s, t, spurious, v);
    case Take => StructureTake(s, v);
    case Release => StructureRelease(s, v);
    case Wake(t, id) => StructurePush(s, a, t, v);
    case LookAgain(t) => StructurePush(s, a, t, v);
    case Load(t) => StructurePush(s, a, t, v);
    case SetToken(t) => StructurePush(s, a, t, v);
    case Notify(t) => StructurePush(s, a, t, v);
    case _ => StructureControl(s, a, v);
  }

  // ---- wakes ----

  /** A wake for `id` is on its way to a claim, or init still has to push it. */
  ghost predicate Coming(s: State, id: Id) {
    || s.control.Starting?
    || (s.control.Seeding? && id < s.control.left)
    || (exists t :: 0 <= t < |s.pushers| &&
                    (s.pushers[t].Called? || s.pushers[t].CalledEarly?) && s.pushers[t].id == id)
  }

  /** Every wake asked for and not yet followed by a poll has its id queued, or is coming. */
  ghost predicate Owing(s: State)
    requires Shape(s)
  {
    forall id: Id :: id in s.owed ==> s.queued[id] || Coming(s, id)
  }

  ghost predicate Signalling(s: State) {
    exists t :: 0 <= t < |s.pushers| && s.pushers[t].Pushed?
  }

  ghost predicate Delivering(s: State) {
    exists t :: 0 <= t < |s.pushers| && s.pushers[t].Notifying?
  }

  /** Since the take that found the stack empty, whatever was published has its wake pending or
      its token set; and a sleeper can be reached. */
  ghost predicate Reachable(s: State, v: View) {
    && ((s.control.Parks() || (s.control == Walking(true) && s.batch == None)) && v.stack != [] ==>
        s.token.woken || Signalling(s))
    && ((s.control.Sleeping? || s.control.Rechecking?) && !s.token.woken ==> s.token.parked)
    && (s.control.Sleeping? && s.token.woken ==> Delivering(s))
  }

  ghost predicate Inv(s: State, v: View) {
    Structure(s, v) && Owing(s) && Reachable(s, v)
  }

  /** The pusher a step moves; the poll thread's own when it moves none. */
  function Mover(a: Action): nat {
    match a
    case Wake(t, id) => t
    case LookAgain(t) => t
    case Claim(t) => t
    case Load(t) => t
    case WriteLink(t) => t
    case Cas(t, spurious) => t
    case SetToken(t) => t
    case Notify(t) => t
    case _ => 0
  }

  lemma MovesOne(s: State, a: Action)
    requires |s.pushers| > 0 && Enabled(s, a)
    ensures var t, s' := Mover(a), Next(s, a);
      t < |s.pushers| == |s'.pushers| && s'.pushers == s.pushers[t := s'.pushers[t]] && s'.n == s.n
  {
    match a
    case Claim(t) => assert Put(s, t, s.pushers[t]).pushers == s.pushers;
    case _ =>
  }

  ghost predicate Calling(p: Pusher, id: Id) {
    (p.Called? || p.CalledEarly?) && p.id == id
  }

  lemma ComingPut(s: State, s': State, t: nat, id: Id)
    requires t < |s.pushers| == |s'.pushers| && s'.pushers == s.pushers[t := s'.pushers[t]]
    requires Coming(s, id)
    requires s'.control == s.control || (!s.control.Starting? && !s.control.Seeding?)
    requires Calling(s.pushers[t], id) ==> Calling(s'.pushers[t], id)
    ensures Coming(s', id)
  {
    if u :| 0 <= u < |s.pushers| && Calling(s.pushers[u], id) {
      assert Calling(s'.pushers[u], id);
    }
  }

  /** What a pusher's own step leaves owed. */
  lemma OwingPusher(s: State, a: Action, v: View, id: Id)
    requires Structure(s, v) && Owing(s) && Enabled(s, a) && Shape(Next(s, a)) && id in s.owed
    requires a.LookAgain? || a.Claim? || a.Load? || a.WriteLink? || a.Cas? || a.SetToken? || a.Notify? || a.Wake?
    ensures Next(s, a).queued[id] || Coming(Next(s, a), id)
  {
    var t, s' := Mover(a), Next(s, a);
    MovesOne(s, a);
    if !s.queued[id] {
      if a.Claim? && s.pushers[t].id == id {
        assert s'.queued[id];
      } else if s.control.Starting? {
        assert Coming(s', id);
      } else {
        ComingPut(s, s', t, id);
      }
    }
  }

  lemma OwingSeed(s: State, v: View, id: Id)
    requires Structure(s, v) && Owing(s) && Enabled(s, Seed) && Shape(Next(s, Seed)) && id in s.owed
    ensures Next(s, Seed).queued[id] || Coming(Next(s, Seed), id)
  {
    var s' := Next(s, Seed);
    if s.control.left > 0 && id == s.control.left - 1 {
      assert Calling(s'.pushers[0], id);
    }
    if u :| 0 <= u < |s.pushers| && Calling(s.pushers[u], id) {
      assert Calling(s'.pushers[u], id);
    }
  }

  lemma OwingStep(s: State, a: Action, v: View)
    requires Structure(s, v) && Owing(s) && Enabled(s, a)
    ensures Shape(Next(s, a)) && Owing(Next(s, a))
  {
    var s' := Next(s, a);
    ShapeStep(s, a, v);
    MovesOne(s, a);
    forall id: Id | id in s'.owed ensures s'.queued[id] || Coming(s', id) {
      if id !in s.owed {
        assert Calling(s'.pushers[a.t], id);
      } else if a.Seed? {
        OwingSeed(s, v, id);
      } else if a.LookAgain? || a.Claim? || a.Load? || a.WriteLink? || a.Cas? || a.SetToken? || a.Notify? || a.Wake? {
        OwingPusher(s, a, v, id);
      } else {
        OwingControl(s, a, v, id);
      }
    }
  }

  lemma OwingControl(s: State, a: Action, v: View, id: Id)
    requires Structure(s, v) && Owing(s) && Enabled(s, a) && Shape(Next(s, a)) && id in s.owed && id in Next(s, a).owed
    requires a.MakeNodes? || a.ReadLink? || a.Release? || a.EndWalk? || a.Boundary? || a.Take? || a.Enter? || a.Stir?
        || a.Recheck? || a.Resume?
    ensures Next(s, a).queued[id] || Coming(Next(s, a), id)
  {
    var s' := Next(s, a);
    if u :| 0 <= u < |s.pushers| && Calling(s.pushers[u], id) {
      assert Calling(s'.pushers[u], id);
    }
  }

  /** Moving one pusher keeps the pending wakes and notifies of the others. */
  lemma PendingPut(s: State, s': State, t: nat)
    requires t < |s.pushers| == |s'.pushers| && s'.pushers == s.pushers[t := s'.pushers[t]]
    ensures Signalling(s) && !s.pushers[t].Pushed? ==> Signalling(s')
    ensures Delivering(s) && !s.pushers[t].Notifying? ==> Delivering(s')
    ensures s'.pushers[t].Pushed? ==> Signalling(s')
    ensures s'.pushers[t].Notifying? ==> Delivering(s')
  {
    if u :| 0 <= u < |s.pushers| && s.pushers[u].Pushed? {
      assert u != t ==> s'.pushers[u].Pushed?;
    }
    if u :| 0 <= u < |s.pushers| && s.pushers[u].Notifying? {
      assert u != t ==> s'.pushers[u].Notifying?;
    }
  }

  lemma ReachablePush(s: State, a: Action, v: View)
    requires Structure(s, v) && Reachable(s, v) && Enabled(s, a)
    requires a.LookAgain? || a.Claim? || a.Load? || a.WriteLink? || a.Cas? || a.SetToken? || a.Notify? || a.Wake?
    ensures Reachable(Next(s, a), NextView(s, a, v))
  {
    MovesOne(s, a);
    PendingPut(s, Next(s, a), Mover(a));
  }

  lemma ReachableStep(s: State, a: Action, v: View)
    requires Structure(s, v) && Reachable(s, v) && Enabled(s, a)
    ensures Reachable(Next(s, a), NextView(s, a, v))
  {
    if a.LookAgain? || a.Claim? || a.Load? || a.WriteLink? || a.Cas? || a.SetToken? || a.Notify? || a.Wake? {
      ReachablePush(s, a, v);
    } else {
      MovesOne(s, a);
      PendingPut(s, Next(s, a), 0);
    }
  }

  lemma InvStep(s: State, a: Action, v: View)
    requires Inv(s, v) && Enabled(s, a)
    ensures Inv(Next(s, a), NextView(s, a, v))
  {
    StructureStep(s, a, v);
    OwingStep(s, a, v);
    ReachableStep(s, a, v);
  }

  // ---- every run ----

  ghost predicate Runs(s: State, actions: seq<Action>)
    decreases |actions|
  {
    actions == [] || (Enabled(s, actions[0]) && Runs(Next(s, actions[0]), actions[1..]))
  }

  ghost function Final(s: State, actions: seq<Action>): State
    requires Runs(s, actions)
    decreases |actions|
  {
    if actions == [] then s else Final(Next(s, actions[0]), actions[1..])
  }

  lemma {:induction false} RunKeepsInv(s: State, actions: seq<Action>, v: View) returns (v': View)
    requires Inv(s, v) && Runs(s, actions)
    ensures Inv(Final(s, actions), v')
    decreases |actions|
  {
    if actions == [] {
      v' := v;
    } else {
      InvStep(s, actions[0], v);
      v' := RunKeepsInv(Next(s, actions[0]), actions[1..], NextView(s, actions[0], v));
    }
  }

  /** In every interleaving, links and claims partition the queued ids. */
  lemma AlwaysStructured(s: State, actions: seq<Action>) returns (v: View)
    requires Init(s) && Runs(s, actions)
    ensures Inv(Final(s, actions), v)
  {
    var empty := View([], []);
    assert forall i: Id :: i < s.n ==> !Held(s, empty, i);
    v := RunKeepsInv(s, actions, empty);
  }

  /** A consumer asleep, or about to sleep, with an id queued has its token set, or a pusher
      between its claim and the end of its wake; asleep on a set token, a notify is coming. */
  lemma NoLostWake(s: State, actions: seq<Action>)
    requires Init(s) && Runs(s, actions)
    ensures var f := Final(s, actions);
      && (f.control.Parks() && (exists id: Id :: id < |f.queued| && f.queued[id]) ==>
            f.token.woken || exists t :: 0 < t < |f.pushers| && f.pushers[t].Waking())
      && (f.control.Sleeping? && f.token.woken ==> exists t :: 0 < t < |f.pushers| && f.pushers[t].Notifying?)
  {
    var f := Final(s, actions);
    var v := AlwaysStructured(s, actions);
    if f.control.Parks() && !f.token.woken {
      if id: Id :| id < |f.queued| && f.queued[id] {
        assert Held(f, v, id);
        if v.stack == [] {
          var t :| 0 <= t < |f.pushers| && f.pushers[t].Owning() && f.pushers[t].id == id;
          assert f.pushers[t].Waking();
        } else {
          var t :| 0 <= t < |f.pushers| && f.pushers[t].Pushed?;
          assert f.pushers[t].Waking();
        }
      }
    }
  }

  /** At rest, nothing is owed: once every other thread is done, a sleeping consumer has nothing
      queued and no wake was lost, init's first polls and wakes before init included. */
  lemma AtRestNothingOwed(s: State, actions: seq<Action>)
    requires Init(s) && Runs(s, actions)
    requires Final(s, actions).control.Sleeping?
    requires forall t :: 0 < t < |Final(s, actions).pushers| ==> Final(s, actions).pushers[t].Resting?
    ensures var f := Final(s, actions);
      f.owed == {} && forall id: Id :: id < |f.queued| ==> !f.queued[id]
  {
    var f := Final(s, actions);
    var v := AlwaysStructured(s, actions);
    NoLostWake(s, actions);
    assert forall id: Id :: id in f.owed ==> Coming(f, id);
  }

  // ---- refinement: the arena stack is a LIFO-set scheduler ----

  datatype Event = Publish(id: Id) | TakeAll | HandOut(id: Id) | Stutter

  /** The simple scheduler: a set of published ids, taken as one batch once the last is walked. */
  ghost predicate LifoCan(v: View, e: Event) {
    match e
    case Publish(id) => id !in v.stack && id !in v.batch
    case TakeAll => v.batch == []
    case HandOut(id) => v.batch != [] && v.batch[0] == id
    case Stutter => true
  }

  function LifoNext(v: View, e: Event): View {
    match e
    case Publish(id) => View([id] + v.stack, v.batch)
    case TakeAll => View([], v.stack)
    case HandOut(id) => View(v.stack, if v.batch == [] then [] else v.batch[1..])
    case Stutter => v
  }

  function EventOf(s: State, a: Action): Event {
    match a
    case Cas(t, spurious) =>
      if At(s, t).Linked? && s.head == At(s, t).top && !spurious then Publish(At(s, t).id) else Stutter
    case Take => TakeAll
    case Release => if s.batch.Some? then HandOut(s.batch.value) else Stutter
    case _ => Stutter
  }

  /** Each atomic step is one step of the simple scheduler or none, and hands out the same ids. */
  lemma RefinesLifo(s: State, a: Action, v: View)
    requires Structure(s, v) && Enabled(s, a)
    ensures LifoCan(v, EventOf(s, a)) && NextView(s, a, v) == LifoNext(v, EventOf(s, a))
    ensures Structure(Next(s, a), NextView(s, a, v))
    ensures Next(s, a).polls == s.polls + if EventOf(s, a).HandOut? then [EventOf(s, a).id] else []
  {
    StructureStep(s, a, v);
    if a.Release? {
      StructureRelease(s, v);
    }
  }

  /** Where the simple scheduler is after `events`. */
  function LifoEnd(v: View, events: seq<Event>): View {
    if events == [] then v else LifoNext(LifoEnd(v, events[..|events| - 1]), events[|events| - 1])
  }

  /** The simple scheduler's runs. */
  ghost predicate LifoRun(v: View, events: seq<Event>) {
    events == [] || (LifoRun(v, events[..|events| - 1])
        && LifoCan(LifoEnd(v, events[..|events| - 1]), events[|events| - 1]))
  }

  /** What the atomic steps of a run do to the simple scheduler. */
  ghost function Trace(s: State, actions: seq<Action>): seq<Event>
    requires Runs(s, actions)
    decreases |actions|
  {
    if actions == [] then [] else [EventOf(s, actions[0])] + Trace(Next(s, actions[0]), actions[1..])
  }

  function HandOuts(events: seq<Event>): seq<Id> {
    if events == [] then []
    else (if events[0].HandOut? then [events[0].id] else []) + HandOuts(events[1..])
  }

  lemma {:induction false} LifoFirst(v: View, e: Event, events: seq<Event>)
    requires LifoCan(v, e) && LifoRun(LifoNext(v, e), events)
    ensures LifoRun(v, [e] + events) && LifoEnd(v, [e] + events) == LifoEnd(LifoNext(v, e), events)
    decreases |events|
  {
    var all := [e] + events;
    if events == [] {
      assert all[..0] == [];
    } else {
      var init := events[..|events| - 1];
      LifoFirst(v, e, init);
      assert all[..|all| - 1] == [e] + init;
    }
  }

  lemma {:induction false} RunRefinesLifo(s: State, actions: seq<Action>, v: View)
    requires Structure(s, v) && Runs(s, actions)
    ensures LifoRun(v, Trace(s, actions)) && Structure(Final(s, actions), LifoEnd(v, Trace(s, actions)))
    ensures Final(s, actions).polls == s.polls + HandOuts(Trace(s, actions))
    decreases |actions|
  {
    if actions != [] {
      var e, s1, rest := EventOf(s, actions[0]), Next(s, actions[0]), actions[1..];
      RefinesLifo(s, actions[0], v);
      RunRefinesLifo(s1, rest, LifoNext(v, e));
      LifoFirst(v, e, Trace(s1, rest));
      HandOutFirst(e, Trace(s1, rest), s.polls);
    }
  }

  lemma HandOutFirst(e: Event, events: seq<Event>, polls: seq<Id>)
    ensures (polls + if e.HandOut? then [e.id] else []) + HandOuts(events) == polls + HandOuts([e] + events)
  {
    assert ([e] + events)[1..] == events;
  }

  /** Every run is a run of the simple scheduler, and hands out the same ids in the same order. */
  lemma EveryRunIsLifo(s0: State, actions: seq<Action>)
    requires Init(s0) && Runs(s0, actions)
    ensures LifoRun(View([], []), Trace(s0, actions))
    ensures Structure(Final(s0, actions), LifoEnd(View([], []), Trace(s0, actions)))
    ensures Final(s0, actions).polls == HandOuts(Trace(s0, actions))
  {
    var empty := View([], []);
    assert forall i: Id :: i < s0.n ==> !Held(s0, empty, i);
    RunRefinesLifo(s0, actions, empty);
  }

  /** The ids published since the last take, newest first. */
  function SinceTake(events: seq<Event>): seq<Id> {
    if events == [] then []
    else
      var before := SinceTake(events[..|events| - 1]);
      match events[|events| - 1]
      case Publish(id) => [id] + before
      case TakeAll => []
      case _ => before
  }

  /** The ids handed out since the last take. */
  function OutSinceTake(events: seq<Event>): seq<Id> {
    if events == [] then []
    else
      var before := OutSinceTake(events[..|events| - 1]);
      match events[|events| - 1]
      case HandOut(id) => before + [id]
      case TakeAll => []
      case _ => before
  }

  /** What the last take handed to the walk. */
  function LastTaken(events: seq<Event>): seq<Id> {
    if events == [] then []
    else if events[|events| - 1].TakeAll? then SinceTake(events[..|events| - 1])
    else LastTaken(events[..|events| - 1])
  }

  /** In every run of the simple scheduler a batch is every id published between two takes, newest
      first, each once, and is handed out in that order to its end. */
  lemma {:induction false} BatchesAreTakes(events: seq<Event>)
    requires LifoRun(View([], []), events)
    ensures var v := LifoEnd(View([], []), events);
      && v.stack == SinceTake(events) && OutSinceTake(events) + v.batch == LastTaken(events)
      && Distinct(v.stack) && Distinct(LastTaken(events))
    decreases |events|
  {
    if events != [] {
      var init, last := events[..|events| - 1], events[|events| - 1];
      var mid := LifoEnd(View([], []), init);
      BatchesAreTakes(init);
      if last.HandOut? {
        assert mid.batch == [last.id] + mid.batch[1..];
        Assoc(OutSinceTake(init), [last.id], mid.batch[1..]);
      }
    }
  }

  // ---- fairness ----

  ghost predicate Published(v: View, id: Id) {
    id in v.stack || id in v.batch
  }

  function IndexOf(ids: seq<Id>, id: Id): (i: nat)
    requires id in ids
    ensures i < |ids| && ids[i] == id
  {
    if ids[0] == id then 0 else 1 + IndexOf(ids[1..], id)
  }

  /** At most this many hand-outs, `id`'s included. */
  function Rank(v: View, n: nat, id: Id): nat {
    if id in v.batch then IndexOf(v.batch, id) + 1 else |v.batch| + n
  }

  lemma RankStart(s: State, v: View, id: Id)
    requires Structure(s, v) && Published(v, id)
    ensures Rank(v, s.n, id) <= 2 * s.n - 1 && id < s.n
  {
    ChainBelow(s.below, s.batch, v.batch);
    ChainBelow(s.below, s.head, v.stack);
    if id in v.batch {
      forall i, j | 0 <= i < j < |v.batch| ensures v.batch[i] != v.batch[j] {
        assert v.batch[i] == (v.stack + v.batch)[|v.stack| + i] && v.batch[j] == (v.stack + v.batch)[|v.stack| + j];
      }
      DistinctBelow(v.batch, s.n);
    } else {
      var k :| 0 <= k < |v.stack| && v.stack[k] == id;
      assert (v.stack + v.batch)[k] == id;
      var all := [id] + v.batch;
      forall i, j | 0 <= i < j < |all| ensures all[i] != all[j] {
        assert all[j] == (v.stack + v.batch)[|v.stack| + j - 1];
        assert all[i] == (v.stack + v.batch)[if i == 0 then k else |v.stack| + i - 1];
      }
      DistinctBelow(all, s.n);
    }
  }

  lemma RankStep(s: State, a: Action, v: View, id: Id)
    requires Structure(s, v) && Enabled(s, a) && Published(v, id)
    ensures var s', v' := Next(s, a), NextView(s, a, v);
      || s'.polls == s.polls + [id]
      || (Published(v', id) && |s'.polls| + Rank(v', s.n, id) <= |s.polls| + Rank(v, s.n, id))
  {
    RefinesLifo(s, a, v);
    if a.Take? {
      ChainBelow(s.below, s.head, v.stack);
      assert v.stack == v.stack + v.batch;
      DistinctBelow(v.stack, s.n);
    }
  }

  /** A published id is handed out within 2n - 1 hand-outs, whatever is pushed meanwhile. */
  lemma {:induction false} HandedOutWithin(s: State, actions: seq<Action>, v: View, id: Id)
    requires Structure(s, v) && Runs(s, actions) && Published(v, id)
    requires |Final(s, actions).polls| - |s.polls| >= Rank(v, s.n, id)
    ensures |s.polls| < |Final(s, actions).polls| && id in Final(s, actions).polls[|s.polls|..]
    decreases |actions|
  {
    RankStart(s, v, id);
    var s', v', rest := Next(s, actions[0]), NextView(s, actions[0], v), actions[1..];
    var f := Final(s', rest);
    RankStep(s, actions[0], v, id);
    PollsGrow(s, actions);
    PollsGrow(s', rest);
    if s'.polls == s.polls + [id] {
      assert f.polls[|s.polls|..][0] == id;
    } else {
      StructureStep(s, actions[0], v);
      OneN(s, actions[0]);
      HandedOutWithin(s', rest, v', id);
      var k :| |s'.polls| <= k < |f.polls| && f.polls[k] == id;
      assert f.polls[|s.polls|..][k - |s.polls|] == id;
    }
  }

  lemma OneN(s: State, a: Action)
    requires Enabled(s, a)
    ensures Next(s, a).n == s.n && s.polls <= Next(s, a).polls
  {
  }

  lemma {:induction false} PollsGrow(s: State, actions: seq<Action>)
    requires Runs(s, actions)
    ensures s.polls <= Final(s, actions).polls
    decreases |actions|
  {
    if actions != [] {
      OneN(s, actions[0]);
      PollsGrow(Next(s, actions[0]), actions[1..]);
    }
  }

  /** The bound at any point of any run. */
  lemma FairWithin(s0: State, before: seq<Action>, after: seq<Action>, id: Id) returns (v: View)
    requires Init(s0) && Runs(s0, before) && Runs(Final(s0, before), after)
    ensures Inv(Final(s0, before), v)
    ensures var s, f := Final(s0, before), Final(Final(s0, before), after);
      Published(v, id) && |f.polls| - |s.polls| >= 2 * s.n - 1 ==> |s.polls| <= |f.polls| && id in f.polls[|s.polls|..]
  {
    var s := Final(s0, before);
    v := AlwaysStructured(s0, before);
    if Published(v, id) && |Final(s, after).polls| - |s.polls| >= 2 * s.n - 1 {
      RankStart(s, v, id);
      HandedOutWithin(s, after, v, id);
    }
  }

  // ---- retries ----

  /** A push whose swap cannot succeed: the head is no longer the one it saw. */
  ghost predicate Stale(s: State, t: nat) {
    (At(s, t).Loaded? || At(s, t).Linked?) && s.head != At(s, t).top
  }

  /** Pusher `t` swaps and fails because the head moved, not spuriously. */
  ghost predicate Loses(s: State, a: Action, t: nat) {
    a.Cas? && a.t == t && Stale(s, t)
  }

  /** The poll thread takes, or a push of another thread lands. */
  ghost predicate Rival(s: State, a: Action, t: nat) {
    a.Take? || (a.Cas? && a.t != t && EventOf(s, a).Publish?)
  }

  ghost function Once(b: bool): nat {
    if b then 1 else 0
  }

  ghost function Losses(s: State, actions: seq<Action>, t: nat): nat
    requires Runs(s, actions)
    decreases |actions|
  {
    if actions == [] then 0 else Once(Loses(s, actions[0], t)) + Losses(Next(s, actions[0]), actions[1..], t)
  }

  ghost function Rivals(s: State, actions: seq<Action>, t: nat): nat
    requires Runs(s, actions)
    decreases |actions|
  {
    if actions == [] then 0 else Once(Rival(s, actions[0], t)) + Rivals(Next(s, actions[0]), actions[1..], t)
  }

  function Takes(actions: seq<Action>): nat {
    if actions == [] then 0 else (if actions[0].Take? then 1 else 0) + Takes(actions[1..])
  }

  /** A push goes stale only by a rival's move, and a lost swap leaves it with the current head. */
  lemma LossStep(s: State, a: Action, t: nat)
    requires Enabled(s, a)
    ensures Once(Loses(s, a, t)) + Once(Stale(Next(s, a), t)) <= Once(Rival(s, a, t)) + Once(Stale(s, t))
  {
  }

  /** Lock-freedom: each swap lost is paid for by a push of another thread that landed, or a take. */
  lemma {:induction false} LossesPaid(s: State, actions: seq<Action>, t: nat)
    requires Runs(s, actions)
    ensures Losses(s, actions, t) + Once(Stale(Final(s, actions), t)) <= Rivals(s, actions, t) + Once(Stale(s, t))
    decreases |actions|
  {
    if actions != [] {
      LossStep(s, actions[0], t);
      LossesPaid(Next(s, actions[0]), actions[1..], t);
    }
  }

  /** The stack holds each id of the graph at most once. */
  lemma StackWithin(s: State, v: View)
    requires Structure(s, v)
    ensures |v.stack| <= s.n
  {
    ChainBelow(s.below, s.head, v.stack);
    forall i, j | 0 <= i < j < |v.stack| ensures v.stack[i] != v.stack[j] {
      assert v.stack[i] == (v.stack + v.batch)[i] && v.stack[j] == (v.stack + v.batch)[j];
    }
    DistinctBelow(v.stack, s.n);
  }

  lemma RivalStep(s: State, a: Action, v: View, t: nat)
    requires Structure(s, v) && Enabled(s, a)
    ensures Once(Rival(s, a, t)) + |v.stack| <= |NextView(s, a, v).stack| + if a.Take? then s.n + 1 else 0
  {
    if a.Take? {
      StackWithin(s, v);
    }
  }

  lemma OnceMore(takes: nat, first: bool, n: nat)
    ensures ((if first then 1 else 0) + takes) * (n + 1) == takes * (n + 1) + if first then n + 1 else 0
  {
  }

  /** Between two takes at most n pushes land, an id being published once until it is released. */
  lemma {:induction false} RivalsWithin(s: State, actions: seq<Action>, v: View, t: nat)
    requires Structure(s, v) && Runs(s, actions)
    ensures Rivals(s, actions, t) + |v.stack| <= Takes(actions) * (s.n + 1) + s.n
    decreases |actions|
  {
    if actions == [] {
      StackWithin(s, v);
    } else {
      var a, rest := actions[0], actions[1..];
      var s', v' := Next(s, a), NextView(s, a, v);
      assert Structure(s', v') by {
        StructureStep(s, a, v);
      }
      assert s'.n == s.n by {
        OneN(s, a);
      }
      RivalStep(s, a, v, t);
      RivalsWithin(s', rest, v', t);
      OnceMore(Takes(rest), a.Take?, s.n);
    }
  }

  /** From any point of any run where pusher `t` has not yet read the head: the swaps it loses are at
      most the takes and the others' pushes that land, and those at most n per batch. */
  lemma RetriesBounded(s0: State, before: seq<Action>, after: seq<Action>, t: nat)
    requires Init(s0) && Runs(s0, before) && Runs(Final(s0, before), after)
    requires !At(Final(s0, before), t).Loaded? && !At(Final(s0, before), t).Linked?
    ensures var s := Final(s0, before);
      Losses(s, after, t) <= Rivals(s, after, t) <= Takes(after) * (s.n + 1) + s.n
  {
    var v := AlwaysStructured(s0, before);
    LossesPaid(Final(s0, before), after, t);
    RivalsWithin(Final(s0, before), after, v, t);
  }
}
