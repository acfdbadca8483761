/**
  The bounded sync edge among threads: producers that push, try and block, one reader, closes from
  either end. A step is one critical section, one atomic operation on the producer count, or one
  condvar or waker event.
  */
module EdgeProtocol {
  import opened Basics
  import opened SyncEdge

  /** Where a producing thread is. */
  datatype Thread =
    | Resting
    | Entering(m: Letter)   // in `push_back`, about to take the lock
    | Blocked(m: Letter)    // asleep on `not_full`
    | Roused(m: Letter)     // out of the wait, about to retake the lock
    | Signalling            // took the consumer's flag, about to notify `not_empty`
    | Closing               // released the last producer, about to close the edge

  datatype Mode = Front | All | Peek

  /** Where the reader is. */
  datatype Reader =
    | Idle
    | Checking(mode: Mode)      // holds the lock: found the edge empty and open, with a producer
    | Asleep(mode: Mode)        // on `not_empty`
    | Awake(mode: Mode)         // out of the wait, about to retake the lock
    | Notifying(all: bool)      // popped while producers waited, about to notify `not_full`

  /** `taken` holds the wakers a drain or close took and has not woken yet. `recorded`, `woken`,
      `accepted` and `popped` are history. */
  datatype State = State(
    inner: Inner,
    count: nat,
    handles: map<HandleId, Handle>,
    threads: seq<Thread>,
    reader: Reader,
    taken: multiset<Entry>,
    recorded: multiset<Entry>,
    woken: multiset<Entry>,
    accepted: seq<Letter>,
    popped: seq<Letter>)

  datatype Action =
    | Mint(h: HandleId)
    | Clone(h: HandleId, g: HandleId)
    | Schedule(h: HandleId, w: Waker)
    | Release(t: nat, h: HandleId)
    | CloseEdge(t: nat)
    | Call(t: nat, h: HandleId, body: int)
    | Enter(t: nat)
    | Stir(t: nat)
    | Recheck(t: nat)
    | Signal(t: nat)
    | Try(t: nat, h: HandleId, body: int)
    | Read(mode: Mode)
    | RecheckRead
    | SleepReader
    | StirReader
    | Poll
    | NotifyOne(t: nat)
    | NotifyNone
    | NotifyAll
    | CloseReader
    | WakeOne(e: Entry)

  ghost predicate Init(s: State) {
    && s.inner == Inner([], false, false, s.inner.bound, 0, 0, [])
    && (s.inner.bound.Some? ==> s.inner.bound.value > 0)
    && s.count == 0 && s.handles == map[]
    && (forall t :: 0 <= t < |s.threads| ==> s.threads[t] == Resting)
    && s.reader == Idle
    && s.taken == multiset{} && s.recorded == multiset{} && s.woken == multiset{}
    && s.accepted == [] && s.popped == []
  }

  function At(s: State, t: nat): Thread {
    if t < |s.threads| then s.threads[t] else Resting
  }

  function Put(s: State, t: nat, p: Thread): State {
    if t < |s.threads| then s.(threads := s.threads[t := p]) else s
  }

  ghost predicate Unlocked(s: State) {
    !s.reader.Checking?
  }

  ghost predicate Enabled(s: State, a: Action) {
    match a
    case Mint(h) => h !in s.handles
    case Clone(h, g) => h in s.handles && g !in s.handles
    case Schedule(h, w) => h in s.handles
    case Release(t, h) => t < |s.threads| && s.threads[t].Resting? && h in s.handles
    case CloseEdge(t) => At(s, t).Closing? && Unlocked(s)
    case Call(t, h, body) => t < |s.threads| && s.threads[t].Resting? && h in s.handles && !s.handles[h].released
    case Enter(t) => At(s, t).Entering? && Unlocked(s)
    case Stir(t) => At(s, t).Blocked?
    case Recheck(t) => At(s, t).Roused? && Unlocked(s)
    case Signal(t) => At(s, t).Signalling?
    case Try(t, h, body) => t < |s.threads| && s.threads[t].Resting? && h in s.handles && Unlocked(s)
    case Read(mode) => s.reader.Idle?
    case RecheckRead => s.reader.Awake?
    case SleepReader => s.reader.Checking?
    case StirReader => s.reader.Asleep?
    case Poll => s.reader.Idle?
    case NotifyOne(t) => s.reader == Notifying(false) && At(s, t).Blocked?
    case NotifyNone => s.reader == Notifying(false) && forall t :: 0 <= t < |s.threads| ==> !s.threads[t].Blocked?
    case NotifyAll => s.reader == Notifying(true)
    case CloseReader => s.reader.Idle?
    case WakeOne(e) => e in s.taken
  }

  /** `notify_all` on `not_full`. */
  function RouseAll(ts: seq<Thread>): (r: seq<Thread>)
    ensures |r| == |ts|
    ensures forall t :: 0 <= t < |ts| ==> r[t] == if ts[t].Blocked? then Roused(ts[t].m) else ts[t]
  {
    seq(|ts|, t requires 0 <= t < |ts| => if ts[t].Blocked? then Roused(ts[t].m) else ts[t])
  }

  function RouseReader(r: Reader): Reader {
    if r.Asleep? then Awake(r.mode) else r
  }

  /** The end of `push_back`, the lock held: closed, or the message lands. */
  function FinishPush(s: State, t: nat, m: Letter): State {
    if s.inner.closed then Put(s, t, Resting)
    else
      Put(s.(inner := s.inner.Land(m), accepted := s.accepted + [m]), t,
          if s.inner.consumerWaiting then Signalling else Resting)
  }

  function EnterStep(s: State, t: nat, m: Letter): State {
    if s.inner.IsFull() && !s.inner.closed
    then Put(s.(inner := s.inner.(producersWaiting := s.inner.producersWaiting + 1)), t, Blocked(m))
    else FinishPush(s, t, m)
  }

  function RecheckStep(s: State, t: nat, m: Letter): State {
    if s.inner.IsFull() && !s.inner.closed then Put(s, t, Blocked(m))
    else
      var out := if s.inner.producersWaiting == 0 then 0 else s.inner.producersWaiting - 1;
      FinishPush(s.(inner := s.inner.(producersWaiting := out)), t, m)
  }

  function TryStep(s: State, t: nat, h: HandleId, m: Letter): State
    requires h in s.handles
  {
    var (answer, h', inner) := TryPush(s.inner, s.handles[h], h, m);
    var s' := s.(inner := inner, handles := s.handles[h := h']);
    if answer.Pushed? then
      Put(s'.(accepted := s.accepted + [m]), t, if s.inner.consumerWaiting then Signalling else Resting)
    else if answer.Full? && s.handles[h].waker.Some? then
      s'.(recorded := s.recorded + multiset{Entry(h, s.handles[h].binding, s.inner.progress, s.handles[h].waker.value)})
    else s'
  }

  function ReleaseStep(s: State, t: nat, h: HandleId): State
    requires h in s.handles
  {
    if s.handles[h].released then s
    else
      var s' := s.(handles := s.handles[h := s.handles[h].(released := true)],
                   count := if s.count == 0 then 0 else s.count - 1);
      if s.count == 1 then Put(s', t, Closing) else s'
  }

  /** The one close path: everyone waiting is woken, and the refused wakers are taken. */
  function CloseStep(s: State): State {
    s.(inner := s.inner.Closed(), threads := RouseAll(s.threads), reader := RouseReader(s.reader),
       taken := s.taken + multiset(s.inner.refused))
  }

  function PopStep(s: State, mode: Mode): State
    requires s.inner.buffer != []
  {
    if mode.Peek? then s.(reader := Idle)
    else
      var k := if mode.Front? then 1 else |s.inner.buffer|;
      s.(inner := s.inner.Drained(s.inner.buffer[k..]),
         popped := s.popped + s.inner.buffer[..k],
         taken := s.taken + multiset(s.inner.refused),
         reader := if s.inner.producersWaiting > 0 then Notifying(mode.All?) else Idle)
  }

  /** A blocking read, the lock just taken. */
  function ReadStep(s: State, mode: Mode): State {
    if s.inner.buffer != [] then PopStep(s, mode)
    else if s.inner.closed || s.count == 0 then s.(reader := Idle)
    else s.(reader := Checking(mode))
  }

  function Next(s: State, a: Action): State
    requires Enabled(s, a)
  {
    match a
    case Mint(h) => s.(handles := s.handles[h := Handle(None, None, 0, false)], count := s.count + 1)
    case Clone(h, g) =>
      s.(handles := s.handles[g := s.handles[h].Clone()],
         count := if s.handles[h].released then s.count else s.count + 1)
    case Schedule(h, w) => s.(handles := s.handles[h := s.handles[h].Schedule(w)])
    case Release(t, h) => ReleaseStep(s, t, h)
    case CloseEdge(t) => CloseStep(Put(s, t, Resting))
    case Call(t, h, body) => Put(s, t, Entering(Letter(h, body)))
    case Enter(t) => EnterStep(s, t, At(s, t).m)
    case Stir(t) => Put(s, t, Roused(At(s, t).m))
    case Recheck(t) => RecheckStep(s, t, At(s, t).m)
    case Signal(t) => Put(s.(reader := RouseReader(s.reader)), t, Resting)
    case Try(t, h, body) => TryStep(s, t, h, Letter(h, body))
    case Read(mode) => ReadStep(s, mode)
    case RecheckRead => ReadStep(s, s.reader.mode)
    case SleepReader => s.(reader := Asleep(s.reader.mode), inner := s.inner.(consumerWaiting := true))
    case StirReader => s.(reader := Awake(s.reader.mode))
    case Poll => if s.inner.buffer == [] then s else PopStep(s, Front)
    case NotifyOne(t) => Put(s, t, Roused(At(s, t).m)).(reader := Idle)
    case NotifyNone => s.(reader := Idle)
    case NotifyAll => s.(threads := RouseAll(s.threads), reader := Idle)
    case CloseReader => CloseStep(s)
    case WakeOne(e) => s.(taken := s.taken - multiset{e}, woken := s.woken + multiset{e})
  }

  // ---- the invariant ----

  /** Linearization: what was accepted is what was popped and then the buffer, within the bound. */
  ghost predicate Fifo(s: State) {
    && s.accepted == s.popped + s.inner.buffer
    && (s.inner.bound.Some? ==> 0 < s.inner.bound.value && |s.inner.buffer| <= s.inner.bound.value)
  }

  function Live(handles: map<HandleId, Handle>): set<HandleId> {
    set h | h in handles && !handles[h].released
  }

  /** The producer count is the number of unreleased handles. */
  ghost predicate Counted(s: State) {
    s.count == |Live(s.handles)|
  }

  function Sleepers(ts: seq<Thread>): nat {
    if ts == [] then 0 else Sleepers(ts[..|ts| - 1]) + if ts[|ts| - 1].Blocked? then 1 else 0
  }

  function Rousing(ts: seq<Thread>): nat {
    if ts == [] then 0 else Rousing(ts[..|ts| - 1]) + if ts[|ts| - 1].Roused? then 1 else 0
  }

  /** While a producer sleeps on `not_full` the edge is open and bounded, and the free slots are
      covered by a pending notify and the producers woken and not rechecked. */
  ghost predicate Covered(s: State) {
    && s.inner.producersWaiting == Sleepers(s.threads) + Rousing(s.threads)
    && (Sleepers(s.threads) > 0 ==>
          && !s.inner.closed && s.inner.bound.Some?
          && (|| s.reader == Notifying(true)
              || s.inner.bound.value - |s.inner.buffer|
                 <= Rousing(s.threads) + if s.reader == Notifying(false) then 1 else 0))
  }

  ghost predicate SomeSignalling(s: State) {
    exists t :: 0 <= t < |s.threads| && s.threads[t].Signalling?
  }

  ghost predicate SomeClosing(s: State) {
    exists t :: 0 <= t < |s.threads| && s.threads[t].Closing?
  }

  /** A reader asleep, or about to sleep, has missed nothing that nobody is about to tell it. */
  ghost predicate Attended(s: State) {
    && (s.reader.Checking? || s.reader.Asleep? ==> !s.inner.closed && (s.count == 0 ==> SomeClosing(s)))
    && (s.reader.Checking? ==> s.inner.buffer == [])
    && (s.reader.Asleep? ==> (s.inner.consumerWaiting && s.inner.buffer == []) || SomeSignalling(s))
  }

  /** Refusals of the current epoch: the edge is still full, and a bound handle's waker is listed. */
  ghost predicate Owed(s: State) {
    && (forall h :: h in s.handles && s.handles[h].refusedAt.Some? ==> s.handles[h].refusedAt.value <= s.inner.progress)
    && (!s.inner.closed ==> forall h :: h in s.handles && s.handles[h].refusedAt == Some(s.inner.progress) ==>
          && s.inner.IsFull()
          && (s.handles[h].waker.Some? ==>
              Entry(h, s.handles[h].binding, s.inner.progress, s.handles[h].waker.value) in s.inner.refused))
  }

  /** Every listed waker was recorded in this epoch, at most once per handle and binding. */
  ghost predicate Listed(s: State) {
    ListedIn(s.inner.refused, s.handles, s.inner.progress)
  }

  ghost predicate ListedIn(refused: seq<Entry>, handles: map<HandleId, Handle>, progress: nat) {
    && (forall k :: 0 <= k < |refused| ==>
          var e := refused[k];
          && e.epoch == progress && e.handle in handles && e.binding <= handles[e.handle].binding
          && (e.binding == handles[e.handle].binding ==> handles[e.handle].refusedAt == Some(progress)))
    && (forall j, k :: 0 <= j < k < |refused| ==>
          refused[j].handle != refused[k].handle || refused[j].binding != refused[k].binding)
  }

  /** No recorded waker is lost or woken twice. */
  ghost predicate Conserved(s: State) {
    s.recorded == s.woken + s.taken + multiset(s.inner.refused)
  }

  ghost predicate Inv(s: State) {
    Fifo(s) && Counted(s) && Covered(s) && Attended(s) && Owed(s) && Listed(s) && Conserved(s)
  }

  // ---- every step keeps it ----

  lemma FifoLand(s: State, a: Action)
    requires Fifo(s) && Enabled(s, a) && (a.Enter? || a.Recheck?)
    ensures Fifo(Next(s, a))
  {
    Assoc(s.popped, s.inner.buffer, [At(s, a.t).m]);
  }

  lemma FifoTry(s: State, t: nat, h: HandleId, body: int)
    requires Fifo(s) && Enabled(s, Try(t, h, body))
    ensures Fifo(Next(s, Try(t, h, body)))
  {
    Assoc(s.popped, s.inner.buffer, [Letter(h, body)]);
  }

  lemma FifoDrain(s: State, a: Action)
    requires Fifo(s) && Enabled(s, a) && (a.Read? || a.RecheckRead? || a.Poll?)
    ensures Fifo(Next(s, a))
  {
    var s' := Next(s, a);
    assert s'.accepted == s'.popped + s'.inner.buffer;
  }

  lemma FifoStep(s: State, a: Action)
    requires Fifo(s) && Enabled(s, a)
    ensures Fifo(Next(s, a))
  {
    if a.Enter? || a.Recheck? {
      FifoLand(s, a);
    } else if a.Try? {
      FifoTry(s, a.t, a.h, a.body);
    } else if a.Read? || a.RecheckRead? || a.Poll? {
      FifoDrain(s, a);
    }
  }

  lemma LiveSize(handles: map<HandleId, Handle>, h: HandleId, v: Handle)
    ensures |Live(handles[h := v])|
        == |Live(handles)| + (if v.released then 0 else 1) - (if h in handles && !handles[h].released then 1 else 0)
  {
    var live, live' := Live(handles), Live(handles[h := v]);
    assert live - {h} == live' - {h};
    assert h in live ==> live == (live - {h}) + {h};
    assert h in live' ==> live' == (live' - {h}) + {h};
    assert h !in live ==> live == live - {h};
    assert h !in live' ==> live' == live' - {h};
  }

  lemma CountedStep(s: State, a: Action)
    requires Counted(s) && Enabled(s, a)
    ensures Counted(Next(s, a))
  {
    match a
    case Mint(h) => LiveSize(s.handles, h, Handle(None, None, 0, false));
    case Clone(h, g) => LiveSize(s.handles, g, s.handles[h].Clone());
    case Schedule(h, w) => LiveSize(s.handles, h, s.handles[h].Schedule(w));
    case Release(t, h) => LiveSize(s.handles, h, s.handles[h].(released := true));
    case Try(t, h, body) => LiveSize(s.handles, h, TryPush(s.inner, s.handles[h], h, Letter(h, body)).1);
    case _ =>
  }

  lemma {:induction false} TallyPut(ts: seq<Thread>, t: nat, p: Thread)
    requires t < |ts|
    ensures Sleepers(ts[t := p]) == Sleepers(ts) + (if p.Blocked? then 1 else 0) - (if ts[t].Blocked? then 1 else 0)
    ensures Rousing(ts[t := p]) == Rousing(ts) + (if p.Roused? then 1 else 0) - (if ts[t].Roused? then 1 else 0)
    decreases |ts|
  {
    var k := |ts| - 1;
    if t == k {
      assert ts[t := p][..k] == ts[..k];
    } else {
      assert ts[t := p][..k] == ts[..k][t := p];
      TallyPut(ts[..k], t, p);
    }
  }

  lemma {:induction false} TallyRouse(ts: seq<Thread>)
    ensures Sleepers(RouseAll(ts)) == 0
    ensures Rousing(RouseAll(ts)) == Rousing(ts) + Sleepers(ts)
    decreases |ts|
  {
    if ts != [] {
      var k := |ts| - 1;
      assert RouseAll(ts)[..k] == RouseAll(ts[..k]);
      TallyRouse(ts[..k]);
    }
  }

  lemma {:induction false} NoSleepers(ts: seq<Thread>)
    ensures Sleepers(ts) == 0 <==> forall t :: 0 <= t < |ts| ==> !ts[t].Blocked?
    ensures (forall t :: 0 <= t < |ts| ==> !ts[t].Roused?) ==> Rousing(ts) == 0
    decreases |ts|
  {
    if ts != [] {
      var k := |ts| - 1;
      NoSleepers(ts[..k]);
      assert forall t :: 0 <= t < k ==> ts[..k][t] == ts[t];
      assert ts[k].Blocked? ==> Sleepers(ts) > 0;
      if t :| 0 <= t < k && ts[t].Blocked? {
        assert ts[..k][t].Blocked?;
      }
    }
  }

  lemma CoveredLand(s: State, t: nat, a: Action)
    requires Covered(s) && Fifo(s) && Enabled(s, a)
    requires a == Enter(t) || a == Recheck(t)
    ensures Covered(Next(s, a))
  {
    var s' := Next(s, a);
    assert s'.threads == s.threads[t := s'.threads[t]];
    TallyPut(s.threads, t, s'.threads[t]);
  }

  lemma CoveredTry(s: State, t: nat, h: HandleId, body: int)
    requires Covered(s) && Fifo(s) && Enabled(s, Try(t, h, body))
    ensures Covered(Next(s, Try(t, h, body)))
  {
    var s' := Next(s, Try(t, h, body));
    TryKeepsRoom(s, t, h, body);
    TallyPut(s.threads, t, s'.threads[t]);
  }

  /** A try leaves the bound, the waiting and the close alone, and never makes room. */
  lemma TryKeepsRoom(s: State, t: nat, h: HandleId, body: int)
    requires Enabled(s, Try(t, h, body))
    ensures var s' := Next(s, Try(t, h, body));
      && s'.threads == s.threads[t := s'.threads[t]]
      && (s'.threads[t].Resting? || s'.threads[t].Signalling?)
      && s'.inner.bound == s.inner.bound && s'.inner.producersWaiting == s.inner.producersWaiting
      && s'.inner.closed == s.inner.closed && |s'.inner.buffer| >= |s.inner.buffer| && s'.reader == s.reader
  {
  }

  lemma CoveredNotify(s: State, a: Action)
    requires Covered(s) && Enabled(s, a)
    requires a.NotifyOne? || a.NotifyNone? || a.NotifyAll? || a.CloseReader? || a.CloseEdge?
    ensures Covered(Next(s, a))
  {
    match a
    case NotifyOne(t) => TallyPut(s.threads, t, Next(s, a).threads[t]);
    case NotifyNone => NoSleepers(s.threads);
    case NotifyAll => TallyRouse(s.threads);
    case CloseReader => TallyRouse(s.threads);
    case CloseEdge(t) =>
      TallyPut(s.threads, t, Resting);
      TallyRouse(s.threads[t := Resting]);
  }

  lemma CoveredThread(s: State, a: Action)
    requires Covered(s) && Enabled(s, a)
    requires a.Release? || a.Call? || a.Stir? || a.Signal?
    ensures Covered(Next(s, a))
  {
    match a
    case Release(t, h) => TallyPut(s.threads, t, Closing);
    case Call(t, h, body) => TallyPut(s.threads, t, Entering(Letter(h, body)));
    case Stir(t) => TallyPut(s.threads, t, Roused(s.threads[t].m));
    case Signal(t) => TallyPut(s.threads, t, Resting);
  }

  /** A drain leaves one notify per slot it freed, or one for all. */
  lemma CoveredRead(s: State, a: Action)
    requires Covered(s) && Fifo(s) && Enabled(s, a)
    requires a.Read? || a.RecheckRead? || a.SleepReader? || a.StirReader? || a.Poll?
    ensures Covered(Next(s, a))
  {
  }

  lemma CoveredStep(s: State, a: Action)
    requires Covered(s) && Fifo(s) && Enabled(s, a)
    ensures Covered(Next(s, a))
  {
    match a
    case Enter(t) => CoveredLand(s, t, a);
    case Recheck(t) => CoveredLand(s, t, a);
    case Try(t, h, body) => CoveredTry(s, t, h, body);
    case NotifyOne(t) => CoveredNotify(s, a);
    case NotifyNone => CoveredNotify(s, a);
    case NotifyAll => CoveredNotify(s, a);
    case CloseReader => CoveredNotify(s, a);
    case CloseEdge(t) => CoveredNotify(s, a);
    case Release(t, h) => CoveredThread(s, a);
    case Call(t, h, body) => CoveredThread(s, a);
    case Stir(t) => CoveredThread(s, a);
    case Signal(t) => CoveredThread(s, a);
    case Mint(h) =>
    case Clone(h, g) =>
    case Schedule(h, w) =>
    case WakeOne(e) =>
    case _ => CoveredRead(s, a);
  }

  /** Moving one thread keeps what the others are about to do. */
  lemma PendingPut(ts: seq<Thread>, ts': seq<Thread>, t: nat)
    requires t < |ts| == |ts'| && ts' == ts[t := ts'[t]]
    ensures forall u :: 0 <= u < |ts| && u != t ==> ts'[u] == ts[u]
    ensures (exists u :: 0 <= u < |ts| && ts[u].Signalling?) && !ts[t].Signalling? ==>
        exists u :: 0 <= u < |ts'| && ts'[u].Signalling?
    ensures (exists u :: 0 <= u < |ts| && ts[u].Closing?) && !ts[t].Closing? ==>
        exists u :: 0 <= u < |ts'| && ts'[u].Closing?
  {
    if u :| 0 <= u < |ts| && ts[u].Signalling? {
      assert u != t ==> ts'[u].Signalling?;
    }
    if u :| 0 <= u < |ts| && ts[u].Closing? {
      assert u != t ==> ts'[u].Closing?;
    }
  }

  /** Only thread `t` moved, and it was neither signalling nor closing. */
  lemma AttendedMove(s: State, s': State, t: nat)
    requires Attended(s) && t < |s.threads| == |s'.threads| && s'.threads == s.threads[t := s'.threads[t]]
    requires !s.threads[t].Signalling? && !s.threads[t].Closing?
    requires s'.inner.closed == s.inner.closed && s'.count == s.count && s'.reader == s.reader
    requires s'.inner.buffer == s.inner.buffer && s'.inner.consumerWaiting == s.inner.consumerWaiting
    ensures Attended(s')
  {
    PendingPut(s.threads, s'.threads, t);
  }

  /** Thread `t` landed a message: it signals a reader that waits. */
  lemma AttendedLand(s: State, s': State, t: nat)
    requires Attended(s) && t < |s.threads| == |s'.threads| && s'.threads == s.threads[t := s'.threads[t]]
    requires !s.threads[t].Signalling? && !s.threads[t].Closing?
    requires s'.inner.closed == s.inner.closed && s'.count == s.count && s'.reader == s.reader && !s.reader.Checking?
    requires s.inner.consumerWaiting ==> s'.threads[t].Signalling?
    ensures Attended(s')
  {
    PendingPut(s.threads, s'.threads, t);
    if s.inner.consumerWaiting {
      assert s'.threads[t].Signalling?;
    }
  }

  lemma AttendedPush(s: State, a: Action)
    requires Attended(s) && Enabled(s, a) && (a.Enter? || a.Recheck?)
    ensures Attended(Next(s, a))
  {
    var t, s' := a.t, Next(s, a);
    assert s'.threads == s.threads[t := s'.threads[t]];
    if s.inner.closed || s.inner.IsFull() {
      AttendedMove(s, s', t);
    } else {
      AttendedLand(s, s', t);
    }
  }

  lemma AttendedTry(s: State, t: nat, h: HandleId, body: int)
    requires Attended(s) && Enabled(s, Try(t, h, body))
    ensures Attended(Next(s, Try(t, h, body)))
  {
    var s' := Next(s, Try(t, h, body));
    assert s'.threads == s.threads[t := s'.threads[t]];
    if TryPush(s.inner, s.handles[h], h, Letter(h, body)).0.Pushed? {
      AttendedLand(s, s', t);
    } else {
      AttendedMove(s, s', t);
    }
  }

  lemma AttendedThread(s: State, a: Action)
    requires Attended(s) && Enabled(s, a) && (a.Signal? || a.Stir? || a.NotifyOne? || a.Call?)
    ensures Attended(Next(s, a))
  {
    var s' := Next(s, a);
    assert s'.threads == s.threads[a.t := s'.threads[a.t]];
    PendingPut(s.threads, s'.threads, a.t);
  }

  lemma AttendedRelease(s: State, t: nat, h: HandleId)
    requires Attended(s) && Counted(s) && Enabled(s, Release(t, h))
    ensures Attended(Next(s, Release(t, h)))
  {
    var s' := Next(s, Release(t, h));
    if !s.handles[h].released {
      assert h in Live(s.handles);
      assert s.count > 0;
    }
    assert s'.threads == s.threads[t := s'.threads[t]];
    PendingPut(s.threads, s'.threads, t);
    if s.count == 1 && !s.handles[h].released {
      assert s'.threads[t].Closing?;
    }
  }

  lemma AttendedStep(s: State, a: Action)
    requires Attended(s) && Counted(s) && Enabled(s, a)
    ensures Attended(Next(s, a))
  {
    match a
    case Enter(t) => AttendedPush(s, a);
    case Recheck(t) => AttendedPush(s, a);
    case Try(t, h, body) => AttendedTry(s, t, h, body);
    case Signal(t) => AttendedThread(s, a);
    case Stir(t) => AttendedThread(s, a);
    case NotifyOne(t) => AttendedThread(s, a);
    case Call(t, h, body) => AttendedThread(s, a);
    case Release(t, h) => AttendedRelease(s, t, h);
    case _ =>
  }

  lemma OwedHandle(s: State, a: Action)
    requires Owed(s) && Enabled(s, a)
    requires a.Mint? || a.Clone? || a.Schedule? || a.Release?
    ensures Owed(Next(s, a))
  {
  }

  lemma OwedTry(s: State, t: nat, h: HandleId, body: int)
    requires Owed(s) && Enabled(s, Try(t, h, body))
    ensures Owed(Next(s, Try(t, h, body)))
  {
    var s' := Next(s, Try(t, h, body));
    if TryPush(s.inner, s.handles[h], h, Letter(h, body)).0.Full? && s.handles[h].waker.Some? {
      assert s'.inner.refused[|s.inner.refused|].handle == h;
    }
  }

  /** A drain starts an epoch nobody was refused in; a close ends what is owed. */
  lemma OwedDrain(s: State, a: Action)
    requires Owed(s) && Enabled(s, a)
    requires a.Read? || a.RecheckRead? || a.Poll? || a.CloseReader? || a.CloseEdge?
    ensures Owed(Next(s, a))
  {
  }

  lemma OwedPush(s: State, a: Action)
    requires Owed(s) && Enabled(s, a) && (a.Enter? || a.Recheck?)
    ensures Owed(Next(s, a))
  {
  }

  lemma OwedStep(s: State, a: Action)
    requires Owed(s) && Enabled(s, a)
    ensures Owed(Next(s, a))
  {
    if a.Mint? || a.Clone? || a.Schedule? || a.Release? {
      OwedHandle(s, a);
    } else if a.Try? {
      OwedTry(s, a.t, a.h, a.body);
    } else if a.Read? || a.RecheckRead? || a.Poll? || a.CloseReader? || a.CloseEdge? {
      OwedDrain(s, a);
    } else if a.Enter? || a.Recheck? {
      OwedPush(s, a);
    }
  }

  lemma ListedHandle(s: State, a: Action)
    requires Listed(s) && Enabled(s, a)
    requires a.Mint? || a.Clone? || a.Schedule? || a.Release?
    ensures Listed(Next(s, a))
  {
  }

  /** A handle's first refusal of the epoch under its binding. */
  lemma ListedFull(refused: seq<Entry>, handles: map<HandleId, Handle>, progress: nat, h: HandleId)
    requires ListedIn(refused, handles, progress) && h in handles && handles[h].refusedAt != Some(progress)
    ensures var after := handles[h := handles[h].(refusedAt := Some(progress))];
      && ListedIn(refused, after, progress)
      && forall w :: ListedIn(refused + [Entry(h, handles[h].binding, progress, w)], after, progress)
  {
  }

  lemma ListedTry(s: State, t: nat, h: HandleId, body: int)
    requires Listed(s) && Enabled(s, Try(t, h, body))
    ensures Listed(Next(s, Try(t, h, body)))
  {
    if s.handles[h].refusedAt != Some(s.inner.progress) {
      ListedFull(s.inner.refused, s.handles, s.inner.progress, h);
    }
    assert s.handles[h := s.handles[h]] == s.handles;
  }

  lemma ListedDrain(s: State, a: Action)
    requires Listed(s) && Enabled(s, a)
    requires a.Read? || a.RecheckRead? || a.Poll? || a.CloseReader? || a.CloseEdge?
    ensures Listed(Next(s, a))
  {
  }

  lemma ListedPush(s: State, a: Action)
    requires Listed(s) && Enabled(s, a) && (a.Enter? || a.Recheck?)
    ensures Listed(Next(s, a))
  {
  }

  lemma ListedStep(s: State, a: Action)
    requires Listed(s) && Enabled(s, a)
    ensures Listed(Next(s, a))
  {
    if a.Mint? || a.Clone? || a.Schedule? || a.Release? {
      ListedHandle(s, a);
    } else if a.Try? {
      ListedTry(s, a.t, a.h, a.body);
    } else if a.Read? || a.RecheckRead? || a.Poll? || a.CloseReader? || a.CloseEdge? {
      ListedDrain(s, a);
    } else if a.Enter? || a.Recheck? {
      ListedPush(s, a);
    }
  }

  lemma ConservedTry(s: State, t: nat, h: HandleId, body: int)
    requires Conserved(s) && Enabled(s, Try(t, h, body))
    ensures Conserved(Next(s, Try(t, h, body)))
  {
    var s' := Next(s, Try(t, h, body));
    var handle := s.handles[h];
    assert (s'.woken, s'.taken) == (s.woken, s.taken);
    if TryPush(s.inner, handle, h, Letter(h, body)).0.Full? && handle.waker.Some? {
      var e := Entry(h, handle.binding, s.inner.progress, handle.waker.value);
      assert s'.inner.refused == s.inner.refused + [e] && s'.recorded == s.recorded + multiset{e};
      RecordedOne(s.recorded, s.woken + s.taken, s.inner.refused, e);
    } else {
      assert (s'.recorded, s'.inner.refused) == (s.recorded, s.inner.refused);
    }
  }

  lemma RecordedOne(recorded: multiset<Entry>, gone: multiset<Entry>, listed: seq<Entry>, e: Entry)
    requires recorded == gone + multiset(listed)
    ensures recorded + multiset{e} == gone + multiset(listed + [e])
  {
  }

  lemma ConservedClose(s: State, a: Action)
    requires Conserved(s) && Enabled(s, a) && (a.CloseReader? || a.CloseEdge?)
    ensures Conserved(Next(s, a))
  {
    var s' := Next(s, a);
    assert (s'.recorded, s'.woken) == (s.recorded, s.woken);
    assert s'.inner.refused == [] && s'.taken == s.taken + multiset(s.inner.refused);
  }

  lemma ConservedTaken(s: State, a: Action)
    requires Conserved(s) && Enabled(s, a)
    requires a.Read? || a.RecheckRead? || a.Poll?
    ensures Conserved(Next(s, a))
  {
    var mode := match a case Read(m) => m case RecheckRead => s.reader.mode case _ => Front;
    if s.inner.buffer != [] {
      ConservedPop(s, mode);
    }
  }

  lemma ConservedPop(s: State, mode: Mode)
    requires Conserved(s) && s.inner.buffer != []
    ensures Conserved(PopStep(s, mode))
  {
    if !mode.Peek? {
      var s' := PopStep(s, mode);
      assert s'.inner.refused == [] && s'.taken == s.taken + multiset(s.inner.refused);
    }
  }

  lemma ConservedStep(s: State, a: Action)
    requires Conserved(s) && Enabled(s, a)
    ensures Conserved(Next(s, a))
  {
    match a
    case Try(t, h, body) => ConservedTry(s, t, h, body);
    case Read(mode) => ConservedTaken(s, a);
    case RecheckRead => ConservedTaken(s, a);
    case Poll => ConservedTaken(s, a);
    case CloseReader => ConservedClose(s, a);
    case CloseEdge(t) => ConservedClose(s, a);
    case WakeOne(e) =>
    case Enter(t) => ConservedPush(s, a);
    case Recheck(t) => ConservedPush(s, a);
    case _ => ConservedQuiet(s, a);
  }

  lemma ConservedPush(s: State, a: Action)
    requires Conserved(s) && Enabled(s, a) && (a.Enter? || a.Recheck?)
    ensures Conserved(Next(s, a))
  {
    var s' := Next(s, a);
    assert (s'.recorded, s'.woken, s'.taken, s'.inner.refused) == (s.recorded, s.woken, s.taken, s.inner.refused);
  }

  lemma ConservedQuiet(s: State, a: Action)
    requires Conserved(s) && Enabled(s, a)
    requires a.Mint? || a.Clone? || a.Schedule? || a.Release? || a.Call? || a.Stir? || a.Signal? || a.SleepReader?
        || a.StirReader?
          || a.NotifyOne? || a.NotifyNone? || a.NotifyAll?
    ensures Conserved(Next(s, a))
  {
    var s' := Next(s, a);
    assert (s'.recorded, s'.woken, s'.taken, s'.inner.refused) == (s.recorded, s.woken, s.taken, s.inner.refused);
  }

  lemma InvStep(s: State, a: Action)
    requires Inv(s) && Enabled(s, a)
    ensures Inv(Next(s, a))
  {
    FifoStep(s, a);
    CountedStep(s, a);
    CoveredStep(s, a);
    AttendedStep(s, a);
    OwedStep(s, a);
    ListedStep(s, a);
    ConservedStep(s, a);
  }

  // ---- every run ----

  ghost predicate Runs(s: State, actions: seq<Action>)
    decreases |actions|
  {
    actions == [] || (Enabled(s, actions[0]) && Runs(Next(s, actions[0]), actions[1..]))
  }

  ghost function Final(s: State, actions: seq<Action>): State
    requires Runs(s, actions)
    decreases |actions|
  {
    if actions == [] then s else Final(Next(s, actions[0]), actions[1..])
  }

  lemma {:induction false} RunKeepsInv(s: State, actions: seq<Action>)
    requires Inv(s) && Runs(s, actions)
    ensures Inv(Final(s, actions))
    decreases |actions|
  {
    if actions != [] {
      InvStep(s, actions[0]);
      RunKeepsInv(Next(s, actions[0]), actions[1..]);
    }
  }

  /** Every reachable state is linearized, counted, covered, attended, and owes its refusals. */
  lemma Always(s: State, actions: seq<Action>)
    requires Init(s) && Runs(s, actions)
    ensures Inv(Final(s, actions))
  {
    NoSleepers(s.threads);
    RunKeepsInv(s, actions);
  }

  /** No thread is between taking the lock and handing on what it owes, and no wake is pending. */
  ghost predicate AtRest(s: State) {
    && (s.reader.Idle? || s.reader.Asleep?)
    && forall t :: 0 <= t < |s.threads| ==> s.threads[t].Resting? || s.threads[t].Blocked?
  }

  /** At rest a sleeping producer faces a full open edge and a sleeping reader an empty open one
      with a live producer; so they are never both asleep. */
  lemma NobodyStranded(s0: State, actions: seq<Action>)
    requires Init(s0) && Runs(s0, actions) && AtRest(Final(s0, actions))
    ensures var s := Final(s0, actions);
      && ((exists t :: 0 <= t < |s.threads| && s.threads[t].Blocked?) ==> !s.inner.closed && s.inner.IsFull())
      && (s.reader.Asleep? ==> s.inner.buffer == [] && !s.inner.closed && Live(s.handles) != {})
      && (s.reader.Asleep? ==> forall t :: 0 <= t < |s.threads| ==> s.threads[t].Resting?)
  {
    var s := Final(s0, actions);
    Always(s0, actions);
    NoSleepers(s.threads);
  }

  /** Whenever a producer sleeps, what is pending covers the free slots; after a close none does. */
  lemma FreeSlotsCovered(s0: State, actions: seq<Action>, t: nat)
    requires Init(s0) && Runs(s0, actions) && t < |Final(s0, actions).threads| && Final(s0, actions).threads[t].Blocked?
    ensures var s := Final(s0, actions);
      && !s.inner.closed && s.inner.bound.Some?
      && (s.reader == Notifying(true)
          || s.inner.bound.value
             <= |s.inner.buffer| + Rousing(s.threads) + if s.reader == Notifying(false) then 1 else 0)
  {
    Always(s0, actions);
    NoSleepers(Final(s0, actions).threads);
  }

  /** A handle answered Stuck is already owed its wake: the edge is full, and the current waker of
      a bound handle is listed for the next drain or close. */
  lemma StuckIsOwed(s0: State, actions: seq<Action>, h: HandleId, m: Letter)
    requires Init(s0) && Runs(s0, actions) && h in Final(s0, actions).handles
    requires TryPush(Final(s0, actions).inner, Final(s0, actions).handles[h], h, m).0.Stuck?
    ensures var s := Final(s0, actions);
      && s.inner.IsFull()
      && (s.handles[h].waker.Some? ==>
            exists k :: 0 <= k < |s.inner.refused| && s.inner.refused[k].handle == h
                && s.inner.refused[k].waker == s.handles[h].waker.value)
  {
    var s := Final(s0, actions);
    Always(s0, actions);
    if s.handles[h].waker.Some? {
      var k :| 0 <= k < |s.inner.refused|
          && s.inner.refused[k] == Entry(h, s.handles[h].binding, s.inner.progress, s.handles[h].waker.value);
    }
  }

  /** A refusal changes no contents, and is Full exactly once per epoch and binding. */
  lemma RefusalKeepsContents(i: Inner, h: Handle, id: HandleId, m: Letter)
    ensures var (answer, h', i') := TryPush(i, h, id, m);
      && (answer.Full? || answer.Stuck? <==> !h.released && !i.closed && i.IsFull())
      && (!answer.Pushed? ==> i'.buffer == i.buffer && i'.progress == i.progress)
      && (answer.Full? ==> forall m' :: TryPush(i', h', id, m').0 == Stuck)
      && (answer.Pushed? ==> i'.buffer == i.buffer + [m])
  {
  }

  function From(letters: seq<Letter>, h: HandleId): seq<Letter> {
    if letters == [] then []
    else From(letters[..|letters| - 1], h) + if letters[|letters| - 1].from == h then [letters[|letters| - 1]] else []
  }

  lemma {:induction false} FromConcat(a: seq<Letter>, b: seq<Letter>, h: HandleId)
    ensures From(a + b, h) == From(a, h) + From(b, h)
    decreases |b|
  {
    if b == [] {
      assert a + b == a;
    } else {
      assert (a + b)[..|a + b| - 1] == a + b[..|b| - 1];
      FromConcat(a, b[..|b| - 1], h);
    }
  }

  /** The edge is a bounded FIFO, per producer too. */
  lemma BoundedFifo(s0: State, actions: seq<Action>, h: HandleId)
    requires Init(s0) && Runs(s0, actions)
    ensures var s := Final(s0, actions);
      && s.popped <= s.accepted && s.accepted == s.popped + s.inner.buffer
      && From(s.popped, h) <= From(s.accepted, h)
      && (s.inner.bound.Some? ==> |s.inner.buffer| <= s.inner.bound.value)
      && s.count == |Live(s.handles)|
  {
    var s := Final(s0, actions);
    Always(s0, actions);
    FromConcat(s.popped, s.inner.buffer, h);
  }

  /** A release that takes the count to zero. */
  ghost predicate ReleasesLast(s: State, a: Action)
    requires Enabled(s, a)
  {
    a.Release? && s.count == 1 && Next(s, a).count == 0
  }

  /** Some step of the run releases the last producer. */
  ghost predicate LastReleased(s: State, actions: seq<Action>)
    requires Runs(s, actions)
    decreases |actions|
  {
    actions != [] && (ReleasesLast(s, actions[0]) || LastReleased(Next(s, actions[0]), actions[1..]))
  }

  /** The reader closes the edge in the run. */
  ghost predicate ReaderCloses(actions: seq<Action>) {
    exists k :: 0 <= k < |actions| && actions[k].CloseReader?
  }

  lemma ReaderClosesFirst(a: Action, rest: seq<Action>)
    ensures ReaderCloses([a] + rest) <==> a.CloseReader? || ReaderCloses(rest)
  {
    var all := [a] + rest;
    assert all[0] == a;
    if k :| 0 <= k < |rest| && rest[k].CloseReader? {
      assert all[k + 1].CloseReader?;
    }
    if k :| 0 < k < |all| && all[k].CloseReader? {
      assert rest[k - 1].CloseReader?;
    }
  }

  /** What a step may do to the closing of the edge, seen from thread `t`. */
  ghost predicate ClosesWell(s: State, a: Action, t: nat)
    requires Enabled(s, a) && t < |s.threads|
  {
    var s' := Next(s, a);
    && |s'.threads| == |s.threads|
    && (!s.threads[t].Closing? && s'.threads[t].Closing? ==> ReleasesLast(s, a))
    && (s.threads[t].Closing? ==> s'.threads[t].Closing? || s'.inner.closed)
  }

  lemma PushClosesWell(s: State, a: Action, t: nat)
    requires Enabled(s, a) && t < |s.threads| && (a.Enter? || a.Recheck?)
    ensures ClosesWell(s, a, t) && Next(s, a).inner.closed == s.inner.closed
  {
  }

  lemma TryClosesWell(s: State, a: Action, t: nat)
    requires Enabled(s, a) && t < |s.threads| && a.Try?
    ensures ClosesWell(s, a, t) && Next(s, a).inner.closed == s.inner.closed
  {
  }

  lemma ThreadClosesWell(s: State, a: Action, t: nat)
    requires Enabled(s, a) && t < |s.threads|
    requires a.Release? || a.CloseEdge? || a.Call? || a.Stir? || a.Signal? || a.NotifyOne?
    ensures ClosesWell(s, a, t) && (a.CloseEdge? || Next(s, a).inner.closed == s.inner.closed)
  {
  }

  lemma ReaderClosesWell(s: State, a: Action, t: nat)
    requires Enabled(s, a) && t < |s.threads|
    requires a.Read? || a.RecheckRead? || a.SleepReader? || a.StirReader? || a.Poll?
    ensures ClosesWell(s, a, t) && Next(s, a).inner.closed == s.inner.closed
  {
  }

  lemma OtherClosesWell(s: State, a: Action, t: nat)
    requires Enabled(s, a) && t < |s.threads|
    requires a.Mint? || a.Clone? || a.Schedule? || a.NotifyNone? || a.NotifyAll? || a.CloseReader? || a.WakeOne?
    ensures ClosesWell(s, a, t)
  {
  }

  lemma EachClosesWell(s: State, a: Action, t: nat)
    requires Enabled(s, a) && t < |s.threads|
    ensures ClosesWell(s, a, t)
  {
    if a.Enter? || a.Recheck? {
      PushClosesWell(s, a, t);
    } else if a.Try? {
      TryClosesWell(s, a, t);
    } else if a.Release? || a.CloseEdge? || a.Call? || a.Stir? || a.Signal? || a.NotifyOne? {
      ThreadClosesWell(s, a, t);
    } else if a.Read? || a.RecheckRead? || a.SleepReader? || a.StirReader? || a.Poll? {
      ReaderClosesWell(s, a, t);
    } else {
      OtherClosesWell(s, a, t);
    }
  }

  lemma ReleasedCloses(s: State, a: Action)
    requires Enabled(s, a) && ReleasesLast(s, a)
    ensures SomeClosing(Next(s, a))
  {
    assert Next(s, a).threads[a.t].Closing?;
  }

  /** The edge is closed by the reader, or by a thread on its way; and stays so. */
  lemma Closes(s: State, a: Action)
    requires Enabled(s, a)
    ensures s.inner.closed || a.CloseReader? ==> Next(s, a).inner.closed
    ensures !s.inner.closed && Next(s, a).inner.closed ==> a.CloseReader? || (a.CloseEdge? && SomeClosing(s))
    ensures |Next(s, a).threads| == |s.threads|
  {
    if a.CloseEdge? {
      assert s.threads[a.t].Closing?;
    } else if a.Enter? || a.Recheck? {
      PushClosesWell(s, a, a.t);
    } else if a.Try? {
      TryClosesWell(s, a, a.t);
    }
  }

  /** One step: a thread is closing, or the edge is closed, only if it was, or this step began it. */
  lemma FinishStep(s: State, a: Action)
    requires Enabled(s, a)
    ensures SomeClosing(Next(s, a)) ==> SomeClosing(s) || ReleasesLast(s, a)
    ensures s.inner.closed || SomeClosing(s) || a.CloseReader? || ReleasesLast(s, a) <==>
            Next(s, a).inner.closed || SomeClosing(Next(s, a))
  {
    Closes(s, a);
    if ReleasesLast(s, a) {
      ReleasedCloses(s, a);
    }
    forall t: nat | t < |s.threads| ensures ClosesWell(s, a, t) {
      EachClosesWell(s, a, t);
    }
    if t: nat :| t < |s.threads| && s.threads[t].Closing? {
      assert ClosesWell(s, a, t);
    }
    if t: nat :| t < |Next(s, a).threads| && Next(s, a).threads[t].Closing? {
      assert ClosesWell(s, a, t);
    }
  }

  lemma {:induction false} RunFinishes(s: State, actions: seq<Action>)
    requires Runs(s, actions)
    ensures var f := Final(s, actions);
      && (SomeClosing(f) ==> SomeClosing(s) || LastReleased(s, actions))
      && (s.inner.closed || ReaderCloses(actions) ==> f.inner.closed)
      && (s.inner.closed || SomeClosing(s) || ReaderCloses(actions) || LastReleased(s, actions) <==>
          f.inner.closed || SomeClosing(f))
    decreases |actions|
  {
    if actions != [] {
      FinishStep(s, actions[0]);
      Closes(s, actions[0]);
      RunFinishes(Next(s, actions[0]), actions[1..]);
      ReaderClosesFirst(actions[0], actions[1..]);
      assert actions == [actions[0]] + actions[1..];
    }
  }

  lemma StartsOpen(s: State)
    requires Init(s)
    ensures !s.inner.closed && !SomeClosing(s)
  {
  }

  /** In any run the edge is closed only by the reader, or after a release of the last producer. */
  lemma ClosesOnlyBy(s0: State, actions: seq<Action>)
    requires Init(s0) && Runs(s0, actions)
    ensures Final(s0, actions).inner.closed ==> ReaderCloses(actions) || LastReleased(s0, actions)
    ensures ReaderCloses(actions) ==> Final(s0, actions).inner.closed
  {
    StartsOpen(s0);
    RunFinishes(s0, actions);
  }

  /** Once the last producer is released, a thread is closing the edge until it is closed; and only
      then does a thread set out to close it. */
  lemma LastReleaseCloses(s0: State, actions: seq<Action>)
    requires Init(s0) && Runs(s0, actions)
    ensures LastReleased(s0, actions) ==> Final(s0, actions).inner.closed || SomeClosing(Final(s0, actions))
    ensures SomeClosing(Final(s0, actions)) ==> LastReleased(s0, actions)
  {
    StartsOpen(s0);
    RunFinishes(s0, actions);
  }

  lemma ClosedStep(s: State, a: Action)
    requires s.inner.closed && Enabled(s, a)
    ensures Next(s, a).inner.closed && Next(s, a).accepted == s.accepted && s.popped <= Next(s, a).popped
  {
    if a.Read? || a.RecheckRead? || a.Poll? {
      ClosedRead(s, a);
    } else {
      ClosedOther(s, a);
    }
  }

  lemma ClosedRead(s: State, a: Action)
    requires s.inner.closed && Enabled(s, a) && (a.Read? || a.RecheckRead? || a.Poll?)
    ensures Next(s, a).inner.closed && Next(s, a).accepted == s.accepted && s.popped <= Next(s, a).popped
  {
  }

  lemma ClosedOther(s: State, a: Action)
    requires s.inner.closed && Enabled(s, a) && !a.Read? && !a.RecheckRead? && !a.Poll?
    ensures Next(s, a).inner.closed && Next(s, a).accepted == s.accepted && s.popped == Next(s, a).popped
  {
  }

  /** After a close nothing lands, and what was accepted before it stays to be read. */
  lemma {:induction false} ClosedStaysReadable(s: State, actions: seq<Action>)
    requires Inv(s) && s.inner.closed && Runs(s, actions)
    ensures var f := Final(s, actions);
      && f.inner.closed && f.accepted == s.accepted && s.popped <= f.popped <= s.accepted
      && f.inner.buffer == s.accepted[|f.popped|..]
    decreases |actions|
  {
    if actions != [] {
      InvStep(s, actions[0]);
      ClosedStep(s, actions[0]);
      ClosedStaysReadable(Next(s, actions[0]), actions[1..]);
    }
  }

  /** A blocking read that gives up leaves nothing unread. */
  lemma GivingUpLeavesNothing(s0: State, actions: seq<Action>, mode: Mode)
    requires Init(s0) && Runs(s0, actions)
    ensures var s := Final(s0, actions);
      ReadStep(s, mode) == s.(reader := Idle) && !mode.Peek? ==>
          s.popped == s.accepted && (s.inner.closed || Live(s.handles) == {})
  {
    Always(s0, actions);
  }
}
