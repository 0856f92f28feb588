/** The protocol of the bounded blocking queue: what each critical section does to the fields
    behind the lock, and the transition system of any number of threads calling `get` and `put`.
    One step is the code between taking the lock and the next wait or unlock. */
module Monitor {

  // ---------------------------------------------------------------- critical sections

  /** The fields behind the lock; the linked list is the sequence of what it holds. */
  datatype Queue<T> = Queue(items: seq<T>, maxSize: int, overFlag: int, freeWait: int, fullWait: int)

  const DEFAULT_SIZE := 100

  function EmptyQueue<T>(): Queue<T> {
    Queue([], DEFAULT_SIZE, 0, 0, 0)
  }

  datatype GetOutcome<T> = GetWaits | GetNull | Got(item: T)

  datatype GetResult<T> = GetResult(queue: Queue<T>, outcome: GetOutcome<T>, signalsFull: bool)

  /** `get` from the loop test to the wait, or to the unlock. */
  function GetSection<T>(q: Queue<T>): GetResult<T> {
    if q.items == [] && q.overFlag == 0 then
      GetResult(q.(freeWait := q.freeWait + 1), GetWaits, false)
    else if q.overFlag != 0 then
      GetResult(q, GetNull, false)
    else
      var signals := q.fullWait > 0;
      GetResult(q.(items := q.items[1..], fullWait := if signals then q.fullWait - 1 else q.fullWait),
                Got(q.items[0]), signals)
  }

  datatype PutResult<T> = PutResult(queue: Queue<T>, waits: bool, signalsFree: bool)

  /** `put` from the loop test to the wait, or to the unlock. */
  function PutSection<T>(q: Queue<T>, x: T): PutResult<T> {
    if |q.items| >= q.maxSize then
      PutResult(q.(fullWait := q.fullWait + 1), true, false)
    else
      var signals := q.freeWait > 0;
      PutResult(q.(items := q.items + [x], freeWait := if signals then q.freeWait - 1 else q.freeWait),
                false, signals)
  }

  function SizeSection<T>(q: Queue<T>, size: int): Queue<T> {
    if size > |q.items| then q.(maxSize := size) else q
  }

  // ---------------------------------------------------------------- threads

  datatype Call<T> = Get | Put(item: T)

  /** Ready: outside the lock. Blocked: in the wait of its first call. Woken: out of that wait,
      about to test the loop condition again. */
  datatype Phase = Ready | Blocked | Woken

  datatype Thread<T> = Thread(todo: seq<Call<T>>, phase: Phase)

  datatype Role = Finished | ReadyGet | ReadyPut | BlockedGet | BlockedPut | WokenGet | WokenPut

  function RoleOf<T>(t: Thread<T>): Role {
    if t.todo == [] then Finished
    else match t.todo[0]
      case Get => (match t.phase case Ready => ReadyGet case Blocked => BlockedGet case Woken => WokenGet)
      case Put(_) => (match t.phase case Ready => ReadyPut case Blocked => BlockedPut case Woken => WokenPut)
  }

  predicate CanRun(r: Role) {
    r == ReadyGet || r == ReadyPut || r == WokenGet || r == WokenPut
  }

  function Count<T>(ts: seq<Thread<T>>, r: Role): nat {
    if ts == [] then 0 else Count(ts[..|ts| - 1], r) + if RoleOf(ts[|ts| - 1]) == r then 1 else 0
  }

  /** How an item left the queue: handed to a thread by `get`, or deleted by `resetqueue`. */
  datatype Departure<T> = Delivered(receiver: nat, item: T) | Destroyed(item: T)

  datatype State<T> = State(
    queue: Queue<T>,
    threads: seq<Thread<T>>,
    entered: seq<T>,            // everything linked into the list, in order
    departed: seq<Departure<T>> // everything taken out of it, in order
  )

  /** One atomic step. `wakes` is the thread that the signal of the step releases, when some
      thread waits for it; a signal to nobody is lost. */
  datatype Action =
    | Run(thread: nat, wakes: nat)
    | Spurious(thread: nat)
    | ReleaseFree
    | SetSize(size: int)
    | SetFlag(flag: int)
    | Reset

  function Finish<T>(t: Thread<T>): Thread<T>
    requires t.todo != []
  {
    Thread(t.todo[1..], Ready)
  }

  function Wake<T>(ts: seq<Thread<T>>, w: nat, waiting: Role): seq<Thread<T>> {
    if w < |ts| && RoleOf(ts[w]) == waiting then ts[w := ts[w].(phase := Woken)] else ts
  }

  predicate SignalOk<T>(ts: seq<Thread<T>>, w: nat, waiting: Role) {
    Count(ts, waiting) > 0 ==> w < |ts| && RoleOf(ts[w]) == waiting
  }

  predicate Enabled<T>(s: State<T>, a: Action) {
    match a
    case Run(t, w) =>
      t < |s.threads| && CanRun(RoleOf(s.threads[t])) &&
      (match s.threads[t].todo[0]
       case Get => GetSection(s.queue).signalsFull ==> SignalOk(s.threads, w, BlockedPut)
       case Put(x) => PutSection(s.queue, x).signalsFree ==> SignalOk(s.threads, w, BlockedGet))
    case Spurious(t) => t < |s.threads| && s.threads[t].todo != [] && s.threads[t].phase == Blocked
    case _ => true
  }

  function Apply<T>(s: State<T>, a: Action): State<T>
    requires Enabled(s, a)
  {
    match a
    case Run(t, w) =>
      (match s.threads[t].todo[0]
       case Get => ApplyGet(s, t, w)
       case Put(x) => ApplyPut(s, t, w, x))
    case Spurious(t) => s.(threads := s.threads[t := s.threads[t].(phase := Woken)])
    case ReleaseFree => s.(threads := WakeAll(s.threads))
    case SetSize(n) => s.(queue := SizeSection(s.queue, n))
    case SetFlag(f) => s.(queue := s.queue.(overFlag := f))
    case Reset => s.(queue := EmptyQueue(), departed := s.departed + DestroyAll(s.queue.items))
  }

  function ApplyGet<T>(s: State<T>, t: nat, w: nat): State<T>
    requires t < |s.threads| && s.threads[t].todo != []
  {
    var r := GetSection(s.queue);
    match r.outcome
    case GetWaits => s.(queue := r.queue, threads := s.threads[t := s.threads[t].(phase := Blocked)])
    case GetNull => s.(queue := r.queue, threads := s.threads[t := Finish(s.threads[t])])
    case Got(x) =>
      var ts := if r.signalsFull then Wake(s.threads, w, BlockedPut) else s.threads;
      State(r.queue, ts[t := Finish(s.threads[t])], s.entered, s.departed + [Delivered(t, x)])
  }

  function ApplyPut<T>(s: State<T>, t: nat, w: nat, x: T): State<T>
    requires t < |s.threads| && s.threads[t].todo != []
  {
    var r := PutSection(s.queue, x);
    if r.waits then
      s.(queue := r.queue, threads := s.threads[t := s.threads[t].(phase := Blocked)])
    else
      var ts := if r.signalsFree then Wake(s.threads, w, BlockedGet) else s.threads;
      State(r.queue, ts[t := Finish(s.threads[t])], s.entered + [x], s.departed)
  }

  function WakeAll<T>(ts: seq<Thread<T>>): (r: seq<Thread<T>>)
    ensures |r| == |ts|
    ensures forall i | 0 <= i < |ts| ::
              r[i] == if RoleOf(ts[i]) == BlockedGet then ts[i].(phase := Woken) else ts[i]
  {
    seq(|ts|, i requires 0 <= i < |ts| =>
        if RoleOf(ts[i]) == BlockedGet then ts[i].(phase := Woken) else ts[i])
  }

  function DestroyAll<T>(items: seq<T>): (r: seq<Departure<T>>)
    ensures |r| == |items| && forall i | 0 <= i < |items| :: r[i] == Destroyed(items[i])
  {
    seq(|items|, i requires 0 <= i < |items| => Destroyed(items[i]))
  }

  function Start<T>(programs: seq<seq<Call<T>>>): State<T> {
    State(EmptyQueue(), seq(|programs|, i requires 0 <= i < |programs| => Thread(programs[i], Ready)), [], [])
  }

  /** A run is a sequence of actions, each enabled where it happens. Its prefixes are runs, so
      what holds at the end of every run holds in every reachable state. */
  predicate IsRun<T>(s: State<T>, acts: seq<Action>)
    decreases |acts|
  {
    acts == [] || (Enabled(s, acts[0]) && IsRun(Apply(s, acts[0]), acts[1..]))
  }

  function Exec<T>(s: State<T>, acts: seq<Action>): State<T>
    requires IsRun(s, acts)
    decreases |acts|
  {
    if acts == [] then s else Exec(Apply(s, acts[0]), acts[1..])
  }

  // ---------------------------------------------------------------- counting threads

  lemma {:induction false} CountUpdate<T>(ts: seq<Thread<T>>, i: nat, t: Thread<T>, r: Role)
    requires i < |ts|
    ensures Count(ts[i := t], r) ==
            Count(ts, r) - (if RoleOf(ts[i]) == r then 1 else 0) + (if RoleOf(t) == r then 1 else 0)
  {
    var n := |ts| - 1;
    if i == n {
      assert ts[i := t][..n] == ts[..n];
    } else {
      assert ts[i := t][..n] == ts[..n][i := t];
      CountUpdate(ts[..n], i, t, r);
    }
  }

  lemma {:induction false} CountMember<T>(ts: seq<Thread<T>>, i: nat, r: Role)
    requires i < |ts| && RoleOf(ts[i]) == r
    ensures Count(ts, r) > 0
  {
    if i < |ts| - 1 {
      CountMember(ts[..|ts| - 1], i, r);
    }
  }

  lemma {:induction false} CountWitness<T>(ts: seq<Thread<T>>, r: Role) returns (i: nat)
    requires Count(ts, r) > 0
    ensures i < |ts| && RoleOf(ts[i]) == r
  {
    i := |ts| - 1;
    if RoleOf(ts[i]) != r {
      i := CountWitness(ts[..|ts| - 1], r);
    }
  }

  lemma {:induction false} CountWakeAll<T>(ts: seq<Thread<T>>)
    ensures Count(WakeAll(ts), BlockedGet) == 0
    ensures Count(WakeAll(ts), BlockedPut) == Count(ts, BlockedPut)
    ensures Count(WakeAll(ts), WokenPut) == Count(ts, WokenPut)
  {
    if ts != [] {
      assert WakeAll(ts)[..|ts| - 1] == WakeAll(ts[..|ts| - 1]);
      CountWakeAll(ts[..|ts| - 1]);
    }
  }

  /** What a step of a running thread does to the counts: the thread itself and the woken one. */
  lemma CountAfter<T>(ts: seq<Thread<T>>, t: nat, t': Thread<T>, w: nat, waiting: Role, r: Role)
    requires t < |ts| && CanRun(RoleOf(ts[t])) && SignalOk(ts, w, waiting)
    requires waiting == BlockedGet || waiting == BlockedPut
    ensures var hit := if Count(ts, waiting) > 0 then 1 else 0;
            var woken := if waiting == BlockedGet then WokenGet else WokenPut;
            Count(Wake(ts, w, waiting)[t := t'], r) ==
            Count(ts, r) - (if RoleOf(ts[t]) == r then 1 else 0) + (if RoleOf(t') == r then 1 else 0)
            - (if r == waiting then hit else 0) + (if r == woken then hit else 0)
  {
    var ts' := Wake(ts, w, waiting);
    if w < |ts| && RoleOf(ts[w]) == waiting {
      CountMember(ts, w, waiting);
      CountUpdate(ts, w, ts[w].(phase := Woken), r);
    }
    CountUpdate(ts', t, t', r);
  }

  // ---------------------------------------------------------------- no lost wakeup

  /** The inductive invariant. The two counters over-approximate the waiting threads, and
      whoever waits is covered: for each item there is a woken consumer, for each free slot a
      woken producer. */
  ghost predicate NoLostWakeup<T>(s: State<T>) {
    var q, ts := s.queue, s.threads;
    && q.overFlag == 0 && 1 <= q.maxSize && |q.items| <= q.maxSize
    && q.freeWait >= Count(ts, BlockedGet)
    && q.fullWait >= Count(ts, BlockedPut)
    && (Count(ts, BlockedGet) > 0 ==> Count(ts, WokenGet) >= |q.items|)
    && (Count(ts, BlockedPut) > 0 ==> Count(ts, WokenPut) >= q.maxSize - |q.items|)
  }

  /** The steps that keep that promise: everything but raising the flag, a reset over a waiting
      thread, and raising the capacity over a waiting producer by more slots than there are
      woken producers to take them. */
  ghost predicate Calm<T>(s: State<T>, a: Action) {
    match a
    case SetFlag(f) => f == 0
    case SetSize(n) => Count(s.threads, BlockedPut) == 0 || Count(s.threads, WokenPut) >= n - |s.queue.items|
    case Reset => Count(s.threads, BlockedGet) == 0 && Count(s.threads, BlockedPut) == 0
    case _ => true
  }

  lemma GetKeepsWakeups<T>(s: State<T>, t: nat, w: nat)
    requires NoLostWakeup(s) && Enabled(s, Run(t, w)) && s.threads[t].todo[0] == Get
    ensures NoLostWakeup(ApplyGet(s, t, w))
  {
    var ts := s.threads;
    var r := GetSection(s.queue);
    var t' := if r.outcome == GetWaits then ts[t].(phase := Blocked) else Finish(ts[t]);
    assert RoleOf(t') != WokenGet && RoleOf(t') != WokenPut && RoleOf(t') != BlockedPut;
    CountMember(ts, t, RoleOf(ts[t]));
    if r.signalsFull {
      CountAfter(ts, t, t', w, BlockedPut, BlockedGet);
      CountAfter(ts, t, t', w, BlockedPut, BlockedPut);
      CountAfter(ts, t, t', w, BlockedPut, WokenGet);
      CountAfter(ts, t, t', w, BlockedPut, WokenPut);
    } else {
      CountUpdate(ts, t, t', BlockedGet);
      CountUpdate(ts, t, t', BlockedPut);
      CountUpdate(ts, t, t', WokenGet);
      CountUpdate(ts, t, t', WokenPut);
    }
  }

  lemma PutKeepsWakeups<T>(s: State<T>, t: nat, w: nat, x: T)
    requires NoLostWakeup(s) && Enabled(s, Run(t, w)) && s.threads[t].todo[0] == Put(x)
    ensures NoLostWakeup(ApplyPut(s, t, w, x))
  {
    var ts := s.threads;
    var r := PutSection(s.queue, x);
    var t' := if r.waits then ts[t].(phase := Blocked) else Finish(ts[t]);
    assert RoleOf(t') != WokenGet && RoleOf(t') != WokenPut && RoleOf(t') != BlockedGet;
    CountMember(ts, t, RoleOf(ts[t]));
    if r.signalsFree {
      CountAfter(ts, t, t', w, BlockedGet, BlockedGet);
      CountAfter(ts, t, t', w, BlockedGet, BlockedPut);
      CountAfter(ts, t, t', w, BlockedGet, WokenGet);
      CountAfter(ts, t, t', w, BlockedGet, WokenPut);
    } else {
      CountUpdate(ts, t, t', BlockedGet);
      CountUpdate(ts, t, t', BlockedPut);
      CountUpdate(ts, t, t', WokenGet);
      CountUpdate(ts, t, t', WokenPut);
    }
  }

  lemma SpuriousKeepsWakeups<T>(s: State<T>, t: nat)
    requires NoLostWakeup(s) && Enabled(s, Spurious(t))
    ensures NoLostWakeup(Apply(s, Spurious(t)))
  {
    var t' := s.threads[t].(phase := Woken);
    CountUpdate(s.threads, t, t', BlockedGet);
    CountUpdate(s.threads, t, t', BlockedPut);
    CountUpdate(s.threads, t, t', WokenGet);
    CountUpdate(s.threads, t, t', WokenPut);
  }

  /** One step from any state that keeps the promise: it keeps it if and only if it is calm. */
  lemma StepKeepsWakeupsIff<T>(s: State<T>, a: Action)
    requires NoLostWakeup(s) && Enabled(s, a)
    ensures NoLostWakeup(Apply(s, a)) <==> Calm(s, a)
  {
    match a
    case Run(t, w) =>
      match s.threads[t].todo[0] {
        case Get => GetKeepsWakeups(s, t, w);
        case Put(x) => PutKeepsWakeups(s, t, w, x);
      }
    case Spurious(t) => SpuriousKeepsWakeups(s, t);
    case ReleaseFree => CountWakeAll(s.threads);
    case _ =>
  }

  ghost predicate CalmRun<T>(s: State<T>, acts: seq<Action>)
    requires IsRun(s, acts)
    decreases |acts|
  {
    acts == [] || (Calm(s, acts[0]) && CalmRun(Apply(s, acts[0]), acts[1..]))
  }

  /** In every reachable state of every calm run no wakeup is lost; so a state in which no
      thread can move never has waiting consumers beside an item, nor waiting producers beside
      a free slot, nor both kinds of waiters at once. */
  lemma {:induction false} NoWakeupIsLost<T>(s: State<T>, acts: seq<Action>)
    requires NoLostWakeup(s) && IsRun(s, acts) && CalmRun(s, acts)
    ensures NoLostWakeup(Exec(s, acts))
    ensures Stuck(Exec(s, acts)) ==>
              var e := Exec(s, acts);
              && (Count(e.threads, BlockedGet) > 0 ==> e.queue.items == [])
              && (Count(e.threads, BlockedPut) > 0 ==> |e.queue.items| == e.queue.maxSize)
              && !(Count(e.threads, BlockedGet) > 0 && Count(e.threads, BlockedPut) > 0)
    decreases |acts|
  {
    if acts == [] {
      if Stuck(s) {
        StuckHasNoWoken(s);
      }
    } else {
      StepKeepsWakeupsIff(s, acts[0]);
      NoWakeupIsLost(Apply(s, acts[0]), acts[1..]);
    }
  }

  ghost predicate Stuck<T>(s: State<T>) {
    forall i | 0 <= i < |s.threads| :: !CanRun(RoleOf(s.threads[i]))
  }

  lemma StuckHasNoWoken<T>(s: State<T>)
    requires Stuck(s)
    ensures Count(s.threads, WokenGet) == 0 && Count(s.threads, WokenPut) == 0
  {
    if Count(s.threads, WokenGet) > 0 {
      var i := CountWitness(s.threads, WokenGet);
    }
    if Count(s.threads, WokenPut) > 0 {
      var i := CountWitness(s.threads, WokenPut);
    }
  }

  lemma {:induction false} NobodyWaitsAtFirst<T>(ts: seq<Thread<T>>)
    requires forall i | 0 <= i < |ts| :: ts[i].phase == Ready
    ensures Count(ts, BlockedGet) == 0 && Count(ts, BlockedPut) == 0
  {
    if ts != [] {
      NobodyWaitsAtFirst(ts[..|ts| - 1]);
    }
  }

  lemma StartHasNoLostWakeup<T>(programs: seq<seq<Call<T>>>)
    ensures NoLostWakeup(Start(programs))
  {
    NobodyWaitsAtFirst(Start(programs).threads);
  }

  /** Raising the capacity signals nobody: this producer sleeps beside a free slot. */
  lemma SetSizeCanStrandProducer()
    ensures var s := Start([[Put(1), Put(2)]]);
            var acts := [SetSize(1), Run(0, 0), Run(0, 0), SetSize(2)];
            IsRun(s, acts) && Stuck(Exec(s, acts))
            && Count(Exec(s, acts).threads, BlockedPut) == 1
            && |Exec(s, acts).queue.items| < Exec(s, acts).queue.maxSize
  {
  }

  /** A reset empties the queue, wakes nobody and forgets who waits. */
  lemma ResetCanStrandProducer()
    ensures var s := Start([[Put(1), Put(2)]]);
            var acts := [SetSize(1), Run(0, 0), Run(0, 0), Reset];
            IsRun(s, acts) && Stuck(Exec(s, acts))
            && Count(Exec(s, acts).threads, BlockedPut) == 1
            && Exec(s, acts).queue.items == [] && Exec(s, acts).queue.fullWait == 0
  {
  }

  // ---------------------------------------------------------------- exact counters

  /** The counters are the numbers of waiting threads. */
  predicate CountsExact<T>(s: State<T>) {
    s.queue.freeWait == Count(s.threads, BlockedGet) && s.queue.fullWait == Count(s.threads, BlockedPut)
  }

  /** The steps that wake nobody behind the counters' back, and forget nobody. */
  predicate Counted<T>(s: State<T>, a: Action) {
    match a
    case Spurious(_) => false
    case ReleaseFree => Count(s.threads, BlockedGet) == 0
    case Reset => Count(s.threads, BlockedGet) == 0 && Count(s.threads, BlockedPut) == 0
    case _ => true
  }

  lemma GetKeepsCounts<T>(s: State<T>, t: nat, w: nat)
    requires CountsExact(s) && Enabled(s, Run(t, w)) && s.threads[t].todo[0] == Get
    ensures CountsExact(ApplyGet(s, t, w))
    ensures GetSection(s.queue).signalsFull ==> Count(s.threads, BlockedPut) > 0
  {
    var ts := s.threads;
    var r := GetSection(s.queue);
    var t' := if r.outcome == GetWaits then ts[t].(phase := Blocked) else Finish(ts[t]);
    if r.signalsFull {
      CountAfter(ts, t, t', w, BlockedPut, BlockedGet);
      CountAfter(ts, t, t', w, BlockedPut, BlockedPut);
    } else {
      CountUpdate(ts, t, t', BlockedGet);
      CountUpdate(ts, t, t', BlockedPut);
    }
  }

  lemma PutKeepsCounts<T>(s: State<T>, t: nat, w: nat, x: T)
    requires CountsExact(s) && Enabled(s, Run(t, w)) && s.threads[t].todo[0] == Put(x)
    ensures CountsExact(ApplyPut(s, t, w, x))
    ensures PutSection(s.queue, x).signalsFree ==> Count(s.threads, BlockedGet) > 0
  {
    var ts := s.threads;
    var r := PutSection(s.queue, x);
    var t' := if r.waits then ts[t].(phase := Blocked) else Finish(ts[t]);
    if r.signalsFree {
      CountAfter(ts, t, t', w, BlockedGet, BlockedGet);
      CountAfter(ts, t, t', w, BlockedGet, BlockedPut);
    } else {
      CountUpdate(ts, t, t', BlockedGet);
      CountUpdate(ts, t, t', BlockedPut);
    }
  }

  /** A step keeps the counters exact if and only if it is no spurious wakeup, no release of
      waiting consumers and no reset over waiting threads. */
  lemma StepKeepsCountsIff<T>(s: State<T>, a: Action)
    requires CountsExact(s) && Enabled(s, a)
    ensures CountsExact(Apply(s, a)) <==> Counted(s, a)
  {
    match a
    case Run(t, w) =>
      match s.threads[t].todo[0] {
        case Get => GetKeepsCounts(s, t, w);
        case Put(x) => PutKeepsCounts(s, t, w, x);
      }
    case Spurious(t) =>
      CountUpdate(s.threads, t, s.threads[t].(phase := Woken), BlockedGet);
      CountUpdate(s.threads, t, s.threads[t].(phase := Woken), BlockedPut);
    case ReleaseFree => CountWakeAll(s.threads);
    case _ =>
  }

  /** So they are exact in every reachable state of every run without such steps, and no signal
      there goes to nobody. */
  lemma {:induction false} CountsAreExact<T>(s: State<T>, acts: seq<Action>)
    requires CountsExact(s) && IsRun(s, acts) && forall a | a in acts :: a.Run? || a.SetSize? || a.SetFlag?
    ensures CountsExact(Exec(s, acts))
    decreases |acts|
  {
    if acts != [] {
      assert acts[0] in acts;
      StepKeepsCountsIff(s, acts[0]);
      CountsAreExact(Apply(s, acts[0]), acts[1..]);
    }
  }

  lemma StartCountsExactly<T>(programs: seq<seq<Call<T>>>)
    ensures CountsExact(Start(programs))
  {
    NobodyWaitsAtFirst(Start(programs).threads);
  }

  // ---------------------------------------------------------------- forgotten waiters

  function WaitCount<T>(q: Queue<T>, r: Role): int {
    if r == BlockedGet then q.freeWait else q.fullWait
  }

  /** The step leaves its thread asleep in this role. */
  predicate FallsAsleep<T>(s: State<T>, a: Action, r: Role)
    requires Enabled(s, a)
  {
    a.Run? && RoleOf(Apply(s, a).threads[a.thread]) == r
  }

  /** Thread p is not woken by chance, no release comes for consumers, and nobody else falls
      asleep in the role. */
  predicate NobodyJoins<T>(s: State<T>, acts: seq<Action>, p: nat, r: Role)
    requires IsRun(s, acts)
    decreases |acts|
  {
    acts == [] ||
    (acts[0] != Spurious(p) && (r == BlockedGet ==> acts[0] != ReleaseFree) && !FallsAsleep(s, acts[0], r)
     && NobodyJoins(Apply(s, acts[0]), acts[1..], p, r))
  }

  lemma ForgottenStep<T>(s: State<T>, a: Action, p: nat, r: Role)
    requires r == BlockedGet || r == BlockedPut
    requires p < |s.threads| && RoleOf(s.threads[p]) == r && WaitCount(s.queue, r) <= 0 && Enabled(s, a)
    requires a != Spurious(p) && (r == BlockedGet ==> a != ReleaseFree) && !FallsAsleep(s, a, r)
    ensures var s' := Apply(s, a);
            p < |s'.threads| && s'.threads[p] == s.threads[p] && WaitCount(s'.queue, r) <= 0
  {
  }

  /** A waiter that its counter has forgotten sleeps on, whatever the other threads put and get
      and however the queue is resized or reset, until another thread falls asleep beside it. */
  lemma {:induction false} ForgottenWaiterSleepsOn<T>(s: State<T>, acts: seq<Action>, p: nat, r: Role)
    requires r == BlockedGet || r == BlockedPut
    requires p < |s.threads| && RoleOf(s.threads[p]) == r && WaitCount(s.queue, r) <= 0
    requires IsRun(s, acts) && NobodyJoins(s, acts, p, r)
    ensures p < |Exec(s, acts).threads| && Exec(s, acts).threads[p] == s.threads[p]
    decreases |acts|
  {
    if acts != [] {
      ForgottenStep(s, acts[0], p, r);
      ForgottenWaiterSleepsOn(Apply(s, acts[0]), acts[1..], p, r);
    }
  }

  /** So a reset strands everyone who waits, in every continuation without such a sleeper. */
  lemma ResetStrandsWaiters<T>(s: State<T>, acts: seq<Action>, p: nat)
    requires p < |s.threads| && IsRun(Apply(s, Reset), acts)
    requires RoleOf(s.threads[p]) == BlockedGet || RoleOf(s.threads[p]) == BlockedPut
    requires NobodyJoins(Apply(s, Reset), acts, p, RoleOf(s.threads[p]))
    ensures var e := Exec(Apply(s, Reset), acts);
            p < |e.threads| && e.threads[p] == s.threads[p]
  {
    ForgottenWaiterSleepsOn(Apply(s, Reset), acts, p, RoleOf(s.threads[p]));
  }

  // ---------------------------------------------------------------- termination and completion

  function CallsLeft<T>(ts: seq<Thread<T>>): nat {
    if ts == [] then 0 else CallsLeft(ts[..|ts| - 1]) + |ts[|ts| - 1].todo|
  }

  function Runnable<T>(ts: seq<Thread<T>>): (n: nat)
    ensures n <= |ts|
  {
    if ts == [] then 0 else Runnable(ts[..|ts| - 1]) + if CanRun(RoleOf(ts[|ts| - 1])) then 1 else 0
  }

  lemma {:induction false} RunnableUpdate<T>(ts: seq<Thread<T>>, i: nat, t: Thread<T>)
    requires i < |ts|
    ensures CallsLeft(ts[i := t]) == CallsLeft(ts) - |ts[i].todo| + |t.todo|
    ensures Runnable(ts[i := t]) ==
            Runnable(ts) - (if CanRun(RoleOf(ts[i])) then 1 else 0) + (if CanRun(RoleOf(t)) then 1 else 0)
  {
    var n := |ts| - 1;
    if i == n {
      assert ts[i := t][..n] == ts[..n];
    } else {
      assert ts[i := t][..n] == ts[..n][i := t];
      RunnableUpdate(ts[..n], i, t);
    }
  }

  /** Every step of a thread finishes a call, or leaves the calls as they are and takes one
      thread out of the running: (calls left, runnable threads) drops lexicographically. */
  lemma StepDropsMeasure<T>(s: State<T>, t: nat, w: nat)
    requires Enabled(s, Run(t, w))
    ensures var s' := Apply(s, Run(t, w));
            && |s'.threads| == |s.threads|
            && (CallsLeft(s'.threads) < CallsLeft(s.threads)
                || (CallsLeft(s'.threads) == CallsLeft(s.threads) && Runnable(s'.threads) < Runnable(s.threads)))
  {
    var ts := s.threads;
    match ts[t].todo[0] {
      case Get =>
        if GetSection(s.queue).outcome == GetWaits {
          RunnableUpdate(ts, t, ts[t].(phase := Blocked));
        } else {
          CallsAfter(ts, t, if GetSection(s.queue).signalsFull then w else |ts|, BlockedPut);
        }
      case Put(x) =>
        if PutSection(s.queue, x).waits {
          RunnableUpdate(ts, t, ts[t].(phase := Blocked));
        } else {
          CallsAfter(ts, t, if PutSection(s.queue, x).signalsFree then w else |ts|, BlockedGet);
        }
    }
  }

  lemma CallsAfter<T>(ts: seq<Thread<T>>, t: nat, w: nat, waiting: Role)
    requires t < |ts| && ts[t].todo != []
    ensures CallsLeft(Wake(ts, w, waiting)[t := Finish(ts[t])]) == CallsLeft(ts) - 1
  {
    if w < |ts| {
      RunnableUpdate(ts, w, ts[w].(phase := Woken));
    }
    RunnableUpdate(Wake(ts, w, waiting), t, Finish(ts[t]));
  }

  predicate OnlyRuns(acts: seq<Action>) {
    forall a | a in acts :: a.Run?
  }

  /** So a run without spurious wakeups ends: its length is bounded by its start. */
  lemma {:induction false} RunsAreBounded<T>(s: State<T>, acts: seq<Action>)
    requires IsRun(s, acts) && OnlyRuns(acts)
    ensures |acts| <= CallsLeft(s.threads) * (|s.threads| + 1) + Runnable(s.threads)
    decreases |acts|
  {
    if acts != [] {
      var a := acts[0];
      assert a in acts;
      StepDropsMeasure(s, a.thread, a.wakes);
      var s' := Apply(s, a);
      RunsAreBounded(s', acts[1..]);
      LexicographicDrop(CallsLeft(s'.threads), CallsLeft(s.threads),
                        Runnable(s'.threads), Runnable(s.threads), |s.threads| + 1);
    }
  }

  lemma LexicographicDrop(c': nat, c: nat, r': nat, r: nat, n: nat)
    requires r' < n && (c' < c || (c' == c && r' < r))
    ensures c' * n + r' < c * n + r
  {
    if c' < c {
      assert c' * n + n == (c' + 1) * n <= c * n;
    }
  }

  function GetsLeft<T>(ts: seq<Thread<T>>): nat {
    if ts == [] then 0 else GetsLeft(ts[..|ts| - 1]) + Gets(ts[|ts| - 1].todo)
  }

  function Gets<T>(cs: seq<Call<T>>): (n: nat)
    ensures n <= |cs|
  {
    if cs == [] then 0 else (if cs[0].Get? then 1 else 0) + Gets(cs[1..])
  }

  /** No put comes behind a get. */
  predicate PutsFirst<T>(cs: seq<Call<T>>) {
    cs == [] || if cs[0].Get? then Gets(cs) == |cs| else PutsFirst(cs[1..])
  }

  predicate AllPutsFirst<T>(ts: seq<Thread<T>>) {
    forall i | 0 <= i < |ts| :: PutsFirst(ts[i].todo)
  }

  /** By how many a thread that still puts has more gets than the one for its last put. */
  function Behind<T>(cs: seq<Call<T>>): nat {
    if cs != [] && cs[0].Put? && Gets(cs) > 0 then Gets(cs) - 1 else 0
  }

  function BehindPuts<T>(ts: seq<Thread<T>>): nat {
    if ts == [] then 0 else BehindPuts(ts[..|ts| - 1]) + Behind(ts[|ts| - 1].todo)
  }

  lemma {:induction false} GetsUpdate<T>(ts: seq<Thread<T>>, i: nat, t: Thread<T>)
    requires i < |ts|
    ensures GetsLeft(ts[i := t]) == GetsLeft(ts) - Gets(ts[i].todo) + Gets(t.todo)
    ensures BehindPuts(ts[i := t]) == BehindPuts(ts) - Behind(ts[i].todo) + Behind(t.todo)
  {
    var n := |ts| - 1;
    if i == n {
      assert ts[i := t][..n] == ts[..n];
    } else {
      assert ts[i := t][..n] == ts[..n][i := t];
      GetsUpdate(ts[..n], i, t);
    }
  }

  /** As many calls of `get` are outstanding as items will come. */
  predicate Balanced<T>(s: State<T>) {
    |s.queue.items| + CallsLeft(s.threads) == 2 * GetsLeft(s.threads)
  }

  /** Balanced programs that put before they get. */
  predicate Fair<T>(s: State<T>) {
    s.queue.overFlag == 0 && Balanced(s) && AllPutsFirst(s.threads)
  }

  /** The put is the last one before gets. */
  predicate LastPut<T>(cs: seq<Call<T>>) {
    |cs| > 1 && cs[0].Put? && cs[1].Get?
  }

  lemma RestPutsFirst<T>(cs: seq<Call<T>>)
    requires cs != [] && PutsFirst(cs)
    ensures PutsFirst(cs[1..]) && Behind(cs[1..]) <= Behind(cs)
    ensures !LastPut(cs) ==> Behind(cs[1..]) == Behind(cs)
    ensures Gets(cs[1..]) == Gets(cs) - if cs[0].Get? then 1 else 0
  {
  }

  lemma WakeKeepsPrograms<T>(ts: seq<Thread<T>>, w: nat, waiting: Role)
    ensures var ts' := Wake(ts, w, waiting);
            && |ts'| == |ts| && (forall i | 0 <= i < |ts| :: ts'[i].todo == ts[i].todo)
            && CallsLeft(ts') == CallsLeft(ts) && GetsLeft(ts') == GetsLeft(ts) && BehindPuts(ts') == BehindPuts(ts)
  {
    if w < |ts| {
      RunnableUpdate(ts, w, ts[w].(phase := Woken));
      GetsUpdate(ts, w, ts[w].(phase := Woken));
    }
  }

  /** A wakeup changes no program; a step of a thread finishes at most its first call. */
  lemma ProgramsAfter<T>(ts: seq<Thread<T>>, t: nat, t': Thread<T>, w: nat, waiting: Role)
    requires t < |ts| && ts[t].todo != [] && AllPutsFirst(ts)
    requires t'.todo == ts[t].todo || t'.todo == ts[t].todo[1..]
    ensures var ts' := Wake(ts, w, waiting)[t := t'];
            && CallsLeft(ts') == CallsLeft(ts) - |ts[t].todo| + |t'.todo|
            && GetsLeft(ts') == GetsLeft(ts) - Gets(ts[t].todo) + Gets(t'.todo)
            && BehindPuts(ts') == BehindPuts(ts) - Behind(ts[t].todo) + Behind(t'.todo) && AllPutsFirst(ts')
  {
    WakeKeepsPrograms(ts, w, waiting);
    RunnableUpdate(Wake(ts, w, waiting), t, t');
    GetsUpdate(Wake(ts, w, waiting), t, t');
    assert PutsFirst(ts[t].todo);
    RestPutsFirst(ts[t].todo);
  }

  lemma GetKeepsFair<T>(s: State<T>, t: nat, w: nat)
    requires t < |s.threads| && s.threads[t].todo != [] && s.threads[t].todo[0] == Get && Fair(s)
    ensures var s' := ApplyGet(s, t, w);
            Fair(s') && s'.queue.maxSize == s.queue.maxSize && BehindPuts(s'.threads) == BehindPuts(s.threads)
  {
    var ts := s.threads;
    var t' := if s.queue.items == [] then ts[t].(phase := Blocked) else Finish(ts[t]);
    ProgramsAfter(ts, t, t', if GetSection(s.queue).signalsFull then w else |ts|, BlockedPut);
    RestPutsFirst(ts[t].todo);
  }

  lemma PutKeepsFair<T>(s: State<T>, t: nat, w: nat, x: T)
    requires t < |s.threads| && s.threads[t].todo != [] && s.threads[t].todo[0] == Put(x) && Fair(s)
    ensures var s' := ApplyPut(s, t, w, x);
            && Fair(s') && s'.queue.maxSize == s.queue.maxSize && BehindPuts(s'.threads) <= BehindPuts(s.threads)
            && (!LastPut(s.threads[t].todo) ==> BehindPuts(s'.threads) == BehindPuts(s.threads))
  {
    var ts := s.threads;
    var t' := if PutSection(s.queue, x).waits then ts[t].(phase := Blocked) else Finish(ts[t]);
    ProgramsAfter(ts, t, t', if PutSection(s.queue, x).signalsFree then w else |ts|, BlockedGet);
    RestPutsFirst(ts[t].todo);
  }

  lemma {:induction false} ProgramsWakeAll<T>(ts: seq<Thread<T>>)
    ensures CallsLeft(WakeAll(ts)) == CallsLeft(ts) && GetsLeft(WakeAll(ts)) == GetsLeft(ts)
    ensures BehindPuts(WakeAll(ts)) == BehindPuts(ts)
  {
    if ts != [] {
      assert WakeAll(ts)[..|ts| - 1] == WakeAll(ts[..|ts| - 1]);
      ProgramsWakeAll(ts[..|ts| - 1]);
    }
  }

  /** Steps of threads and wakeups of whatever origin. */
  predicate RunsOrWakes(a: Action) {
    a.Run? || a.Spurious? || a.ReleaseFree?
  }

  lemma StepKeepsFair<T>(s: State<T>, a: Action)
    requires Enabled(s, a) && RunsOrWakes(a) && Fair(s)
    ensures var s' := Apply(s, a);
            Fair(s') && s'.queue.maxSize == s.queue.maxSize && BehindPuts(s'.threads) <= BehindPuts(s.threads)
  {
    match a
    case Run(t, w) =>
      match s.threads[t].todo[0] {
        case Get => GetKeepsFair(s, t, w);
        case Put(x) => PutKeepsFair(s, t, w, x);
      }
    case Spurious(t) => ProgramsAfter(s.threads, t, s.threads[t].(phase := Woken), |s.threads|, BlockedGet);
    case ReleaseFree => ProgramsWakeAll(s.threads);
    case _ =>
  }

  /** Where nothing can run, calls left over are of waiting consumers or from waiting puts on. */
  lemma {:induction false} WhoIsLeft<T>(ts: seq<Thread<T>>)
    requires AllPutsFirst(ts) && forall i | 0 <= i < |ts| :: !CanRun(RoleOf(ts[i]))
    ensures Count(ts, BlockedGet) == 0 ==> GetsLeft(ts) - BehindPuts(ts) <= CallsLeft(ts) - GetsLeft(ts)
    ensures Count(ts, BlockedPut) == 0 ==> GetsLeft(ts) == CallsLeft(ts)
    ensures Count(ts, BlockedGet) == 0 && Count(ts, BlockedPut) == 0 ==> CallsLeft(ts) == 0
    ensures GetsLeft(ts) <= CallsLeft(ts)
    ensures Count(ts, BlockedGet) > 0 ==> GetsLeft(ts) > 0
  {
    if ts != [] {
      var t := ts[|ts| - 1];
      WhoIsLeft(ts[..|ts| - 1]);
      assert PutsFirst(t.todo) && !CanRun(RoleOf(t));
    }
  }

  lemma {:induction false} NothingLeft<T>(ts: seq<Thread<T>>)
    requires CallsLeft(ts) == 0
    ensures forall i | 0 <= i < |ts| :: ts[i].todo == []
  {
    if ts != [] {
      NothingLeft(ts[..|ts| - 1]);
      assert forall i | 0 <= i < |ts| - 1 :: ts[i] == ts[..|ts| - 1][i];
    }
  }

  ghost predicate MaximalRun<T>(s: State<T>, acts: seq<Action>) {
    IsRun(s, acts) && Stuck(Exec(s, acts)) && forall a | a in acts :: RunsOrWakes(a)
  }

  predicate Completed<T>(s: State<T>) {
    s.queue.items == [] && forall i | 0 <= i < |s.threads| :: s.threads[i].todo == []
  }

  /** Every maximal run of threads that put before they get, with as many gets outstanding as
      items to come and fewer gets beyond the last puts than slots, ends with all calls returned
      and the queue empty, with spurious wakeups and releases in it or not. */
  lemma {:induction false} MaximalRunsComplete<T>(s: State<T>, acts: seq<Action>)
    requires NoLostWakeup(s) && Fair(s) && BehindPuts(s.threads) < s.queue.maxSize
    requires MaximalRun(s, acts)
    ensures Completed(Exec(s, acts))
    decreases |acts|
  {
    if acts == [] {
      StuckHasNoWoken(s);
      WhoIsLeft(s.threads);
      NothingLeft(s.threads);
    } else {
      var a := acts[0];
      assert a in acts;
      StepKeepsWakeupsIff(s, a);
      StepKeepsFair(s, a);
      MaximalRunsComplete(Apply(s, a), acts[1..]);
    }
  }

  // ---------------------------------------------------------------- runs that wait for themselves

  /** One step of a thread from wherever it stands, after a spurious wakeup if it waits. */
  function OneCall<T>(s: State<T>, t: nat, w: nat): seq<Action>
    requires t < |s.threads|
  {
    if s.threads[t].phase == Blocked then [Spurious(t), Run(t, w)] else [Run(t, w)]
  }

  lemma SomeoneToWake<T>(ts: seq<Thread<T>>, waiting: Role) returns (w: nat)
    ensures SignalOk(ts, w, waiting)
  {
    w := 0;
    if Count(ts, waiting) > 0 {
      w := CountWitness(ts, waiting);
    }
  }

  lemma Wakes<T>(s: State<T>, t: nat) returns (s': State<T>)
    requires NoLostWakeup(s) && Fair(s) && t < |s.threads| && s.threads[t].todo != []
    ensures s' == if s.threads[t].phase == Blocked then Apply(s, Spurious(t)) else s
    ensures NoLostWakeup(s') && Fair(s') && BehindPuts(s'.threads) == BehindPuts(s.threads)
    ensures CallsLeft(s'.threads) == CallsLeft(s.threads)
    ensures s'.queue == s.queue && |s'.threads| == |s.threads|
    ensures s'.threads[t].todo == s.threads[t].todo && CanRun(RoleOf(s'.threads[t]))
  {
    s' := s;
    if s.threads[t].phase == Blocked {
      s' := Apply(s, Spurious(t));
      SpuriousKeepsWakeups(s, t);
      ProgramsAfter(s.threads, t, s.threads[t].(phase := Woken), |s.threads|, BlockedGet);
    }
  }

  /** A call returns, and there are as many gets beyond the last puts as before. */
  ghost predicate Closer<T>(s: State<T>, s': State<T>) {
    && NoLostWakeup(s') && Fair(s') && s'.queue.maxSize == s.queue.maxSize
    && BehindPuts(s'.threads) == BehindPuts(s.threads) && CallsLeft(s'.threads) < CallsLeft(s.threads)
  }

  ghost predicate Advances<T>(s: State<T>, acts: seq<Action>) {
    IsRun(s, acts) && (forall a | a in acts :: RunsOrWakes(a)) && Closer(s, Exec(s, acts))
  }

  /** A thread takes an item that is there, or puts, but not its last item before its gets. */
  predicate Harmless<T>(s: State<T>, t: nat)
    requires t < |s.threads|
  {
    s.threads[t].todo != [] &&
    if s.threads[t].todo[0].Get? then s.queue.items != []
    else !LastPut(s.threads[t].todo) && |s.queue.items| < s.queue.maxSize
  }

  lemma RunGetter<T>(s: State<T>, t: nat) returns (w: nat)
    requires NoLostWakeup(s) && Fair(s) && t < |s.threads| && Harmless(s, t)
    requires CanRun(RoleOf(s.threads[t])) && s.threads[t].todo[0].Get?
    ensures Enabled(s, Run(t, w)) && Closer(s, ApplyGet(s, t, w))
  {
    w := SomeoneToWake(s.threads, BlockedPut);
    GetKeepsWakeups(s, t, w);
    GetKeepsFair(s, t, w);
    CallsAfter(s.threads, t, if GetSection(s.queue).signalsFull then w else |s.threads|, BlockedPut);
  }

  lemma RunPutter<T>(s: State<T>, t: nat, x: T) returns (w: nat)
    requires NoLostWakeup(s) && Fair(s) && t < |s.threads| && Harmless(s, t)
    requires CanRun(RoleOf(s.threads[t])) && s.threads[t].todo[0] == Put(x)
    ensures Enabled(s, Run(t, w)) && Closer(s, ApplyPut(s, t, w, x))
  {
    w := SomeoneToWake(s.threads, BlockedGet);
    PutKeepsWakeups(s, t, w, x);
    PutKeepsFair(s, t, w, x);
    CallsAfter(s.threads, t, if PutSection(s.queue, x).signalsFree then w else |s.threads|, BlockedGet);
  }

  lemma RunHarmless<T>(s: State<T>, t: nat) returns (acts: seq<Action>)
    requires NoLostWakeup(s) && Fair(s) && t < |s.threads| && Harmless(s, t)
    ensures Advances(s, acts)
  {
    var s' := Wakes(s, t);
    var w;
    match s'.threads[t].todo[0] {
      case Get => w := RunGetter(s', t);
      case Put(x) => w := RunPutter(s', t, x);
    }
    assert Closer(s', Apply(s', Run(t, w)));
    acts := OneCall(s, t, w);
    OneCallRuns(s, s', t, w);
  }

  lemma OneCallRuns<T>(s: State<T>, s': State<T>, t: nat, w: nat)
    requires t < |s.threads| && s.threads[t].todo != [] && Enabled(s', Run(t, w))
    requires s' == if s.threads[t].phase == Blocked then Apply(s, Spurious(t)) else s
    ensures IsRun(s, OneCall(s, t, w)) && Exec(s, OneCall(s, t, w)) == Apply(s', Run(t, w))
  {
    assert [Run(t, w)][1..] == [];
    assert IsRun(s', [Run(t, w)]) && Exec(s', [Run(t, w)]) == Apply(s', Run(t, w));
    assert [Spurious(t), Run(t, w)][1..] == [Run(t, w)];
  }

  /** If every put is the last one before gets, there are at least as many gets for it. */
  lemma {:induction false} OnlyLastPuts<T>(ts: seq<Thread<T>>)
    requires AllPutsFirst(ts)
    requires forall i | 0 <= i < |ts| && ts[i].todo != [] :: ts[i].todo[0].Get? || LastPut(ts[i].todo)
    ensures GetsLeft(ts) - BehindPuts(ts) >= CallsLeft(ts) - GetsLeft(ts)
  {
    if ts != [] {
      var t := ts[|ts| - 1];
      OnlyLastPuts(ts[..|ts| - 1]);
      assert PutsFirst(t.todo);
      if LastPut(t.todo) {
        assert t.todo[1..][0] == t.todo[1] && PutsFirst(t.todo[1..]);
        assert Gets(t.todo) == |t.todo| - 1;
      }
    }
  }

  ghost predicate AllPut<T>(s: State<T>) {
    && |s.queue.items| >= s.queue.maxSize
    && forall i | 0 <= i < |s.threads| && s.threads[i].todo != [] :: s.threads[i].todo[0].Put?
  }

  /** On a full queue that nobody takes from, everyone falls asleep. */
  lemma {:induction false} AllFallAsleep<T>(s: State<T>) returns (acts: seq<Action>)
    requires AllPut(s)
    ensures MaximalRun(s, acts) && |Exec(s, acts).threads| == |s.threads|
    ensures forall i | 0 <= i < |s.threads| :: Exec(s, acts).threads[i].todo == s.threads[i].todo
    decreases Runnable(s.threads)
  {
    if Stuck(s) {
      acts := [];
    } else {
      var t :| 0 <= t < |s.threads| && CanRun(RoleOf(s.threads[t]));
      var s' := Apply(s, Run(t, 0));
      RunnableUpdate(s.threads, t, s.threads[t].(phase := Blocked));
      var rest := AllFallAsleep(s');
      acts := [Run(t, 0)] + rest;
      assert acts[1..] == rest;
    }
  }

  /** When nothing else is left to do, the queue is full and all would put. */
  lemma NothingHarmless<T>(s: State<T>)
    requires NoLostWakeup(s) && Fair(s) && BehindPuts(s.threads) >= s.queue.maxSize
    requires forall i | 0 <= i < |s.threads| :: !Harmless(s, i)
    ensures AllPut(s)
  {
    if |s.queue.items| < s.queue.maxSize {
      forall i | 0 <= i < |s.threads| && s.threads[i].todo != []
        ensures s.threads[i].todo[0].Get? || LastPut(s.threads[i].todo)
      {
        assert !Harmless(s, i);
      }
      OnlyLastPuts(s.threads);
    } else {
      forall i | 0 <= i < |s.threads| && s.threads[i].todo != []
        ensures s.threads[i].todo[0].Put?
      {
        assert !Harmless(s, i);
      }
    }
  }

  /** With as many gets beyond the last puts as slots, some run ends with a waiting producer:
      consumers take what is there, producers put all but their last items before gets, and then
      the queue is full of items for which only the producers themselves would come. */
  lemma {:induction false} SomeRunWaitsForItself<T>(s: State<T>) returns (acts: seq<Action>)
    requires NoLostWakeup(s) && Fair(s) && BehindPuts(s.threads) >= s.queue.maxSize
    ensures MaximalRun(s, acts) && !Completed(Exec(s, acts))
    decreases CallsLeft(s.threads)
  {
    if t :| 0 <= t < |s.threads| && Harmless(s, t) {
      var first := RunHarmless(s, t);
      var rest := SomeRunWaitsForItself(Exec(s, first));
      acts := first + rest;
      RunThenRun(s, first, rest);
    } else {
      NothingHarmless(s);
      acts := AllFallAsleep(s);
      SomeoneIsLeft(s.threads);
    }
  }

  lemma {:induction false} RunThenRun<T>(s: State<T>, first: seq<Action>, rest: seq<Action>)
    requires IsRun(s, first) && IsRun(Exec(s, first), rest)
    ensures IsRun(s, first + rest) && Exec(s, first + rest) == Exec(Exec(s, first), rest)
    decreases |first|
  {
    if first == [] {
      assert first + rest == rest;
    } else {
      assert (first + rest)[1..] == first[1..] + rest;
      RunThenRun(Apply(s, first[0]), first[1..], rest);
    }
  }

  lemma {:induction false} SomeoneIsLeft<T>(ts: seq<Thread<T>>)
    requires BehindPuts(ts) > 0
    ensures exists i | 0 <= i < |ts| :: ts[i].todo != []
  {
    var n := |ts| - 1;
    if ts[n].todo == [] {
      SomeoneIsLeft(ts[..n]);
      var i :| 0 <= i < n && ts[..n][i].todo != [];
      assert ts[i].todo != [];
    }
  }

  /** Of balanced threads that put before they get, every maximal run completes if and only if
      there are fewer gets beyond the last puts than slots. */
  lemma MaximalRunsCompleteIff<T>(s: State<T>)
    requires NoLostWakeup(s) && Fair(s)
    ensures (forall acts | MaximalRun(s, acts) :: Completed(Exec(s, acts))) <==> BehindPuts(s.threads) < s.queue.maxSize
  {
    if BehindPuts(s.threads) < s.queue.maxSize {
      forall acts | MaximalRun(s, acts)
        ensures Completed(Exec(s, acts))
      {
        MaximalRunsComplete(s, acts);
      }
    } else {
      var acts := SomeRunWaitsForItself(s);
      assert MaximalRun(s, acts);
    }
  }

  /** A thread that gets before it puts can wait for itself. */
  lemma MixedThreadWaitsForItself()
    ensures var s := Start([[Get, Put(1)]]);
            Balanced(s) && BehindPuts(s.threads) == 0
            && IsRun(s, [Run(0, 0)]) && Stuck(Exec(s, [Run(0, 0)]))
            && Exec(s, [Run(0, 0)]).threads[0].todo == [Get, Put(1)]
  {
  }

  /** So can a thread with two puts before two gets on a queue of one slot. */
  lemma FullQueueWaitsForItself()
    ensures var s := Apply(Start([[Put(1), Put(2), Get, Get]]), SetSize(1));
            var acts := [Run(0, 0), Run(0, 0)];
            Fair(s) && BehindPuts(s.threads) == s.queue.maxSize
            && IsRun(s, acts) && Stuck(Exec(s, acts)) && Exec(s, acts).threads[0].todo == [Put(2), Get, Get]
  {
  }

  /** Two threads with one put and one get each always complete on it. */
  lemma PairsComplete(acts: seq<Action>)
    requires MaximalRun(Apply(Start([[Put(1), Get], [Put(2), Get]]), SetSize(1)), acts)
    ensures Completed(Exec(Apply(Start([[Put(1), Get], [Put(2), Get]]), SetSize(1)), acts))
  {
    var s := Start([[Put(1), Get], [Put(2), Get]]);
    StartHasNoLostWakeup([[Put(1), Get], [Put(2), Get]]);
    NobodyWaitsAtFirst(s.threads);
    StepKeepsWakeupsIff(s, SetSize(1));
    MaximalRunsComplete(Apply(s, SetSize(1)), acts);
  }

  // ---------------------------------------------------------------- order and ownership

  function Items<T>(ds: seq<Departure<T>>): (xs: seq<T>)
    ensures |xs| == |ds| && forall i | 0 <= i < |ds| :: xs[i] == ds[i].item
  {
    seq(|ds|, i requires 0 <= i < |ds| => ds[i].item)
  }

  /** First in, first out: what entered is what departed followed by the contents. */
  ghost predicate InOrder<T>(s: State<T>) {
    s.entered == Items(s.departed) + s.queue.items
  }

  lemma StepKeepsOrder<T>(s: State<T>, a: Action)
    requires InOrder(s) && Enabled(s, a)
    ensures InOrder(Apply(s, a))
  {
  }

  /** How often a program will still put x. */
  ghost function PutsOf<T>(cs: seq<Call<T>>, x: T): nat {
    if cs == [] then 0 else (if cs[0] == Put(x) then 1 else 0) + PutsOf(cs[1..], x)
  }

  ghost function Pending<T>(ts: seq<Thread<T>>, x: T): nat {
    if ts == [] then 0 else Pending(ts[..|ts| - 1], x) + PutsOf(ts[|ts| - 1].todo, x)
  }

  lemma {:induction false} PendingUpdate<T>(ts: seq<Thread<T>>, i: nat, t: Thread<T>, x: T)
    requires i < |ts|
    ensures Pending(ts[i := t], x) == Pending(ts, x) - PutsOf(ts[i].todo, x) + PutsOf(t.todo, x)
  {
    var n := |ts| - 1;
    if i == n {
      assert ts[i := t][..n] == ts[..n];
    } else {
      assert ts[i := t][..n] == ts[..n][i := t];
      PendingUpdate(ts[..n], i, t, x);
    }
  }

  lemma {:induction false} PendingWakeAll<T>(ts: seq<Thread<T>>, x: T)
    ensures Pending(WakeAll(ts), x) == Pending(ts, x)
  {
    if ts != [] {
      assert WakeAll(ts)[..|ts| - 1] == WakeAll(ts[..|ts| - 1]);
      PendingWakeAll(ts[..|ts| - 1], x);
    }
  }

  lemma PendingAfter<T>(ts: seq<Thread<T>>, t: nat, t': Thread<T>, w: nat, waiting: Role, x: T)
    requires t < |ts|
    ensures Pending(Wake(ts, w, waiting)[t := t'], x) == Pending(ts, x) - PutsOf(ts[t].todo, x) + PutsOf(t'.todo, x)
  {
    if w < |ts| {
      PendingUpdate(ts, w, ts[w].(phase := Woken), x);
    }
    PendingUpdate(Wake(ts, w, waiting), t, t', x);
  }

  lemma StepKeepsAccount<T>(s: State<T>, a: Action, x: T)
    requires Enabled(s, a)
    ensures var s' := Apply(s, a);
            multiset(s'.entered)[x] + Pending(s'.threads, x) == multiset(s.entered)[x] + Pending(s.threads, x)
  {
    var ts := s.threads;
    match a
    case Run(t, w) =>
      PendingAfter(ts, t, ts[t].(phase := Blocked), |ts|, BlockedPut, x);
      match ts[t].todo[0] {
        case Get =>
          PendingAfter(ts, t, Finish(ts[t]), if GetSection(s.queue).signalsFull then w else |ts|, BlockedPut, x);
        case Put(y) =>
          PendingAfter(ts, t, Finish(ts[t]), if PutSection(s.queue, y).signalsFree then w else |ts|, BlockedGet, x);
      }
    case Spurious(t) => PendingUpdate(ts, t, ts[t].(phase := Woken), x);
    case ReleaseFree => PendingWakeAll(ts, x);
    case _ =>
  }

  /** In how many places x is: still to be put, in the queue, delivered or destroyed. */
  ghost function Places<T>(s: State<T>, x: T): nat {
    Pending(s.threads, x) + multiset(s.queue.items)[x] + multiset(Items(s.departed))[x]
  }

  lemma PlacesByHistory<T>(s: State<T>, x: T)
    requires InOrder(s)
    ensures Places(s, x) == multiset(s.entered)[x] + Pending(s.threads, x)
  {
  }

  /** Over every run, whatever flags, sizes, resets and spurious wakeups it has: items leave in
      the order in which they entered, and every item stays in exactly as many places as the
      programs put it. */
  lemma {:induction false} EveryItemHasItsPlace<T>(s: State<T>, acts: seq<Action>, x: T)
    requires InOrder(s) && IsRun(s, acts)
    ensures InOrder(Exec(s, acts)) && Places(Exec(s, acts), x) == Places(s, x)
    decreases |acts|
  {
    if acts != [] {
      var s' := Apply(s, acts[0]);
      StepKeepsOrder(s, acts[0]);
      StepKeepsAccount(s, acts[0], x);
      PlacesByHistory(s, x);
      PlacesByHistory(s', x);
      EveryItemHasItsPlace(s', acts[1..], x);
    }
  }

  /** So an item put once is never handed out twice, destroyed twice, handed out after its
      destruction, or still queued after either. */
  lemma NothingDepartsTwice<T>(s: State<T>, acts: seq<Action>, i: nat, j: nat)
    requires InOrder(s) && IsRun(s, acts)
    requires i < j < |Exec(s, acts).departed|
    requires Places(s, Exec(s, acts).departed[i].item) == 1
    ensures Exec(s, acts).departed[i].item != Exec(s, acts).departed[j].item
    ensures Exec(s, acts).departed[i].item !in Exec(s, acts).queue.items
  {
    var e := Exec(s, acts);
    var xs := Items(e.departed);
    EveryItemHasItsPlace(s, acts, xs[i]);
    OccursTwice(xs, i, j);
  }

  lemma OccursTwice<T>(xs: seq<T>, i: nat, j: nat)
    requires i < j < |xs|
    ensures multiset(xs)[xs[i]] >= 1
    ensures xs[i] == xs[j] ==> multiset(xs)[xs[i]] >= 2
  {
    var x := xs[i];
    assert xs == xs[..j] + xs[j..];
    assert x == xs[..j][i] && xs[j] == xs[j..][0];
    assert x in multiset(xs[..j]) && xs[j] in multiset(xs[j..]);
    assert multiset(xs) == multiset(xs[..j]) + multiset(xs[j..]);
  }

  // ---------------------------------------------------------------- shutdown

  /** The flag is up and `releaseFree` has run. */
  ghost predicate ShutDown<T>(s: State<T>) {
    s.queue.overFlag != 0 && Count(s.threads, BlockedGet) == 0
  }

  lemma ReleaseShutsDown<T>(s: State<T>, flag: int)
    requires flag != 0
    ensures ShutDown(Apply(Apply(s, SetFlag(flag)), ReleaseFree))
  {
    CountWakeAll(s.threads);
  }

  predicate KeepsFlag(a: Action) {
    !a.SetFlag? && !a.Reset?
  }

  lemma StepKeepsShutDown<T>(s: State<T>, a: Action)
    requires ShutDown(s) && Enabled(s, a) && KeepsFlag(a)
    ensures var s' := Apply(s, a);
            && ShutDown(s') && s.queue.items <= s'.queue.items && s'.departed == s.departed
            && (a.Run? && s.threads[a.thread].todo[0] == Get ==>
                  s' == s.(threads := s.threads[a.thread := Finish(s.threads[a.thread])]))
  {
    var ts := s.threads;
    match a
    case Run(t, w) =>
      CountUpdate(ts, t, ts[t].(phase := Blocked), BlockedGet);
      CountUpdate(ts, t, Finish(ts[t]), BlockedGet);
      if w < |ts| && RoleOf(ts[w]) == BlockedGet {
        CountMember(ts, w, BlockedGet);
      }
    case Spurious(t) => CountUpdate(ts, t, ts[t].(phase := Woken), BlockedGet);
    case ReleaseFree => CountWakeAll(ts);
    case _ =>
  }

  /** After the shutdown no consumer ever waits, nothing is taken, and the contents stay in
      order, until the flag changes again. */
  lemma {:induction false} ShutDownIsSafe<T>(s: State<T>, acts: seq<Action>)
    requires ShutDown(s) && IsRun(s, acts) && forall a | a in acts :: KeepsFlag(a)
    ensures var e := Exec(s, acts);
            ShutDown(e) && s.queue.items <= e.queue.items && e.departed == s.departed
    decreases |acts|
  {
    if acts != [] {
      StepKeepsShutDown(s, acts[0]);
      ShutDownIsSafe(Apply(s, acts[0]), acts[1..]);
    }
  }
}
