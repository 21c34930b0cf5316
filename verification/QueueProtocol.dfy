/**
 The threads around the queue: who sleeps on which condition variable, who has been woken, and who has left the mutex but
 not yet notified. Every stretch under the mutex, every notify and every wake-up is one step.
 */
module QueueProtocol {
  import opened Plates
  import opened BlockingQueue

  type Tid = nat

  datatype Phase<T> =
    | Idle
    | ConsumerAsleep(timed: bool)
    | ConsumerAwake(timed: bool)
    | ProducerAsleep(value: T)
    | ProducerAwake(value: T)
    | OwesNotify
    | OwesNotifyAll
    | OwesNotifyAllNotFull

  datatype Fate = Delivered | Discarded

  /** `entered` and `received` are everything ever enqueued and everything ever handed to a consumer; `fates` tells what
      became of the items that have left the queue, oldest first. */
  datatype State<T> = State(
    queue: seq<T>,
    maxSize: nat,
    closed: bool,
    threads: map<Tid, Phase<T>>,
    entered: seq<T>,
    received: seq<T>,
    fates: seq<Fate>)

  datatype Action<T> =
    | Push(t: Tid, v: T)
    | PushBlocking(t: Tid, v: T)
    | RetryInsert(t: Tid)
    | Pop(t: Tid, timed: bool, woken: Option<Tid>)
    | RetryTake(t: Tid, woken: Option<Tid>)
    | GiveUp(t: Tid)
    | TryPop(t: Tid, woken: Option<Tid>)
    | Clear(t: Tid)
    | Close(t: Tid)
    | NotifyOne(t: Tid, woken: Option<Tid>)
    | NotifyAll(t: Tid)
    | NotifyAllNotFull(t: Tid)
    | WakeUp(t: Tid)

  // ----- Counting threads -----

  datatype Kind =
    | Resting
    | SleepingConsumer
    | WokenConsumer
    | SleepingProducer
    | WokenProducer
    | Owing
    | OwingAll
    | OwingAllNotFull

  function KindOf<T>(p: Phase<T>): Kind {
    match p
    case Idle => Resting
    case ConsumerAsleep(_) => SleepingConsumer
    case ConsumerAwake(_) => WokenConsumer
    case ProducerAsleep(_) => SleepingProducer
    case ProducerAwake(_) => WokenProducer
    case OwesNotify => Owing
    case OwesNotifyAll => OwingAll
    case OwesNotifyAllNotFull => OwingAllNotFull
  }

  ghost function Those<T>(threads: map<Tid, Phase<T>>, kind: Kind): set<Tid> {
    set t | t in threads && KindOf(threads[t]) == kind
  }

  ghost function Count<T>(threads: map<Tid, Phase<T>>, kind: Kind): nat {
    |Those(threads, kind)|
  }

  lemma CountKind<T>(threads: map<Tid, Phase<T>>, t: Tid, p: Phase<T>, k: Kind)
    requires t in threads
    ensures Count(threads[t := p], k) ==
      Count(threads, k) - (if KindOf(threads[t]) == k then 1 else 0) + (if KindOf(p) == k then 1 else 0)
  {
    hide KindOf;
    var before, after := Those(threads, k), Those(threads[t := p], k);
    assert after == if KindOf(p) == k then before - {t} + {t} else before - {t};
  }

  lemma CountSet<T>(threads: map<Tid, Phase<T>>, t: Tid, p: Phase<T>)
    requires t in threads
    ensures forall k ::
      Count(threads[t := p], k) ==
      Count(threads, k) - (if KindOf(threads[t]) == k then 1 else 0) + (if KindOf(p) == k then 1 else 0)
  {
    hide Count;
    forall k
      ensures Count(threads[t := p], k) ==
        Count(threads, k) - (if KindOf(threads[t]) == k then 1 else 0) + (if KindOf(p) == k then 1 else 0)
    {
      CountKind(threads, t, p, k);
    }
  }

  lemma CountsOne<T>(threads: map<Tid, Phase<T>>, t: Tid)
    requires t in threads
    ensures Count(threads, KindOf(threads[t])) > 0
  {
    assert t in Those(threads, KindOf(threads[t]));
  }

  // ----- Steps -----

  function Awakened<T>(p: Phase<T>): Phase<T> {
    match p
    case ConsumerAsleep(timed) => ConsumerAwake(timed)
    case ProducerAsleep(v) => ProducerAwake(v)
    case _ => p
  }

  /** `notify_one` wakes some sleeper if there is one. */
  ghost predicate PicksSleeper<T>(threads: map<Tid, Phase<T>>, kind: Kind, woken: Option<Tid>) {
    match woken
    case Some(u) => u in threads && KindOf(threads[u]) == kind
    case None => Count(threads, kind) == 0
  }

  function WakeOne<T>(threads: map<Tid, Phase<T>>, woken: Option<Tid>): map<Tid, Phase<T>> {
    if woken.Some? && woken.value in threads then threads[woken.value := Awakened(threads[woken.value])] else threads
  }

  function WakeAll<T>(threads: map<Tid, Phase<T>>, kind: Kind): map<Tid, Phase<T>> {
    map t | t in threads :: if KindOf(threads[t]) == kind then Awakened(threads[t]) else threads[t]
  }

  function Inserted<T>(s: State<T>, t: Tid, v: T): State<T> {
    if !MayInsert(s.queue, s.maxSize, s.closed) then s.(threads := s.threads[t := ProducerAsleep(v)])
    else if s.closed then s.(threads := s.threads[t := Idle])
    else s.(queue := s.queue + [v], entered := s.entered + [v], threads := s.threads[t := OwesNotify])
  }

  function Taken<T>(s: State<T>, t: Tid, woken: Option<Tid>): State<T> {
    if s.queue == [] then s.(threads := s.threads[t := Idle])
    else s.(queue := s.queue[1..], received := s.received + [s.queue[0]], fates := s.fates + [Delivered],
            threads := WakeOne(s.threads[t := Idle], woken))
  }

  function Clearing(n: nat): seq<Fate> { seq(n, _ => Discarded) }

  /** The thread is where the action starts, and a notify picks as it may. */
  ghost predicate Enabled<T>(s: State<T>, a: Action<T>) {
    a.t in s.threads &&
    var p := s.threads[a.t];
    match a
    case Push(_, _) => p.Idle?
    case PushBlocking(_, _) => p.Idle?
    case RetryInsert(_) => p.ProducerAwake?
    case Pop(_, _, woken) => p.Idle? && (s.queue != [] ==> PicksSleeper(s.threads[a.t := Idle], SleepingProducer, woken))
    case RetryTake(_, woken) =>
      p.ConsumerAwake? && (s.queue != [] ==> PicksSleeper(s.threads[a.t := Idle], SleepingProducer, woken))
    case GiveUp(_) => p == ConsumerAwake(true) && !MayTake(s.queue, s.closed)
    case TryPop(_, woken) => p.Idle? && (s.queue != [] ==> PicksSleeper(s.threads[a.t := Idle], SleepingProducer, woken))
    case Clear(_) => p.Idle?
    case Close(_) => p.Idle?
    case NotifyOne(_, woken) => p.OwesNotify? && PicksSleeper(s.threads[a.t := Idle], SleepingConsumer, woken)
    case NotifyAll(_) => p.OwesNotifyAll?
    case NotifyAllNotFull(_) => p.OwesNotifyAllNotFull?
    case WakeUp(_) => p.ConsumerAsleep? || p.ProducerAsleep?
  }

  ghost function After<T>(s: State<T>, a: Action<T>): State<T>
    requires Enabled(s, a)
  {
    var t := a.t;
    match a
    case Push(_, v) =>
      s.(queue := Pushed(s.queue, s.maxSize, v), entered := s.entered + [v],
         fates := if DropsOldest(s.queue, s.maxSize) then s.fates + [Discarded] else s.fates,
         threads := s.threads[t := OwesNotify])
    case PushBlocking(_, v) => Inserted(s, t, v)
    case RetryInsert(_) => Inserted(s, t, s.threads[t].value)
    case Pop(_, timed, woken) =>
      if MayTake(s.queue, s.closed) then Taken(s, t, woken) else s.(threads := s.threads[t := ConsumerAsleep(timed)])
    case RetryTake(_, woken) =>
      if MayTake(s.queue, s.closed) then Taken(s, t, woken)
      else s.(threads := s.threads[t := ConsumerAsleep(s.threads[t].timed)])
    case GiveUp(_) => s.(threads := s.threads[t := Idle])
    case TryPop(_, woken) => if s.queue == [] then s else Taken(s, t, woken)
    case Clear(_) =>
      s.(queue := [], fates := s.fates + Clearing(|s.queue|), threads := s.threads[t := OwesNotifyAll])
    case Close(_) => s.(closed := true, threads := s.threads[t := OwesNotifyAll])
    case NotifyOne(_, woken) => s.(threads := WakeOne(s.threads[t := Idle], woken))
    case NotifyAll(_) => s.(threads := WakeAll(s.threads, SleepingConsumer)[t := OwesNotifyAllNotFull])
    case NotifyAllNotFull(_) => s.(threads := WakeAll(s.threads, SleepingProducer)[t := Idle])
    case WakeUp(_) => s.(threads := s.threads[t := Awakened(s.threads[t])])
  }

  // ----- No lost wake-up -----

  /** While the queue is open: if a consumer sleeps, every queued item has a woken consumer or a notify still to come.
      Once it is closed: if a consumer sleeps, a notify-all is still to come. */
  ghost predicate ConsumersCovered<T>(s: State<T>) {
    Count(s.threads, SleepingConsumer) > 0 ==>
      if s.closed then Count(s.threads, OwingAll) > 0
      else |s.queue| <= Count(s.threads, WokenConsumer) + Count(s.threads, Owing)
  }

  /** While the queue is open: if a producer sleeps, the queue is bounded, and every free slot has a woken producer
      unless a notify-all is still to come. Once it is closed: a notify-all is still to come. */
  ghost predicate ProducersCovered<T>(s: State<T>) {
    Count(s.threads, SleepingProducer) > 0 ==>
      Count(s.threads, OwingAll) + Count(s.threads, OwingAllNotFull) > 0 ||
      (!s.closed && 0 < s.maxSize <= |s.queue| + Count(s.threads, WokenProducer))
  }

  ghost predicate Bounded<T>(s: State<T>) {
    s.maxSize > 0 ==> |s.queue| <= s.maxSize
  }

  /** The items handed out: those of the first |fates| entered items whose fate is delivery. */
  ghost function Handed<T>(entered: seq<T>, fates: seq<Fate>): seq<T>
    requires |fates| <= |entered|
  {
    if fates == [] then []
    else
      var n := |fates| - 1;
      Handed(entered, fates[..n]) + if fates[n] == Delivered then [entered[n]] else []
  }

  /** First in, first out: the queue is what entered last, and what was received is, in order, what entered and was
      neither dropped nor cleared. */
  ghost predicate InOrder<T>(s: State<T>) {
    |s.fates| + |s.queue| == |s.entered| && s.queue == s.entered[|s.fates|..] &&
    s.received == Handed(s.entered, s.fates)
  }

  ghost predicate Inv<T>(s: State<T>) {
    ConsumersCovered(s) && ProducersCovered(s) && Bounded(s) && InOrder(s)
  }

  function Target(kind: Kind): Kind {
    if kind == SleepingConsumer then WokenConsumer else WokenProducer
  }

  lemma WakeAllKinds<T>(threads: map<Tid, Phase<T>>, kind: Kind)
    requires kind == SleepingConsumer || kind == SleepingProducer
    ensures var after := WakeAll(threads, kind);
      after.Keys == threads.Keys &&
      forall t | t in threads ::
        KindOf(after[t]) == if KindOf(threads[t]) == kind then Target(kind) else KindOf(threads[t])
  {
  }

  lemma WakeAllCounts<T>(threads: map<Tid, Phase<T>>, kind: Kind)
    requires kind == SleepingConsumer || kind == SleepingProducer
    ensures Count(WakeAll(threads, kind), kind) == 0
    ensures Count(WakeAll(threads, kind), Target(kind)) >= Count(threads, Target(kind))
    ensures forall k | k != kind && k != Target(kind) :: Count(WakeAll(threads, kind), k) == Count(threads, k)
  {
    hide WakeAll, KindOf;
    WakeAllKinds(threads, kind);
    var after := WakeAll(threads, kind);
    assert Those(after, kind) == {};
    Larger(Those(threads, Target(kind)), Those(after, Target(kind)));
    forall k | k != kind && k != Target(kind) ensures Count(after, k) == Count(threads, k) {
      assert Those(after, k) == Those(threads, k);
    }
  }

  lemma Larger(x: set<Tid>, y: set<Tid>)
    requires x <= y
    ensures |x| <= |y|
  {
    assert y == x + (y - x);
  }

  lemma WakeOneCounts<T>(threads: map<Tid, Phase<T>>, kind: Kind, woken: Option<Tid>)
    requires (kind == SleepingConsumer || kind == SleepingProducer) && PicksSleeper(threads, kind, woken)
    ensures var n := if woken.Some? then 1 else 0;
      forall k :: Count(WakeOne(threads, woken), k) ==
        Count(threads, k) - (if k == kind then n else 0) + (if k == Target(kind) then n else 0)
  {
    if woken.Some? {
      CountSet(threads, woken.value, Awakened(threads[woken.value]));
    }
  }

  lemma InsertKeepsCover<T>(s: State<T>, t: Tid, v: T)
    requires Inv(s) && t in s.threads && (s.threads[t].Idle? || s.threads[t].ProducerAwake?)
    ensures ConsumersCovered(Inserted(s, t, v)) && ProducersCovered(Inserted(s, t, v))
  {
    hide Count, InOrder;
    CountSet(s.threads, t, ProducerAsleep(v));
    CountSet(s.threads, t, Idle);
    CountSet(s.threads, t, OwesNotify);
  }

  lemma TakeKeepsCover<T>(s: State<T>, t: Tid, woken: Option<Tid>)
    requires Inv(s) && t in s.threads && (s.threads[t].Idle? || s.threads[t].ConsumerAwake?)
    requires MayTake(s.queue, s.closed)
    requires s.queue != [] ==> PicksSleeper(s.threads[t := Idle], SleepingProducer, woken)
    ensures ConsumersCovered(Taken(s, t, woken)) && ProducersCovered(Taken(s, t, woken))
  {
    hide Count, InOrder, WakeOne;
    CountSet(s.threads, t, Idle);
    if s.queue != [] {
      WakeOneCounts(s.threads[t := Idle], SleepingProducer, woken);
    }
  }

  lemma SleepKeepsCover<T>(s: State<T>, t: Tid, timed: bool)
    requires Inv(s) && t in s.threads && (s.threads[t].Idle? || s.threads[t].ConsumerAwake?)
    requires !MayTake(s.queue, s.closed)
    ensures ConsumersCovered(s.(threads := s.threads[t := ConsumerAsleep(timed)]))
    ensures ProducersCovered(s.(threads := s.threads[t := ConsumerAsleep(timed)]))
  {
    hide Count, InOrder;
    CountSet(s.threads, t, ConsumerAsleep(timed));
  }

  lemma NotifyKeepsCover<T>(s: State<T>, a: Action<T>)
    requires Inv(s) && Enabled(s, a) && (a.NotifyOne? || a.NotifyAll? || a.NotifyAllNotFull?)
    ensures ConsumersCovered(After(s, a)) && ProducersCovered(After(s, a))
  {
    hide Count, InOrder, WakeOne, WakeAll;
    var t := a.t;
    match a
    case NotifyOne(_, woken) =>
      CountSet(s.threads, t, Idle);
      WakeOneCounts(s.threads[t := Idle], SleepingConsumer, woken);
    case NotifyAll(_) =>
      WakeAllKeeps(s.threads, SleepingConsumer, t);
      WakeAllCounts(s.threads, SleepingConsumer);
      CountSet(WakeAll(s.threads, SleepingConsumer), t, OwesNotifyAllNotFull);
    case NotifyAllNotFull(_) =>
      WakeAllKeeps(s.threads, SleepingProducer, t);
      WakeAllCounts(s.threads, SleepingProducer);
      CountSet(WakeAll(s.threads, SleepingProducer), t, Idle);
  }

  lemma WakeAllKeeps<T>(threads: map<Tid, Phase<T>>, kind: Kind, t: Tid)
    requires t in threads && KindOf(threads[t]) != kind
    ensures t in WakeAll(threads, kind) && WakeAll(threads, kind)[t] == threads[t]
  {
  }

  lemma PushKeepsCover<T>(s: State<T>, t: Tid, v: T)
    requires Inv(s) && Enabled(s, Push(t, v))
    ensures ConsumersCovered(After(s, Push(t, v))) && ProducersCovered(After(s, Push(t, v)))
  {
    hide Count, InOrder;
    CountSet(s.threads, t, OwesNotify);
  }

  lemma WakeUpKeepsCover<T>(s: State<T>, t: Tid)
    requires Inv(s) && Enabled(s, WakeUp(t))
    ensures ConsumersCovered(After(s, WakeUp(t))) && ProducersCovered(After(s, WakeUp(t)))
  {
    hide Count, InOrder;
    CountSet(s.threads, t, Awakened(s.threads[t]));
  }

  lemma GiveUpKeepsCover<T>(s: State<T>, t: Tid)
    requires Inv(s) && Enabled(s, GiveUp(t))
    ensures ConsumersCovered(After(s, GiveUp(t))) && ProducersCovered(After(s, GiveUp(t)))
  {
    hide Count, InOrder;
    CountSet(s.threads, t, Idle);
  }

  lemma NoticeKeepsCover<T>(s: State<T>, a: Action<T>)
    requires Inv(s) && Enabled(s, a) && (a.Clear? || a.Close?)
    ensures ConsumersCovered(After(s, a)) && ProducersCovered(After(s, a))
  {
    hide Count, InOrder;
    var threads := s.threads[a.t := OwesNotifyAll];
    assert After(s, a).threads == threads;
    CountKind(s.threads, a.t, OwesNotifyAll, SleepingConsumer);
    CountKind(s.threads, a.t, OwesNotifyAll, SleepingProducer);
    CountsOne(threads, a.t);
  }

  lemma StepKeepsCover<T>(s: State<T>, a: Action<T>)
    requires Inv(s) && Enabled(s, a)
    ensures ConsumersCovered(After(s, a)) && ProducersCovered(After(s, a))
  {
    hide Count, Inserted, Taken, ConsumersCovered, ProducersCovered, InOrder, Bounded;
    match a
    case PushBlocking(t, v) => InsertKeepsCover(s, t, v);
    case RetryInsert(t) => InsertKeepsCover(s, t, s.threads[t].value);
    case Pop(t, timed, woken) =>
      if MayTake(s.queue, s.closed) {
        TakeKeepsCover(s, t, woken);
      } else {
        SleepKeepsCover(s, t, timed);
      }
    case RetryTake(t, woken) =>
      if MayTake(s.queue, s.closed) {
        TakeKeepsCover(s, t, woken);
      } else {
        SleepKeepsCover(s, t, s.threads[t].timed);
      }
    case TryPop(t, woken) =>
      if s.queue != [] {
        TakeKeepsCover(s, t, woken);
      }
    case Push(t, v) => PushKeepsCover(s, t, v);
    case WakeUp(t) => WakeUpKeepsCover(s, t);
    case NotifyOne(_, _) => NotifyKeepsCover(s, a);
    case NotifyAll(_) => NotifyKeepsCover(s, a);
    case NotifyAllNotFull(_) => NotifyKeepsCover(s, a);
    case GiveUp(t) => GiveUpKeepsCover(s, t);
    case _ => NoticeKeepsCover(s, a);
  }

  // ----- Bounds and order -----

  lemma {:induction false} HandedIgnoresLater<T>(entered: seq<T>, later: seq<T>, fates: seq<Fate>)
    requires |fates| <= |entered|
    ensures Handed(entered + later, fates) == Handed(entered, fates)
  {
    if fates == [] {
    } else {
      HandedIgnoresLater(entered, later, fates[..|fates| - 1]);
    }
  }

  lemma {:induction false} HandedNext<T>(entered: seq<T>, fates: seq<Fate>, f: Fate)
    requires |fates| < |entered|
    ensures Handed(entered, fates + [f]) == Handed(entered, fates) + if f == Delivered then [entered[|fates|]] else []
  {
    assert (fates + [f])[..|fates|] == fates;
  }

  lemma {:induction false} HandedCleared<T>(entered: seq<T>, fates: seq<Fate>, n: nat)
    requires |fates| + n <= |entered|
    ensures Handed(entered, fates + Clearing(n)) == Handed(entered, fates)
  {
    if n == 0 {
      assert fates + Clearing(0) == fates;
    } else {
      HandedCleared(entered, fates, n - 1);
      assert fates + Clearing(n) == (fates + Clearing(n - 1)) + [Discarded];
      HandedNext(entered, fates + Clearing(n - 1), Discarded);
    }
  }

  lemma InsertKeepsOrder<T>(s: State<T>, t: Tid, v: T)
    requires Bounded(s) && InOrder(s)
    ensures Bounded(Inserted(s, t, v)) && InOrder(Inserted(s, t, v))
  {
    HandedIgnoresLater(s.entered, [v], s.fates);
  }

  lemma PushKeepsOrder<T>(s: State<T>, t: Tid, v: T)
    requires Bounded(s) && InOrder(s) && Enabled(s, Push(t, v))
    ensures Bounded(After(s, Push(t, v))) && InOrder(After(s, Push(t, v)))
  {
    var entered := s.entered + [v];
    HandedIgnoresLater(s.entered, [v], s.fates);
    HandedNext(entered, s.fates, Discarded);
    assert entered[|s.fates|..] == s.queue + [v];
    if DropsOldest(s.queue, s.maxSize) {
      assert entered[|s.fates| + 1..] == s.queue[1..] + [v];
    }
  }

  lemma TakeKeepsOrder<T>(s: State<T>, t: Tid, woken: Option<Tid>)
    requires Bounded(s) && InOrder(s)
    ensures Bounded(Taken(s, t, woken)) && InOrder(Taken(s, t, woken))
  {
    hide WakeOne;
    if s.queue != [] {
      HandedNext(s.entered, s.fates, Delivered);
      assert s.entered[|s.fates| + 1..] == s.queue[1..];
    }
  }

  lemma ClearKeepsOrder<T>(s: State<T>, t: Tid)
    requires Bounded(s) && InOrder(s) && Enabled(s, Clear(t))
    ensures Bounded(After(s, Clear(t))) && InOrder(After(s, Clear(t)))
  {
    HandedCleared(s.entered, s.fates, |s.queue|);
  }

  lemma StepKeepsOrder<T>(s: State<T>, a: Action<T>)
    requires Bounded(s) && InOrder(s) && Enabled(s, a)
    ensures Bounded(After(s, a)) && InOrder(After(s, a))
  {
    hide Inserted, Taken, WakeOne, WakeAll, PicksSleeper;
    match a
    case Push(t, v) => PushKeepsOrder(s, t, v);
    case PushBlocking(t, v) => InsertKeepsOrder(s, t, v);
    case RetryInsert(t) => InsertKeepsOrder(s, t, s.threads[t].value);
    case Pop(t, _, woken) => TakeKeepsOrder(s, t, woken);
    case RetryTake(t, woken) => TakeKeepsOrder(s, t, woken);
    case TryPop(t, woken) => TakeKeepsOrder(s, t, woken);
    case Clear(t) => ClearKeepsOrder(s, t);
    case _ =>
  }

  // ----- Every interleaving -----

  function Start<T>(maxSize: nat, tids: set<Tid>): State<T> {
    State([], maxSize, false, map t | t in tids :: Idle, [], [], [])
  }

  /** `run` is a sequence of states, each reached from the one before by an enabled action. */
  ghost predicate Interleaving<T>(run: seq<State<T>>, actions: seq<Action<T>>) {
    |run| == |actions| + 1 &&
    (exists tids :: run[0] == Start(run[0].maxSize, tids)) &&
    forall i | 0 <= i < |actions| :: Enabled(run[i], actions[i]) && run[i + 1] == After(run[i], actions[i])
  }

  lemma StartIsGood<T>(maxSize: nat, tids: set<Tid>)
    ensures Inv<T>(Start(maxSize, tids))
  {
    assert Those(Start<T>(maxSize, tids).threads, SleepingConsumer) == {};
    assert Those(Start<T>(maxSize, tids).threads, SleepingProducer) == {};
  }

  /** In every interleaving of every number of threads: no wake-up is lost on either side, the bound holds, and items
      are received in the order they entered, minus those dropped or cleared. */
  lemma NoLostWakeUp<T>(run: seq<State<T>>, actions: seq<Action<T>>, k: nat)
    requires Interleaving(run, actions) && k < |run|
    ensures Inv(run[k])
  {
    hide Enabled, After, Inv;
    if k == 0 {
      var tids :| run[0] == Start(run[0].maxSize, tids);
      StartIsGood<T>(run[0].maxSize, tids);
    } else {
      NoLostWakeUp(run, actions, k - 1);
      assert run[k - 1 + 1] == After(run[k - 1], actions[k - 1]);
      StepKeepsInv(run[k - 1], actions[k - 1]);
    }
  }

  lemma StepKeepsInv<T>(s: State<T>, a: Action<T>)
    requires Inv(s) && Enabled(s, a)
    ensures Inv(After(s, a))
  {
    hide Enabled, After, ConsumersCovered, ProducersCovered, Bounded, InOrder;
    StepKeepsCover(s, a);
    StepKeepsOrder(s, a);
  }

  /** When nobody is awake inside an operation and no notify is outstanding, nobody sleeps in vain: consumers sleep only
      on an empty open queue, producers only on a full one. */
  lemma NobodySleepsInVain<T>(run: seq<State<T>>, actions: seq<Action<T>>, k: nat, t: Tid)
    requires Interleaving(run, actions) && k < |run| && t in run[k].threads
    requires forall u | u in run[k].threads ::
      run[k].threads[u].Idle? || run[k].threads[u].ConsumerAsleep? || run[k].threads[u].ProducerAsleep?
    ensures run[k].threads[t].ConsumerAsleep? ==> run[k].queue == [] && !run[k].closed
    ensures run[k].threads[t].ProducerAsleep? ==> |run[k].queue| == run[k].maxSize > 0 && !run[k].closed
  {
    hide Enabled, After, InOrder, Interleaving;
    NoLostWakeUp(run, actions, k);
    var threads := run[k].threads;
    CountsOne(threads, t);
    assert Those(threads, WokenConsumer) == {} && Those(threads, WokenProducer) == {} && Those(threads, Owing) == {};
    assert Those(threads, OwingAll) == {} && Those(threads, OwingAllNotFull) == {};
  }

  // ----- What a push costs -----

  /** In every interleaving a push discards an item, the oldest, exactly if the queue held `maxSize` of them; into a queue
      with room it only adds. */
  lemma PushDiscardsExactly<T>(run: seq<State<T>>, actions: seq<Action<T>>, i: nat)
    requires Interleaving(run, actions) && i < |actions| && actions[i].Push?
    ensures |run| == |actions| + 1
    ensures var s, u := run[i], run[i + 1];
      u.entered == s.entered + [actions[i].v] && u.received == s.received &&
      if s.maxSize > 0 && |s.queue| == s.maxSize then
        u.queue == s.queue[1..] + [actions[i].v] && u.fates == s.fates + [Discarded]
      else u.queue == s.queue + [actions[i].v] && u.fates == s.fates
  {
    hide Interleaving, ConsumersCovered, ProducersCovered, InOrder;
    StepOfRun(run, actions, i);
    NoLostWakeUp(run, actions, i);
  }

  lemma StepOfRun<T>(run: seq<State<T>>, actions: seq<Action<T>>, i: nat)
    requires Interleaving(run, actions) && i < |actions|
    ensures |run| == |actions| + 1 && Enabled(run[i], actions[i]) && run[i + 1] == After(run[i], actions[i])
  {
    hide Enabled, After;
  }

  predicate Removes<T>(a: Action<T>) {
    a.Pop? || a.RetryTake? || a.TryPop? || a.Clear?
  }

  /** The newest items, as many as the queue may hold. */
  function Newest<T>(items: seq<T>, maxSize: nat): seq<T> {
    if maxSize == 0 || |items| <= maxSize then items else items[|items| - maxSize..]
  }

  lemma StepKeepsNewest<T>(s: State<T>, a: Action<T>)
    requires Enabled(s, a) && !Removes(a) && s.queue == Newest(s.entered, s.maxSize)
    ensures After(s, a).queue == Newest(After(s, a).entered, s.maxSize) && After(s, a).maxSize == s.maxSize
  {
    hide WakeOne, WakeAll, PicksSleeper, Count;
  }

  /** As long as nobody takes or clears, the queue holds the newest `maxSize` of all items that entered: the first `maxSize`
      are all still there until another one enters. */
  lemma {:induction false} FillsUp<T>(run: seq<State<T>>, actions: seq<Action<T>>, k: nat)
    requires Interleaving(run, actions) && k < |run| && forall i | 0 <= i < k :: !Removes(actions[i])
    ensures run[k].maxSize == run[0].maxSize && run[k].queue == Newest(run[k].entered, run[0].maxSize)
  {
    hide Enabled, After, Removes;
    if k == 0 {
    } else {
      FillsUp(run, actions, k - 1);
      assert run[k - 1 + 1] == After(run[k - 1], actions[k - 1]);
      StepKeepsNewest(run[k - 1], actions[k - 1]);
    }
  }
}
