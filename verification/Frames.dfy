/** When each part of the invariant survives a change of state. The lemmas here do not mention the
    step functions: they say which changes are harmless. */
module Frames {
  import opened Wire
  import opened PathMapping
  import opened Protocol
  import opened Invariants

  // ---------------------------------------------------------------- sums

  lemma {:induction false} SumUpdate<T>(xs: seq<T>, i: nat, x: T, f: T -> nat)
    requires i < |xs|
    ensures Sum(xs[i := x], f) + f(xs[i]) == Sum(xs, f) + f(x)
  {
    var last := |xs| - 1;
    if i == last {
      assert xs[i := x][..last] == xs[..last];
    } else {
      assert xs[i := x][..last] == xs[..last][i := x];
      SumUpdate(xs[..last], i, x, f);
    }
  }

  lemma {:induction false} SumIsZero<T>(xs: seq<T>, f: T -> nat)
    requires forall i | 0 <= i < |xs| :: f(xs[i]) == 0
    ensures Sum(xs, f) == 0
  {
    if xs != [] {
      SumIsZero(xs[..|xs| - 1], f);
    }
  }

  lemma {:induction false} SumPointwise<T>(xs: seq<T>, ys: seq<T>, f: T -> nat, slack: nat)
    requires |xs| == |ys| && forall i | 0 <= i < |xs| :: f(ys[i]) <= f(xs[i]) + slack
    ensures Sum(ys, f) <= Sum(xs, f) + slack * |xs|
  {
    if xs != [] {
      SumPointwise(xs[..|xs| - 1], ys[..|ys| - 1], f, slack);
      assert slack * |xs| == slack * (|xs| - 1) + slack;
    }
  }

  // ---------------------------------------------------------------- locks

  ghost predicate SameSizes(s: State, s': State) {
    |s'.workers| == |s.workers| && |s'.conns| == |s.conns|
  }

  predicate HoldsQueue(s: State, t: Thread) {
    match t
    case WorkerThread(w) => w < |s.workers| && WorkerHoldsQueue(s.workers[w])
    case CommThread(c) => c < |s.conns| && CommHoldsQueue(s.conns[c].comm)
  }

  /** Only thread `t` moves with respect to the queue's mutex, and it acquires, releases or keeps it. */
  lemma QueueLockKept(s: State, s': State, t: Thread)
    requires QueueLockOk(s) && SameSizes(s, s')
    requires forall w | 0 <= w < |s.workers| && t != WorkerThread(w) ::
               WorkerHoldsQueue(s'.workers[w]) == WorkerHoldsQueue(s.workers[w])
    requires forall c | 0 <= c < |s.conns| && t != CommThread(c) ::
               CommHoldsQueue(s'.conns[c].comm) == CommHoldsQueue(s.conns[c].comm)
    requires HoldsQueue(s', t) <==> s'.lock == Some(t)
    requires s'.lock == s.lock || (s.lock.None? && s'.lock == Some(t)) || (s.lock == Some(t) && s'.lock.None?)
    ensures QueueLockOk(s')
  {
  }

  lemma NodeLockKept(s: State, s': State)
    requires NodeLockOk(s) && SameSizes(s, s')
    requires forall w | 0 <= w < |s.workers| :: NodeHeld(s'.workers[w]) == NodeHeld(s.workers[w])
    requires forall c | 0 <= c < |s.conns| :: s'.conns[c].holder == s.conns[c].holder
    ensures NodeLockOk(s')
  {
    hide NodeHeld;
  }

  // ---------------------------------------------------------------- descriptors

  /** No connection is opened, closed, registered or removed. */
  ghost predicate SameDescriptors(s: State, s': State) {
    && s'.registry == s.registry && |s'.conns| == |s.conns|
    && forall c | 0 <= c < |s.conns| ::
         && s'.conns[c].request == s.conns[c].request
         && (Live(s'.conns[c].comm) <==> Live(s.conns[c].comm))
         && (Registered(s'.conns[c].comm) <==> Registered(s.conns[c].comm))
  }

  lemma DescriptorsKept(s: State, s': State)
    requires SocketsDistinct(s) && RegistryOk(s) && SameDescriptors(s, s')
    ensures SocketsDistinct(s') && RegistryOk(s')
    ensures forall socket :: Names(s, socket) ==> Names(s', socket)
    ensures forall rec, node :: AtNode(s, rec, node) ==> AtNode(s', rec, node)
  {
    hide Live, Registered;
    forall socket | Names(s, socket)
      ensures Names(s', socket)
    {
      var c :| 0 <= c < |s.conns| && Registered(s.conns[c].comm) && s.conns[c].request.socket == socket;
      assert Registered(s'.conns[c].comm);
    }
  }

  lemma QueueKept(cfg: Config, s: State, s': State)
    requires QueueOk(cfg, s) && |s'.conns| == |s.conns|
    requires s'.queue == s.queue || (s.queue != [] && s'.queue == s.queue[1..])
    requires forall socket :: Names(s, socket) ==> Names(s', socket)
    requires forall c | 0 <= c < |s.conns| && s'.conns[c].comm.Insert? ::
               s.conns[c].comm.Insert? || |s'.queue| < cfg.capacity
    ensures QueueOk(cfg, s')
  {
    hide Names;
  }

  /** Every worker but `w` stays where it is, or is woken. */
  ghost predicate OtherWorkersStay(s: State, s': State, w: int) {
    && |s'.workers| == |s.workers|
    && forall v | 0 <= v < |s.workers| && v != w ::
         s'.workers[v] == s.workers[v] || (s.workers[v].Asleep? && s'.workers[v].Reacquire?)
  }

  lemma WorkersKept(s: State, s': State, w: int)
    requires WorkersOk(s) && OtherWorkersStay(s, s', w)
    requires s'.running ==> s.running
    requires s'.queue == s.queue
          || forall v | 0 <= v < |s.workers| && v != w :: !s.workers[v].GoWait? && !s.workers[v].Check?
              && !s.workers[v].Pop?
    requires forall socket :: Names(s, socket) ==> Names(s', socket)
    requires forall rec, node :: AtNode(s, rec, node) ==> AtNode(s', rec, node)
    requires 0 <= w < |s.workers| ==> WorkerOk(s', s'.workers[w])
    ensures WorkersOk(s')
  {
    hide Names, AtNode;
    forall v | 0 <= v < |s.workers|
      ensures WorkerOk(s', s'.workers[v])
    {
      if v != w {
        assert WorkerOk(s, s.workers[v]);
      }
    }
  }

  // ---------------------------------------------------------------- conservation and streams

  lemma ConservationKept(s: State, s': State)
    requires ConservationOk(s) && SameDescriptors(s, s') && s'.queue == s.queue
    requires forall c | 0 <= c < |s.conns| ::
      && s'.conns[c].sent == s.conns[c].sent && s'.conns[c].inserted == s.conns[c].inserted
      && (Registered(s.conns[c].comm) ==> InFlight(s', c) + Held(s', c) == InFlight(s, c) + Held(s, c))
    ensures ConservationOk(s')
  {
    hide InFlight, Held, Filter, Live, Registered;
    forall c | 0 <= c < |s.conns|
      ensures Conserved(s', c)
    {
      assert Conserved(s, c);
    }
  }

  lemma StreamsKept(cfg: Config, s: State, s': State)
    requires StreamsOk(cfg, s) && |s'.conns| == |s.conns|
    requires forall c | 0 <= c < |s.conns| ::
      && s'.conns[c].request == s.conns[c].request
      && (BeforeStream(s.conns[c].comm) ==> s'.conns[c].inserted == s.conns[c].inserted)
      && s'.conns[c].sent == s.conns[c].sent && s'.conns[c].down == s.conns[c].down
      && (BeforeStream(s'.conns[c].comm) <==> BeforeStream(s.conns[c].comm))
      && WrittenInFlight(s', c) == WrittenInFlight(s, c)
    ensures StreamsOk(cfg, s')
  {
    hide WrittenInFlight, BeforeStream, Base, Stream, Encode;
    forall c | 0 <= c < |s.conns|
      ensures DownOk(cfg, s'.conns[c], WrittenInFlight(s', c))
    {
      assert DownOk(cfg, s.conns[c], WrittenInFlight(s, c));
    }
  }

  /** What a worker may do to a connection: take or drop its mutex, write to it, wake its thread. */
  ghost predicate ServedBy(k: Conn, k': Conn) {
    && k'.request == k.request && k'.inserted == k.inserted
    && k'.up == k.up && k'.upRead == k.upRead && k'.client == k.client
    && |k.down| <= |k'.down|
    && (k'.comm == k.comm || (k.comm.Asleep? && k'.comm.Reacquire?))
  }

  lemma ConnsKept(cfg: Config, s: State, s': State)
    requires ConnsOk(cfg, s) && |s'.conns| == |s.conns|
    requires forall c | 0 <= c < |s.conns| :: ServedBy(s.conns[c], s'.conns[c])
    ensures ConnsOk(cfg, s')
  {
    forall c | 0 <= c < |s.conns|
      ensures ConnOk(cfg, s'.conns[c])
    {
      ConnServed(cfg, s.conns[c], s'.conns[c]);
    }
  }

  lemma ConnServed(cfg: Config, k: Conn, k': Conn)
    requires ConnOk(cfg, k) && ServedBy(k, k')
    ensures ConnOk(cfg, k')
  {
    ClientUntouched(cfg, k, k');
    hide ClientOk, UpBytes, Acks, GoodRequest;
  }

  /** The client's part depends on the request, the client and how much has been written. */
  lemma ClientUntouched(cfg: Config, k: Conn, k': Conn)
    requires ClientOk(cfg, k) && k'.request == k.request && k'.client == k.client && |k.down| <= |k'.down|
    ensures ClientOk(cfg, k')
  {
    hide Base, FilesAfter, PayloadOf, EndsTransfer, Suffix, Place;
  }

  // ---------------------------------------------------------------- wake-ups

  /** Threads that will look at the queue before they sleep, less the records waiting in it. */
  function NotEmptyGap(s: State): int {
    Sum(s.workers, Unpopped) + Sum(s.conns, OwesNotEmpty) - |s.queue|
  }

  lemma NotEmptyKept(s: State, s': State)
    requires NotEmptyOk(s)
    requires s'.running && s'.queue != [] ==> s.running && (WorkerSleeps(s') ==> WorkerSleeps(s))
    requires s'.running && s'.queue != [] ==> NotEmptyGap(s) <= NotEmptyGap(s')
    ensures NotEmptyOk(s')
  {
    hide Sum, WorkerSleeps;
  }

  lemma SleepersKept(s: State, s': State, w: int)
    requires OtherWorkersStay(s, s', w)
    ensures WorkerSleeps(s') ==> WorkerSleeps(s) || (0 <= w < |s.workers| && s'.workers[w].Asleep?)
  {
    if WorkerSleeps(s') {
      var v :| 0 <= v < |s'.workers| && s'.workers[v].Asleep?;
      assert v != w ==> s.workers[v].Asleep?;
    }
  }

  /** Threads that will bring the queue's free slots into use, less the free slots. */
  function NotFullGap(cfg: Config, s: State): int {
    Sum(s.conns, AwakeInserter) + Sum(s.workers, OwesNotFull) - (cfg.capacity - |s.queue|)
  }

  lemma NotFullKept(cfg: Config, s: State, s': State)
    requires NotFullOk(cfg, s)
    requires |s'.queue| < cfg.capacity && InserterSleeps(s') ==>
               InserterSleeps(s) && NotFullGap(cfg, s) <= NotFullGap(cfg, s')
    ensures NotFullOk(cfg, s')
  {
    hide Sum, InserterSleeps;
  }
}
