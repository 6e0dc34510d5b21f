/** What ^C comes to, decided at the broadcast: when all workers must leave, and when they may. */
module ShutdownOutcome {
  import opened Wire
  import opened Protocol
  import opened Invariants
  import opened Frames
  import opened System
  import opened EndToEnd
  import opened Shutdown
  import opened Progress
  import opened Rooms

  // ---------------------------------------------------------------- an insertion still to come

  /** An open connection has records that are not in the queue yet. */
  predicate StillInserts(k: Conn) {
    Live(k.comm) && k.inserted < |Records(k.request)|
  }

  /** `s` comes after the broadcast and `s0`, and worker `w`, the only one to sleep, has missed
      nothing: no record enters the queue without a signal owed to it, and none leaves the queue. */
  ghost predicate Awaiting(s0: State, s: State, w: nat) {
    && Stopped(s) && |s.workers| == |s0.workers| && |s.conns| == |s0.conns| && w < |s.workers|
    && (forall v | 0 <= v < |s.workers| :: !s.workers[v].Pop? && (v != w ==> !Doomed(s.workers[v])))
    && (forall c | 0 <= c < |s.conns| ::
          s.conns[c].request == s0.conns[c].request && (s.conns[c].comm.Unborn? ==> s0.conns[c].comm.Unborn?))
    && (s.queue == [] ==> forall c | 0 <= c < |s.conns| :: s.conns[c].inserted == s0.conns[c].inserted)
    && (s.workers[w].Asleep? ==> |s.queue| <= Sum(s.conns, OwesNotEmpty))
  }

  /** A connection as far as insertions go. */
  predicate SameInsertion(k: Conn, k': Conn) {
    && k'.request == k.request && k'.inserted == k.inserted && OwesNotEmpty(k') == OwesNotEmpty(k)
    && (k'.comm.Unborn? ==> k.comm.Unborn?)
  }

  /** Steps that insert nothing, pop nothing and signal no worker. */
  lemma AwaitingKept(s0: State, s: State, w: nat, s': State)
    requires Awaiting(s0, s, w) && Stopped(s') && SameSizes(s, s') && s'.queue == s.queue
    requires forall v | 0 <= v < |s.workers| :: !s'.workers[v].Pop? && (Doomed(s'.workers[v]) ==> Doomed(s.workers[v]))
    requires forall c | 0 <= c < |s.conns| :: SameInsertion(s.conns[c], s'.conns[c])
    requires s'.workers[w].Asleep? && !s.workers[w].Asleep? ==> s.queue == []
    ensures Awaiting(s0, s', w)
  {
    hide Doomed, Stopped;
    SumEqual(s.conns, s'.conns, OwesNotEmpty);
  }

  lemma WorkerInsertsNothing(cfg: Config, s: State, v: nat, wake: Option<nat>, n: nat, s': State)
    requires v < |s.workers| && WorkerStep(cfg, s, v, wake, n) == Some(s')
    ensures |s'.conns| == |s.conns| && forall c | 0 <= c < |s.conns| :: SameInsertion(s.conns[c], s'.conns[c])
  {
    hide Encode, OpenConn, FindNode;
  }

  lemma WorkerPopsNothing(cfg: Config, s: State, v: nat, wake: Option<nat>, n: nat, s': State)
    requires v < |s.workers| && WorkerStep(cfg, s, v, wake, n) == Some(s') && !s.running && !s.workers[v].Pop?
    requires WorkerOk(s, s.workers[v])
    ensures s'.queue == s.queue && s'.workers == s.workers[v := s'.workers[v]]
    ensures !s'.workers[v].Pop? && (s'.workers[v].Asleep? ==> s.queue == [])
  {
    hide Encode, OpenConn, FindNode;
  }

  lemma CommInsertsOne(cfg: Config, s0: State, s: State, w: nat, c: nat, wake: Option<nat>, s': State)
    requires c < |s.conns| && CommStep(cfg, s, c, wake) == Some(s') && Awaiting(s0, s, w) && s.conns[c].comm.Insert?
    ensures Awaiting(s0, s', w)
  {
    SumUpdate(s.conns, c, s'.conns[c], OwesNotEmpty);
    hide Records, Sum, Doomed;
  }

  /** The only sleeper is the one a signal wakes. */
  lemma CommWakes(cfg: Config, s0: State, s: State, w: nat, c: nat, wake: Option<nat>, s': State)
    requires c < |s.conns| && CommStep(cfg, s, c, wake) == Some(s') && Awaiting(s0, s, w)
             && s.conns[c].comm.SignalNotEmpty?
    ensures Awaiting(s0, s', w)
  {
    hide Records, Sum;
  }

  lemma CommGoesOn(cfg: Config, s: State, c: nat, wake: Option<nat>, s': State)
    requires c < |s.conns| && CommStep(cfg, s, c, wake) == Some(s') && !s.conns[c].comm.Insert?
             && !s.conns[c].comm.SignalNotEmpty?
    ensures s'.workers == s.workers && s'.queue == s.queue && s'.running == s.running && s'.main == s.main
    ensures |s'.conns| == |s.conns| && forall d | 0 <= d < |s.conns| :: SameInsertion(s.conns[d], s'.conns[d])
  {
    hide Records, RemoveNode, BigEndian;
  }

  lemma CommWaits(cfg: Config, s0: State, s: State, w: nat, c: nat, wake: Option<nat>, s': State)
    requires c < |s.conns| && CommStep(cfg, s, c, wake) == Some(s') && Awaiting(s0, s, w)
    ensures Awaiting(s0, s', w)
  {
    hide CommStep, SameInsertion;
    if s.conns[c].comm.Insert? {
      CommInsertsOne(cfg, s0, s, w, c, wake, s');
    } else if s.conns[c].comm.SignalNotEmpty? {
      CommWakes(cfg, s0, s, w, c, wake, s');
    } else {
      CommGoesOn(cfg, s, c, wake, s');
      AwaitingKept(s0, s, w, s');
    }
  }

  lemma StepAwaits(cfg: Config, s0: State, s: State, w: nat, e: Event, s': State)
    requires Inv(cfg, s) && Step(cfg, s, e) == Some(s') && Awaiting(s0, s, w)
    ensures Awaiting(s0, s', w)
  {
    hide Inv, WorkerStep, CommStep, ClientStep, Sum, WorkerOk;
    NoNewDoom(cfg, s, e, s');
    match e
    case WorkerRuns(v, wake, n) =>
      AllWorkersOk(cfg, s, v);
      WorkerInsertsNothing(cfg, s, v, wake, n, s');
      WorkerPopsNothing(cfg, s, v, wake, n, s');
      AwaitingKept(s0, s, w, s');
    case CommRuns(c, wake) => CommWaits(cfg, s0, s, w, c, wake, s');
    case ClientRuns(c) =>
      ClientKeepsComm(s.conns[c], s'.conns[c]);
      AwaitingKept(s0, s, w, s');
    case SpuriousWorker(_) => AwaitingKept(s0, s, w, s');
    case SpuriousComm(_) => AwaitingKept(s0, s, w, s');
    case _ =>
  }

  lemma AllWorkersOk(cfg: Config, s: State, v: nat)
    requires Inv(cfg, s) && v < |s.workers|
    ensures WorkerOk(s, s.workers[v])
  {
    hide QueueLockOk, NodeLockOk, SocketsDistinct, RegistryOk, QueueOk, ConservationOk, StreamsOk, ConnsOk;
    hide NotEmptyOk, NotFullOk;
  }

  lemma {:induction false} RunAwaits(cfg: Config, states: seq<State>, events: seq<Event>, j: nat, i: nat, w: nat)
    requires IsRun(cfg, states, events) && j <= i <= |events| && Awaiting(states[j], states[j], w)
    ensures Awaiting(states[j], states[i], w)
  {
    hide Init, Inv, Step, Awaiting;
    if i > j {
      RunAwaits(cfg, states, events, j, i - 1, w);
      RunKeepsInvariant(cfg, states, events, i - 1);
      assert Step(cfg, states[i - 1], events[i - 1]) == Some(states[i - 1 + 1]);
      StepAwaits(cfg, states[j], states[i - 1], w, events[i - 1], states[i]);
    }
  }

  // ---------------------------------------------------------------- at rest

  lemma RestIsUnlocked(cfg: Config, s: State)
    requires Inv(cfg, s) && SendersServed(cfg, s) && Quiescent(cfg, s)
    ensures s.lock.None?
  {
    hide Inv, Quiescent, SendersServed;
    if s.lock.Some? {
      var e := LockHolderMoves(cfg, s);
      QuietBlocks(cfg, s, e);
    }
  }

  lemma RestBlocksComm(cfg: Config, s: State, c: nat)
    requires Inv(cfg, s) && Quiescent(cfg, s) && c < |s.conns|
    ensures ConnOk(cfg, s.conns[c]) && CommBlocked(cfg, s, s.conns[c])
  {
    hide QueueLockOk, NodeLockOk, SocketsDistinct, RegistryOk, QueueOk, WorkersOk, ConservationOk, StreamsOk;
    hide NotEmptyOk, NotFullOk, Quiescent, ConnOk;
    assert ConnOk(cfg, s.conns[c]);
    if !CommBlocked(cfg, s, s.conns[c]) {
      OnlyComm(cfg, s.conns[c]);
      var e := CommMoves(cfg, s, c);
      QuietBlocks(cfg, s, e);
    }
  }

  /** Nobody owes a signal, and nobody is about to insert. */
  lemma RestOwesNothing(cfg: Config, s: State)
    requires Inv(cfg, s) && SendersServed(cfg, s) && Quiescent(cfg, s)
    ensures Sum(s.conns, OwesNotEmpty) == 0 && Sum(s.conns, AwakeInserter) == 0 && Sum(s.workers, OwesNotFull) == 0
  {
    hide Inv, Quiescent, ConnOk, Sum, SendersServed;
    RestIsUnlocked(cfg, s);
    forall c | 0 <= c < |s.conns|
      ensures OwesNotEmpty(s.conns[c]) == 0 && AwakeInserter(s.conns[c]) == 0
    {
      RestBlocksComm(cfg, s, c);
    }
    forall w | 0 <= w < |s.workers|
      ensures OwesNotFull(s.workers[w]) == 0
    {
      QuietWorkersSleepOrLeft(cfg, s, w);
    }
    SumIsZero(s.conns, OwesNotEmpty);
    SumIsZero(s.conns, AwakeInserter);
    SumIsZero(s.workers, OwesNotFull);
  }

  /** With room in the queue no communication thread waits for it. */
  lemma RestWithRoom(cfg: Config, s: State, c: nat)
    requires Inv(cfg, s) && SendersServed(cfg, s) && Quiescent(cfg, s) && s.queue == [] && c < |s.conns|
    ensures !s.conns[c].comm.Asleep?
  {
    RestOwesNothing(cfg, s);
    hide QueueLockOk, NodeLockOk, SocketsDistinct, RegistryOk, QueueOk, WorkersOk, ConservationOk, StreamsOk;
    hide ConnsOk, NotEmptyOk, Quiescent, Sum;
  }

  /** A connection with records left has inserted another one by the time all is at rest. */
  lemma RestHasInserted(cfg: Config, s0: State, s: State, w: nat, c: nat)
    requires Inv(cfg, s) && FieldsFit(cfg) && SendersServed(cfg, s) && Quiescent(cfg, s)
    requires Awaiting(s0, s, w) && c < |s.conns| && StillInserts(s0.conns[c])
    ensures !s.workers[w].Asleep?
  {
    hide Inv, Quiescent, ConnOk, Sum, SendersServed, FieldsFit, HasDownRoom, Enabled;
    if s.workers[w].Asleep? {
      RestOwesNothing(cfg, s);
      assert s.queue == [] && s.conns[c].inserted == s0.conns[c].inserted;
      RestIsUnlocked(cfg, s);
      RestBlocksComm(cfg, s, c);
      RestWithRoom(cfg, s, c);
      HandshakeGoesOn(cfg, s, c);
      QuietBlocks(cfg, s, ClientRuns(c));
      OnlyComm(cfg, s.conns[c]);
      assert false;
    }
  }

  /** A record that an open connection has still to insert at the broadcast brings every worker home, even
      one on its way into the wait. Its signal comes after that worker sleeps, because going to sleep is
      what releases the queue's mutex. */
  lemma PendingInsertionFreesAll(cfg: Config, states: seq<State>, events: seq<Event>, j: nat, c: nat)
    requires IsRun(cfg, states, events) && AllRoomy(cfg, states[0]) && j < |events| && events[j].MainBroadcasts?
    requires c < |states[j].conns| && StillInserts(states[j].conns[c])
    requires Quiescent(cfg, states[|events|])
    ensures AllLeft(states[|events|])
  {
    hide Init, Inv, Quiescent, Step, StillInserts, Roomy, FieldsFit, SendersServed;
    RunServesSenders(cfg, states, events, |events|);
    AfterBroadcast(cfg, states, events, j);
    NoNewDoomInRuns(cfg, states, events, j + 1, |events|);
    var last := states[|events|];
    forall w | 0 <= w < |last.workers|
      ensures last.workers[w].Exited?
    {
      if !Doomed(states[j + 1].workers[w]) {
        UndoomedLeaves(cfg, states, events, j + 1, w);
      } else {
        RunKeepsInvariant(cfg, states, events, j + 1);
        WaiterIsAlone(cfg, states[j + 1], w);
        RunAwaits(cfg, states, events, j + 1, |events|, w);
        RunKeepsInvariant(cfg, states, events, |events|);
        RestHasInserted(cfg, states[j + 1], last, w, c);
        QuietWorkersSleepOrLeft(cfg, last, w);
      }
    }
  }

  // ---------------------------------------------------------------- a signal still to come

  /** A worker is on its way into the wait, nobody sleeps yet, and no open connection has a record to
      insert; signals may be owed. */
  ghost predicate OnTheBrink(cfg: Config, s: State, w: nat) {
    && Inv(cfg, s) && Stopped(s) && w < |s.workers| && s.workers[w].GoWait?
    && (forall v | 0 <= v < |s.workers| :: !s.workers[v].Asleep?)
    && (forall c | 0 <= c < |s.conns| :: !StillInserts(s.conns[c]))
  }

  /** Then every communication thread has signalled for the last time or is about to. */
  lemma AtMostASignal(cfg: Config, s: State, w: nat, c: nat)
    requires OnTheBrink(cfg, s, w) && c < |s.conns|
    ensures CannotSignal(s.conns[c].comm) || s.conns[c].comm.SignalNotEmpty?
    ensures s.conns[c].comm.SignalNotEmpty? ==> s.conns[c].inserted == |Records(s.conns[c].request)|
  {
    hide Inv, Records, Stopped;
    WaiterIsAlone(cfg, s, w);
    InsertedSoFar(cfg, s, c);
    assert !StillInserts(s.conns[c]);
  }

  lemma InsertedSoFar(cfg: Config, s: State, c: nat)
    requires Inv(cfg, s) && c < |s.conns|
    ensures CommOk(s.conns[c]) && s.conns[c].inserted <= |Records(s.conns[c].request)|
    ensures BeforeStream(s.conns[c].comm) ==> s.conns[c].inserted == 0
  {
    hide QueueLockOk, NodeLockOk, SocketsDistinct, RegistryOk, QueueOk, WorkersOk, ConnOk, NotEmptyOk, NotFullOk;
    hide Stream, Base;
    hide InFlight, Held, Filter;
    assert ConnOk(cfg, s.conns[c]) && Conserved(s, c) && DownOk(cfg, s.conns[c], WrittenInFlight(s, c));
    OnlyComm(cfg, s.conns[c]);
  }

  lemma SignalIs(cfg: Config, s: State, c: nat, wake: Option<nat>)
    requires c < |s.conns| && s.conns[c].comm.SignalNotEmpty? && s.conns[c].inserted == |Records(s.conns[c].request)|
    ensures CommStep(cfg, s, c, wake) == CommSignals(s, c, wake)
    ensures wake.None? && (forall v | 0 <= v < |s.workers| :: !s.workers[v].Asleep?) ==>
              CommSignals(s, c, wake) == Some(s.SetComm(c, ReadAck))
    ensures wake.Some? && wake.value < |s.workers| && s.workers[wake.value].Asleep?
        ==> CommSignals(s, c, wake) == Some(s.SetComm(c, ReadAck).SetWorker(wake.value, WorkerPc.Reacquire))
  {
  }

  lemma SignalMissed(cfg: Config, s: State, w: nat, c: nat) returns (s': State)
    requires OnTheBrink(cfg, s, w) && c < |s.conns| && s.conns[c].comm.SignalNotEmpty?
    ensures Step(cfg, s, CommRuns(c, None)) == Some(s') && s' == s.SetComm(c, ReadAck) && CannotSignal(s'.conns[c].comm)
    ensures Inv(cfg, s') ==> OnTheBrink(cfg, s', w)
  {
    hide Inv, Records, CommStep, CommSignals;
    AtMostASignal(cfg, s, w, c);
    SignalIs(cfg, s, c, None);
    s' := s.SetComm(c, ReadAck);
    forall d | 0 <= d < |s'.conns|
      ensures !StillInserts(s'.conns[d])
    {
      assert !StillInserts(s.conns[d]);
    }
  }

  /** All owed signals go out before the worker sleeps: they wake nobody. */
  lemma {:induction false} SignalsMissed(cfg: Config, states: seq<State>, events: seq<Event>, w: nat, n: nat)
    returns (states': seq<State>, events': seq<Event>)
    requires IsRun(cfg, states, events) && OnTheBrink(cfg, states[|events|], w) && n <= |states[|events|].conns|
    requires forall c | 0 <= c < n :: CannotSignal(states[|events|].conns[c].comm)
    ensures IsRun(cfg, states', events') && states <= states' && events <= events'
    ensures forall i | |events| <= i < |events'| :: !IsSpurious(events'[i]) && !events'[i].Interrupt?
    ensures OnTheBrink(cfg, states'[|events'|], w) && NobodySignals(states'[|events'|])
    decreases |states[|events|].conns| - n
  {
    hide Init, Inv, Step, CannotSignal, OnTheBrink;
    var s := states[|events|];
    if n == |s.conns| {
      states', events' := states, events;
    } else {
      AtMostASignal(cfg, s, w, n);
      if CannotSignal(s.conns[n].comm) {
        states', events' := SignalsMissed(cfg, states, events, w, n + 1);
      } else {
        var s' := SignalMissed(cfg, s, w, n);
        Extend(cfg, states, events, CommRuns(n, None), s');
        states', events' := SignalsMissed(cfg, states + [s'], events + [CommRuns(n, None)], w, n + 1);
      }
    }
  }

  /** So from the brink the worker can be stranded. */
  lemma CanBeStranded(cfg: Config, states: seq<State>, events: seq<Event>, w: nat)
    returns (states': seq<State>, events': seq<Event>)
    requires IsRun(cfg, states, events) && OnTheBrink(cfg, states[|events|], w)
    ensures Completes(cfg, states, events, states', events') && !AllLeft(states'[|events'|])
  {
    hide Init, Inv, Step, NobodySignals, Quiescent;
    var ss, es := SignalsMissed(cfg, states, events, w, 0);
    states', events' := EveryRunCanComplete(cfg, ss, es);
    assert states'[|es|] == ss[|es|];
    StrandedForEver(cfg, states', events', |es|, w);
  }

  lemma SleepsThenWakes(cfg: Config, s: State, w: nat, c: nat) returns (t: State, u: State)
    requires OnTheBrink(cfg, s, w) && c < |s.conns| && s.conns[c].comm.SignalNotEmpty?
    ensures Step(cfg, s, WorkerRuns(w, None, 0)) == Some(t) && Step(cfg, t, CommRuns(c, Some(w))) == Some(u)
    ensures Stopped(u) && forall v | 0 <= v < |u.workers| :: !Doomed(u.workers[v])
  {
    hide Inv, Records, CommStep, CommSignals;
    AtMostASignal(cfg, s, w, c);
    WaiterIsAlone(cfg, s, w);
    t := s.(lock := None).SetWorker(w, WorkerPc.Asleep);
    SignalIs(cfg, t, c, Some(w));
    u := t.SetComm(c, ReadAck).SetWorker(w, WorkerPc.Reacquire);
  }

  /** And with a signal owed it can come home: it sleeps first and the signal wakes it. */
  lemma CanBeWoken(cfg: Config, states: seq<State>, events: seq<Event>, w: nat, c: nat)
    returns (states': seq<State>, events': seq<Event>)
    requires IsRun(cfg, states, events) && AllRoomy(cfg, states[0]) && OnTheBrink(cfg, states[|events|], w)
    requires c < |states[|events|].conns| && states[|events|].conns[c].comm.SignalNotEmpty?
    ensures Completes(cfg, states, events, states', events') && AllLeft(states'[|events'|])
  {
    hide Init, Inv, Step, OnTheBrink, Quiescent, Doomed, Stopped, AllRoomy;
    var s, n := states[|events|], |events|;
    var t, u := SleepsThenWakes(cfg, s, w, c);
    Extend(cfg, states, events, WorkerRuns(w, None, 0), t);
    Extend(cfg, states + [t], events + [WorkerRuns(w, None, 0)], CommRuns(c, Some(w)), u);
    var es := events + [WorkerRuns(w, None, 0)] + [CommRuns(c, Some(w))];
    states', events' := EveryRunCanComplete(cfg, states + [t] + [u], es);
    assert states'[n + 2] == u;
    NoNewDoomInRuns(cfg, states', events', n + 2, |events'|);
    forall v | 0 <= v < |states'[|events'|].workers|
      ensures states'[|events'|].workers[v].Exited?
    {
      UndoomedLeaves(cfg, states', events', n + 2, v);
    }
  }

  // ---------------------------------------------------------------- the outcome

  predicate OneStillInserts(s: State) {
    exists c :: 0 <= c < |s.conns| && StillInserts(s.conns[c])
  }

  predicate OneStillSignals(s: State) {
    exists c :: 0 <= c < |s.conns| && s.conns[c].comm.SignalNotEmpty?
  }

  /** The run goes on, with spurious wake-ups or without, until it has come to rest. */
  ghost predicate ComesToRest(cfg: Config, states: seq<State>, events: seq<Event>, states': seq<State>,
                              events': seq<Event>) {
    IsRun(cfg, states', events') && states <= states' && events <= events' && Quiescent(cfg, states'[|events'|])
  }

  /** However the threads are scheduled and whatever wakes up unprompted from here on, all workers leave. */
  ghost predicate MustLeave(cfg: Config, states: seq<State>, events: seq<Event>) {
    forall states', events' | ComesToRest(cfg, states, events, states', events') :: AllLeft(states'[|events'|])
  }

  /** Some schedule lets all workers leave without waking up unprompted. */
  ghost predicate MayLeave(cfg: Config, states: seq<State>, events: seq<Event>) {
    exists states', events' :: Completes(cfg, states, events, states', events') && AllLeft(states'[|events'|])
  }

  /** At the moment after the broadcast: all workers are sure to leave if and only if none is on its way
      into the wait or some open connection has a record to insert; and some schedule without spurious
      wake-ups lets them leave if and only if one of these holds or a signal is still owed. */
  lemma AllWorkersLeaveIff(cfg: Config, states: seq<State>, events: seq<Event>)
    requires IsRun(cfg, states, events) && AllRoomy(cfg, states[0])
    requires events != [] && events[|events| - 1].MainBroadcasts?
    ensures var s := states[|events|];
            && (MustLeave(cfg, states, events) <==> !OneWaits(s) || OneStillInserts(s))
            && (MayLeave(cfg, states, events) <==> !OneWaits(s) || OneStillInserts(s) || OneStillSignals(s))
  {
    hide Init, Inv, Step, Quiescent, AllLeft, AllRoomy;
    var s, j := states[|events|], |events| - 1;
    AfterBroadcast(cfg, states, events, j);
    RunKeepsInvariant(cfg, states, events, |events|);
    if !OneWaits(s) || OneStillInserts(s) {
      forall states', events' | ComesToRest(cfg, states, events, states', events')
        ensures AllLeft(states'[|events'|])
      {
        LeavesForSure(cfg, states, events, states', events');
      }
      var states', events' := EveryRunCanComplete(cfg, states, events);
      assert ComesToRest(cfg, states, events, states', events');
      assert MayLeave(cfg, states, events);
    } else {
      var w: nat :| w < |s.workers| && s.workers[w].GoWait?;
      assert OnTheBrink(cfg, s, w);
      var states', events' := CanBeStranded(cfg, states, events, w);
      assert ComesToRest(cfg, states, events, states', events');
      assert !MustLeave(cfg, states, events);
      if OneStillSignals(s) {
        var c: nat :| c < |s.conns| && s.conns[c].comm.SignalNotEmpty?;
        var states'', events'' := CanBeWoken(cfg, states, events, w, c);
        assert MayLeave(cfg, states, events);
      } else {
        forall states', events' | Completes(cfg, states, events, states', events')
          ensures !AllLeft(states'[|events'|])
        {
          StaysForSure(cfg, states, events, states', events', w);
        }
      }
    }
  }

  lemma LeavesForSure(cfg: Config, states: seq<State>, events: seq<Event>, states': seq<State>, events': seq<Event>)
    requires IsRun(cfg, states, events) && AllRoomy(cfg, states[0])
    requires events != [] && events[|events| - 1].MainBroadcasts?
    requires ComesToRest(cfg, states, events, states', events')
    requires !OneWaits(states[|events|]) || OneStillInserts(states[|events|])
    ensures AllLeft(states'[|events'|])
  {
    hide Init, Inv, Step, Quiescent, AllLeft, StillInserts, Stopped, AllRoomy;
    var j := |events| - 1;
    AfterBroadcast(cfg, states, events, j);
    assert states'[j] == states[j] && events'[j] == events[j];
    if OneStillInserts(states[|events|]) {
      var c: nat :| c < |states[|events|].conns| && StillInserts(states[|events|].conns[c]);
      PendingInsertionFreesAll(cfg, states', events', j, c);
    } else {
      AllLeaveUnlessOneWaits(cfg, states', events', j);
    }
  }

  lemma StaysForSure(cfg: Config, states: seq<State>, events: seq<Event>, states': seq<State>, events': seq<Event>,
                     w: nat)
    requires IsRun(cfg, states, events) && Completes(cfg, states, events, states', events')
    requires OnTheBrink(cfg, states[|events|], w) && !OneStillSignals(states[|events|])
    ensures !AllLeft(states'[|events'|])
  {
    hide Init, Inv, Step, Quiescent;
    var s := states[|events|];
    assert states'[|events|] == s;
    forall c | 0 <= c < |s.conns|
      ensures CannotSignal(s.conns[c].comm)
    {
      AtMostASignal(cfg, s, w, c);
    }
    StrandedForEver(cfg, states', events', |events|, w);
  }
}
