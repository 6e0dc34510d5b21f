/** Does ^C stop the pool? `RUNNING` is cleared and the broadcast sent without the queue's mutex, so a
    worker that has just found the queue empty and `RUNNING` set can go to sleep after the broadcast. */
module Shutdown {
  import opened Wire
  import opened PathMapping
  import opened Protocol
  import opened Invariants
  import opened System
  import opened EndToEnd
  import opened Progress
  import opened Rooms
  import WorkerSteps

  /** A sleeping worker alone with a main that waits. */
  lemma RestsAsleep(cfg: Config, s: State)
    requires s.workers == [WorkerPc.Asleep] && s.conns == [] && (s.main.InAccept? || s.main.Joining?)
    ensures Quiescent(cfg, s)
  {
    hide CommStep, ClientStep;
  }

  /** A server with one worker and no client. */
  function Alone(running: bool, main: MainPc, lock: Option<Thread>, pc: WorkerPc): State {
    State(running, main, [], lock, [], [pc], [])
  }

  /** The worker has found the queue empty and is about to wait. */
  lemma AboutToWait() returns (cfg: Config, states: seq<State>, events: seq<Event>)
    ensures IsRun(cfg, states, events) && states[|events|] == Alone(true, AtTest, Some(WorkerThread(0)), GoWait)
    ensures forall i | 0 <= i < |events| :: !IsSpurious(events[i])
  {
    hide CommStep, ClientStep, WorkerWrites, WorkerSignals, WorkerTakesNode, WorkerDropsNode, FindNode;
    Sole<WorkerPc>();
    cfg := Config(1, 1, map[], 3, MAX_LENGTH);
    var s0, s1 := Alone(true, AtTest, None, Top), Alone(true, AtTest, None, WorkerPc.Lock);
    var s2 := Alone(true, AtTest, Some(WorkerThread(0)), WorkerPc.Test);
    var s3 := Alone(true, AtTest, Some(WorkerThread(0)), GoWait);
    var run := WorkerRuns(0, None, 0);
    states, events := [s0, s1, s2, s3], [run, run, run];
    assert Step(cfg, s0, run) == Some(s1) && Step(cfg, s1, run) == Some(s2) && Step(cfg, s2, run) == Some(s3);
  }

  lemma AloneSleeps(cfg: Config, running: bool, main: MainPc)
    ensures var s := Alone(running, main, Some(WorkerThread(0)), GoWait);
            Step(cfg, s, WorkerRuns(0, None, 0)) == Some(Alone(running, main, None, WorkerPc.Asleep))
  {
    Sole<WorkerPc>();
  }

  lemma AloneStops(cfg: Config, lock: Option<Thread>)
    ensures Step(cfg, Alone(true, AtTest, lock, GoWait), Interrupt) == Some(Alone(false, AtTest, lock, GoWait))
    ensures Step(cfg, Alone(false, AtTest, lock, GoWait), MainGoesOn) == Some(Alone(false, Stopping, lock, GoWait))
    ensures Step(cfg, Alone(false, Stopping, lock, GoWait), MainBroadcasts) == Some(Alone(false, Joining, lock, GoWait))
  {
    assert WakeAll([GoWait]) == [GoWait];
  }

  /** A run in which ^C leaves the only worker asleep for ever, and main waiting to join it. */
  lemma WorkerCanBeStranded() returns (cfg: Config, states: seq<State>, events: seq<Event>)
    ensures IsRun(cfg, states, events) && Quiescent(cfg, states[|events|])
    ensures states[|events|] == Alone(false, Joining, None, WorkerPc.Asleep)
    ensures forall i | 0 <= i < |events| :: !IsSpurious(events[i])
  {
    hide Init, Inv, Step, Quiescent;
    cfg, states, events := AboutToWait();
    var me := Some(WorkerThread(0));
    AloneStops(cfg, me);
    AloneSleeps(cfg, false, Joining);
    RestsAsleep(cfg, Alone(false, Joining, None, WorkerPc.Asleep));
    Extend(cfg, states, events, Interrupt, Alone(false, AtTest, me, GoWait));
    states, events := states + [Alone(false, AtTest, me, GoWait)], events + [Interrupt];
    Extend(cfg, states, events, MainGoesOn, Alone(false, Stopping, me, GoWait));
    states, events := states + [Alone(false, Stopping, me, GoWait)], events + [MainGoesOn];
    Extend(cfg, states, events, MainBroadcasts, Alone(false, Joining, me, GoWait));
    states, events := states + [Alone(false, Joining, me, GoWait)], events + [MainBroadcasts];
    var run := WorkerRuns(0, None, 0);
    Extend(cfg, states, events, run, Alone(false, Joining, None, WorkerPc.Asleep));
    states, events := states + [Alone(false, Joining, None, WorkerPc.Asleep)], events + [run];
  }

  /** Going to sleep, or asleep. */
  predicate Doomed(pc: WorkerPc) {
    pc.GoWait? || pc.Asleep?
  }

  /** ^C has arrived, main has broadcast and waits for its workers. */
  predicate Stopped(s: State) {
    !s.running && s.main.Joining?
  }

  predicate AllLeft(s: State) {
    forall w | 0 <= w < |s.workers| :: s.workers[w].Exited?
  }

  /** With nothing enabled and no sender held up, every worker is asleep or has left. */
  lemma QuietWorkersSleepOrLeft(cfg: Config, s: State, w: nat)
    requires Inv(cfg, s) && SendersServed(cfg, s) && Quiescent(cfg, s) && w < |s.workers|
    ensures s.workers[w].Asleep? || s.workers[w].Exited?
  {
    hide NodeLockOk, SocketsDistinct, RegistryOk, QueueOk, ConservationOk, StreamsOk, ConnsOk, NotEmptyOk, NotFullOk;
    hide Step, Quiescent, SendersServed;
    if s.lock.Some? {
      var e := LockHolderMoves(cfg, s);
      QuietBlocks(cfg, s, e);
    } else if !s.workers[w].Asleep? && !s.workers[w].Exited? {
      WorkerSteps.WorkerIsOk(s, w);
      WorkerSteps.LockExcludes(s, w);
      var e := AwakeWorkerMoves(cfg, s, w);
      QuietBlocks(cfg, s, e);
    }
  }

  /** Nothing keeps a worker from going to sleep. */
  lemma QuietDoomedSleeps(cfg: Config, s: State, w: nat)
    requires Quiescent(cfg, s) && w < |s.workers| && Doomed(s.workers[w])
    ensures s.workers[w].Asleep?
  {
    hide Quiescent, Step;
    if s.workers[w].GoWait? {
      GoesToSleep(cfg, s, w);
      QuietBlocks(cfg, s, WorkerRuns(w, None, 0));
    }
  }

  lemma GoesToSleep(cfg: Config, s: State, w: nat)
    requires w < |s.workers| && s.workers[w].GoWait?
    ensures Enabled(cfg, s, WorkerRuns(w, None, 0))
  {
  }

  // ---------------------------------------------------------------- nobody else goes to sleep

  lemma ClientKeepsComm(k: Conn, k': Conn)
    requires ClientStep(k) == Some(k')
    ensures k'.comm == k.comm && k'.request == k.request && k'.inserted == k.inserted
  {
    hide FromBigEndian, EndsTransfer, NextBlock, CountDown, ToInt32, Fits;
  }

  lemma WorkerDoom(cfg: Config, s: State, w: nat, wake: Option<nat>, n: nat, s': State)
    requires w < |s.workers| && WorkerStep(cfg, s, w, wake, n) == Some(s') && !s.running
    ensures s'.running == s.running && s'.main == s.main && |s'.workers| == |s.workers|
    ensures forall v | 0 <= v < |s.workers| :: Doomed(s'.workers[v]) <==> Doomed(s.workers[v])
  {
    hide Encode, OpenConn, FindNode;
  }

  lemma CommDoomsNobody(cfg: Config, s: State, c: nat, wake: Option<nat>, s': State)
    requires c < |s.conns| && CommStep(cfg, s, c, wake) == Some(s')
    ensures s'.running == s.running && s'.main == s.main && |s'.workers| == |s.workers|
    ensures forall v | 0 <= v < |s.workers| && Doomed(s'.workers[v]) :: Doomed(s.workers[v])
  {
    hide RemoveNode, BigEndian, Records;
  }

  /** After the broadcast no step of any kind sends a worker to sleep that was not on its way there. */
  lemma NoNewDoom(cfg: Config, s: State, e: Event, s': State)
    requires Step(cfg, s, e) == Some(s') && Stopped(s)
    ensures Stopped(s') && |s'.workers| == |s.workers|
    ensures forall v | 0 <= v < |s.workers| && Doomed(s'.workers[v]) :: Doomed(s.workers[v])
  {
    hide WorkerStep, ClientStep, CommStep;
    match e
    case WorkerRuns(w, wake, n) => WorkerDoom(cfg, s, w, wake, n, s');
    case CommRuns(c, wake) => CommDoomsNobody(cfg, s, c, wake, s');
    case _ =>
  }

  lemma {:induction false} NoNewDoomInRuns(cfg: Config, states: seq<State>, events: seq<Event>, j: nat, i: nat)
    requires IsRun(cfg, states, events) && j <= i <= |events| && Stopped(states[j])
    ensures Stopped(states[i]) && |states[i].workers| == |states[j].workers|
    ensures forall v | 0 <= v < |states[j].workers| && Doomed(states[i].workers[v]) :: Doomed(states[j].workers[v])
  {
    hide Init, Step, Doomed, Stopped;
    if i > j {
      NoNewDoomInRuns(cfg, states, events, j, i - 1);
      assert Step(cfg, states[i - 1], events[i - 1]) == Some(states[i - 1 + 1]);
      NoNewDoom(cfg, states[i - 1], events[i - 1], states[i]);
    }
  }

  /** A worker that was not going to sleep has left in the end. */
  lemma UndoomedLeaves(cfg: Config, states: seq<State>, events: seq<Event>, j: nat, w: nat)
    requires IsRun(cfg, states, events) && AllRoomy(cfg, states[0])
    requires j <= |events| && Stopped(states[j]) && Quiescent(cfg, states[|events|])
    requires w < |states[j].workers| && !Doomed(states[j].workers[w])
    ensures |states[|events|].workers| == |states[j].workers| && states[|events|].workers[w].Exited?
  {
    hide Init, Inv, Quiescent, Step, AllRoomy, SendersServed;
    RunKeepsInvariant(cfg, states, events, |events|);
    RunServesSenders(cfg, states, events, |events|);
    NoNewDoomInRuns(cfg, states, events, j, |events|);
    QuietWorkersSleepOrLeft(cfg, states[|events|], w);
  }

  // ---------------------------------------------------------------- the broadcast

  predicate OneWaits(s: State) {
    exists w :: 0 <= w < |s.workers| && s.workers[w].GoWait?
  }

  lemma StoppedBeforeBroadcast(cfg: Config, s: State)
    requires Inv(cfg, s)
    ensures s.main.Stopping? || s.main.Joining? ==> !s.running
  {
    hide QueueLockOk, NodeLockOk, SocketsDistinct, RegistryOk, QueueOk, WorkersOk, ConservationOk, StreamsOk;
    hide ConnsOk, NotEmptyOk, NotFullOk;
  }

  /** A worker on its way into the wait has the queue's mutex, so it is alone there. */
  lemma WaiterIsAlone(cfg: Config, s: State, w: nat)
    requires Inv(cfg, s) && w < |s.workers| && s.workers[w].GoWait?
    ensures s.lock == Some(WorkerThread(w)) && s.queue == []
    ensures forall v | 0 <= v < |s.workers| && v != w :: !s.workers[v].GoWait? && !s.workers[v].Pop?
    ensures forall c | 0 <= c < |s.conns| :: !CommHoldsQueue(s.conns[c].comm)
  {
    hide NodeLockOk, SocketsDistinct, RegistryOk, QueueOk, ConservationOk, StreamsOk, ConnsOk, NotEmptyOk, NotFullOk;
    WorkerSteps.WorkerIsOk(s, w);
    assert WorkerHoldsQueue(s.workers[w]);
  }

  /** What the broadcast leaves behind: nobody asleep. */
  lemma AfterBroadcast(cfg: Config, states: seq<State>, events: seq<Event>, j: nat)
    requires IsRun(cfg, states, events) && j < |events| && events[j].MainBroadcasts?
    ensures var (s, t) := (states[j], states[j + 1]);
            && Stopped(t) && |t.workers| == |s.workers| && t.conns == s.conns
            && (forall w | 0 <= w < |s.workers| ::
                  !t.workers[w].Asleep? && (t.workers[w].GoWait? <==> s.workers[w].GoWait?))
            && (forall w | 0 <= w < |s.workers| ::
                  t.workers[w] == if s.workers[w].Asleep? then WorkerPc.Reacquire else s.workers[w])
  {
    hide Init, Inv;
    RunKeepsInvariant(cfg, states, events, j);
    StoppedBeforeBroadcast(cfg, states[j]);
    assert Step(cfg, states[j], events[j]) == Some(states[j + 1]);
  }

  /** Whatever is open, and whatever wakes up unprompted: with no worker on its way into
      `pthread_cond_wait` at the broadcast, every worker leaves. */
  lemma AllLeaveUnlessOneWaits(cfg: Config, states: seq<State>, events: seq<Event>, j: nat)
    requires IsRun(cfg, states, events) && AllRoomy(cfg, states[0])
    requires j < |events| && events[j].MainBroadcasts? && !OneWaits(states[j])
    requires Quiescent(cfg, states[|events|])
    ensures AllLeft(states[|events|])
  {
    hide Init, Quiescent, Step, Stopped, AllRoomy;
    AfterBroadcast(cfg, states, events, j);
    NoNewDoomInRuns(cfg, states, events, j + 1, |events|);
    forall w | 0 <= w < |states[|events|].workers|
      ensures states[|events|].workers[w].Exited?
    {
      UndoomedLeaves(cfg, states, events, j + 1, w);
    }
  }

  // ---------------------------------------------------------------- nobody is left to signal

  /** A communication thread that will not signal `cond_queue_not_empty` any more. */
  predicate CannotSignal(pc: CommPc) {
    pc.Unborn? || pc.ReadAck? || pc.Deregister? || pc.Close? || pc.Gone?
  }

  predicate NobodySignals(s: State) {
    forall c | 0 <= c < |s.conns| :: CannotSignal(s.conns[c].comm)
  }

  lemma WorkerKeepsSilence(cfg: Config, s: State, w: nat, wake: Option<nat>, n: nat, s': State)
    requires w < |s.workers| && WorkerStep(cfg, s, w, wake, n) == Some(s') && NobodySignals(s)
    ensures NobodySignals(s')
  {
    hide Encode, OpenConn, FindNode;
    forall c | 0 <= c < |s'.conns|
      ensures CannotSignal(s'.conns[c].comm)
    {
      assert CannotSignal(s.conns[c].comm);
    }
  }

  lemma CommKeepsSilence(cfg: Config, s: State, c: nat, wake: Option<nat>, s': State)
    requires c < |s.conns| && CommStep(cfg, s, c, wake) == Some(s') && CannotSignal(s.conns[c].comm)
    ensures s'.workers == s.workers && s'.conns == s.conns[c := s'.conns[c]] && CannotSignal(s'.conns[c].comm)
  {
    hide RemoveNode, BigEndian, Records;
  }

  /** After the broadcast, with nobody left to signal: who is doomed stays so, who is not never is. */
  lemma DoomIsFinal(cfg: Config, s: State, e: Event, s': State)
    requires Step(cfg, s, e) == Some(s') && !IsSpurious(e) && Stopped(s) && NobodySignals(s)
    ensures Stopped(s') && NobodySignals(s') && |s'.workers| == |s.workers|
    ensures forall v | 0 <= v < |s.workers| :: Doomed(s'.workers[v]) <==> Doomed(s.workers[v])
  {
    hide WorkerStep, CommStep, ClientStep;
    NoNewDoom(cfg, s, e, s');
    match e
    case WorkerRuns(w, wake, n) => WorkerDoom(cfg, s, w, wake, n, s'); WorkerKeepsSilence(cfg, s, w, wake, n, s');
    case CommRuns(c, wake) => CommKeepsSilence(cfg, s, c, wake, s');
    case ClientRuns(c) => ClientKeepsComm(s.conns[c], s'.conns[c]);
    case _ =>
  }

  lemma {:induction false} DoomIsFinalInRuns(cfg: Config, states: seq<State>, events: seq<Event>, j: nat, i: nat)
    requires IsRun(cfg, states, events) && j <= i <= |events|
    requires forall k | j <= k < |events| :: !IsSpurious(events[k])
    requires Stopped(states[j]) && NobodySignals(states[j])
    ensures Stopped(states[i]) && NobodySignals(states[i]) && |states[i].workers| == |states[j].workers|
    ensures forall w | 0 <= w < |states[j].workers| :: Doomed(states[i].workers[w]) <==> Doomed(states[j].workers[w])
  {
    hide Init, Step, NobodySignals, Doomed, Stopped;
    if i > j {
      DoomIsFinalInRuns(cfg, states, events, j, i - 1);
      assert Step(cfg, states[i - 1], events[i - 1]) == Some(states[i - 1 + 1]);
      DoomIsFinal(cfg, states[i - 1], events[i - 1], states[i]);
    }
  }

  /** Then the worker that was going to sleep sleeps for ever. */
  lemma StrandedForEver(cfg: Config, states: seq<State>, events: seq<Event>, j: nat, w: nat)
    requires IsRun(cfg, states, events) && j <= |events| && Quiescent(cfg, states[|events|])
    requires forall k | j <= k < |events| :: !IsSpurious(events[k])
    requires Stopped(states[j]) && NobodySignals(states[j]) && w < |states[j].workers| && Doomed(states[j].workers[w])
    ensures |states[|events|].workers| == |states[j].workers| && states[|events|].workers[w].Asleep?
  {
    hide Init, Quiescent, Step, NobodySignals;
    DoomIsFinalInRuns(cfg, states, events, j, |events|);
    QuietDoomedSleeps(cfg, states[|events|], w);
  }
}
