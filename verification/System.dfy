/** Every step of the whole system keeps the invariant, hence every reachable state has it. */
module System {
  import opened Wire
  import opened Protocol
  import opened Invariants
  import opened Frames
  import WorkerSteps
  import CommSteps
  import ClientSteps

  lemma SpuriousWorkerKeeps(cfg: Config, s: State, w: nat, s': State)
    requires Inv(cfg, s) && w < |s.workers| && s.workers[w].Asleep? && s' == s.SetWorker(w, WorkerPc.Reacquire)
    ensures Inv(cfg, s')
  {
    hide QueueLockOk, NodeLockOk, SocketsDistinct, RegistryOk, QueueOk, WorkersOk, ConservationOk, StreamsOk;
    hide ConnsOk, NotEmptyOk, NotFullOk;
    WorkerSteps.LockExcludes(s, w);
    WorkerSteps.IdleStepKeeps(cfg, s, w, WorkerPc.Reacquire, s.lock, s');
  }

  lemma SpuriousCommKeeps(cfg: Config, s: State, c: nat, s': State)
    requires Inv(cfg, s) && c < |s.conns| && s.conns[c].comm.Asleep? && s' == s.SetComm(c, CommPc.Reacquire)
    ensures Inv(cfg, s')
  {
    hide QueueLockOk, NodeLockOk, SocketsDistinct, RegistryOk, QueueOk, WorkersOk, ConservationOk, StreamsOk;
    hide ConnOk, NotEmptyOk, NotFullOk;
    var k, k' := s.conns[c], s'.conns[c];
    CommSteps.HoldsExactly(s, c);
    assert ConnOk(cfg, k);
    CommSteps.MovedConnOk(cfg, k, CommPc.Reacquire);
    CommSteps.QuietStepKeepsStreams(cfg, s, c, k', s.lock, s');
    CommSteps.PlainStepKeeps(cfg, s, c, k', s.lock, s');
  }

  /** ^C, and the steps of main up to the broadcast: only the flag and main's program counter change. */
  lemma FlagKeeps(cfg: Config, s: State, s': State)
    requires Inv(cfg, s) && s' == s.(running := s'.running, main := s'.main) && (s'.running ==> s.running)
    requires s'.main.Joining? || s'.main.Stopping? ==> !s'.running
    ensures Inv(cfg, s')
  {
    hide QueueLockOk, NodeLockOk, SocketsDistinct, RegistryOk, QueueOk, WorkersOk, ConservationOk, StreamsOk;
    hide ConnOk, NotEmptyOk, NotFullOk;
    hide Names, AtNode, InFlight, Held, WrittenInFlight, NodeHeld, InserterSleeps;
    QueueLockSameThreads(s, s');
    NodeLockKept(s, s');
    DescriptorsKept(s, s');
    QueueKept(cfg, s, s');
    WorkersKept(s, s', -1);
    FlagKeepsRecords(cfg, s, s');
    NotEmptyKept(s, s');
    NotFullKept(cfg, s, s') by {
      CommSteps.InsertersKept(s, s', |s.conns|);
    }
  }

  lemma QueueLockSameThreads(s: State, s': State)
    requires QueueLockOk(s) && SameSizes(s, s') && s'.lock == s.lock && s'.conns == s.conns
    requires forall w | 0 <= w < |s.workers| :: WorkerHoldsQueue(s'.workers[w]) == WorkerHoldsQueue(s.workers[w])
    ensures QueueLockOk(s')
  {
    hide WorkerHoldsQueue, CommHoldsQueue;
  }

  lemma FlagKeepsRecords(cfg: Config, s: State, s': State)
    requires ConservationOk(s) && StreamsOk(cfg, s) && s'.conns == s.conns && s'.lock == s.lock && s'.queue == s.queue
             && s'.registry == s.registry
    requires OtherWorkersStay(s, s', -1)
    ensures ConservationOk(s') && StreamsOk(cfg, s')
  {
    hide ConservationOk, StreamsOk;
    ConservationKept(s, s');
    StreamsKept(cfg, s, s');
  }

  /** `ThreadPool_Destroy` wakes every sleeping worker. */
  lemma BroadcastKeeps(cfg: Config, s: State, s': State)
    requires Inv(cfg, s) && s.main.Stopping? && s' == s.(main := Joining, workers := WakeAll(s.workers))
    ensures Inv(cfg, s')
  {
    hide QueueLockOk, NodeLockOk, SocketsDistinct, RegistryOk, QueueOk, WorkersOk, ConservationOk, StreamsOk;
    hide ConnOk, NotEmptyOk, NotFullOk;
    hide Names, AtNode, InserterSleeps, Sum;
    QueueLockSameThreads(s, s');
    NodeLockKept(s, s');
    DescriptorsKept(s, s');
    QueueKept(cfg, s, s');
    WorkersKept(s, s', -1);
    FlagKeepsRecords(cfg, s, s');
    NotEmptyKept(s, s');
    SumEqual(s.workers, s'.workers, OwesNotFull);
    NotFullKept(cfg, s, s') by {
      CommSteps.InsertersKept(s, s', |s.conns|);
    }
  }

  lemma {:induction false} SumEqual<T>(xs: seq<T>, ys: seq<T>, f: T -> nat)
    requires |xs| == |ys| && forall i | 0 <= i < |xs| :: f(ys[i]) == f(xs[i])
    ensures Sum(ys, f) == Sum(xs, f)
  {
    if xs != [] {
      SumEqual(xs[..|xs| - 1], ys[..|ys| - 1], f);
    }
  }

  /** Every step of every thread, of main and of the environment keeps the invariant. */
  lemma StepKeeps(cfg: Config, s: State, e: Event, s': State)
    requires Inv(cfg, s) && Step(cfg, s, e) == Some(s')
    ensures Inv(cfg, s')
  {
    hide QueueLockOk, NodeLockOk, SocketsDistinct, RegistryOk, QueueOk, WorkersOk, ConservationOk, StreamsOk;
    hide ConnsOk, NotEmptyOk, NotFullOk;
    hide WorkerStep, CommStep, ClientStep, WakeAll;
    match e
    case Accept(c) =>
      var accepted := s.SetComm(c, Register);
      CommSteps.DoorKeeps(cfg, s, c, Register, accepted);
      FlagKeeps(cfg, accepted, s');
    case WorkerRuns(w, wake, n) => WorkerSteps.WorkerStepKeeps(cfg, s, w, wake, n, s');
    case CommRuns(c, wake) => CommSteps.CommStepKeeps(cfg, s, c, wake, s');
    case ClientRuns(c) => ClientSteps.ClientStepKeeps(cfg, s, c, ClientStep(s.conns[c]).value, s');
    case SpuriousWorker(w) => SpuriousWorkerKeeps(cfg, s, w, s');
    case SpuriousComm(c) => SpuriousCommKeeps(cfg, s, c, s');
    case Interrupt => FlagKeeps(cfg, s, s');
    case MainGoesOn => FlagKeeps(cfg, s, s');
    case MainBroadcasts => BroadcastKeeps(cfg, s, s');
  }

  // ---------------------------------------------------------------- runs

  /** A finite run: one event between any two neighbouring states. */
  ghost predicate IsRun(cfg: Config, states: seq<State>, events: seq<Event>) {
    && |states| == |events| + 1
    && Init(cfg, states[0])
    && forall i | 0 <= i < |events| :: Step(cfg, states[i], events[i]) == Some(states[i + 1])
  }

  /** Every state of every run satisfies the invariant. */
  lemma {:induction false} RunKeepsInvariant(cfg: Config, states: seq<State>, events: seq<Event>, i: nat)
    requires IsRun(cfg, states, events) && i < |states|
    ensures Inv(cfg, states[i])
  {
    hide Init, Inv, Step;
    if i == 0 {
      InitHolds(cfg, states[0]);
    } else {
      RunKeepsInvariant(cfg, states, events, i - 1);
      assert Step(cfg, states[i - 1], events[i - 1]) == Some(states[i - 1 + 1]);
      StepKeeps(cfg, states[i - 1], events[i - 1], states[i]);
    }
  }

  /** One more step of a run. */
  lemma Extend(cfg: Config, states: seq<State>, events: seq<Event>, e: Event, s': State)
    requires IsRun(cfg, states, events) && Step(cfg, states[|events|], e) == Some(s')
    ensures IsRun(cfg, states + [s'], events + [e]) && Inv(cfg, s')
  {
    hide Init, Inv, Step;
    RunKeepsInvariant(cfg, states + [s'], events + [e], |events| + 1);
  }

  /** Changing the only element of a sequence. */
  lemma Sole<T>()
    ensures forall x: T, y: T :: [x][0 := y] == [y]
  {
  }
}
