/** What ^C comes to, decided when it arrives: whether main notices it, and then whether all workers
    must leave. */
module InterruptOutcome {
  import opened Wire
  import opened Protocol
  import opened Invariants
  import opened System
  import opened EndToEnd
  import opened Rooms
  import opened Shutdown
  import opened ShutdownOutcome

  // ---------------------------------------------------------------- main has noticed

  /** The flag is cleared and main is past `accept` for good. */
  predicate Noticed(s: State) {
    !s.running && !s.main.CallsAccept? && !s.main.InAccept?
  }

  lemma WorkerWaitsNoMore(cfg: Config, s: State, w: nat, wake: Option<nat>, n: nat, s': State)
    requires w < |s.workers| && WorkerStep(cfg, s, w, wake, n) == Some(s') && !s.running
    ensures !s'.running && s'.main == s.main && |s'.workers| == |s.workers|
    ensures forall v | 0 <= v < |s.workers| && s'.workers[v].GoWait? :: s.workers[v].GoWait?
  {
    hide Encode, OpenConn, FindNode;
  }

  lemma CommSendsNobodyToWait(cfg: Config, s: State, c: nat, wake: Option<nat>, s': State)
    requires c < |s.conns| && CommStep(cfg, s, c, wake) == Some(s')
    ensures s'.running == s.running && s'.main == s.main && |s'.workers| == |s.workers|
    ensures forall v | 0 <= v < |s.workers| && s'.workers[v].GoWait? :: s.workers[v].GoWait?
  {
    hide RemoveNode, BigEndian, Records;
  }

  /** With the flag cleared no worker sets out for the wait any more. */
  lemma NoNewWait(cfg: Config, s: State, e: Event, s': State)
    requires Step(cfg, s, e) == Some(s') && !s.running
    ensures !s'.running && |s'.workers| == |s.workers| && (Noticed(s) ==> Noticed(s'))
    ensures forall v | 0 <= v < |s.workers| && s'.workers[v].GoWait? :: s.workers[v].GoWait?
    ensures s'.main.Joining? && !s.main.Joining? ==> e.MainBroadcasts?
  {
    hide WorkerStep, CommStep, ClientStep;
    match e
    case WorkerRuns(w, wake, n) => WorkerWaitsNoMore(cfg, s, w, wake, n, s');
    case CommRuns(c, wake) => CommSendsNobodyToWait(cfg, s, c, wake, s');
    case _ =>
  }

  lemma {:induction false} NoNewWaitInRuns(cfg: Config, states: seq<State>, events: seq<Event>, j: nat, i: nat)
    requires IsRun(cfg, states, events) && j <= i <= |events| && Noticed(states[j])
    ensures Noticed(states[i]) && |states[i].workers| == |states[j].workers|
    ensures forall v | 0 <= v < |states[j].workers| && states[i].workers[v].GoWait? :: states[j].workers[v].GoWait?
  {
    hide Init, Step, Noticed;
    if i > j {
      NoNewWaitInRuns(cfg, states, events, j, i - 1);
      assert Step(cfg, states[i - 1], events[i - 1]) == Some(states[i - 1 + 1]);
      RunningOff(states[i - 1]);
      NoNewWait(cfg, states[i - 1], events[i - 1], states[i]);
    }
  }

  lemma RunningOff(s: State)
    ensures Noticed(s) ==> !s.running
  {
  }

  /** Then the broadcast comes. */
  lemma {:induction false} BroadcastBefore(cfg: Config, states: seq<State>, events: seq<Event>, j: nat, i: nat)
                                           returns (b: nat)
    requires IsRun(cfg, states, events) && j <= i <= |events| && Noticed(states[j])
    requires !states[j].main.Joining? && states[i].main.Joining?
    ensures j <= b < i && events[b].MainBroadcasts?
  {
    hide Init, Step, Noticed;
    assert Step(cfg, states[i - 1], events[i - 1]) == Some(states[i - 1 + 1]);
    if states[i - 1].main.Joining? {
      b := BroadcastBefore(cfg, states, events, j, i - 1);
    } else {
      b := i - 1;
      NoNewWaitInRuns(cfg, states, events, j, i - 1);
      RunningOff(states[i - 1]);
      NoNewWait(cfg, states[i - 1], events[i - 1], states[i]);
    }
  }

  lemma RestHasBroadcast(cfg: Config, s: State)
    requires Noticed(s) && Quiescent(cfg, s)
    ensures s.main.Joining?
  {
    assert Step(cfg, s, MainGoesOn).None? && Step(cfg, s, MainBroadcasts).None?;
  }

  // ---------------------------------------------------------------- records still to insert

  /** While a worker on its way into the wait has the queue's mutex, nothing is inserted. */
  lemma NothingInsertedMeanwhile(cfg: Config, s: State, e: Event, s': State, w: nat, c: nat)
    requires Inv(cfg, s) && Step(cfg, s, e) == Some(s') && w < |s.workers| && s.workers[w].GoWait?
    requires c < |s.conns| && StillInserts(s.conns[c])
    ensures c < |s'.conns| && StillInserts(s'.conns[c])
  {
    hide Inv, Step, CommOk, ConnOk, Records;
    WaiterIsAlone(cfg, s, w);
    ConnIsOk(cfg, s, c);
    StepStaysWithin(cfg, s, e, s');
    InsertersHaveMore(s.conns[c]);
    OnlyCloseEnds(cfg, s, e, s', c);
  }

  lemma InsertersHaveMore(k: Conn)
    requires CommOk(k) && StillInserts(k)
    ensures !k.comm.Close?
  {
  }

  lemma OnlyCloseEnds(cfg: Config, s: State, e: Event, s': State, c: nat)
    requires Step(cfg, s, e) == Some(s') && c < |s.conns| && Live(s.conns[c].comm) && !s.conns[c].comm.Close?
    ensures c < |s'.conns| && Live(s'.conns[c].comm)
  {
    hide WorkerStep, CommStep, ClientStep;
    match e
    case WorkerRuns(w, wake, n) => WorkerEndsNothing(cfg, s, w, wake, n, s');
    case CommRuns(d, wake) => CommEndsAtClose(cfg, s, d, wake, s');
    case ClientRuns(d) => ClientKeepsComm(s.conns[d], s'.conns[d]);
    case _ =>
  }

  lemma WorkerEndsNothing(cfg: Config, s: State, w: nat, wake: Option<nat>, n: nat, s': State)
    requires w < |s.workers| && WorkerStep(cfg, s, w, wake, n) == Some(s')
    ensures |s'.conns| == |s.conns| && forall c | 0 <= c < |s.conns| :: Live(s'.conns[c].comm) == Live(s.conns[c].comm)
  {
    hide Encode, OpenConn, FindNode, WorkerSignals, Live;
    if s.workers[w].SignalNotFull? {
      SignalEndsNothing(s, w, s.workers[w].rec, s.workers[w].node, wake, s');
    }
  }

  lemma SignalEndsNothing(s: State, w: nat, rec: Record, node: nat, wake: Option<nat>, s': State)
    requires w < |s.workers| && WorkerSignals(s, w, rec, node, wake) == Some(s')
    ensures |s'.conns| == |s.conns| && forall c | 0 <= c < |s.conns| :: Live(s'.conns[c].comm) == Live(s.conns[c].comm)
  {
  }

  lemma CommEndsAtClose(cfg: Config, s: State, c: nat, wake: Option<nat>, s': State)
    requires c < |s.conns| && CommStep(cfg, s, c, wake) == Some(s')
    ensures s'.conns == s.conns[c := s'.conns[c]] && (!s.conns[c].comm.Close? ==> Live(s'.conns[c].comm))
  {
    hide CommStep, WithinRoom;
    CommStaysWithin(cfg, s, c, wake, s');
    if !s.conns[c].comm.Close? {
      CommGoesOnOrCloses(cfg, s, c, wake, s');
    }
  }

  lemma CommGoesOnOrCloses(cfg: Config, s: State, c: nat, wake: Option<nat>, s': State)
    requires c < |s.conns| && |s'.conns| == |s.conns| && CommStep(cfg, s, c, wake) == Some(s')
             && !s.conns[c].comm.Close?
    ensures Live(s'.conns[c].comm)
  {
    hide RemoveNode, BigEndian, Records;
  }

  /** So a worker that is still there at the broadcast has kept the insertion waiting. */
  lemma {:induction false} WaiterKeepsInserter(cfg: Config, states: seq<State>, events: seq<Event>, j: nat, i: nat,
                                               w: nat, c: nat)
    requires IsRun(cfg, states, events) && j <= i <= |events| && Noticed(states[j])
    requires c < |states[j].conns| && StillInserts(states[j].conns[c])
    requires w < |states[i].workers| && states[i].workers[w].GoWait?
    ensures c < |states[i].conns| && StillInserts(states[i].conns[c])
  {
    hide Init, Inv, Step, Noticed, StillInserts;
    if i > j {
      NoNewWaitInRuns(cfg, states, events, j, i - 1);
      assert Step(cfg, states[i - 1], events[i - 1]) == Some(states[i - 1 + 1]);
      RunningOff(states[i - 1]);
      NoNewWait(cfg, states[i - 1], events[i - 1], states[i]);
      WaiterKeepsInserter(cfg, states, events, j, i - 1, w, c);
      RunKeepsInvariant(cfg, states, events, i - 1);
      NothingInsertedMeanwhile(cfg, states[i - 1], events[i - 1], states[i], w, c);
    }
  }

  /** Main has noticed, and no worker is on its way into the wait or some open connection has a record to
      insert: all workers leave. */
  lemma NoticedFreesAll(cfg: Config, states: seq<State>, events: seq<Event>, j: nat)
    requires IsRun(cfg, states, events) && AllRoomy(cfg, states[0]) && j <= |events|
    requires Noticed(states[j]) && !states[j].main.Joining? && (!OneWaits(states[j]) || OneStillInserts(states[j]))
    requires Quiescent(cfg, states[|events|])
    ensures AllLeft(states[|events|])
  {
    hide Init, Step, Noticed, Quiescent, AllRoomy, StillInserts, AllLeft;
    NoNewWaitInRuns(cfg, states, events, j, |events|);
    RestHasBroadcast(cfg, states[|events|]);
    var b := BroadcastBefore(cfg, states, events, j, |events|);
    NoNewWaitInRuns(cfg, states, events, j, b);
    if OneWaits(states[b]) {
      var w: nat :| w < |states[b].workers| && states[b].workers[w].GoWait?;
      assert OneWaits(states[j]);
      var c: nat :| c < |states[j].conns| && StillInserts(states[j].conns[c]);
      WaiterKeepsInserter(cfg, states, events, j, b, w, c);
      PendingInsertionFreesAll(cfg, states, events, b, c);
    } else {
      AllLeaveUnlessOneWaits(cfg, states, events, b);
    }
  }

  // ---------------------------------------------------------------- the broadcast first

  lemma BroadcastsNow(cfg: Config, s: State) returns (s': State)
    requires s.main.Stopping?
    ensures Step(cfg, s, MainBroadcasts) == Some(s') && s'.conns == s.conns && |s'.workers| == |s.workers|
    ensures Stopped(s') <==> !s.running
    ensures forall w | 0 <= w < |s.workers| ::
              !s'.workers[w].Asleep? && (s.workers[w].GoWait? ==> s'.workers[w].GoWait?)
  {
    s' := Step(cfg, s, MainBroadcasts).value;
  }

  lemma StopsNow(cfg: Config, s: State) returns (s': State)
    requires s.main.AtTest? && !s.running
    ensures Step(cfg, s, MainGoesOn) == Some(s') && s' == s.(main := Stopping)
  {
    s' := s.(main := Stopping);
  }

  /** Main broadcasts before anybody else moves. */
  lemma BroadcastsFirst(cfg: Config, states: seq<State>, events: seq<Event>, w: nat)
    returns (states': seq<State>, events': seq<Event>)
    requires IsRun(cfg, states, events)
    requires var s := states[|events|];
             && Noticed(s) && !s.main.Joining? && !OneStillInserts(s) && w < |s.workers| && s.workers[w].GoWait?
    ensures IsRun(cfg, states', events') && states <= states' && events <= events'
    ensures OnTheBrink(cfg, states'[|events'|], w)
    decreases if states[|events|].main.AtTest? then 1 else 0
  {
    hide Init, Inv, Step, StillInserts;
    var s := states[|events|];
    if s.main.AtTest? {
      var t := StopsNow(cfg, s);
      Extend(cfg, states, events, MainGoesOn, t);
      states', events' := BroadcastsFirst(cfg, states + [t], events + [MainGoesOn], w);
    } else {
      var t := BroadcastsNow(cfg, s);
      Extend(cfg, states, events, MainBroadcasts, t);
      states', events' := states + [t], events + [MainBroadcasts];
    }
  }

  /** The worker goes to sleep before anybody else moves, in time for the broadcast. */
  lemma SleepsFirst(cfg: Config, s: State, w: nat) returns (s': State)
    requires Inv(cfg, s) && Noticed(s) && w < |s.workers| && s.workers[w].GoWait?
    ensures Step(cfg, s, WorkerRuns(w, None, 0)) == Some(s') && Noticed(s') && s'.main == s.main && !OneWaits(s')
  {
    WaiterIsAlone(cfg, s, w);
    hide Inv;
    s' := s.(lock := None).SetWorker(w, WorkerPc.Asleep);
  }

  lemma CanLeave(cfg: Config, states: seq<State>, events: seq<Event>)
    requires IsRun(cfg, states, events) && AllRoomy(cfg, states[0])
    requires Noticed(states[|events|]) && !states[|events|].main.Joining?
    ensures MayLeave(cfg, states, events)
  {
    hide Init, Inv, Step, Noticed, AllRoomy, Quiescent, AllLeft;
    var s := states[|events|];
    var ss, es := states, events;
    if OneWaits(s) {
      var w: nat :| w < |s.workers| && s.workers[w].GoWait?;
      RunKeepsInvariant(cfg, states, events, |events|);
      var t := SleepsFirst(cfg, s, w);
      Extend(cfg, states, events, WorkerRuns(w, None, 0), t);
      ss, es := states + [t], events + [WorkerRuns(w, None, 0)];
    }
    var states', events' := EveryRunCanComplete(cfg, ss, es);
    assert states'[|es|] == ss[|es|];
    NoticedFreesAll(cfg, states', events', |es|);
    assert Completes(cfg, states, events, states', events');
  }

  // ---------------------------------------------------------------- the outcome

  /** Once main has noticed ^C: all workers are sure to leave if and only if none is on its way into the
      wait or some open connection has a record to insert. Some schedule always lets them leave. */
  lemma AllWorkersLeaveOnceNoticedIff(cfg: Config, states: seq<State>, events: seq<Event>)
    requires IsRun(cfg, states, events) && AllRoomy(cfg, states[0])
    requires Noticed(states[|events|]) && !states[|events|].main.Joining?
    ensures var s := states[|events|];
            && (MustLeave(cfg, states, events) <==> !OneWaits(s) || OneStillInserts(s))
            && MayLeave(cfg, states, events)
  {
    hide Init, Inv, Step, Quiescent, AllLeft, AllRoomy, StillInserts;
    var s := states[|events|];
    CanLeave(cfg, states, events);
    if !OneWaits(s) || OneStillInserts(s) {
      forall states', events' | ComesToRest(cfg, states, events, states', events')
        ensures AllLeft(states'[|events'|])
      {
        assert states'[|events|] == s;
        NoticedFreesAll(cfg, states', events', |events|);
      }
    } else {
      var w: nat :| w < |s.workers| && s.workers[w].GoWait?;
      var ss, es := BroadcastsFirst(cfg, states, events, w);
      var states', events' := CanBeStranded(cfg, ss, es, w);
      assert ComesToRest(cfg, states, events, states', events');
    }
  }

  /** A ^C is noticed at once if and only if it does not fall between main's test of the flag and its call
      of `accept`. */
  lemma NoticedAtOnceIff(cfg: Config, states: seq<State>, events: seq<Event>)
    requires IsRun(cfg, states, events) && events != [] && events[|events| - 1].Interrupt?
    ensures !states[|events|].running && !states[|events|].main.Joining?
    ensures Noticed(states[|events|]) <==> !states[|events| - 1].main.CallsAccept?
  {
    hide Init, Inv;
    var j := |events| - 1;
    RunKeepsInvariant(cfg, states, events, j);
    StoppedBeforeBroadcast(cfg, states[j]);
    assert Step(cfg, states[j], events[j]) == Some(states[j + 1]);
  }

  /** A missed ^C is noticed when the next client connects. */
  lemma NoticedAtNextConnection(cfg: Config, states: seq<State>, events: seq<Event>)
    requires IsRun(cfg, states, events) && events != [] && events[|events| - 1].Accept?
    requires !states[|events| - 1].running
    ensures Noticed(states[|events|]) && !states[|events|].main.Joining?
  {
    hide Init;
    var j := |events| - 1;
    assert Step(cfg, states[j], events[j]) == Some(states[j + 1]);
  }

  /** So at the moment after a ^C outside that window. */
  lemma AllWorkersLeaveAfterInterruptIff(cfg: Config, states: seq<State>, events: seq<Event>)
    requires IsRun(cfg, states, events) && AllRoomy(cfg, states[0])
    requires events != [] && events[|events| - 1].Interrupt? && !states[|events| - 1].main.CallsAccept?
    ensures var s := states[|events|];
            && (MustLeave(cfg, states, events) <==> !OneWaits(s) || OneStillInserts(s))
            && MayLeave(cfg, states, events)
  {
    NoticedAtOnceIff(cfg, states, events);
    AllWorkersLeaveOnceNoticedIff(cfg, states, events);
  }

  // ---------------------------------------------------------------- a missed ^C

  /** A ^C between the test and the call goes unnoticed: unless another client connects or ^C comes
      again, main stays in `accept` and never broadcasts. */
  lemma {:induction false} MissedInterrupt(cfg: Config, states: seq<State>, events: seq<Event>, j: nat, i: nat)
    requires IsRun(cfg, states, events) && j <= i <= |events|
    requires states[j].main.CallsAccept? || states[j].main.InAccept?
    requires forall k | j <= k < i :: !events[k].Interrupt? && !events[k].Accept?
    ensures states[i].main.CallsAccept? || states[i].main.InAccept?
  {
    hide Init, Step;
    if i > j {
      MissedInterrupt(cfg, states, events, j, i - 1);
      assert Step(cfg, states[i - 1], events[i - 1]) == Some(states[i - 1 + 1]);
      MainStaysInAccept(cfg, states[i - 1], events[i - 1], states[i]);
    }
  }

  lemma WorkerKeepsMain(cfg: Config, s: State, w: nat, wake: Option<nat>, n: nat, s': State)
    requires w < |s.workers| && WorkerStep(cfg, s, w, wake, n) == Some(s')
    ensures s'.main == s.main
  {
    hide Encode, OpenConn, FindNode;
  }

  lemma MainStaysInAccept(cfg: Config, s: State, e: Event, s': State)
    requires Step(cfg, s, e) == Some(s') && !e.Interrupt? && !e.Accept? && (s.main.CallsAccept? || s.main.InAccept?)
    ensures s'.main.CallsAccept? || s'.main.InAccept?
  {
    hide WorkerStep, CommStep, ClientStep;
    match e
    case WorkerRuns(w, wake, n) => WorkerKeepsMain(cfg, s, w, wake, n, s');
    case CommRuns(c, wake) => CommSendsNobodyToWait(cfg, s, c, wake, s');
    case _ =>
  }

  lemma AloneMisses(cfg: Config)
    ensures var pc := WorkerPc.Asleep;
            && Step(cfg, Alone(true, AtTest, None, pc), MainGoesOn) == Some(Alone(true, CallsAccept, None, pc))
            && Step(cfg, Alone(true, CallsAccept, None, pc), Interrupt) == Some(Alone(false, CallsAccept, None, pc))
            && Step(cfg, Alone(false, CallsAccept, None, pc), MainGoesOn) == Some(Alone(false, InAccept, None, pc))
  {
  }

  /** A run in which that leaves main in `accept` and the only worker asleep. */
  lemma InterruptCanBeMissed() returns (cfg: Config, states: seq<State>, events: seq<Event>)
    ensures IsRun(cfg, states, events) && Quiescent(cfg, states[|events|])
    ensures forall i | 0 <= i < |events| :: !IsSpurious(events[i])
    ensures states[|events|] == Alone(false, InAccept, None, WorkerPc.Asleep)
  {
    hide Init, Inv, Step, Quiescent;
    cfg, states, events := AboutToWait();
    var pc := WorkerPc.Asleep;
    AloneSleeps(cfg, true, AtTest);
    AloneMisses(cfg);
    RestsAsleep(cfg, Alone(false, InAccept, None, pc));
    Extend(cfg, states, events, WorkerRuns(0, None, 0), Alone(true, AtTest, None, pc));
    states, events := states + [Alone(true, AtTest, None, pc)], events + [WorkerRuns(0, None, 0)];
    Extend(cfg, states, events, MainGoesOn, Alone(true, CallsAccept, None, pc));
    states, events := states + [Alone(true, CallsAccept, None, pc)], events + [MainGoesOn];
    Extend(cfg, states, events, Interrupt, Alone(false, CallsAccept, None, pc));
    states, events := states + [Alone(false, CallsAccept, None, pc)], events + [Interrupt];
    Extend(cfg, states, events, MainGoesOn, Alone(false, InAccept, None, pc));
    states, events := states + [Alone(false, InAccept, None, pc)], events + [MainGoesOn];
  }
}
