/** Exactly the sockets a request needs: to be served always, and to be served ever. */
module SocketSizes {
  import opened Wire
  import opened Protocol
  import opened Invariants
  import opened System
  import opened Progress
  import opened Rooms
  import opened EndToEnd
  import opened Jam

  /** Whatever else is asked for by requests that fit the sockets, and however many workers there are:
      every run without ^C that has come to rest has served the request. */
  ghost predicate AlwaysServed(cfg: Config, r: Request) {
    forall states: seq<State>, events: seq<Event>, c: nat | RestsWith(cfg, r, states, events, c) ::
        states[|events|].conns[c].client.pc.Finished?
  }

  ghost predicate RestsWith(cfg: Config, r: Request, states: seq<State>, events: seq<Event>, c: nat) {
    && IsRun(cfg, states, events) && Quiescent(cfg, states[|events|]) && states[|events|].running
    && c < |states[|events|].conns| && states[|events|].conns[c].request == r
    && (forall d | 0 <= d < |states[|events|].conns| && d != c :: Roomy(cfg, states[|events|].conns[d].request))
  }

  /** A request is always served if and only if the sockets hold all its files. */
  lemma AlwaysServedIff(cfg: Config, r: Request)
    requires GoodConfig(cfg) && FieldsFit(cfg) && GoodRequest(r)
    ensures AlwaysServed(cfg, r) <==> Roomy(cfg, r)
  {
    hide Inv, Init, Step, Quiescent, FieldsFit, GoodRequest, Roomy, SendersServed;
    if Roomy(cfg, r) {
      forall states: seq<State>, events: seq<Event>, c: nat | RestsWith(cfg, r, states, events, c)
        ensures states[|events|].conns[c].client.pc.Finished?
      {
        var s := states[|events|];
        RunKeepsInvariant(cfg, states, events, |events|);
        RoomyServes(cfg, s);
        QuietMeansAllGone(cfg, s, c);
        GoneIsServed(cfg, s, c);
      }
    } else {
      var states, events := CanStandStill(cfg, r);
      assert RestsWith(cfg, r, states, events, 0);
    }
  }

  lemma StepKeepsPool(cfg: Config, s: State, e: Event, s': State)
    requires Step(cfg, s, e) == Some(s')
    ensures |s'.workers| == |s.workers|
  {
    hide WorkerStep, CommStep, ClientStep;
    match e
    case WorkerRuns(w, wake, n) => WorkerMovesNoComm(cfg, s, w, wake, n, s');
    case CommRuns(c, wake) => CommSendsNobodyAway(cfg, s, c, wake, s');
    case _ =>
  }

  lemma {:induction false} RunKeepsPool(cfg: Config, states: seq<State>, events: seq<Event>, i: nat)
    requires IsRun(cfg, states, events) && i < |states|
    ensures |states[i].workers| == |states[0].workers|
  {
    hide Init, Step;
    if i > 0 {
      RunKeepsPool(cfg, states, events, i - 1);
      assert Step(cfg, states[i - 1], events[i - 1]) == Some(states[i - 1 + 1]);
      StepKeepsPool(cfg, states[i - 1], events[i - 1], states[i]);
    }
  }

  /** Some run of some system serves the request. */
  ghost predicate SometimesServed(cfg: Config, r: Request) {
    exists states: seq<State>, events: seq<Event>, c: nat :: Serving(cfg, r, states, events, c)
  }

  ghost predicate Serving(cfg: Config, r: Request, states: seq<State>, events: seq<Event>, c: nat) {
    && IsRun(cfg, states, events)
    && c < |states[|events|].conns| && states[|events|].conns[c].request == r
        && states[|events|].conns[c].client.pc.Finished?
  }

  /** A request is ever served if and only if all its records can enter the queue while the sockets fill. */
  lemma SometimesServedIff(cfg: Config, r: Request)
    requires GoodConfig(cfg) && FieldsFit(cfg) && GoodRequest(r)
    ensures SometimesServed(cfg, r) <==> Enough(cfg, r)
  {
    hide Inv, Init, Step, Quiescent, FieldsFit, GoodRequest, Enough, SendersServed;
    if Enough(cfg, r) {
      var states, events := ServedAlone(cfg, r);
      assert Serving(cfg, r, states, events, 0);
    }
    forall states, events, c | Serving(cfg, r, states, events, c)
      ensures Enough(cfg, r)
    {
      RequestsStay(cfg, states, events, |events|);
      if !Enough(cfg, r) {
        NeverServed(cfg, states, events, |events|, c);
      }
    }
  }

  /** One worker serves it when nobody else is there. */
  lemma ServedAlone(cfg: Config, r: Request) returns (states: seq<State>, events: seq<Event>)
    requires GoodConfig(cfg) && FieldsFit(cfg) && GoodRequest(r) && Enough(cfg, r)
    ensures Serving(cfg, r, states, events, 0)
  {
    hide Inv, Init, Step, Quiescent, FieldsFit, GoodRequest, Enough, SendersServed, NewConn;
    var start := State(true, AtTest, [], None, [], [Top], [NewConn(r)]);
    AloneIsInitial(cfg, r, start);
    states, events := EveryRunCanComplete(cfg, [start], []);
    assert states[0] == start;
    var s := states[|events|];
    RunKeepsInvariant(cfg, states, events, |events|);
    RunKeepsPool(cfg, states, events, |events|);
    RequestsStay(cfg, states, events, |events|);
    NewConnAsks(r);
    SoleServes(cfg, s);
    QuietMeansAllGone(cfg, s, 0);
    GoneIsServed(cfg, s, 0);
  }

  lemma AloneIsInitial(cfg: Config, r: Request, s: State)
    requires GoodConfig(cfg) && GoodRequest(r) && s == State(true, AtTest, [], None, [], [Top], [NewConn(r)])
    ensures Init(cfg, s)
  {
    hide GoodRequest;
  }
}
