/** What starting and stopping a socket come to, with the commands of every phase: over the
    ends of all the children that run them (components/socket/src/socket_mng.rs). */
module SocketRuns {
  import opened Outcomes
  import opened SocketState

  // ----- what can go wrong on the way -----

  predicate PostGood(m: Sock, c: Config, w: World) {
    Fill(m, c, StartPostPhase).cmds == [] || w.spawn(StartPostPhase)
  }

  /** All ports can be opened, and the first start-post command, if there is one, spawned. */
  predicate ChownGood(m: Sock, c: Config, w: World) {
    OpenFrom(m.ports, 0, w.open).1 && PostGood(m, c, w)
  }

  predicate StartGood(m: Sock, c: Config, w: World) {
    var m1 := Fill(m, c, StartPrePhase);
    if m1.cmds == [] then ChownGood(m1, c, w) else w.spawn(StartPrePhase)
  }

  /** The first stop-post command can be spawned, or without one both final signals sent. */
  predicate StopPostGood(m: Sock, c: Config, w: World) {
    if Fill(m, c, StopPostPhase).cmds == [] then w.kill(FinalSigterm) && w.kill(FinalSigkill) else w.spawn(StopPostPhase)
  }

  predicate StopGood(m: Sock, c: Config, w: World) {
    var m1 := Fill(m, c, StopPrePhase);
    if m1.cmds == [] then StopPostGood(m1, c, w) else w.spawn(StopPrePhase)
  }

  /** The child succeeded, and what comes after the last command of its phase does. */
  predicate ChildGood(m: Sock, c: Config, w: World, clean: bool, plain: bool) {
    (clean || plain) &&
    (m.cmds == [] ==>
       (m.state.StartPre? ==> ChownGood(m, c, w)) && (m.state.StopPre? ==> StopPostGood(m, c, w)))
  }

  predicate Good(m: Sock, c: Config, w: World, e: Event) {
    match e
    case EvStart => StartGood(m, c, w)
    case EvStop => StopGood(m, c, w)
    case EvChild(clean, plain) => ChildGood(m, c, w, clean, plain)
    case _ => false
  }

  // ----- one event -----

  /** On the way up, or there. */
  predicate Up(m: Sock) {
    (m.state.StartPre? || m.state.StartPost? || m.state.Listening?) && m.result == Success
  }

  /** On the way down without a failure, or there. */
  predicate Down(m: Sock) {
    (m.state.StopPre? || m.state.StopPost? || m.state.DeadState?) && m.result == Success
  }

  /** On the way down after a failure, or there. */
  predicate Broken(m: Sock) {
    (m.state.StopPre? || m.state.StopPost? || m.state.FailedState?) && m.result != Success
  }

  /** By the failure that came first: `res`, or else something that could not be had. */
  predicate BrokenBy(m: Sock, res: SockResult) {
    Broken(m) && m.result == if res == Success then FailureResources else res
  }

  lemma FinalSignals(m: Sock, c: Config, w: World, res: SockResult)
    ensures
      var m' := EnterSignal(m, c, w, FinalSigterm, res);
      if Record(m, res).result == Success && w.kill(FinalSigterm) && w.kill(FinalSigkill) then m'.state == DeadState && Down(m')
      else m'.state == FailedState && BrokenBy(m', Record(m, res).result)
  {
    var m1 := Record(m, res);
    assert w.kill(FinalSigterm) ==> EnterSignal(m, c, w, FinalSigterm, res) == EnterSignal(m1, c, w, FinalSigkill, Success);
  }

  lemma StopPostOutcome(m: Sock, c: Config, w: World, res: SockResult)
    ensures
      var m' := EnterStopPost(m, c, w, res);
      if Record(m, res).result == Success && StopPostGood(m, c, w) then Down(m') else BrokenBy(m', Record(m, res).result)
  {
    var m1 := Fill(Record(m, res), c, StopPostPhase);
    if m1.cmds == [] {
      FinalSignals(m1, c, w, Success);
    } else if !w.spawn(StopPostPhase) {
      FinalSignals(Pop(m1), c, w, FailureResources);
    }
  }

  lemma StopPreOutcome(m: Sock, c: Config, w: World, res: SockResult)
    ensures
      var m' := EnterStopPre(m, c, w, res);
      if Record(m, res).result == Success && StopGood(m, c, w) then Down(m') else BrokenBy(m', Record(m, res).result)
  {
    var m1 := Fill(Record(m, res), c, StopPrePhase);
    if m1.cmds == [] {
      StopPostOutcome(m1, c, w, Success);
    } else if !w.spawn(StopPrePhase) {
      StopPostOutcome(Pop(m1), c, w, FailureResources);
    }
  }

  lemma ChownOutcome(m: Sock, c: Config, w: World)
    requires m.result == Success
    ensures var m' := EnterStartChown(m, c, w); if ChownGood(m, c, w) then Up(m') else BrokenBy(m', Success)
  {
    var (ports, ok) := OpenFrom(m.ports, 0, w.open);
    var m1 := m.(ports := ports);
    if !ok {
      StopPreOutcome(m1, c, w, FailureResources);
    } else if !PostGood(m, c, w) {
      StopPreOutcome(Pop(Fill(m1, c, StartPostPhase)), c, w, FailureResources);
    }
  }

  lemma StartPreOutcome(m: Sock, c: Config, w: World)
    requires m.result == Success
    ensures var m' := EnterStartPre(m, c, w); if StartGood(m, c, w) then Up(m') else BrokenBy(m', Success)
  {
    var m1 := Fill(m, c, StartPrePhase);
    if m1.cmds == [] {
      ChownOutcome(m1, c, w);
    }
  }

  lemma ChildOutcome(m: Sock, c: Config, w: World, clean: bool, plain: bool)
    requires Up(m) || Down(m) || Broken(m)
    requires Child(m, c, w, clean, plain).Ok?
    ensures
      var m' := Child(m, c, w, clean, plain).value;
      if m.result == Success && ChildGood(m, c, w, clean, plain) then (Up(m) ==> Up(m')) && (Down(m) ==> Down(m'))
      else BrokenBy(m', if m.result == Success && !clean && !plain then FailureSignal else m.result)
  {
    var res := ChildResult(clean, plain);
    if m.cmds == [] || res != Success {
      match m.state {
        case StartPre =>
          if res == Success {
            ChownOutcome(m, c, w);
          } else {
            FinalSignals(m, c, w, res);
          }
        case StartPost => StopPreOutcome(m, c, w, res);
        case StopPre => StopPostOutcome(m, c, w, res);
        case _ =>
      }
    }
  }

  // ----- over the ends of all children -----

  /** A start or stop, and after it nothing but children that end. */
  predicate OneRequest(es: seq<Event>, stop: bool) {
    es != [] && (if stop then es[0].EvStop? else es[0].EvStart?) && forall i :: 1 <= i < |es| ==> es[i].EvChild?
  }

  /** Has everything gone well in the first `n` events? */
  ghost predicate AllGood(c: Config, ms: seq<Sock>, ws: seq<World>, es: seq<Event>, n: nat)
    requires n <= |es| && |ms| == |es| + 1 && |ws| == |es|
  {
    forall i :: 0 <= i < n ==> Good(ms[i], c, ws[i], es[i])
  }

  lemma RunStep(c: Config, ms: seq<Sock>, ws: seq<World>, es: seq<Event>, i: nat, m: Sock, m': Sock)
    requires IsRun(c, ms, ws, es) && i < |es| && m == ms[i] && m' == ms[i + 1]
    ensures Handle(m, c, ws[i], es[i]) == Ok(m')
  {
  }

  /** A start of a socket that has not failed, or a stop, whatever commands the phases have:
      as long as everything goes well the socket is on its way, up to listening or down to
      dead; from the first thing that goes wrong on it is on its way down to failed, and
      nothing else. */
  lemma {:induction false} RequestOutcome(c: Config, ms: seq<Sock>, ws: seq<World>, es: seq<Event>, stop: bool, n: nat)
    requires IsRun(c, ms, ws, es) && OneRequest(es, stop) && ms[0].result == Success && 1 <= n <= |es|
    ensures if AllGood(c, ms, ws, es, n) then (if stop then Down(ms[n]) else Up(ms[n])) else Broken(ms[n])
    decreases n
  {
    RunStep(c, ms, ws, es, n - 1, ms[n - 1], ms[n]);
    if n == 1 {
      if stop {
        StopPreOutcome(ms[0], c, ws[0], Success);
      } else {
        StartPreOutcome(ms[0], c, ws[0]);
      }
    } else {
      RequestOutcome(c, ms, ws, es, stop, n - 1);
      ChildOutcome(ms[n - 1], c, ws[n - 1], es[n - 1].clean, es[n - 1].plain);
      assert AllGood(c, ms, ws, es, n) <==> AllGood(c, ms, ws, es, n - 1) && Good(ms[n - 1], c, ws[n - 1], es[n - 1]);
    }
  }

  /** What the first failure is recorded as: a command that failed, or something that could not
      be had. */
  lemma FirstFailure(c: Config, ms: seq<Sock>, ws: seq<World>, es: seq<Event>, stop: bool, n: nat)
    requires IsRun(c, ms, ws, es) && OneRequest(es, stop) && ms[0].result == Success && 1 <= n <= |es|
    requires AllGood(c, ms, ws, es, n - 1) && !Good(ms[n - 1], c, ws[n - 1], es[n - 1])
    ensures ms[n].result == if n > 1 && !es[n - 1].clean && !es[n - 1].plain then FailureSignal else FailureResources
  {
    var m := n - 1;
    RunStep(c, ms, ws, es, m, ms[m], ms[n]);
    if m > 0 {
      RequestOutcome(c, ms, ws, es, stop, m);
      ChildOutcome(ms[m], c, ws[m], es[m].clean, es[m].plain);
    } else if stop {
      StopPreOutcome(ms[0], c, ws[0], Success);
    } else {
      StartPreOutcome(ms[0], c, ws[0]);
    }
  }

  // ----- which commands are run, and in what order -----

  function ListOf(cmds: Option<seq<Cmd>>): seq<Cmd> {
    if cmds.Some? then cmds.value else []
  }

  /** The commands of the first and of the second phase of a start or stop. */
  function First(c: Config, stop: bool): seq<Cmd> {
    ListOf(if stop then c.stopPre else c.startPre)
  }

  function Second(c: Config, stop: bool): seq<Cmd> {
    ListOf(if stop then c.stopPost else c.startPost)
  }

  /** Where the socket is after `n` events that went well, and which commands it still has to
      run: every phase runs its own commands, the last one first. */
  predicate Reaches(c: Config, stop: bool, n: nat, m: Sock)
    requires n >= 1
  {
    var (a, b) := (|First(c, stop)|, |Second(c, stop)|);
    if n <= a then m.state == (if stop then StopPre else StartPre) && m.cmds == First(c, stop)[..a - n]
    else if n <= a + b then m.state == (if stop then StopPost else StartPost) && m.cmds == Second(c, stop)[..a + b - n]
    else n == a + b + 1 && m.state == (if stop then DeadState else Listening) && m.cmds == []
  }

  lemma SecondReached(m: Sock, c: Config, w: World, stop: bool, n: nat)
    requires m.result == Success && m.cmds == [] && n == |First(c, stop)| + 1
    requires if stop then StopPostGood(m, c, w) else ChownGood(m, c, w)
    ensures Reaches(c, stop, n, if stop then EnterStopPost(m, c, w, Success) else EnterStartChown(m, c, w))
  {
    var m1 := m.(ports := OpenFrom(m.ports, 0, w.open).0);
    if stop && Second(c, stop) == [] {
      var m2 := Fill(m, c, StopPostPhase);
      assert m2.cmds == [];
      assert EnterSignal(m2, c, w, FinalSigterm, Success) == EnterSignal(m2, c, w, FinalSigkill, Success);
    }
  }

  lemma FirstReached(m: Sock, c: Config, w: World, stop: bool)
    requires m.result == Success && m.cmds == [] && (if stop then StopGood(m, c, w) else StartGood(m, c, w))
    ensures Reaches(c, stop, 1, if stop then EnterStopPre(m, c, w, Success) else EnterStartPre(m, c, w))
  {
    if First(c, stop) == [] {
      SecondReached(Fill(m, c, if stop then StopPrePhase else StartPrePhase), c, w, stop, 1);
    }
  }

  lemma NextReached(m: Sock, c: Config, w: World, clean: bool, plain: bool, stop: bool, n: nat)
    requires n >= 1 && Reaches(c, stop, n, m) && m.result == Success && ChildGood(m, c, w, clean, plain)
    requires Child(m, c, w, clean, plain).Ok?
    ensures Reaches(c, stop, n + 1, Child(m, c, w, clean, plain).value)
  {
    var (a, b) := (|First(c, stop)|, |Second(c, stop)|);
    if m.cmds != [] {
      assert n < a ==> First(c, stop)[..a - n][..a - n - 1] == First(c, stop)[..a - n - 1];
      assert a < n < a + b ==> Second(c, stop)[..a + b - n][..a + b - n - 1] == Second(c, stop)[..a + b - n - 1];
    } else if n == a {
      SecondReached(m, c, w, stop, n + 1);
    }
  }

  /** While all goes well every phase runs its own commands, the last one first, and there are
      exactly as many children as there are commands. */
  lemma {:induction false} CommandsInOrder(c: Config, ms: seq<Sock>, ws: seq<World>, es: seq<Event>, stop: bool, n: nat)
    requires IsRun(c, ms, ws, es) && OneRequest(es, stop) && ms[0].result == Success && ms[0].cmds == []
    requires 1 <= n <= |es| && AllGood(c, ms, ws, es, n)
    ensures Reaches(c, stop, n, ms[n])
    decreases n
  {
    var m := n - 1;
    RunStep(c, ms, ws, es, m, ms[m], ms[n]);
    assert Good(ms[m], c, ws[m], es[m]);
    if m == 0 {
      FirstReached(ms[0], c, ws[0], stop);
    } else {
      GoodBefore(c, ms, ws, es, m, n);
      CommandsInOrder(c, ms, ws, es, stop, m);
      RequestOutcome(c, ms, ws, es, stop, m);
      NextReached(ms[m], c, ws[m], es[m].clean, es[m].plain, stop, m);
    }
  }

  lemma GoodBefore(c: Config, ms: seq<Sock>, ws: seq<World>, es: seq<Event>, m: nat, n: nat)
    requires m <= n <= |es| && |ms| == |es| + 1 && |ws| == |es| && AllGood(c, ms, ws, es, n)
    ensures AllGood(c, ms, ws, es, m)
  {
  }

  // ----- what is run after a failure -----

  /** The commands run in a phase: its own if it is configured, and else what an earlier phase
      has left. */
  function RunIn(left: seq<Cmd>, own: Option<seq<Cmd>>): seq<Cmd> {
    if own.Some? then own.value else left
  }

  function Rest(cmds: seq<Cmd>): seq<Cmd> {
    if cmds == [] then [] else cmds[..|cmds| - 1]
  }

  predicate At(m: Sock, s: State, left: seq<Cmd>) {
    m.state == s && m.cmds == left
  }

  predicate Over(m: Sock, left: seq<Cmd>) {
    m.state == (if m.result == Success then DeadState else FailedState) && m.cmds == left
  }

  /** The stop-post commands are run, if there are any and the first of them can be spawned;
      otherwise it is over. */
  predicate GoesOut(m: Sock, left: seq<Cmd>, c: Config, w: World) {
    var post := RunIn(left, c.stopPost);
    if post != [] && w.spawn(StopPostPhase) then At(m, StopPost, Rest(post)) else Over(m, Rest(post))
  }

  /** The same of the stop-pre commands; otherwise those of stop-post come next. */
  predicate GoesDown(m: Sock, left: seq<Cmd>, c: Config, w: World) {
    var pre := RunIn(left, c.stopPre);
    if pre != [] && w.spawn(StopPrePhase) then At(m, StopPre, Rest(pre)) else GoesOut(m, Rest(pre), c, w)
  }

  /** Can every port that has none get a descriptor? */
  predicate PortsOpen(m: Sock, w: World) {
    forall i :: 0 <= i < |m.ports| && m.ports[i].fd < 0 ==> w.open(i).Some?
  }

  /** Once the start-pre commands are done with. */
  predicate GoesUp(m0: Sock, m: Sock, left: seq<Cmd>, c: Config, w: World) {
    var post := RunIn(left, c.startPost);
    if !PortsOpen(m0, w) then GoesDown(m, left, c, w)
    else if post == [] then At(m, Listening, [])
    else if w.spawn(StartPostPhase) then At(m, StartPost, Rest(post))
    else GoesDown(m, Rest(post), c, w)
  }

  lemma SignalsOver(m: Sock, c: Config, w: World, res: SockResult)
    ensures Over(EnterSignal(m, c, w, FinalSigterm, res), m.cmds)
  {
    var m1 := Record(m, res);
    assert w.kill(FinalSigterm) ==> EnterSignal(m, c, w, FinalSigterm, res) == EnterSignal(m1, c, w, FinalSigkill, Success);
  }

  lemma StopPostGoes(m: Sock, c: Config, w: World, res: SockResult)
    ensures GoesOut(EnterStopPost(m, c, w, res), m.cmds, c, w)
  {
    var m1 := Fill(Record(m, res), c, StopPostPhase);
    if m1.cmds == [] {
      SignalsOver(m1, c, w, Success);
    } else if !w.spawn(StopPostPhase) {
      SignalsOver(Pop(m1), c, w, FailureResources);
    }
  }

  lemma StopPreGoes(m: Sock, c: Config, w: World, res: SockResult)
    ensures GoesDown(EnterStopPre(m, c, w, res), m.cmds, c, w)
  {
    var m1 := Fill(Record(m, res), c, StopPrePhase);
    if m1.cmds == [] {
      StopPostGoes(m1, c, w, Success);
    } else if !w.spawn(StopPrePhase) {
      StopPostGoes(Pop(m1), c, w, FailureResources);
    }
  }

  lemma ChownGoes(m: Sock, c: Config, w: World)
    ensures GoesUp(m, EnterStartChown(m, c, w), m.cmds, c, w)
  {
    if m.ports != [] {
      OpenFromSucceeds(m.ports, 0, w.open);
    }
    var (ports, ok) := OpenFrom(m.ports, 0, w.open);
    var m1 := m.(ports := ports);
    var m2 := Fill(m1, c, StartPostPhase);
    if !ok {
      StopPreGoes(m1, c, w, FailureResources);
    } else if m2.cmds != [] && !w.spawn(StartPostPhase) {
      StopPreGoes(Pop(m2), c, w, FailureResources);
    }
  }

  /** A start runs its start-pre commands first; if the first of them cannot be spawned it is
      over at once. */
  lemma StartGoes(m: Sock, c: Config, w: World)
    ensures
      var (m', pre) := (EnterStartPre(m, c, w), RunIn(m.cmds, c.startPre));
      if pre == [] then GoesUp(m, m', [], c, w)
      else if w.spawn(StartPrePhase) then At(m', StartPre, Rest(pre))
      else At(m', FailedState, Rest(pre))
  {
    var m1 := Fill(m, c, StartPrePhase);
    if m1.cmds == [] {
      ChownGoes(m1, c, w);
    }
  }

  /** A stop begins with the stop-pre commands; the check before it leaves them out. */
  lemma StopGoes(m: Sock, c: Config, w: World)
    ensures GoesDown(EnterStopPre(m, c, w, Success), m.cmds, c, w)
    ensures Safe(m) && (m.state.StartPre? || m.state.StartPost?) ==> GoesOut(StopCheck(m, c, w).0, m.cmds, c, w)
  {
    StopPreGoes(m, c, w, Success);
    if w.kill(StopPreSigterm) {
      assert EnterSignal(m, c, w, StopPreSigterm, Success) == EnterSignal(Record(m, Success), c, w, StopPreSigkill, Success);
    }
    StopPostGoes(Record(m, Success), c, w, Success);
    StopPostGoes(Record(m, Success), c, w, FailureResources);
  }

  /** A command that fails ends its phase: in start-pre and stop-post all is over, with start-post
      the socket goes down through its stop-pre commands, and with stop-pre through those of
      stop-post. A command that succeeds is followed by the next one, and the last one of
      start-pre by the opening of the ports. */
  lemma ChildGoes(m: Sock, c: Config, w: World, clean: bool, plain: bool)
    requires InPhase(m.state)
    ensures Child(m, c, w, clean, plain).Ok?
    ensures
      var m' := Child(m, c, w, clean, plain).value;
      if (clean || plain) && m.cmds != [] then At(m', m.state, Rest(m.cmds)) && m'.ports == m.ports
      else
        match m.state
        case StartPre => if clean || plain then GoesUp(m, m', [], c, w) else At(m', FailedState, m.cmds)
        case StartPost => if clean || plain then At(m', Listening, []) else GoesDown(m', m.cmds, c, w)
        case StopPre => GoesOut(m', m.cmds, c, w)
        case _ => Over(m', m.cmds)
  {
    var res := ChildResult(clean, plain);
    if m.cmds == [] || res != Success {
      match m.state {
        case StartPre =>
          ChownGoes(m, c, w);
          SignalsOver(m, c, w, res);
          FinalSignals(m, c, w, res);
        case StartPost => StopPreGoes(m, c, w, res);
        case StopPre => StopPostGoes(m, c, w, res);
        case _ =>
      }
    }
  }

  /** What a failed start still runs: a start-pre command that fails, or the first of them that
      cannot be spawned, ends it at once; afterwards the socket goes down through all its stop
      commands, and what is left of start-post is run in their place where a phase has none. */
  lemma StartFails(c: Config, ms: seq<Sock>, ws: seq<World>, es: seq<Event>, n: nat)
    requires IsRun(c, ms, ws, es) && OneRequest(es, false) && ms[0].result == Success && ms[0].cmds == [] && 1 <= n <= |es|
    requires AllGood(c, ms, ws, es, n - 1) && !Good(ms[n - 1], c, ws[n - 1], es[n - 1])
    ensures
      var (pre, post, m, w) := (First(c, false), Second(c, false), ms[n - 1], ws[n - 1]);
      if n == 1 && pre != [] then At(ms[n], FailedState, Rest(pre))
      else if 1 < n <= |pre| + 1 && !es[n - 1].clean && !es[n - 1].plain then At(ms[n], FailedState, pre[..|pre| + 1 - n])
      else if n <= |pre| + 1 then GoesDown(ms[n], if PortsOpen(m, w) then Rest(post) else [], c, w)
      else n <= |pre| + |post| + 1 && GoesDown(ms[n], post[..|pre| + |post| + 1 - n], c, w)
  {
    var k := n - 1;
    RunStep(c, ms, ws, es, k, ms[k], ms[n]);
    if k == 0 {
      StartGoes(ms[0], c, ws[0]);
      PortsOpenGood(Fill(ms[0], c, StartPrePhase), c, ws[0]);
    } else {
      CommandsInOrder(c, ms, ws, es, false, k);
      ChildGoes(ms[k], c, ws[k], es[k].clean, es[k].plain);
      PortsOpenGood(ms[k], c, ws[k]);
    }
  }

  lemma PortsOpenGood(m: Sock, c: Config, w: World)
    ensures ChownGood(m, c, w) <==> PortsOpen(m, w) && (RunIn(m.cmds, c.startPost) == [] || w.spawn(StartPostPhase))
  {
    if m.ports != [] {
      OpenFromSucceeds(m.ports, 0, w.open);
    }
  }

  // ----- how long the ports stay open -----

  /** Which states close the ports they find open. */
  lemma PortsMeaning(m: Sock, s: State, j: nat)
    requires j < |m.ports|
    ensures |SetState(m, s).ports| == |m.ports|
    ensures SetState(m, s).ports[j].watched <==> s.Listening? && m.ports[j].watched
    ensures
      var closes := s.DeadState? || s.StartPre? || s.StopPost? || s.FinalSigterm? || s.FinalSigkill? || s.FailedState? || s.Cleaning? || s.StateMax?;
      SetState(m, s).ports[j].fd == if closes && m.ports[j].fd >= 0 then -1 else m.ports[j].fd
  {
  }

  lemma StopPrePorts(m: Sock, c: Config, w: World, res: SockResult)
    requires AllOpen(m.ports)
    ensures EnterStopPre(m, c, w, res).state.StopPre? ==> AllOpen(EnterStopPre(m, c, w, res).ports)
  {
    var m1 := Fill(Record(m, res), c, StopPrePhase);
    if m1.cmds == [] {
      StopPostState(m1, c, w, Success);
    } else if w.spawn(StopPrePhase) {
      forall j | 0 <= j < |m.ports| ensures SetState(Pop(m1), StopPre).ports[j].fd >= 0 {
        PortsMeaning(Pop(m1), StopPre, j);
      }
    } else {
      StopPostState(Pop(m1), c, w, FailureResources);
    }
  }

  lemma StopChildPorts(m: Sock, c: Config, w: World, clean: bool, plain: bool)
    requires (m.state.StopPre? ==> AllOpen(m.ports)) && (m.state.StopPre? || m.state.StopPost? || m.state.DeadState? || m.state.FailedState?)
    requires Child(m, c, w, clean, plain).Ok?
    ensures
      var m' := Child(m, c, w, clean, plain).value;
      m'.state.StopPre? ==> AllOpen(m'.ports)
  {
    if m.state.StopPre? {
      StopPostState(m, c, w, ChildResult(clean, plain));
    }
  }

  /** A socket that is stopped keeps its ports open while it runs its stop-pre commands, and has
      closed them when it goes on. */
  lemma {:induction false} OpenUntilPost(c: Config, ms: seq<Sock>, ws: seq<World>, es: seq<Event>, n: nat)
    requires IsRun(c, ms, ws, es) && OneRequest(es, true) && Safe(ms[0]) && AllOpen(ms[0].ports) && 1 <= n <= |es|
    ensures Safe(ms[n])
    ensures ms[n].state.StopPre? || ms[n].state.StopPost? || ms[n].state.DeadState? || ms[n].state.FailedState?
    ensures if ms[n].state.StopPre? then AllOpen(ms[n].ports) else AllClosed(ms[n].ports)
    decreases n
  {
    var m := n - 1;
    RunStep(c, ms, ws, es, m, ms[m], ms[n]);
    if m == 0 {
      StopPreOutcome(ms[0], c, ws[0], Success);
      StopPrePorts(ms[0], c, ws[0], Success);
      StopPreSafe(ms[0], c, ws[0], Success);
    } else {
      OpenUntilPost(c, ms, ws, es, m);
      HandleSafe(ms[m], c, ws[m], es[m]);
      StopChildPorts(ms[m], c, ws[m], es[m].clean, es[m].plain);
      StopChildStates(ms[m], c, ws[m], es[m].clean, es[m].plain);
    }
  }

  lemma StopChildStates(m: Sock, c: Config, w: World, clean: bool, plain: bool)
    requires m.state.StopPre? || m.state.StopPost? || m.state.DeadState? || m.state.FailedState?
    requires Child(m, c, w, clean, plain).Ok?
    ensures
      var s := Child(m, c, w, clean, plain).value.state;
      s.StopPre? || s.StopPost? || s.DeadState? || s.FailedState?
  {
    StopPostOutcome(m, c, w, ChildResult(clean, plain));
  }

  // ----- the other two events -----

  /** An incoming connection: refused, or left alone, while the socket is to be stopped; else, if
      the service is up or about to be or can be started, the socket runs with its ports open;
      and else it goes down as failed. */
  lemma IncomingOutcome(m: Sock, c: Config, w: World, fd: int, stopping: bool, active: bool, started: bool)
    requires Safe(m) && m.state.Listening?
    ensures EnterRunning(m, c, w, fd, stopping, active, started).Panic? <==> !stopping && fd >= 0
    ensures EnterRunning(m, c, w, fd, stopping, active, started).Ok? ==>
      var m' := EnterRunning(m, c, w, fd, stopping, active, started).value;
      if stopping then m'.state == Listening && m'.ports == m.ports && m'.refused == m.refused + if fd >= 0 then 1 else 0
      else if active || started then m'.state == RunningState && AllOpen(m'.ports) && m'.result == m.result && m'.refused == m.refused
      else BrokenBy(m', m.result)
  {
    StopPreOutcome(m, c, w, FailureResources);
  }

  /** The check before a stop sends a socket that is starting down, by signals, without its
      stop-pre commands; it leaves any other as it is, and says whether it is on its way down. */
  lemma StopCheckOutcome(m: Sock, c: Config, w: World)
    requires Safe(m)
    ensures
      var (m', answer) := StopCheck(m, c, w);
      if m.state.StartPre? || m.state.StartPost? then
        answer.None? &&
        if m.result == Success && w.kill(StopPreSigterm) && w.kill(StopPreSigkill) && StopPostGood(m, c, w) then Down(m') && !m'.state.StopPre?
        else BrokenBy(m', m.result) && !m'.state.StopPre?
      else m' == m && answer == Some(m.state.StopPre? || m.state.StopPost?)
  {
    if m.state.StartPre? || m.state.StartPost? {
      var m1 := Record(m, Success);
      assert m1 == m;
      if w.kill(StopPreSigterm) {
        assert EnterSignal(m, c, w, StopPreSigterm, Success) == EnterSignal(m, c, w, StopPreSigkill, Success);
      }
      StopPostOutcome(m, c, w, Success);
      StopPostOutcome(m, c, w, FailureResources);
      StopPostState(m, c, w, Success);
      StopPostState(m, c, w, FailureResources);
    }
  }

  lemma StopPostState(m: Sock, c: Config, w: World, res: SockResult)
    ensures !EnterStopPost(m, c, w, res).state.StopPre?
  {
    var m1 := Fill(Record(m, res), c, StopPostPhase);
    if m1.cmds == [] {
      FinalSignals(m1, c, w, Success);
    } else if !w.spawn(StopPostPhase) {
      FinalSignals(Pop(m1), c, w, FailureResources);
    }
  }

  // ----- and they come to an end -----

  predicate InPhase(s: State) {
    s.StartPre? || s.StartPost? || s.StopPre? || s.StopPost?
  }

  function Len(cmds: Option<seq<Cmd>>): nat {
    if cmds.Some? then |cmds.value| else 0
  }

  /** How many children may still end: those of this phase, with what they leave to a later
      one, and those of the phases to come. */
  function Budget(m: Sock, c: Config): nat {
    match m.state
    case StartPre => 4 + |m.cmds| + Len(c.startPost) + Len(c.stopPre) + Len(c.stopPost)
    case StartPost => 3 + |m.cmds| + Len(c.stopPre) + Len(c.stopPost)
    case StopPre => 2 + |m.cmds| + Len(c.stopPost)
    case StopPost => 1 + |m.cmds|
    case _ => 0
  }

  lemma FillLen(m: Sock, c: Config, p: Phase)
    ensures |Fill(m, c, p).cmds| <= |m.cmds| + Len(CmdsOf(c, p))
  {
  }

  lemma StopPostBudget(m: Sock, c: Config, w: World, res: SockResult)
    ensures Budget(EnterStopPost(m, c, w, res), c) <= 1 + |m.cmds| + Len(c.stopPost)
  {
    StopPostOutcome(m, c, w, res);
    FillLen(Record(m, res), c, StopPostPhase);
    var m1 := Fill(Record(m, res), c, StopPostPhase);
    if m1.cmds == [] {
      FinalSignals(m1, c, w, Success);
    } else if !w.spawn(StopPostPhase) {
      FinalSignals(Pop(m1), c, w, FailureResources);
    }
  }

  lemma StopPreBudget(m: Sock, c: Config, w: World, res: SockResult)
    ensures Budget(EnterStopPre(m, c, w, res), c) <= 2 + |m.cmds| + Len(c.stopPre) + Len(c.stopPost)
  {
    FillLen(Record(m, res), c, StopPrePhase);
    var m1 := Fill(Record(m, res), c, StopPrePhase);
    if m1.cmds == [] {
      StopPostBudget(m1, c, w, Success);
    } else if !w.spawn(StopPrePhase) {
      StopPostBudget(Pop(m1), c, w, FailureResources);
    }
  }

  lemma StartPostBudget(m: Sock, c: Config, w: World)
    ensures Budget(EnterStartPost(m, c, w), c) <= 3 + |m.cmds| + Len(c.startPost) + Len(c.stopPre) + Len(c.stopPost)
  {
    FillLen(m, c, StartPostPhase);
    var m1 := Fill(m, c, StartPostPhase);
    if m1.cmds != [] && !w.spawn(StartPostPhase) {
      StopPreBudget(Pop(m1), c, w, FailureResources);
    }
  }

  lemma ChownBudget(m: Sock, c: Config, w: World)
    ensures Budget(EnterStartChown(m, c, w), c) <= 3 + |m.cmds| + Len(c.startPost) + Len(c.stopPre) + Len(c.stopPost)
  {
    var (ports, ok) := OpenFrom(m.ports, 0, w.open);
    StartPostBudget(m.(ports := ports), c, w);
    StopPreBudget(m.(ports := ports), c, w, FailureResources);
  }

  /** Every child that ends uses up some of it; one that ends in any other state aborts,
      unless a command has been left over. */
  lemma ChildSpends(m: Sock, c: Config, w: World, clean: bool, plain: bool)
    requires InPhase(m.state)
    ensures Child(m, c, w, clean, plain).Ok? && Budget(Child(m, c, w, clean, plain).value, c) < Budget(m, c)
  {
    var res := ChildResult(clean, plain);
    if m.cmds == [] || res != Success {
      match m.state {
        case StartPre =>
          if res == Success {
            ChownBudget(m, c, w);
          } else {
            FinalSignals(m, c, w, res);
          }
        case StartPost =>
          if res != Success {
            StopPreBudget(m, c, w, res);
          }
        case StopPre => StopPostBudget(m, c, w, res);
        case StopPost =>
      }
    }
  }

  /** So a request comes to rest: of a run in which every child ends while a phase is under
      way there are no more children than the phases have commands, and four. */
  lemma {:induction false} ChildrenRunOut(c: Config, ms: seq<Sock>, ws: seq<World>, es: seq<Event>, n: nat)
    requires IsRun(c, ms, ws, es) && n <= |es|
    requires forall i :: 0 <= i < n ==> es[i].EvChild? && InPhase(ms[i].state)
    ensures n + Budget(ms[n], c) <= Budget(ms[0], c)
  {
    if n > 0 {
      ChildrenRunOut(c, ms, ws, es, n - 1);
      RunStep(c, ms, ws, es, n - 1, ms[n - 1], ms[n]);
      ChildSpends(ms[n - 1], c, ws[n - 1], es[n - 1].clean, es[n - 1].plain);
    }
  }

  // ----- leftover commands -----

  /** Two start-post commands and nothing else. */
  predicate TwoPosts(c: Config, first: Cmd, second: Cmd) {
    c.startPre.None? && c.startPost == Some([first, second]) && c.stopPre.None? && c.stopPost.None?
  }

  /** The last command is run first; when it fails the first one, which was to be run after
      the start, is run as a stop-pre command. */
  lemma LeftoverRuns(c: Config, w: World, first: Cmd, second: Cmd)
    requires TwoPosts(c, first, second) && w.spawn(StartPostPhase) && w.spawn(StopPrePhase)
    ensures
      var m1 := EnterStartPre(NewSock(0), c, w);
      m1.state == StartPost && m1.cmds == [first] &&
      var m2 := Child(m1, c, w, false, false);
      m2.Ok? && m2.value.state == StopPre && m2.value.cmds == []
  {
    assert [first, second][..1] == [first] && [first][..0] == [];
  }
}
