/** The state machine of a socket unit and its ports, on values: the chains of transitions
    and what they keep (components/socket/src/socket_mng.rs, socket_port.rs).
    `SocketMng` holds the objects that are updated in place. */
module SocketState {
  import opened Outcomes

  datatype State =
    | DeadState | StartPre | StartChown | StartPost | Listening | RunningState
    | StopPre | StopPreSigterm | StopPreSigkill | StopPost
    | FinalSigterm | FinalSigkill | FailedState | Cleaning | StateMax

  datatype SockResult = Success | FailureResources | FailureSignal

  datatype Phase = StartPrePhase | StartPostPhase | StopPrePhase | StopPostPhase

  type Cmd = nat

  /** The commands configured for each phase, if the phase is configured at all. */
  datatype Config = Config(startPre: Option<seq<Cmd>>, startPost: Option<seq<Cmd>>, stopPre: Option<seq<Cmd>>, stopPost: Option<seq<Cmd>>)

  function CmdsOf(c: Config, p: Phase): Option<seq<Cmd>> {
    match p
    case StartPrePhase => c.startPre
    case StartPostPhase => c.startPost
    case StopPrePhase => c.stopPre
    case StopPostPhase => c.stopPost
  }

  /** `hurt` records that the descriptor was closed while it was being watched. */
  datatype Port = Port(fd: int, watched: bool, hurt: bool)

  datatype Sock = Sock(state: State, result: SockResult, cmds: seq<Cmd>, ports: seq<Port>, refused: nat)

  /** What the system answers during one event: does spawning the command of a phase
      succeed, does the kill made for a state, and which descriptor does a port get. */
  datatype World = World(spawn: Phase -> bool, kill: State -> bool, open: nat -> Option<nat>)

  // ----- ports -----

  function Opened(p: Port, fd: nat): Port {
    if p.fd >= 0 then p else p.(fd := fd)
  }

  function Closed(p: Port): Port {
    if p.fd < 0 then p else p.(fd := -1, hurt := p.hurt || p.watched)
  }

  /** Ports are opened in turn until one fails. */
  function OpenFrom(ports: seq<Port>, i: nat, open: nat -> Option<nat>): (r: (seq<Port>, bool))
    requires i <= |ports|
    ensures |r.0| == |ports|
    decreases |ports| - i
  {
    if i == |ports| then (ports, true)
    else if ports[i].fd >= 0 then OpenFrom(ports, i + 1, open)
    else if open(i).None? then (ports, false)
    else OpenFrom(ports[i := Opened(ports[i], open(i).value)], i + 1, open)
  }

  function CloseAll(ports: seq<Port>): seq<Port> {
    seq(|ports|, i requires 0 <= i < |ports| => Closed(ports[i]))
  }

  function WatchAll(ports: seq<Port>, on: bool): seq<Port> {
    seq(|ports|, i requires 0 <= i < |ports| => ports[i].(watched := on))
  }

  // ----- the chains -----

  predicate KeepsOpen(s: State) {
    s.StartChown? || s.StartPost? || s.Listening? || s.RunningState? || s.StopPre? || s.StopPreSigterm? || s.StopPreSigkill?
  }

  /** A state other than listening takes the watch off, and most states close the ports. */
  function SetState(m: Sock, s: State): Sock {
    var p1 := if s.Listening? then m.ports else WatchAll(m.ports, false);
    var p2 := if KeepsOpen(s) then p1 else CloseAll(p1);
    m.(state := s, ports := p2)
  }

  /** The first failure stays. */
  function Record(m: Sock, res: SockResult): Sock {
    if m.result == Success then m.(result := res) else m
  }

  /** An unconfigured phase leaves the commands of an earlier one in place. */
  function Fill(m: Sock, c: Config, p: Phase): Sock {
    if CmdsOf(c, p).Some? then m.(cmds := CmdsOf(c, p).value) else m
  }

  /** The last command is run first. */
  function Pop(m: Sock): Sock
    requires m.cmds != []
  {
    m.(cmds := m.cmds[..|m.cmds| - 1])
  }

  function EnterDead(m: Sock, res: SockResult): Sock {
    var m1 := Record(m, res);
    SetState(m1, if m1.result == Success then DeadState else FailedState)
  }

  /** The state a signal is sent for is never entered; the chain goes on at once. */
  function EnterSignal(m: Sock, c: Config, w: World, s: State, res: SockResult): Sock
    decreases match s case StopPreSigterm => 5 case StopPreSigkill => 4 case FinalSigterm => 2 case _ => 1
  {
    var m1 := Record(m, res);
    if !w.kill(s) then
      if s.StopPreSigterm? || s.StopPreSigkill? then EnterStopPost(m1, c, w, FailureResources)
      else EnterDead(m1, FailureResources)
    else if s.StopPreSigterm? then EnterSignal(m1, c, w, StopPreSigkill, Success)
    else if s.StopPreSigkill? then EnterStopPost(m1, c, w, Success)
    else if s.FinalSigterm? then EnterSignal(m1, c, w, FinalSigkill, Success)
    else EnterDead(m1, Success)
  }

  function EnterStopPost(m: Sock, c: Config, w: World, res: SockResult): Sock
    decreases 3
  {
    var m1 := Fill(Record(m, res), c, StopPostPhase);
    if m1.cmds == [] then EnterSignal(m1, c, w, FinalSigterm, Success)
    else if w.spawn(StopPostPhase) then SetState(Pop(m1), StopPost)
    else EnterSignal(Pop(m1), c, w, FinalSigterm, FailureResources)
  }

  function EnterStopPre(m: Sock, c: Config, w: World, res: SockResult): Sock {
    var m1 := Fill(Record(m, res), c, StopPrePhase);
    if m1.cmds == [] then EnterStopPost(m1, c, w, Success)
    else if w.spawn(StopPrePhase) then SetState(Pop(m1), StopPre)
    else EnterStopPost(Pop(m1), c, w, FailureResources)
  }

  function EnterListening(m: Sock): Sock {
    SetState(m.(ports := WatchAll(m.ports, true)), Listening)
  }

  function EnterStartPost(m: Sock, c: Config, w: World): Sock {
    var m1 := Fill(m, c, StartPostPhase);
    if m1.cmds == [] then EnterListening(m1)
    else if w.spawn(StartPostPhase) then SetState(Pop(m1), StartPost)
    else EnterStopPre(Pop(m1), c, w, FailureResources)
  }

  function EnterStartChown(m: Sock, c: Config, w: World): Sock {
    var (ports, ok) := OpenFrom(m.ports, 0, w.open);
    var m1 := m.(ports := ports);
    if ok then EnterStartPost(m1, c, w) else EnterStopPre(m1, c, w, FailureResources)
  }

  function EnterStartPre(m: Sock, c: Config, w: World): Sock {
    var m1 := Fill(m, c, StartPrePhase);
    if m1.cmds == [] then EnterStartChown(m1, c, w)
    else if w.spawn(StartPrePhase) then SetState(Pop(m1), StartPre)
    else EnterDead(Pop(m1), FailureResources)
  }

  // ----- events -----

  predicate IsStarting(s: State) {
    s.StartPre? || s.StartChown? || s.StartPost?
  }

  predicate IsStopping(s: State) {
    s.StopPre? || s.StopPreSigterm? || s.StopPreSigkill? || s.StopPost? || s.FinalSigterm? || s.FinalSigkill?
  }

  /** Is the socket stopping already? None asks to try again: a socket that is starting is
      stopped by signals, in the check already. */
  function StopCheck(m: Sock, c: Config, w: World): (Sock, Option<bool>) {
    if IsStopping(m.state) then (m, Some(true))
    else if IsStarting(m.state) then (EnterSignal(m, c, w, StopPreSigterm, Success), None)
    else (m, Some(false))
  }

  /** An incoming connection: refused while a stop job is pending, otherwise the service is
      started unless it is active or about to be. Connections already accepted are not
      supported and abort. */
  function EnterRunning(m: Sock, c: Config, w: World, fd: int, stopping: bool, active: bool, started: bool): Outcome<Sock> {
    if stopping then Ok(if fd >= 0 then m.(refused := m.refused + 1) else m)
    else if fd >= 0 then Panic
    else if !active && !started then Ok(EnterStopPre(m, c, w, FailureResources))
    else Ok(SetState(m, RunningState))
  }

  /** `clean` is an exit code of zero, `plain` an ordinary exit as opposed to a signal; an
      ordinary exit counts as a success whatever its code. */
  function ChildResult(clean: bool, plain: bool): SockResult {
    if clean || plain then Success else FailureSignal
  }

  function Child(m: Sock, c: Config, w: World, clean: bool, plain: bool): Outcome<Sock> {
    var res := ChildResult(clean, plain);
    if m.cmds != [] && res == Success then Ok(Pop(m))   // the next command is run, whether or not it can be spawned
    else
      match m.state
      case StartPre => Ok(if res == Success then EnterStartChown(m, c, w) else EnterSignal(m, c, w, FinalSigterm, res))
      case StartChown => Ok(if res == Success then EnterStartPost(m, c, w) else EnterStopPre(m, c, w, res))
      case StartPost => Ok(if res == Success then EnterListening(m) else EnterStopPre(m, c, w, res))
      case StopPre | StopPreSigterm | StopPreSigkill => Ok(EnterStopPost(m, c, w, res))
      case StopPost | FinalSigterm | FinalSigkill => Ok(EnterDead(m, res))
      case _ => Panic
  }

  datatype Event =
    | EvStart
    | EvStop
    | EvStopCheck
    | EvIncoming(fd: int, stopping: bool, active: bool, started: bool)
    | EvChild(clean: bool, plain: bool)

  function Handle(m: Sock, c: Config, w: World, e: Event): Outcome<Sock> {
    match e
    case EvStart => Ok(EnterStartPre(m, c, w))
    case EvStop => Ok(EnterStopPre(m, c, w, Success))
    case EvStopCheck => Ok(StopCheck(m, c, w).0)
    case EvIncoming(fd, stopping, active, started) => EnterRunning(m, c, w, fd, stopping, active, started)
    case EvChild(clean, plain) => Child(m, c, w, clean, plain)
  }

  // ----- descriptor safety -----

  predicate AllClosed(ports: seq<Port>) {
    forall i :: 0 <= i < |ports| ==> ports[i].fd < 0
  }

  predicate AllOpen(ports: seq<Port>) {
    forall i :: 0 <= i < |ports| ==> ports[i].fd >= 0
  }

  predicate NoneWatched(ports: seq<Port>) {
    forall i :: 0 <= i < |ports| ==> !ports[i].watched
  }

  predicate NoneHurt(ports: seq<Port>) {
    forall i :: 0 <= i < |ports| ==> !ports[i].hurt
  }

  /** The states a socket can rest in between events: the others are passed through without
      being entered. */
  predicate Resting(s: State) {
    !s.StartChown? && !s.StopPreSigterm? && !s.StopPreSigkill? && !s.FinalSigterm? && !s.FinalSigkill? && !s.Cleaning?
  }

  /** Between events: ports are closed unless the state keeps them open, all open while it
      listens or runs or is about to, watched only while it listens, and none was ever
      closed under a watch; a dead socket has not failed and a failed one has. */
  predicate Safe(m: Sock) {
    && Resting(m.state) && NoneHurt(m.ports)
    && (!KeepsOpen(m.state) ==> AllClosed(m.ports))
    && (m.state.StartPost? || m.state.Listening? || m.state.RunningState? ==> AllOpen(m.ports))
    && (if m.state.Listening? then WatchAll(m.ports, true) == m.ports else NoneWatched(m.ports))
    && (m.state.DeadState? ==> m.result == Success) && (m.state.FailedState? ==> m.result != Success)
  }

  /** In the middle of a chain nothing has been closed under a watch. */
  predicate Midway(m: Sock) {
    NoneHurt(m.ports)
  }

  lemma SetStateSafe(m: Sock, s: State)
    requires Midway(m) && Resting(s)
    requires s.StartPost? || s.Listening? || s.RunningState? ==> AllOpen(m.ports)
    requires s.Listening? ==> WatchAll(m.ports, true) == m.ports
    requires s.DeadState? ==> m.result == Success
    requires s.FailedState? ==> m.result != Success
    ensures Safe(SetState(m, s))
  {
  }

  lemma DeadSafe(m: Sock, res: SockResult)
    requires Midway(m)
    ensures Safe(EnterDead(m, res))
  {
    var m1 := Record(m, res);
    SetStateSafe(m1, if m1.result == Success then DeadState else FailedState);
  }

  lemma SignalSafe(m: Sock, c: Config, w: World, s: State, res: SockResult)
    requires Midway(m)
    ensures Safe(EnterSignal(m, c, w, s, res))
    decreases match s case StopPreSigterm => 5 case StopPreSigkill => 4 case FinalSigterm => 2 case _ => 1
  {
    var m1 := Record(m, res);
    if !w.kill(s) {
      if s.StopPreSigterm? || s.StopPreSigkill? {
        StopPostSafe(m1, c, w, FailureResources);
      } else {
        DeadSafe(m1, FailureResources);
      }
    } else if s.StopPreSigterm? {
      SignalSafe(m1, c, w, StopPreSigkill, Success);
    } else if s.StopPreSigkill? {
      StopPostSafe(m1, c, w, Success);
    } else if s.FinalSigterm? {
      SignalSafe(m1, c, w, FinalSigkill, Success);
    } else {
      DeadSafe(m1, Success);
    }
  }

  lemma StopPostSafe(m: Sock, c: Config, w: World, res: SockResult)
    requires Midway(m)
    ensures Safe(EnterStopPost(m, c, w, res))
    decreases 3
  {
    var m1 := Fill(Record(m, res), c, StopPostPhase);
    if m1.cmds == [] {
      SignalSafe(m1, c, w, FinalSigterm, Success);
    } else if w.spawn(StopPostPhase) {
      SetStateSafe(Pop(m1), StopPost);
    } else {
      SignalSafe(Pop(m1), c, w, FinalSigterm, FailureResources);
    }
  }

  lemma StopPreSafe(m: Sock, c: Config, w: World, res: SockResult)
    requires Midway(m)
    ensures Safe(EnterStopPre(m, c, w, res))
  {
    var m1 := Fill(Record(m, res), c, StopPrePhase);
    if m1.cmds == [] {
      StopPostSafe(m1, c, w, Success);
    } else if w.spawn(StopPrePhase) {
      SetStateSafe(Pop(m1), StopPre);
    } else {
      StopPostSafe(Pop(m1), c, w, FailureResources);
    }
  }

  lemma ListeningSafe(m: Sock)
    requires Midway(m) && AllOpen(m.ports)
    ensures Safe(EnterListening(m))
  {
    SetStateSafe(m.(ports := WatchAll(m.ports, true)), Listening);
  }

  lemma StartPostSafe(m: Sock, c: Config, w: World)
    requires Midway(m) && AllOpen(m.ports)
    ensures Safe(EnterStartPost(m, c, w))
  {
    var m1 := Fill(m, c, StartPostPhase);
    if m1.cmds == [] {
      ListeningSafe(m1);
    } else if w.spawn(StartPostPhase) {
      SetStateSafe(Pop(m1), StartPost);
    } else {
      StopPreSafe(Pop(m1), c, w, FailureResources);
    }
  }

  lemma {:induction false} OpenFromSafe(ports: seq<Port>, i: nat, open: nat -> Option<nat>)
    requires i <= |ports| && NoneHurt(ports) && forall j :: 0 <= j < i ==> ports[j].fd >= 0
    ensures NoneHurt(OpenFrom(ports, i, open).0)
    ensures OpenFrom(ports, i, open).1 ==> AllOpen(OpenFrom(ports, i, open).0)
    decreases |ports| - i
  {
    if i < |ports| {
      if ports[i].fd >= 0 {
        OpenFromSafe(ports, i + 1, open);
      } else if open(i).Some? {
        OpenFromSafe(ports[i := Opened(ports[i], open(i).value)], i + 1, open);
      }
    }
  }

  /** No closed port from `i` up to and with `j` is refused a descriptor. */
  predicate Reached(ports: seq<Port>, i: nat, j: nat, open: nat -> Option<nat>)
    requires j < |ports|
  {
    forall k :: i <= k <= j && ports[k].fd < 0 ==> open(k).Some?
  }

  /** The ports after the first one of `ports[i..]` has been dealt with. */
  function OneOpened(ports: seq<Port>, i: nat, open: nat -> Option<nat>): seq<Port>
    requires i < |ports|
  {
    if ports[i].fd < 0 && open(i).Some? then ports[i := Opened(ports[i], open(i).value)] else ports
  }

  lemma {:induction false} OpenFromBefore(ports: seq<Port>, i: nat, open: nat -> Option<nat>, j: nat)
    requires j < i <= |ports|
    ensures OpenFrom(ports, i, open).0[j] == ports[j]
    decreases |ports| - i
  {
    if i < |ports| && (ports[i].fd >= 0 || open(i).Some?) {
      OpenFromBefore(OneOpened(ports, i, open), i + 1, open, j);
    }
  }

  lemma ReachedNext(ports: seq<Port>, i: nat, j: nat, open: nat -> Option<nat>)
    requires i < j < |ports| && (ports[i].fd >= 0 || open(i).Some?)
    ensures Reached(ports, i, j, open) <==> Reached(OneOpened(ports, i, open), i + 1, j, open)
  {
  }

  /** Every port that was open keeps its descriptor. The closed ones are opened in turn, each
      with what the system gives for it, up to the first that is refused; the others stay. */
  lemma {:induction false} OpenFromMeaning(ports: seq<Port>, i: nat, open: nat -> Option<nat>, j: nat)
    requires i <= j < |ports|
    ensures OpenFrom(ports, i, open).0[j] ==
      if ports[j].fd < 0 && Reached(ports, i, j, open) then ports[j].(fd := open(j).value) else ports[j]
    decreases |ports| - i
  {
    if ports[i].fd >= 0 || open(i).Some? {
      if i == j {
        OpenFromBefore(OneOpened(ports, i, open), i + 1, open, j);
      } else {
        OpenFromMeaning(OneOpened(ports, i, open), i + 1, open, j);
        ReachedNext(ports, i, j, open);
      }
    }
  }

  /** And all of them can be opened exactly when none is refused. */
  lemma {:induction false} OpenFromSucceeds(ports: seq<Port>, i: nat, open: nat -> Option<nat>)
    requires i < |ports|
    ensures OpenFrom(ports, i, open).1 <==> Reached(ports, i, |ports| - 1, open)
    decreases |ports| - i
  {
    if i + 1 < |ports| && (ports[i].fd >= 0 || open(i).Some?) {
      OpenFromSucceeds(OneOpened(ports, i, open), i + 1, open);
      ReachedNext(ports, i, |ports| - 1, open);
    }
  }

  lemma StartChownSafe(m: Sock, c: Config, w: World)
    requires Midway(m)
    ensures Safe(EnterStartChown(m, c, w))
  {
    OpenFromSafe(m.ports, 0, w.open);
    var (ports, ok) := OpenFrom(m.ports, 0, w.open);
    if ok {
      StartPostSafe(m.(ports := ports), c, w);
    } else {
      StopPreSafe(m.(ports := ports), c, w, FailureResources);
    }
  }

  lemma StartPreSafe(m: Sock, c: Config, w: World)
    requires Midway(m)
    ensures Safe(EnterStartPre(m, c, w))
  {
    var m1 := Fill(m, c, StartPrePhase);
    if m1.cmds == [] {
      StartChownSafe(m1, c, w);
    } else if w.spawn(StartPrePhase) {
      SetStateSafe(Pop(m1), StartPre);
    } else {
      DeadSafe(Pop(m1), FailureResources);
    }
  }

  lemma ChildSafe(m: Sock, c: Config, w: World, clean: bool, plain: bool)
    requires Safe(m) && Child(m, c, w, clean, plain).Ok?
    ensures Safe(Child(m, c, w, clean, plain).value)
  {
    var res := ChildResult(clean, plain);
    if m.cmds == [] || res != Success {
      match m.state {
        case StartPre =>
          if res == Success {
            StartChownSafe(m, c, w);
          } else {
            SignalSafe(m, c, w, FinalSigterm, res);
          }
        case StartPost =>
          if res == Success {
            ListeningSafe(m);
          } else {
            StopPreSafe(m, c, w, res);
          }
        case StopPre => StopPostSafe(m, c, w, res);
        case StopPost => DeadSafe(m, res);
        case _ =>
      }
    }
  }

  /** A connection can only come in while the socket listens. */
  predicate CanHappen(m: Sock, e: Event) {
    e.EvIncoming? ==> m.state.Listening?
  }

  lemma HandleSafe(m: Sock, c: Config, w: World, e: Event)
    requires Safe(m) && CanHappen(m, e) && Handle(m, c, w, e).Ok?
    ensures Safe(Handle(m, c, w, e).value)
  {
    match e {
      case EvStart => StartPreSafe(m, c, w);
      case EvStop => StopPreSafe(m, c, w, Success);
      case EvStopCheck =>
        if IsStarting(m.state) {
          SignalSafe(m, c, w, StopPreSigterm, Success);
        }
      case EvIncoming(fd, stopping, active, started) =>
        if !stopping && fd < 0 {
          if !active && !started {
            StopPreSafe(m, c, w, FailureResources);
          } else {
            SetStateSafe(m, RunningState);
          }
        }
      case EvChild(clean, plain) => ChildSafe(m, c, w, clean, plain);
    }
  }

  // ----- over runs -----

  function NewSock(n: nat): Sock {
    Sock(StateMax, Success, [], seq(n, _ => Port(-1, false, false)), 0)
  }

  /** The states a run of events goes through, without aborting. */
  ghost predicate IsRun(c: Config, ms: seq<Sock>, ws: seq<World>, es: seq<Event>) {
    && |ms| == |es| + 1 && |ws| == |es|
    && forall i, j :: 0 <= i < |es| && j == i + 1 ==> CanHappen(ms[i], es[i]) && Handle(ms[i], c, ws[i], es[i]) == Ok(ms[j])
  }

  /** In every state a new socket can reach, whatever the system answers. */
  lemma {:induction false} RunSafe(c: Config, ms: seq<Sock>, ws: seq<World>, es: seq<Event>, n: nat, i: nat)
    requires IsRun(c, ms, ws, es) && ms[0] == NewSock(n) && i < |ms|
    ensures Safe(ms[i])
  {
    if i > 0 {
      RunSafe(c, ms, ws, es, n, i - 1);
      assert Handle(ms[i - 1], c, ws[i - 1], es[i - 1]) == Ok(ms[i]);
      HandleSafe(ms[i - 1], c, ws[i - 1], es[i - 1]);
    }
  }

  // ----- the first failure -----

  /** A recorded failure is not overwritten. */
  predicate Sticks(r: SockResult, r': SockResult) {
    r != Success ==> r' == r
  }

  lemma SignalSticks(m: Sock, c: Config, w: World, s: State, res: SockResult)
    ensures Sticks(Record(m, res).result, EnterSignal(m, c, w, s, res).result)
    decreases match s case StopPreSigterm => 5 case StopPreSigkill => 4 case FinalSigterm => 2 case _ => 1
  {
    var m1 := Record(m, res);
    if !w.kill(s) {
      if s.StopPreSigterm? || s.StopPreSigkill? {
        StopPostSticks(m1, c, w, FailureResources);
      }
    } else if s.StopPreSigterm? {
      SignalSticks(m1, c, w, StopPreSigkill, Success);
    } else if s.StopPreSigkill? {
      StopPostSticks(m1, c, w, Success);
    } else if s.FinalSigterm? {
      SignalSticks(m1, c, w, FinalSigkill, Success);
    }
  }

  lemma StopPostSticks(m: Sock, c: Config, w: World, res: SockResult)
    ensures Sticks(Record(m, res).result, EnterStopPost(m, c, w, res).result)
    decreases 3
  {
    var m1 := Fill(Record(m, res), c, StopPostPhase);
    if m1.cmds == [] {
      SignalSticks(m1, c, w, FinalSigterm, Success);
    } else if !w.spawn(StopPostPhase) {
      SignalSticks(Pop(m1), c, w, FinalSigterm, FailureResources);
    }
  }

  lemma StopPreSticks(m: Sock, c: Config, w: World, res: SockResult)
    ensures Sticks(Record(m, res).result, EnterStopPre(m, c, w, res).result)
  {
    var m1 := Fill(Record(m, res), c, StopPrePhase);
    if m1.cmds == [] {
      StopPostSticks(m1, c, w, Success);
    } else if !w.spawn(StopPrePhase) {
      StopPostSticks(Pop(m1), c, w, FailureResources);
    }
  }

  lemma StartPostSticks(m: Sock, c: Config, w: World)
    ensures Sticks(m.result, EnterStartPost(m, c, w).result)
  {
    var m1 := Fill(m, c, StartPostPhase);
    if m1.cmds != [] && !w.spawn(StartPostPhase) {
      StopPreSticks(Pop(m1), c, w, FailureResources);
    }
  }

  lemma StartChownSticks(m: Sock, c: Config, w: World)
    ensures Sticks(m.result, EnterStartChown(m, c, w).result)
  {
    var (ports, ok) := OpenFrom(m.ports, 0, w.open);
    if ok {
      StartPostSticks(m.(ports := ports), c, w);
    } else {
      StopPreSticks(m.(ports := ports), c, w, FailureResources);
    }
  }

  lemma ChildSticks(m: Sock, c: Config, w: World, clean: bool, plain: bool)
    requires Child(m, c, w, clean, plain).Ok?
    ensures Sticks(m.result, Child(m, c, w, clean, plain).value.result)
  {
    var res := ChildResult(clean, plain);
    if m.cmds == [] || res != Success {
      match m.state {
        case StartPre =>
          StartChownSticks(m, c, w);
          SignalSticks(m, c, w, FinalSigterm, res);
        case StartChown =>
          StartPostSticks(m, c, w);
          StopPreSticks(m, c, w, res);
        case StartPost => StopPreSticks(m, c, w, res);
        case StopPre | StopPreSigterm | StopPreSigkill => StopPostSticks(m, c, w, res);
        case _ =>
      }
    }
  }

  lemma HandleSticks(m: Sock, c: Config, w: World, e: Event)
    requires Handle(m, c, w, e).Ok?
    ensures Sticks(m.result, Handle(m, c, w, e).value.result)
  {
    match e {
      case EvStart =>
        var m1 := Fill(m, c, StartPrePhase);
        if m1.cmds == [] {
          StartChownSticks(m1, c, w);
        }
      case EvStop => StopPreSticks(m, c, w, Success);
      case EvStopCheck => SignalSticks(m, c, w, StopPreSigterm, Success);
      case EvIncoming(_, _, _, _) => StopPreSticks(m, c, w, FailureResources);
      case EvChild(clean, plain) => ChildSticks(m, c, w, clean, plain);
    }
  }

  /** The first recorded failure sticks for the life of the socket: however often it is
      started again, it never comes to rest as dead, only as failed. */
  lemma {:induction false} FailureSticks(c: Config, ms: seq<Sock>, ws: seq<World>, es: seq<Event>, n: nat, i: nat, j: nat)
    requires IsRun(c, ms, ws, es) && ms[0] == NewSock(n) && i <= j < |ms| && ms[i].result != Success
    ensures ms[j].result == ms[i].result && !ms[j].state.DeadState?
    decreases j
  {
    RunSafe(c, ms, ws, es, n, j);
    if i < j {
      FailureSticks(c, ms, ws, es, n, i, j - 1);
      assert Handle(ms[j - 1], c, ws[j - 1], es[j - 1]) == Ok(ms[j]);
      HandleSticks(ms[j - 1], c, ws[j - 1], es[j - 1]);
    }
  }
}
