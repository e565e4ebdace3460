/** The socket unit as it is changed in place: its state, its pending commands and its port
    objects, proved against `SocketState`
    (components/socket/src/socket_mng.rs, socket_port.rs). */
module SocketMng {
  import opened Outcomes
  import opened SocketState

  class SocketPort {
    var fd: int
    var watched: bool
    ghost var hurt: bool

    ghost function Value(): Port
      reads this
    {
      Port(fd, watched, hurt)
    }

    constructor ()
      ensures Value() == Port(-1, false, false)
    {
      fd, watched, hurt := -1, false, false;
    }

    /** An open port stays as it is. */
    method OpenPort(answer: Option<nat>) returns (ok: bool)
      modifies this
      ensures ok <==> old(fd) >= 0 || answer.Some?
      ensures Value() == if answer.Some? then Opened(old(Value()), answer.value) else old(Value())
    {
      if fd >= 0 {
        return true;
      }
      ok := answer.Some?;
      if ok {
        fd := answer.value;
      }
    }

    method Close()
      modifies this
      ensures Value() == Closed(old(Value()))
    {
      if fd < 0 {
        return;
      }
      hurt := hurt || watched;
      fd := -1;
    }

    method Watch(on: bool)
      modifies this
      ensures Value() == old(Value()).(watched := on)
    {
      watched := on;
    }
  }

  class SocketManager {
    const config: Config
    const ports: seq<SocketPort>
    var state: State
    var result: SockResult
    var controlCommand: seq<Cmd>
    var refused: nat

    ghost predicate Valid()
      reads this
    {
      forall i, j :: 0 <= i < j < |ports| ==> ports[i] != ports[j]
    }

    ghost function Ports(): (r: seq<Port>)
      reads this, ports
      ensures |r| == |ports|
    {
      seq(|ports|, i requires 0 <= i < |ports| reads ports => ports[i].Value())
    }

    ghost function Value(): Sock
      reads this, ports
    {
      Sock(state, result, controlCommand, Ports(), refused)
    }

    constructor (config: Config, ports: seq<SocketPort>)
      requires forall i, j :: 0 <= i < j < |ports| ==> ports[i] != ports[j]
      requires forall i :: 0 <= i < |ports| ==> ports[i].Value() == Port(-1, false, false)
      ensures Valid() && this.config == config && this.ports == ports
      ensures Value() == NewSock(|ports|)
    {
      this.config, this.ports := config, ports;
      state, result, controlCommand, refused := StateMax, Success, [], 0;
    }

    // ----- descriptors -----

    method OpenFds(w: World) returns (ok: bool)
      requires Valid()
      modifies ports
      ensures (Ports(), ok) == OpenFrom(old(Ports()), 0, w.open)
    {
      var i := 0;
      while i < |ports|
        invariant i <= |ports| && OpenFrom(old(Ports()), 0, w.open) == OpenFrom(Ports(), i, w.open)
      {
        ghost var before := Ports();
        ok := ports[i].OpenPort(w.open(i));
        OnePort(before, Ports(), i, if w.open(i).Some? then Opened(before[i], w.open(i).value) else before[i]);
        if !ok {
          return;
        }
        i := i + 1;
      }
      ok := true;
    }

    /** Only port `i` has changed. */
    lemma OnePort(before: seq<Port>, after: seq<Port>, i: nat, p: Port)
      requires i < |before| == |after| && after[i] == p
      requires forall j :: 0 <= j < |before| && j != i ==> after[j] == before[j]
      ensures after == before[i := p] && (p == before[i] ==> after == before)
    {
    }

    method CloseFds()
      requires Valid()
      modifies ports
      ensures Ports() == CloseAll(old(Ports()))
    {
      var i := 0;
      while i < |ports|
        invariant i <= |ports|
        invariant forall j :: 0 <= j < |ports| ==> ports[j].Value() == if j < i then Closed(old(Ports())[j]) else old(Ports())[j]
      {
        ports[i].Close();
        i := i + 1;
      }
    }

    method WatchFds(on: bool)
      requires Valid()
      modifies ports
      ensures Ports() == WatchAll(old(Ports()), on)
    {
      var i := 0;
      while i < |ports|
        invariant i <= |ports|
        invariant forall j :: 0 <= j < |ports| ==>
          ports[j].Value() == if j < i then old(Ports())[j].(watched := on) else old(Ports())[j]
      {
        ports[i].Watch(on);
        i := i + 1;
      }
    }

    method SetStateTo(s: State)
      requires Valid()
      modifies this, ports
      ensures Valid() && Value() == SetState(old(Value()), s)
    {
      state := s;
      if s != Listening {
        WatchFds(false);
      }
      if !KeepsOpen(s) {
        CloseFds();
      }
    }

    method SetResult(res: SockResult)
      modifies this`result
      ensures Value() == Record(old(Value()), res)
    {
      if result == Success {
        result := res;
      }
    }

    method ControlCommandFill(p: Phase)
      modifies this`controlCommand
      ensures Value() == Fill(old(Value()), config, p)
    {
      var cmds := CmdsOf(config, p);
      if cmds.Some? {
        controlCommand := cmds.value;
      }
    }

    method ControlCommandPop() returns (cmd: Option<Cmd>)
      modifies this`controlCommand
      ensures cmd.None? <==> old(controlCommand) == []
      ensures Value() == if cmd.None? then old(Value()) else Pop(old(Value()))
    {
      if controlCommand == [] {
        return None;
      }
      cmd := Some(controlCommand[|controlCommand| - 1]);
      controlCommand := controlCommand[..|controlCommand| - 1];
    }

    // ----- the chains -----

    method Dead(res: SockResult)
      requires Valid()
      modifies this, ports
      ensures Valid() && Value() == EnterDead(old(Value()), res)
    {
      SetResult(res);
      SetStateTo(if result == Success then DeadState else FailedState);
    }

    method Signal(w: World, s: State, res: SockResult)
      requires Valid()
      modifies this, ports
      ensures Valid() && Value() == EnterSignal(old(Value()), config, w, s, res)
      decreases match s case StopPreSigterm => 5 case StopPreSigkill => 4 case FinalSigterm => 2 case _ => 1
    {
      SetResult(res);
      if !w.kill(s) {
        if s == StopPreSigterm || s == StopPreSigkill {
          StopPostChain(w, FailureResources);
        } else {
          Dead(FailureResources);
        }
        return;
      }
      if s == StopPreSigterm {
        Signal(w, StopPreSigkill, Success);
      } else if s == StopPreSigkill {
        StopPostChain(w, Success);
      } else if s == FinalSigterm {
        Signal(w, FinalSigkill, Success);
      } else {
        Dead(Success);
      }
    }

    method StopPostChain(w: World, res: SockResult)
      requires Valid()
      modifies this, ports
      ensures Valid() && Value() == EnterStopPost(old(Value()), config, w, res)
      decreases 3
    {
      SetResult(res);
      ControlCommandFill(StopPostPhase);
      var cmd := ControlCommandPop();
      if cmd.None? {
        Signal(w, FinalSigterm, Success);
      } else if w.spawn(StopPostPhase) {
        SetStateTo(StopPost);
      } else {
        Signal(w, FinalSigterm, FailureResources);
      }
    }

    method StopPreChain(w: World, res: SockResult)
      requires Valid()
      modifies this, ports
      ensures Valid() && Value() == EnterStopPre(old(Value()), config, w, res)
    {
      SetResult(res);
      ControlCommandFill(StopPrePhase);
      var cmd := ControlCommandPop();
      if cmd.None? {
        StopPostChain(w, Success);
      } else if w.spawn(StopPrePhase) {
        SetStateTo(StopPre);
      } else {
        StopPostChain(w, FailureResources);
      }
    }

    method ListeningChain()
      requires Valid()
      modifies this, ports
      ensures Valid() && Value() == EnterListening(old(Value()))
    {
      WatchFds(true);
      SetStateTo(Listening);
    }

    method StartPostChain(w: World)
      requires Valid()
      modifies this, ports
      ensures Valid() && Value() == EnterStartPost(old(Value()), config, w)
    {
      ControlCommandFill(StartPostPhase);
      var cmd := ControlCommandPop();
      if cmd.None? {
        ListeningChain();
      } else if w.spawn(StartPostPhase) {
        SetStateTo(StartPost);
      } else {
        StopPreChain(w, FailureResources);
      }
    }

    method StartChownChain(w: World)
      requires Valid()
      modifies this, ports
      ensures Valid() && Value() == EnterStartChown(old(Value()), config, w)
    {
      var ok := OpenFds(w);
      if ok {
        StartPostChain(w);
      } else {
        StopPreChain(w, FailureResources);
      }
    }

    /** The start action. */
    method StartPreChain(w: World)
      requires Valid()
      modifies this, ports
      ensures Valid() && Value() == EnterStartPre(old(Value()), config, w)
    {
      ControlCommandFill(StartPrePhase);
      var cmd := ControlCommandPop();
      if cmd.None? {
        StartChownChain(w);
      } else if w.spawn(StartPrePhase) {
        SetStateTo(StartPre);
      } else {
        Dead(FailureResources);
      }
    }

    /** A child has ended. */
    method SigchldEvent(w: World, clean: bool, plain: bool) returns (panicked: bool)
      requires Valid()
      modifies this, ports
      ensures Valid()
      ensures panicked <==> Child(old(Value()), config, w, clean, plain).Panic?
      ensures !panicked ==> Child(old(Value()), config, w, clean, plain) == Ok(Value())
    {
      panicked := false;
      var res := ChildResult(clean, plain);
      if controlCommand != [] && res == Success {
        var cmd := ControlCommandPop();
        return;
      }
      match state {
        case StartPre =>
          if res == Success {
            StartChownChain(w);
          } else {
            Signal(w, FinalSigterm, res);
          }
        case StartChown =>
          if res == Success {
            StartPostChain(w);
          } else {
            StopPreChain(w, res);
          }
        case StartPost =>
          if res == Success {
            ListeningChain();
          } else {
            StopPreChain(w, res);
          }
        case StopPre | StopPreSigterm | StopPreSigkill => StopPostChain(w, res);
        case StopPost | FinalSigterm | FinalSigkill => Dead(res);
        case _ => panicked := true;
      }
    }

    method Refuse()
      modifies this`refused
      ensures Value() == old(Value()).(refused := old(refused) + 1)
    {
      refused := refused + 1;
    }

    /** A connection has come in. */
    method Running(w: World, fd: int, stopping: bool, active: bool, started: bool) returns (panicked: bool)
      requires Valid()
      modifies this, ports
      ensures Valid()
      ensures panicked <==> EnterRunning(old(Value()), config, w, fd, stopping, active, started).Panic?
      ensures !panicked ==> EnterRunning(old(Value()), config, w, fd, stopping, active, started) == Ok(Value())
    {
      panicked := false;
      if stopping {
        if fd >= 0 {
          Refuse();
        }
      } else if fd >= 0 {
        panicked := true;
      } else if !active && !started {
        StopPreChain(w, FailureResources);
      } else {
        SetStateTo(RunningState);
      }
    }

    /** Every event is handled as the value says, and leaves a safe socket safe. */
    method HandleEvent(w: World, e: Event) returns (panicked: bool)
      requires Valid() && Safe(Value()) && CanHappen(Value(), e)
      modifies this, ports
      ensures Valid()
      ensures panicked <==> Handle(old(Value()), config, w, e).Panic?
      ensures !panicked ==> Handle(old(Value()), config, w, e) == Ok(Value()) && Safe(Value())
    {
      panicked := false;
      ghost var m := Value();
      match e {
        case EvStart => StartPreChain(w);
        case EvStop => StopPreChain(w, Success);
        case EvStopCheck =>
          if IsStarting(state) {
            Signal(w, StopPreSigterm, Success);
          }
        case EvIncoming(fd, stopping, active, started) => panicked := Running(w, fd, stopping, active, started);
        case EvChild(clean, plain) => panicked := SigchldEvent(w, clean, plain);
      }
      if !panicked {
        HandleSafe(m, config, w, e);
      }
    }
  }
}
