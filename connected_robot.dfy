/** The robot facade: one embedded server, whose address and running flag
    it passes through, whose Start and Stop it delegates to, and whose
    change notifications it turns into calls of the processing hook. */
module Ev3Robot {
  import opened Net
  import opened Framing
  import opened Ev3Server

  const LastMessageName: string := "LastMessage"

  class ConnectedRobot {
    const server: Ev3TCPServer
    /** How many times the processing hook has run. */
    var hookCalls: nat

    ghost predicate Valid()
      reads this, server
    {
      server.Valid()
    }

    /** init() without an address: a server without one. */
    constructor ()
      ensures fresh(server) && Valid()
      ensures IPAddress() == null && !IsServerRunning()
      ensures !server.threadStarted && server.lastMessage == None
      ensures hookCalls == 0
    {
      server := new Ev3TCPServer();
      hookCalls := 0;
    }

    /** init(theAddress): a server bound to the given address when there is
        one, otherwise a server without one. */
    constructor WithAddress(theAddress: IpAddress?)
      ensures fresh(server) && Valid()
      ensures IPAddress() == theAddress && !IsServerRunning()
      ensures !server.threadStarted && server.lastMessage == None
      ensures hookCalls == 0
    {
      if theAddress != null {
        server := new Ev3TCPServer.WithAddress(theAddress);
      } else {
        server := new Ev3TCPServer();
      }
      hookCalls := 0;
    }

    function IPAddress(): (a: IpAddress?)
      reads this, server
    {
      server.ipAddress
    }

    function IsServerRunning(): (running: bool)
      reads this, server
    {
      server.isRunning
    }

    /** Writes the address through to the server when it differs. */
    method SetIPAddress(value: IpAddress?)
      modifies server
      ensures IPAddress() == value
      ensures server.isRunning == old(server.isRunning) && server.lastMessage == old(server.lastMessage)
      ensures server.threadStarted == old(server.threadStarted) && server.threadParked == old(server.threadParked)
      ensures server.serverStopRequest == old(server.serverStopRequest)
    {
      if server.ipAddress != value {
        server.SetIPAddress(value);
      }
    }

    method Start()
      modifies server
      ensures server.threadStarted
      ensures unchanged(server`isRunning, server`ipAddress, server`lastMessage, server`threadParked, server`serverStopRequest)
    {
      server.Start();
    }

    method Stop()
      requires Valid() && server.threadStarted
      modifies server
      ensures Valid() && !IsServerRunning() && !server.threadParked
      ensures server.threadStarted && server.serverStopRequest
      ensures IPAddress() == old(IPAddress()) && server.lastMessage == old(server.lastMessage)
    {
      server.Stop();
    }

    /** The handler subscribed to the server's change notifications: it
        calls the processing hook once when the changed property is
        LastMessage and does nothing otherwise. */
    method Ev3TCPServerPropertyChanged(propertyName: string)
      modifies this`hookCalls
      ensures hookCalls == old(hookCalls) + (if propertyName == LastMessageName then 1 else 0)
      ensures unchanged(server)
    {
      if propertyName == LastMessageName {
        ProcessLastReceivedMessage();
      }
    }

    /** The default hook does nothing beyond being called. */
    method ProcessLastReceivedMessage()
      modifies this`hookCalls
      ensures hookCalls == old(hookCalls) + 1
      ensures unchanged(server)
    {
      hookCalls := hookCalls + 1;
    }
  }

  /** A robot with an address keeps it, is not running when built, runs once
      the accept loop listens, and stops running after Stop. */
  method RobotStartStop(address: IpAddress)
    returns (addressKept: bool, before: bool, during: bool, after: bool)
    ensures addressKept && !before && during && !after
  {
    var robot := new ConnectedRobot.WithAddress(address);
    addressKept := robot.IPAddress() == address;
    before := robot.IsServerRunning();
    robot.Start();
    robot.server.ServerThread(true, []);
    during := robot.IsServerRunning();
    robot.Stop();
    after := robot.IsServerRunning();
  }

  /** The last message after one Start/Stop cycle: the connections it
      served when its listen succeeded, nothing otherwise. */
  function CycleLast(prev: Option<string>, cycle: (bool, seq<seq<seq<byte>>>)): (last: Option<string>)
  {
    if cycle.0 then AfterConnections(prev, cycle.1) else prev
  }

  /** The last message before cycle `c`: the one the previous cycle left,
      none before the first. */
  function Before(lastEach: seq<Option<string>>, c: nat): (prev: Option<string>)
    requires c <= |lastEach|
  {
    if c == 0 then None else lastEach[c - 1]
  }

  /** Every chunk of every connection fits the receive buffer. */
  predicate ConnectionsFit(connections: seq<seq<seq<byte>>>)
  {
    forall i :: 0 <= i < |connections| ==> ChunksFit(connections[i])
  }

  /** Appending the message a cycle left to the history of earlier ones
      keeps every entry the successor of the one before it. */
  lemma ExtendHistory(lastEach: seq<Option<string>>, cycles: seq<(bool, seq<seq<seq<byte>>>)>, m: Option<string>)
    requires |lastEach| < |cycles|
    requires forall c :: 0 <= c < |lastEach| ==> lastEach[c] == CycleLast(Before(lastEach, c), cycles[c])
    requires m == CycleLast(Before(lastEach, |lastEach|), cycles[|lastEach|])
    ensures forall c :: 0 <= c < |lastEach| + 1 ==>
      (lastEach + [m])[c] == CycleLast(Before(lastEach + [m], c), cycles[c])
  {
  }

  /** One Start/Stop cycle of a robot whose server is stopped: it runs
      while its listen succeeded and is stopped afterwards. */
  method Cycle(robot: ConnectedRobot, listens: bool, connections: seq<seq<seq<byte>>>)
    returns (during: bool, after: bool)
    requires robot.Valid() && robot.IPAddress() != null
    requires !robot.IsServerRunning() && !robot.server.threadParked
    requires ConnectionsFit(connections)
    modifies robot.server
    ensures robot.Valid() && robot.IPAddress() == old(robot.IPAddress())
    ensures !robot.IsServerRunning() && !robot.server.threadParked
    ensures during == listens && !after
    ensures robot.server.lastMessage == CycleLast(old(robot.server.lastMessage), (listens, connections))
  {
    robot.Start();
    robot.server.ServerThread(listens, connections);
    during := robot.IsServerRunning();
    robot.Stop();
    after := robot.IsServerRunning();
  }

  /** Any number of Start/Stop cycles, each serving its own connections,
      ends every cycle not running; a cycle whose listen fails never runs
      and leaves the last message as it was. */
  method RepeatedCycles(address: IpAddress, cycles: seq<(bool, seq<seq<seq<byte>>>)>)
    returns (duringEach: seq<bool>, afterEach: seq<bool>, lastEach: seq<Option<string>>)
    requires forall c :: 0 <= c < |cycles| ==> ConnectionsFit(cycles[c].1)
    ensures |duringEach| == |cycles| && |afterEach| == |cycles| && |lastEach| == |cycles|
    ensures forall c :: 0 <= c < |cycles| ==> duringEach[c] == cycles[c].0 && !afterEach[c]
    ensures forall c :: 0 <= c < |cycles| ==>
      lastEach[c] == CycleLast(Before(lastEach, c), cycles[c])
  {
    var robot := new ConnectedRobot.WithAddress(address);
    duringEach, afterEach, lastEach := [], [], [];
    var i := 0;
    while i < |cycles|
      invariant 0 <= i <= |cycles|
      invariant robot.Valid() && robot.IPAddress() == address
      invariant |duringEach| == i && |afterEach| == i && |lastEach| == i
      invariant forall c :: 0 <= c < i ==> duringEach[c] == cycles[c].0 && !afterEach[c]
      invariant forall c :: 0 <= c < i ==>
        lastEach[c] == CycleLast(Before(lastEach, c), cycles[c])
      invariant robot.server.lastMessage == Before(lastEach, i)
      invariant !robot.IsServerRunning() && !robot.server.threadParked
    {
      var during, after := Cycle(robot, cycles[i].0, cycles[i].1);
      assert during == cycles[i].0 && !after;
      duringEach := duringEach + [during];
      afterEach := afterEach + [after];
      ExtendHistory(lastEach, cycles, robot.server.lastMessage);
      lastEach := lastEach + [robot.server.lastMessage];
      i := i + 1;
    }
  }

  /** The default robot runs its hook for the LastMessage notification and
      for no other. */
  method DispatchScenario() returns (onLastMessage: nat, onIsRunning: nat, onIPAddress: nat)
    ensures onLastMessage == 1 && onIsRunning == 0 && onIPAddress == 0
  {
    var robot := new ConnectedRobot();
    robot.Ev3TCPServerPropertyChanged(LastMessageName);
    onLastMessage := robot.hookCalls;
    robot.Ev3TCPServerPropertyChanged("IsRunning");
    onIsRunning := robot.hookCalls - onLastMessage;
    robot.Ev3TCPServerPropertyChanged("IPAddress");
    onIPAddress := robot.hookCalls - onLastMessage - onIsRunning;
  }

  /** A client's message framed with the sentinel reaches the robot's
      server as its last message, even when split across receives. */
  method ReceiveScenario(address: IpAddress)
    returns (last: Option<string>)
    ensures last == Some("<EOF>A")
  {
    var robot := new ConnectedRobot.WithAddress(address);
    robot.Start();
    SentinelAcrossChunks();
    robot.server.ServerThread(true, [[[60, 69, 79], [70, 62, 0x41]]]);
    last := robot.server.lastMessage;
  }
}
