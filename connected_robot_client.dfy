/** The client that connects to a robot: four observable properties, each
    raising one change notification only when its value changes, the
    connection sequence with its failure path, and the connection guards of
    Send and Receive.

    The socket's behaviour during a connection attempt is a parameter
    (`ConnectOutcome`), and so is the text of the exception it throws. The
    notifications are recorded in `raised`, one name per call of
    RaisePropertyChanged. */
module Ev3Client {
  import opened Net
  import opened Ev3Server

  const IsAttemptingConnectionName: string := "IsAttemptingConnection"
  const IsConnectedName: string := "IsConnected"
  const IPAddressName: string := "IPAddress"
  const LogLineName: string := "LogLine"

  /** The message of the InvalidOperationException thrown by Send and
      Receive when not connected (the two literals are joined without a
      space). */
  const NotConnectedText: string :=
    "The ConnectedRobotClient is not connected to the ConnectedRobot" + "Please connect first"

  const ConnectionFailedText: string := "Connection failed with message:"

  function AttemptText(address: IpAddress): (text: string)
  {
    "Attempting connection to Lego Mindstorms Ev3 Brick at address: " + address.ToString()
  }

  datatype ClientError =
    | InvalidOperation(message: string)
    | ArgumentNull(paramName: string)

  /** What the socket does during StartClient: its constructor throws,
      Connect throws, or Connect returns with the socket's Connected flag. */
  datatype ConnectOutcome = SocketThrows | ConnectThrows | ConnectReturns(connected: bool)

  /** The observable state of a client, with the notifications raised so far. */
  datatype ClientState = ClientState(
    logLine: string,
    isConnected: bool,
    isAttemptingConnection: bool,
    ipAddress: IpAddress?,
    raised: seq<string>)

  /** The notification a guarded setter raises: one carrying its property's
      name exactly when the new value differs from the stored one. */
  function Raised<T(==)>(stored: T, value: T, name: string): (r: seq<string>)
    ensures |r| <= 1
    ensures r != [] <==> stored != value
    ensures forall i :: 0 <= i < |r| ==> r[i] == name
  {
    if stored != value then [name] else []
  }

  function WithLogLine(s: ClientState, value: string): (r: ClientState)
  {
    s.(logLine := value, raised := s.raised + Raised(s.logLine, value, LogLineName))
  }

  function WithIsConnected(s: ClientState, value: bool): (r: ClientState)
  {
    s.(isConnected := value, raised := s.raised + Raised(s.isConnected, value, IsConnectedName))
  }

  function WithIsAttemptingConnection(s: ClientState, value: bool): (r: ClientState)
  {
    s.(isAttemptingConnection := value,
       raised := s.raised + Raised(s.isAttemptingConnection, value, IsAttemptingConnectionName))
  }

  function WithIPAddress(s: ClientState, value: IpAddress?): (r: ClientState)
  {
    s.(ipAddress := value, raised := s.raised + Raised(s.ipAddress, value, IPAddressName))
  }

  /** The catch block of StartClient. */
  function ConnectFailed(s: ClientState, errorText: string): (r: ClientState)
  {
    WithLogLine(WithLogLine(s, ConnectionFailedText), errorText)
  }

  /** StartClient as a state transition. On success the log line announces
      the attempt, IsConnected takes the socket's flag and the attempt flag
      ends false; when Connect throws, the attempt flag stays true and
      IsConnected keeps its old value; when the endpoint or socket cannot be
      created, only the log line changes. The address never changes. */
  function StartClientSpec(s: ClientState, outcome: ConnectOutcome, errorText: string): (r: ClientState)
    ensures r.ipAddress == s.ipAddress
    ensures s.ipAddress != null && outcome.ConnectReturns? ==>
      r.logLine == AttemptText(s.ipAddress) && r.isConnected == outcome.connected
      && !r.isAttemptingConnection
    ensures s.ipAddress != null && outcome.ConnectThrows? ==>
      r.logLine == errorText && r.isConnected == s.isConnected && r.isAttemptingConnection
    ensures s.ipAddress == null || outcome.SocketThrows? ==>
      r.logLine == errorText && r.isConnected == s.isConnected
      && r.isAttemptingConnection == s.isAttemptingConnection
  {
    if s.ipAddress == null || outcome.SocketThrows? then
      ConnectFailed(s, errorText)
    else
      var attempting := WithIsAttemptingConnection(WithLogLine(s, AttemptText(s.ipAddress)), true);
      match outcome
      case ConnectThrows => ConnectFailed(attempting, errorText)
      case ConnectReturns(connected) =>
        WithIsAttemptingConnection(WithIsConnected(attempting, connected), false)
  }

  /** The names StartClient may notify: the three properties it assigns. */
  const StartClientNames: set<string> := {IsAttemptingConnectionName, IsConnectedName, LogLineName}

  /** `after` extends `before` by at most `k` names, each drawn from `names`. */
  ghost predicate AppendsAtMost(before: seq<string>, after: seq<string>, k: nat, names: set<string>)
  {
    before <= after && |after| <= |before| + k
    && forall i :: |before| <= i < |after| ==> after[i] in names
  }

  lemma AppendsNotified<T>(before: seq<string>, stored: T, value: T, name: string, names: set<string>)
    requires name in names
    ensures AppendsAtMost(before, before + Raised(stored, value, name), 1, names)
  {
  }

  lemma AppendsChain(a: seq<string>, b: seq<string>, c: seq<string>, k1: nat, k2: nat, names: set<string>)
    requires AppendsAtMost(a, b, k1, names) && AppendsAtMost(b, c, k2, names)
    ensures AppendsAtMost(a, c, k1 + k2, names)
  {
  }

  /** StartClient only appends to the notifications, at most four of them,
      each naming one of the properties it assigns. */
  lemma StartClientNotifies(s: ClientState, outcome: ConnectOutcome, errorText: string)
    ensures var r := StartClientSpec(s, outcome, errorText);
      s.raised <= r.raised && |r.raised| <= |s.raised| + 4
      && forall i :: |s.raised| <= i < |r.raised| ==> r.raised[i] in StartClientNames
  {
    var r := StartClientSpec(s, outcome, errorText);
    var start := s;
    if s.ipAddress != null && !outcome.SocketThrows? {
      var l := WithLogLine(s, AttemptText(s.ipAddress));
      AppendsNotified(s.raised, s.logLine, AttemptText(s.ipAddress), LogLineName, StartClientNames);
      start := WithIsAttemptingConnection(l, true);
      AppendsNotified(l.raised, l.isAttemptingConnection, true, IsAttemptingConnectionName, StartClientNames)
        by { assert IsAttemptingConnectionName in StartClientNames; }
      assert start.raised == l.raised + Raised(l.isAttemptingConnection, true, IsAttemptingConnectionName);
      AppendsChain(s.raised, l.raised, start.raised, 1, 1, StartClientNames);
    } else {
      assert AppendsAtMost(s.raised, start.raised, 2, StartClientNames);
    }
    if outcome.ConnectReturns? && s.ipAddress != null {
      var c := WithIsConnected(start, outcome.connected);
      AppendsNotified(start.raised, start.isConnected, outcome.connected, IsConnectedName, StartClientNames);
      AppendsNotified(c.raised, c.isAttemptingConnection, false, IsAttemptingConnectionName, StartClientNames);
      assert r.raised == c.raised + Raised(c.isAttemptingConnection, false, IsAttemptingConnectionName);
      AppendsChain(start.raised, c.raised, r.raised, 1, 1, StartClientNames);
    } else {
      var f := WithLogLine(start, ConnectionFailedText);
      AppendsNotified(start.raised, start.logLine, ConnectionFailedText, LogLineName, StartClientNames);
      AppendsNotified(f.raised, f.logLine, errorText, LogLineName, StartClientNames);
      assert r.raised == f.raised + Raised(f.logLine, errorText, LogLineName);
      AppendsChain(start.raised, f.raised, r.raised, 1, 1, StartClientNames);
    }
    AppendsChain(s.raised, start.raised, r.raised, 2, 2, StartClientNames);
  }

  /** From a freshly constructed client, a successful connection raises the
      four notifications in the order of the assignments. */
  lemma FirstConnectNotifications(address: IpAddress, errorText: string)
    ensures StartClientSpec(ClientState("", false, false, address, []), ConnectReturns(true), errorText).raised
         == [LogLineName, IsAttemptingConnectionName, IsConnectedName, IsAttemptingConnectionName]
  {
    assert AttemptText(address) != "";
  }

  /** From a freshly constructed client, a failed attempt writes the log
      line twice, first the fixed failure text and then the exception's
      text, each raising LogLine when it changes the line. A throw at
      Connect comes after the attempt was announced; a throw while the
      endpoint or socket is created comes before anything else. */
  lemma FailedConnectNotifications(address: IpAddress, errorText: string)
    ensures StartClientSpec(ClientState("", false, false, address, []), ConnectThrows, errorText).raised
         == [LogLineName, IsAttemptingConnectionName, LogLineName]
            + Raised(ConnectionFailedText, errorText, LogLineName)
    ensures StartClientSpec(ClientState("", false, false, address, []), SocketThrows, errorText).raised
         == [LogLineName] + Raised(ConnectionFailedText, errorText, LogLineName)
  {
    assert |AttemptText(address)| > |ConnectionFailedText|;
  }

  /** After a failed Connect the attempt flag is stuck at true; the next
      successful attempt clears it, raising IsAttemptingConnection only once. */
  lemma {:induction false} ReconnectClearsAttempt(s: ClientState, e1: string, e2: string)
    requires s.ipAddress != null && !s.isConnected && !s.isAttemptingConnection
    ensures var failed := StartClientSpec(s, ConnectThrows, e1);
      var retried := StartClientSpec(failed, ConnectReturns(true), e2);
      failed.isAttemptingConnection && !failed.isConnected
      && !retried.isAttemptingConnection && retried.isConnected
      && retried.raised[|failed.raised|..] ==
           Raised(failed.logLine, AttemptText(s.ipAddress), LogLineName)
           + [IsConnectedName, IsAttemptingConnectionName]
  {
    var failed := StartClientSpec(s, ConnectThrows, e1);
    var a := WithIsAttemptingConnection(WithLogLine(failed, AttemptText(s.ipAddress)), true);
    assert a.raised == failed.raised + Raised(failed.logLine, AttemptText(s.ipAddress), LogLineName);
    var c := WithIsConnected(a, true);
    assert c.raised == a.raised + [IsConnectedName];
    var retried := WithIsAttemptingConnection(c, false);
    assert retried.raised == failed.raised + Raised(failed.logLine, AttemptText(s.ipAddress), LogLineName)
                             + [IsConnectedName, IsAttemptingConnectionName];
  }

  class ConnectedRobotClient {
    var logLine: string
    var isConnected: bool
    var isAttemptingConnection: bool
    var ipAddress: IpAddress?
    /** Property names passed to RaisePropertyChanged, oldest first. */
    var raised: seq<string>

    function State(): (s: ClientState)
      reads this
    {
      ClientState(logLine, isConnected, isAttemptingConnection, ipAddress, raised)
    }

    /** Default constructor: init() sets an empty log line, not connected,
        and a new 127.0.0.1 address; nothing is notified. */
    constructor ()
      ensures logLine == "" && !isConnected && !isAttemptingConnection && raised == []
      ensures fresh(ipAddress) && ipAddress.octets == Loopback
    {
      logLine := "";
      isConnected := false;
      isAttemptingConnection := false;
      ipAddress := new IpAddress(Loopback);
      raised := [];
    }

    /** init() followed by the IPAddress setter. The given address is never
        the object init() just created, so "IPAddress" is notified. */
    constructor WithAddress(withRobotAddress: IpAddress)
      ensures State() == ClientState("", false, false, withRobotAddress, [IPAddressName])
    {
      logLine := "";
      isConnected := false;
      isAttemptingConnection := false;
      ipAddress := new IpAddress(Loopback);
      raised := [];
      new;
      SetIPAddress(withRobotAddress);
    }

    /** The address constructor: a null address throws
        ArgumentNullException before any field is initialised. */
    static method New(withRobotAddress: IpAddress?) returns (r: Result<ConnectedRobotClient, ClientError>)
      ensures r.Failure? <==> withRobotAddress == null
      ensures r.Failure? ==> r.error == ArgumentNull("withRobotAddress cannot be null")
      ensures r.Success? ==>
        fresh(r.value) && r.value.State() == ClientState("", false, false, withRobotAddress, [IPAddressName])
    {
      if withRobotAddress == null {
        r := Failure(ArgumentNull("withRobotAddress cannot be null"));
      } else {
        var client := new ConnectedRobotClient.WithAddress(withRobotAddress);
        r := Success(client);
      }
    }

    method RaisePropertyChanged(propertyName: string)
      modifies this`raised
      ensures raised == old(raised) + [propertyName]
    {
      raised := raised + [propertyName];
    }

    method SetIsAttemptingConnection(value: bool)
      modifies this
      ensures State() == WithIsAttemptingConnection(old(State()), value)
    {
      if isAttemptingConnection != value {
        isAttemptingConnection := value;
        RaisePropertyChanged(IsAttemptingConnectionName);
      }
    }

    method SetIsConnected(value: bool)
      modifies this
      ensures State() == WithIsConnected(old(State()), value)
    {
      if isConnected != value {
        isConnected := value;
        RaisePropertyChanged(IsConnectedName);
      }
    }

    method SetIPAddress(value: IpAddress?)
      modifies this
      ensures State() == WithIPAddress(old(State()), value)
    {
      if ipAddress != value {
        ipAddress := value;
        RaisePropertyChanged(IPAddressName);
      }
    }

    method SetLogLine(value: string)
      modifies this
      ensures State() == WithLogLine(old(State()), value)
    {
      if logLine != value {
        logLine := value;
        RaisePropertyChanged(LogLineName);
      }
    }

    method Connect(outcome: ConnectOutcome, errorText: string)
      modifies this
      ensures State() == StartClientSpec(old(State()), outcome, errorText)
    {
      StartClient(outcome, errorText);
    }

    /** Only clears IsConnected, notifying only if it was set. */
    method Disconnect()
      modifies this
      ensures State() == old(State()).(isConnected := false,
        raised := old(raised) + if old(isConnected) then [IsConnectedName] else [])
    {
      SetIsConnected(false);
    }

    /** Throws InvalidOperationException unless connected; otherwise the
        encoded message is written to the socket. */
    method Send(thisMessage: RobotMessage) returns (r: Outcome<ClientError>)
      ensures r.Fail? <==> !isConnected
      ensures r.Fail? ==> r.error == InvalidOperation(NotConnectedText)
    {
      if !isConnected {
        r := Fail(InvalidOperation(NotConnectedText));
      } else {
        r := Pass;
      }
    }

    /** Throws InvalidOperationException unless connected; otherwise returns
        the message the received bytes decode to (`decoded`). */
    method Receive(decoded: RobotMessage) returns (r: Result<RobotMessage, ClientError>)
      ensures r.Failure? <==> !isConnected
      ensures r.Failure? ==> r.error == InvalidOperation(NotConnectedText)
      ensures r.Success? ==> r.value == decoded
    {
      if !isConnected {
        r := Failure(InvalidOperation(NotConnectedText));
      } else {
        r := Success(decoded);
      }
    }

    method StartClient(outcome: ConnectOutcome, errorText: string)
      modifies this
      ensures State() == StartClientSpec(old(State()), outcome, errorText)
    {
      var threw := true;
      // new IPEndPoint(ipAddress, port) throws on a null address.
      if ipAddress != null && !outcome.SocketThrows? {
        SetLogLine(AttemptText(ipAddress));
        SetIsAttemptingConnection(true);
        if outcome.ConnectReturns? {
          if outcome.connected {
            SetIsConnected(true);
          } else {
            SetIsConnected(false);
          }
          SetIsAttemptingConnection(false);
          threw := false;
        }
      }
      if threw {
        SetLogLine(ConnectionFailedText);
        SetLogLine(errorText);
      }
    }
  }

  /** A client built with an address, connected successfully: the address
      notification of the constructor, then the four of StartClient. */
  method ConnectScenario(address: IpAddress, errorText: string)
    returns (raised: seq<string>, connected: bool, attempting: bool, log: string)
    ensures raised == [IPAddressName, LogLineName, IsAttemptingConnectionName,
                       IsConnectedName, IsAttemptingConnectionName]
    ensures connected && !attempting && log == AttemptText(address)
  {
    var client := new ConnectedRobotClient.WithAddress(address);
    client.Connect(ConnectReturns(true), errorText);
    FirstConnectNotifications(address, errorText);
    raised, connected, attempting, log :=
      client.raised, client.isConnected, client.isAttemptingConnection, client.logLine;
  }

  /** A Send or Receive before any connection fails and leaves the client
      untouched. */
  method GuardScenario(message: RobotMessage) returns (sent: Outcome<ClientError>, received: Result<RobotMessage, ClientError>)
    ensures sent == Fail(InvalidOperation(NotConnectedText))
    ensures received == Failure(InvalidOperation(NotConnectedText))
  {
    var client := new ConnectedRobotClient();
    sent := client.Send(message);
    received := client.Receive(message);
  }

  /** The address setter compares references: a different object holding
      the same octets still counts as a change and is notified. */
  method SameOctetsScenario() returns (raised: seq<string>)
    ensures raised == [IPAddressName]
  {
    var client := new ConnectedRobotClient();
    var again := new IpAddress(Loopback);
    client.SetIPAddress(again);
    raised := client.raised;
  }
}
