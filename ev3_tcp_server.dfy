/** The robot-side TCP server: the message's sender tag, the per-connection
    receive state and the server object with its start/stop flags, its
    accept loop and its receive callback.

    Sockets and threads are replaced by parameters: whether Bind and Listen
    succeed, and the sequence of connections the accept loop is woken for,
    each given as the chunks its socket delivers. The server thread is
    described by two flags: `threadStarted` (a thread object exists) and
    `threadParked` (its accept loop is alive, waiting for the next
    connection). */
module Ev3Server {
  import opened Net
  import opened Framing

  /** Who sent a message. */
  datatype Sender = FromClient | FromRobot | Undefined

  /** The base message exchanged between robot and client. */
  class RobotMessage {
    var sender: Sender

    constructor ()
      ensures sender == Undefined
    {
      sender := Undefined;
    }

    method SetSender(value: Sender)
      modifies this
      ensures sender == value
    {
      if sender != value {
        sender := value;
      }
    }
  }

  /** Receive state of one accepted connection: the fixed receive buffer
      and the text accumulated so far. */
  class StateObject {
    const buffer: array<byte>
    var sb: string

    constructor ()
      ensures fresh(buffer) && buffer.Length == BufferSize && sb == ""
    {
      buffer := new byte[BufferSize];
      sb := "";
    }
  }

  /** Stands in for the socket's EndReceive: the received bytes land at the
      start of the buffer and their count is returned. */
  method EndReceive(state: StateObject, data: seq<byte>) returns (bytesRead: nat)
    requires |data| <= state.buffer.Length
    modifies state.buffer
    ensures bytesRead == |data| && state.buffer[..bytesRead] == data
  {
    forall i | 0 <= i < |data| {
      state.buffer[i] := data[i];
    }
    bytesRead := |data|;
  }

  class Ev3TCPServer {
    var serverStopRequest: bool
    var isRunning: bool
    var ipAddress: IpAddress?
    /** The auto-property LastMessage; None is its initial null. */
    var lastMessage: Option<string>
    /** serverThread != null: Start has been called. */
    var threadStarted: bool
    /** The server thread is inside its accept loop, blocked until the next
        connection or a stop request. */
    var threadParked: bool

    /** The running flag is true exactly while the accept loop is alive. */
    ghost predicate Valid()
      reads this
    {
      (isRunning <==> threadParked) && (threadParked ==> threadStarted)
    }

    constructor ()
      ensures Valid() && !isRunning && ipAddress == null && lastMessage == None
      ensures !threadStarted && !serverStopRequest
    {
      isRunning := false;
      ipAddress := null;
      lastMessage := None;
      serverStopRequest := false;
      threadStarted := false;
      threadParked := false;
    }

    constructor WithAddress(withIPAddress: IpAddress?)
      ensures Valid() && !isRunning && ipAddress == withIPAddress && lastMessage == None
      ensures !threadStarted && !serverStopRequest
    {
      isRunning := false;
      ipAddress := null;
      lastMessage := None;
      serverStopRequest := false;
      threadStarted := false;
      threadParked := false;
      new;
      SetIPAddress(withIPAddress);
    }

    method SetIPAddress(value: IpAddress?)
      modifies this`ipAddress
      ensures ipAddress == value
    {
      if ipAddress != value {
        ipAddress := value;
      }
    }

    method SetIsRunning(value: bool)
      modifies this`isRunning
      ensures isRunning == value
    {
      if isRunning != value {
        isRunning := value;
      }
    }

    /** Creates the server thread; its body is ServerThread. */
    method Start()
      modifies this`threadStarted
      ensures threadStarted
    {
      threadStarted := true;
    }

    /** The body of the server thread, run until its accept loop parks after
        the given connections. A null address would make the endpoint
        constructor throw outside the try block. */
    method ServerThread(listenSucceeds: bool, connections: seq<seq<seq<byte>>>)
      requires Valid() && threadStarted && !threadParked
      requires ipAddress != null
      requires forall i :: 0 <= i < |connections| ==> ChunksFit(connections[i])
      modifies this
      ensures Valid() && threadStarted && !serverStopRequest
      ensures isRunning == listenSucceeds && threadParked == listenSucceeds
      ensures ipAddress == old(ipAddress)
      ensures lastMessage == if listenSucceeds then AfterConnections(old(lastMessage), connections)
                             else old(lastMessage)
    {
      serverStopRequest := false;
      if !listenSucceeds {
        // Bind or Listen threw: the catch block only reports the exception.
        return;
      }
      SetIsRunning(true);
      var i := 0;
      // The source's guard; nothing in this sequential trace sets the
      // request while the loop runs, so only the connections bound it.
      while !serverStopRequest && i < |connections|
        invariant 0 <= i <= |connections|
        invariant !serverStopRequest && isRunning && threadStarted && !threadParked
        invariant ipAddress == old(ipAddress)
        invariant AfterConnections(old(lastMessage), connections) == AfterConnections(lastMessage, connections[i..])
        decreases |connections| - i
      {
        assert connections[i..][0] == connections[i] && connections[i..][1..] == connections[i + 1..];
        var readCount := ServeConnection(connections[i]);
        i := i + 1;
      }
      // BeginAccept issued again; the thread now waits on allDone.
      threadParked := true;
    }

    /** Signals the stop request and, through allDone, wakes a parked accept
        loop, which then leaves; returns once the thread has ended (Join). */
    method Stop()
      requires Valid() && threadStarted
      modifies this
      ensures Valid() && threadStarted && serverStopRequest
      ensures !isRunning && !threadParked
      ensures ipAddress == old(ipAddress) && lastMessage == old(lastMessage)
    {
      serverStopRequest := true;
      if threadParked {
        LeaveAcceptLoop();
      }
    }

    /** What the woken accept loop does once it sees the stop request: it
        closes the listener and clears the running flag. */
    method LeaveAcceptLoop()
      requires serverStopRequest && threadParked
      modifies this`isRunning, this`threadParked
      ensures !isRunning && !threadParked
    {
      SetIsRunning(false);
      threadParked := false;
    }

    /** A fresh receive state for each accepted connection. */
    method AcceptCallback() returns (state: StateObject)
      ensures fresh(state) && fresh(state.buffer)
      ensures state.buffer.Length == BufferSize && state.sb == ""
    {
      state := new StateObject();
    }

    /** One completed receive of `bytesRead` bytes held in the buffer;
        `readAgain` says whether another receive was issued. */
    method ReadCallback(state: StateObject, bytesRead: nat) returns (readAgain: bool)
      requires bytesRead <= state.buffer.Length
      modifies this`lastMessage, state
      ensures var r := ReadStep(old(state.sb), state.buffer[..bytesRead]);
        state.sb == r.acc && readAgain == r.readAgain
        && lastMessage == if r.published then Some(r.acc) else old(lastMessage)
    {
      readAgain := false;
      if bytesRead > 0 {
        state.sb := state.sb + AsciiDecode(state.buffer[..bytesRead]);
        var content := state.sb;
        lastMessage := Some(content);
        if IndexOf(content, EofTag) > -1 {
          lastMessage := Some(content);
        } else {
          readAgain := true;
        }
      }
    }

    /** One accepted connection: AcceptCallback and the chain of
        ReadCallbacks it starts, fed with the chunks the socket delivers. */
    method ServeConnection(chunks: seq<seq<byte>>) returns (readCount: nat)
      requires ChunksFit(chunks)
      modifies this`lastMessage
      ensures var r := Session("", chunks, old(lastMessage));
        lastMessage == r.lastMessage && readCount == r.readCount
    {
      var state := AcceptCallback();
      var pending := true;
      readCount := 0;
      while pending && readCount < |chunks|
        invariant readCount <= |chunks|
        invariant fresh(state) && fresh(state.buffer) && state.buffer.Length == BufferSize
        invariant pending ==>
          var rest := Session(state.sb, chunks[readCount..], lastMessage);
          Session("", chunks, old(lastMessage)) == rest.(readCount := rest.readCount + readCount)
        invariant !pending ==>
          Session("", chunks, old(lastMessage)) == SessionOutcome(state.sb, readCount, false, lastMessage)
        decreases |chunks| - readCount
      {
        assert chunks[readCount..][0] == chunks[readCount];
        assert chunks[readCount..][1..] == chunks[readCount + 1..];
        var bytesRead := EndReceive(state, chunks[readCount]);
        pending := ReadCallback(state, bytesRead);
        readCount := readCount + 1;
      }
      assert pending ==> chunks[readCount..] == [];
    }
  }

  /** A new message is Undefined; the setter stores each sender, which
      reads back. */
  method SenderProperty() returns (initial: Sender, client: Sender, robot: Sender, undefined: Sender)
    ensures initial == Undefined && client == FromClient && robot == FromRobot && undefined == Undefined
  {
    var message := new RobotMessage();
    initial := message.sender;
    message.SetSender(FromClient);
    client := message.sender;
    message.SetSender(FromRobot);
    robot := message.sender;
    message.SetSender(Undefined);
    undefined := message.sender;
  }

  /** A server with an address is not running after construction, runs once
      its accept loop listens, and is not running after Stop. */
  method StartStopServer(address: IpAddress, connections: seq<seq<seq<byte>>>)
    returns (before: bool, during: bool, after: bool, addressKept: bool)
    requires forall i :: 0 <= i < |connections| ==> ChunksFit(connections[i])
    ensures !before && during && !after && addressKept
  {
    var server := new Ev3TCPServer.WithAddress(address);
    before := server.isRunning;
    server.Start();
    server.ServerThread(true, connections);
    during := server.isRunning;
    server.Stop();
    after := server.isRunning;
    addressKept := server.ipAddress == address;
  }
}
