# Ev3ControlLib core, modelled in Dafny

This project models the core of Ev3ControlLib. In that system a robot hosts a TCP server on port 11000, and a controller connects to it as a client. It has three parts:

- **The TCP server** (`Ev3TCPServer`, module `Ev3Server`).
  - `isRunning` is false after construction. It becomes true once Bind and Listen succeed, and false again when the accept loop leaves after `Stop`. `serverStopRequest` is cleared when the server thread starts and set by `Stop`.
  - Each accepted connection gets a fresh `StateObject`: a 1024-byte buffer and an empty accumulation.
  - Each receive of `bytesRead > 0` bytes appends the ASCII decoding of those bytes to the accumulation. `LastMessage` is then overwritten with the whole accumulation.
  - Another receive is issued only while the accumulation does not contain `<EOF>`. A receive of zero bytes ends the chain and changes nothing.
  - The framing rule is stated as pure functions in module `Framing` (`ReadStep`, `Session`, `AfterConnections`). The class methods are proved equal to them, and the lemmas about the rule are proved about those functions.
- **The client** (`ConnectedRobotClient`, module `Ev3Client`).
  - It has four observable properties: `IsConnected`, `IsAttemptingConnection`, `IPAddress` and `LogLine`. Their guarded setters call `RaisePropertyChanged` with the property's name only when the value changes. The field `raised` records every such call, in order.
  - `StartClient` runs a fixed sequence of assignments. On its exception path the catch block sets `LogLine` twice, first to "Connection failed with message:" and then to the exception's text.
  - `Send` and `Receive` refuse to run when the client is not connected.
  - The address constructor rejects a null address.
  - `StartClientSpec` gives the connection sequence as a function on `ClientState`.
- **The robot facade** (`ConnectedRobot`, module `Ev3Robot`). It embeds one server and passes its address and running flag through. `Start` and `Stop` are delegated to the server. A notification named `LastMessage`, and no other, calls the processing hook once. The field `hookCalls` counts those calls. The default hook does nothing else.

Sockets, threads and the environment become parameters:

- whether Bind and Listen succeed (`listenSucceeds`);
- the connections the accept loop is woken for, each given as the chunks its socket delivers;
- how the client's connection attempt ends (`ConnectOutcome`), together with the exception text;
- the message a `Receive` decodes to.

The server thread is described by two fields. `threadStarted` stands for `serverThread != null`. `threadParked` means the accept loop is alive and blocked waiting for the next connection. `ServerThread` runs the thread body until the loop parks. `Stop` sets the request and, when the loop is parked, runs the loop's exit, which stands for `allDone.Set()` followed by `Join()`. `Ev3TCPServer.Valid()` states that `isRunning` holds exactly while the loop is parked.

Behaviour of the code that the model keeps:

- When Connect throws, `IsAttemptingConnection` stays true and `IsConnected` keeps its old value. The code does not set `IsConnected` to false on a failed attempt.
- A null address in `ServerThread` throws at the endpoint constructor. That line lies outside the try block, so the model requires a non-null address. The same holds for `Stop` before any `Start`: `Stop` requires `threadStarted`.
- `IPAddress` setters compare references, so a second address object with the same octets still counts as a change.
- The client's address constructor calls the `IPAddress` setter after `init()`, so it records one `IPAddress` notification. No handler can be attached yet at that point.
- `LastMessage` is published after every non-empty receive, before the `<EOF>` check. A message is therefore visible both while it is partial and once it is complete.

## Model

| member | source | states |
|---|---|---|
| `Ev3Server.RobotMessage.constructor` | SmallRobots.Ev3ControlLib/Ev3TCPServer.cs:90-94 | A new message's sender is `Undefined`. |
| `Ev3Server.RobotMessage.SetSender` | SmallRobots.Ev3ControlLib/Ev3TCPServer.cs:76-82 | After the setter the sender is the assigned value, for each of the three values. |
| `Ev3Server.SenderProperty` | Ev3ControLib_UnitTest/Ev3TCPServer_UnitTest.cs:182-196 | A new message reads back `Undefined`. Setting FromClient, FromRobot and then Undefined reads back each value in turn. |
| `Ev3Server.StateObject.constructor` | SmallRobots.Ev3ControlLib/Ev3TCPServer.cs:136-146 | The receive state has a fresh buffer of exactly 1024 bytes and an empty accumulation. |
| `Ev3Server.EndReceive` | SmallRobots.Ev3ControlLib/Ev3TCPServer.cs:334 | Stands for the socket. The received bytes land at the start of the buffer, and their count is `bytesRead`. |
| `Ev3Server.Ev3TCPServer.constructor` | SmallRobots.Ev3ControlLib/Ev3TCPServer.cs:227-248 | The default server is not running, has no address and no last message, and has no thread. |
| `Ev3Server.Ev3TCPServer.WithAddress` | SmallRobots.Ev3ControlLib/Ev3TCPServer.cs:233-239 | The address server is not running and holds exactly the given address. |
| `Ev3Server.Ev3TCPServer.SetIPAddress` | SmallRobots.Ev3ControlLib/Ev3TCPServer.cs:190-196 | The getter returns the last assigned address, and nothing else changes. |
| `Ev3Server.Ev3TCPServer.SetIsRunning` | SmallRobots.Ev3ControlLib/Ev3TCPServer.cs:208-214 | The running flag takes the assigned value, and nothing else changes. |
| `Ev3Server.Ev3TCPServer.Start` | SmallRobots.Ev3ControlLib/Ev3TCPServer.cs:401-405 | A server thread exists afterwards. |
| `Ev3Server.Ev3TCPServer.ServerThread` | SmallRobots.Ev3ControlLib/Ev3TCPServer.cs:255-306 | The stop request is cleared on entry. The server runs, and its loop parks, iff Bind and Listen succeed; a failure leaves it not running. The last message equals `AfterConnections` over the served connections. The address is unchanged. |
| `Ev3Server.Ev3TCPServer.Stop` | SmallRobots.Ev3ControlLib/Ev3TCPServer.cs:407-415 | Requires a started thread. Afterwards the request is set, the loop has exited and the server is not running. The address and last message are unchanged. |
| `Ev3Server.Ev3TCPServer.LeaveAcceptLoop` | SmallRobots.Ev3ControlLib/Ev3TCPServer.cs:293-299 | On leaving the loop, the running flag becomes false. |
| `Ev3Server.Ev3TCPServer.AcceptCallback` | SmallRobots.Ev3ControlLib/Ev3TCPServer.cs:308-322 | Each accepted connection gets a fresh state object with an empty accumulation and a fresh 1024-byte buffer. |
| `Ev3Server.Ev3TCPServer.ReadCallback` | SmallRobots.Ev3ControlLib/Ev3TCPServer.cs:324-363 | The accumulation, the last message and whether another receive is issued all agree with `ReadStep` on the old accumulation and the bytes read. |
| `Ev3Server.Ev3TCPServer.ServeConnection` | SmallRobots.Ev3ControlLib/Ev3TCPServer.cs:318-361 | The accept callback followed by its chain of receive callbacks. The last message and the number of reads equal `Session` from an empty accumulation. |
| `Ev3Server.StartStopServer` | Ev3ControLib_UnitTest/Ev3TCPServer_UnitTest.cs:117-165 | An address server is not running before Start, runs once its loop listens, and is not running after Stop. It keeps its address throughout. |
| `Framing.AsciiChar` | SmallRobots.Ev3ControlLib/Ev3TCPServer.cs:339-340 | ASCII decoding keeps bytes below 128 and maps every other byte to '?'. The result is always ASCII. |
| `Framing.AsciiDecode` | SmallRobots.Ev3ControlLib/Ev3TCPServer.cs:339-340 | One character per byte, each the ASCII decoding of that byte. |
| `Framing.IndexFrom` | SmallRobots.Ev3ControlLib/Ev3TCPServer.cs:346 | The result is -1 or a match at or after `k`, and there is no earlier match from `k` on. |
| `Framing.IndexOf` | SmallRobots.Ev3ControlLib/Ev3TCPServer.cs:346 | Returns the first occurrence of the pattern. It is negative iff the pattern occurs nowhere. |
| `Framing.EofPersists` | SmallRobots.Ev3ControlLib/Ev3TCPServer.cs:339-346 | Once the accumulation holds `<EOF>`, every extension of it still does. |
| `Framing.ReadStep` | SmallRobots.Ev3ControlLib/Ev3TCPServer.cs:336-361 | An empty read changes nothing, publishes nothing and schedules nothing. A non-empty read appends exactly the decoded chunk and publishes. Another read is scheduled iff bytes were read and the accumulation has no `<EOF>`. |
| `Framing.Session` | SmallRobots.Ev3ControlLib/Ev3TCPServer.cs:320-361 | The chain never reads more chunks than delivered. If chunks are left unread, no receive is pending. |
| `Framing.SessionAccumulates` | SmallRobots.Ev3ControlLib/Ev3TCPServer.cs:339-345 | The accumulation is the old accumulation followed by the decodings of exactly the chunks read, in order. |
| `Framing.SessionGrows` | SmallRobots.Ev3ControlLib/Ev3TCPServer.cs:339-340 | The old accumulation is always a prefix of the new one. |
| `Framing.SessionReadsAgain` | SmallRobots.Ev3ControlLib/Ev3TCPServer.cs:346-361 | Every read but the last of the chain brought data and left no `<EOF>` in the accumulation. |
| `Framing.SessionStopsIff` | SmallRobots.Ev3ControlLib/Ev3TCPServer.cs:336-361 | The chain has stopped iff its last read was empty or the accumulation holds `<EOF>`. |
| `Framing.SessionLastMessage` | SmallRobots.Ev3ControlLib/Ev3TCPServer.cs:344-354 | The last message becomes the whole accumulation once any byte arrived. Otherwise it is the previous last message. |
| `Framing.SessionBounded` | SmallRobots.Ev3ControlLib/Ev3TCPServer.cs:141-143 | With every chunk within the 1024-byte buffer, each read adds at most 1024 characters. |
| `Framing.SessionIgnoresLast` | SmallRobots.Ev3ControlLib/Ev3TCPServer.cs:318-321 | The accumulation, read count and pending flag of a connection do not depend on earlier messages, so framing state never carries over. |
| `Framing.SentinelAcrossChunks` | SmallRobots.Ev3ControlLib/Ev3TCPServer.cs:339-361 | A sentinel split across two receives ("<EO", "F>A") is found after the second one, and the chain stops there. |
| `Framing.LastConnectionWins` | SmallRobots.Ev3ControlLib/Ev3TCPServer.cs:318-345 | If the most recent connection brought data, the last message is exactly its accumulation, whatever earlier connections sent. |
| `Ev3Client.Raised` | SmallRobots.Ev3ControlLib/ConnectedRobotClient.cs:108-172 | A guarded setter raises at most one notification, carrying its own property's name, and raises one iff the new value differs from the stored one. |
| `Ev3Client.ConnectedRobotClient.RaisePropertyChanged` | SmallRobots.Ev3ControlLib/ConnectedRobotClient.cs:229-234 | Appends exactly the given name to the notifications. |
| `Ev3Client.ConnectedRobotClient.SetIsAttemptingConnection` | SmallRobots.Ev3ControlLib/ConnectedRobotClient.cs:108-115 | Stores the value. Appends "IsAttemptingConnection" iff it changed. Nothing else changes. |
| `Ev3Client.ConnectedRobotClient.SetIsConnected` | SmallRobots.Ev3ControlLib/ConnectedRobotClient.cs:127-134 | Stores the value. Appends "IsConnected" iff it changed. Nothing else changes. |
| `Ev3Client.ConnectedRobotClient.SetIPAddress` | SmallRobots.Ev3ControlLib/ConnectedRobotClient.cs:146-153 | Stores the address. Appends "IPAddress" iff the reference differs. Nothing else changes. |
| `Ev3Client.ConnectedRobotClient.SetLogLine` | SmallRobots.Ev3ControlLib/ConnectedRobotClient.cs:165-172 | Stores the text. Appends "LogLine" iff it differs. Nothing else changes. |
| `Ev3Client.ConnectedRobotClient.constructor` | SmallRobots.Ev3ControlLib/ConnectedRobotClient.cs:180-216 | Empty log line, not connected, not attempting, a new 127.0.0.1 address, and no notification. |
| `Ev3Client.ConnectedRobotClient.WithAddress` | SmallRobots.Ev3ControlLib/ConnectedRobotClient.cs:191-203 | The initial state with the given address stored, and exactly one "IPAddress" notification. |
| `Ev3Client.ConnectedRobotClient.New` | SmallRobots.Ev3ControlLib/ConnectedRobotClient.cs:191-203 | Construction fails with ArgumentNull iff the address is null. Otherwise it yields a fresh client in the state of `WithAddress`. |
| `Ev3Client.StartClientSpec` | SmallRobots.Ev3ControlLib/ConnectedRobotClient.cs:339-372 | The three paths: success, a throw at Connect, and a throw before the first assignment. Each states the resulting log line, `IsConnected` and `IsAttemptingConnection`. The address never changes. |
| `Ev3Client.StartClientNotifies` | SmallRobots.Ev3ControlLib/ConnectedRobotClient.cs:351-371 | StartClient only appends notifications, at most four, each one of the properties it assigns. |
| `Ev3Client.FirstConnectNotifications` | SmallRobots.Ev3ControlLib/ConnectedRobotClient.cs:351-364 | From the initial state, a successful connect raises LogLine, IsAttemptingConnection, IsConnected, IsAttemptingConnection, in that order. |
| `Ev3Client.FailedConnectNotifications` | SmallRobots.Ev3ControlLib/ConnectedRobotClient.cs:366-371 | From the initial state, the catch block raises LogLine for the fixed failure text and then again for the exception's text, if that differs. A throw at Connect comes after the LogLine and IsAttemptingConnection of the announcement. A throw while the endpoint or socket is created comes before any other notification. |
| `Ev3Client.ReconnectClearsAttempt` | SmallRobots.Ev3ControlLib/ConnectedRobotClient.cs:351-371 | A throw at Connect leaves the attempt flag true. The next successful attempt clears it, and IsAttemptingConnection is raised only once on that attempt. |
| `Ev3Client.ConnectedRobotClient.StartClient` | SmallRobots.Ev3ControlLib/ConnectedRobotClient.cs:339-372 | The new state and notifications equal `StartClientSpec` of the old ones. |
| `Ev3Client.ConnectedRobotClient.Connect` | SmallRobots.Ev3ControlLib/ConnectedRobotClient.cs:241-246 | Same effect as StartClient. |
| `Ev3Client.ConnectedRobotClient.Disconnect` | SmallRobots.Ev3ControlLib/ConnectedRobotClient.cs:251-254 | Only clears IsConnected. It notifies only if the client was connected, and every other field is unchanged. |
| `Ev3Client.ConnectedRobotClient.Send` | SmallRobots.Ev3ControlLib/ConnectedRobotClient.cs:260-271 | Fails with InvalidOperation, carrying the source's message, iff the client is not connected. It changes no state. |
| `Ev3Client.ConnectedRobotClient.Receive` | SmallRobots.Ev3ControlLib/ConnectedRobotClient.cs:273-296 | Fails with InvalidOperation iff the client is not connected. Otherwise it returns the decoded message. It changes no state. |
| `Ev3Client.ConnectScenario` | Ev3ControLib_UnitTest/ConnectedRobotClient_UnitTest.cs:85-98 | A client built with an address and connected successfully has the notification sequence IPAddress, LogLine, IsAttemptingConnection, IsConnected, IsAttemptingConnection. It has connected and is not attempting. |
| `Ev3Client.GuardScenario` | SmallRobots.Ev3ControlLib/ConnectedRobotClient.cs:262-284 | On a new client, both Send and Receive fail with InvalidOperation. |
| `Ev3Client.SameOctetsScenario` | SmallRobots.Ev3ControlLib/ConnectedRobotClient.cs:148-152 | Assigning a distinct address object with the same octets is notified, because `!=` compares references. |
| `Ev3Robot.ConnectedRobot.constructor` | SmallRobots.Ev3ControlLib/ConnectedRobot.cs:98-132 | Creates a fresh server with no address that is not running. |
| `Ev3Robot.ConnectedRobot.WithAddress` | SmallRobots.Ev3ControlLib/ConnectedRobot.cs:109-132 | Creates a fresh server holding the given address, or no address when it is null, which is not running. |
| `Ev3Robot.ConnectedRobot.SetIPAddress` | SmallRobots.Ev3ControlLib/ConnectedRobot.cs:84-90 | Writes through to the server, so the getter returns the assigned value. No other server field changes. |
| `Ev3Robot.ConnectedRobot.Start` | SmallRobots.Ev3ControlLib/ConnectedRobot.cs:139-143 | Delegates to the server's Start and changes nothing else. |
| `Ev3Robot.ConnectedRobot.Stop` | SmallRobots.Ev3ControlLib/ConnectedRobot.cs:148-152 | Delegates to the server's Stop. Afterwards `IsServerRunning` is false, the thread still exists and the stop request is set, so a second Stop is accepted. The address and last message are kept. |
| `Ev3Robot.ConnectedRobot.Ev3TCPServerPropertyChanged` | SmallRobots.Ev3ControlLib/ConnectedRobot.cs:156-163 | Runs the processing hook exactly once when the property name is "LastMessage" and never for any other name. It leaves the server untouched. |
| `Ev3Robot.ConnectedRobot.ProcessLastReceivedMessage` | SmallRobots.Ev3ControlLib/ConnectedRobot.cs:168-171 | The default hook counts as called once and changes nothing in the server. |
| `Ev3Robot.RobotStartStop` | Ev3ControLib_UnitTest/ConnectedRobot_UnitTest.cs:100-114 | A robot built with an address keeps it. It is not running before Start, runs once the loop listens, and is not running after Stop. |
| `Ev3Robot.RepeatedCycles` | SmallRobots.Ev3ControlLib/ConnectedRobot.cs:139-152 | In any number of Start/Stop cycles, each serving its own connections, a cycle runs iff its listen succeeded and every cycle ends not running. The last message after each cycle is `AfterConnections` of its connections from the previous cycle's message if its listen succeeded, and the previous message otherwise. |
| `Ev3Robot.DispatchScenario` | SmallRobots.Ev3ControlLib/ConnectedRobot.cs:156-163 | The hook runs once for "LastMessage" and zero times each for "IsRunning" and "IPAddress". |
| `Ev3Robot.ReceiveScenario` | SmallRobots.Ev3ControlLib/Ev3TCPServer.cs:336-361 | A message framed by `<EOF>` and split across two receives becomes the robot server's last message. |

`IsServerRunning()` and `IPAddress()` of `ConnectedRobot` are plain read-throughs to the server's fields, as in ConnectedRobot.cs:67-91. The contracts above state them.

## Left out

- `RobotMessage.Serialize`/`DeSerialize` (Ev3TCPServer.cs:103-131) wrap `XmlSerializer`, whose format is not part of this model. There is therefore no codec round-trip. `Receive` takes the decoded message as a parameter, and the 4096-byte buffer with its trailing NULs is not modelled. A connected `Receive` can also throw, either from the socket's `Receive` (ConnectedRobotClient.cs:287) or from `DeSerialize` when `XmlSerializer` rejects the text (ConnectedRobotClient.cs:292). Those failures are not modelled, so `Receive` fails only through its connection guard.
- Socket operations (Bind, Listen, BeginAccept/EndAccept, BeginReceive/EndReceive, Connect, Send, Receive, Shutdown, Close) are not modelled. The success or failure of Bind and Listen is a parameter, and so are the bytes each receive delivers. `EndReceive` only stands for how the buffer gets filled. No socket failure after Listen is modelled.
- A failure inside the accept loop is not modelled. If `BeginAccept`, `Shutdown` or `Close` throws (Ev3TCPServer.cs:285-298), the catch at Ev3TCPServer.cs:302-305 only prints. `IsRunning` then stays true with no accept loop alive, a state `Ev3TCPServer.Valid()` excludes.
- Connections still open at `Stop` are not modelled. `Stop` closes only the listener (Ev3TCPServer.cs:298), so a receive chain still pending on an accepted connection can overwrite `LastMessage` after `Stop` returns. In the model a chain that is still pending after its connection's last delivered chunk (`Session` with `pending`) is dropped, and `Stop` keeps `lastMessage` unchanged.
- Threads and `ManualResetEvent`s are not modelled. The accept loop, each connection's chain of receives and `Stop` are run as one sequential trace. A connection's receives are therefore never interleaved with the next accept.
- Two timing windows are not modelled: `Stop` running before the server thread clears `serverStopRequest`, and a second `Start` while a loop is parked. `ServerThread` requires that no loop is parked.
- `Ev3Server.Ev3TCPServer.ServerThread`: requires a non-null address. The endpoint constructor at Ev3TCPServer.cs:264 throws outside the try block, which the model does not follow.
- `Ev3Server.Ev3TCPServer.Stop`: requires a started thread, because `serverThread.Join()` on a server that was never started dereferences null.
- Text encoding is not fully modelled. ASCII decoding of received bytes is modelled. The client's UTF-8 conversions belong to the codec path above.
- `Framing.IndexOf`: models `String.IndexOf` as an ordinal search. The culture-sensitive comparison that .NET uses by default may treat ignorable characters differently.
- The `PropertyChanged` event of `Ev3TCPServer` and the subscription at ConnectedRobot.cs:130 are not modelled. They live in a partial-class file that is not part of this model, and in Ev3TCPServer.cs itself no property raises a notification (`LastMessage` is an auto-property). The handler is modelled as receiving a property name.
- The protected `Ev3TCPServer` property setter of `ConnectedRobot` (ConnectedRobot.cs:49-62) is not modelled, because nothing in the core calls it.
- Writes to `LastMessage` from outside the server through its public setter (Ev3TCPServer.cs:179) are not modelled. In the model only `ReadCallback` writes it. The `lastMessage` postconditions of `ServerThread` and `Stop`, and `LastConnectionWins`, rely on that.
- Dead or unused code is not modelled: the server's private `Send`/`SendCallback`, `ConnectCallback`, the commented-out asynchronous send, the static `response` field, `IRemotizedRobot`, the `Robot` property and the `Robot` base class.
- `Console.WriteLine` diagnostics are not modelled.
- A subclass override of `ProcessLastReceivedMessage` is not modelled. Replies sent from such an override fall outside the model.
