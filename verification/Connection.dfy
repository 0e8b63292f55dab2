// What one socket event does to the server: receiving, processing the input
// buffer, flushing, disconnecting (Server.cpp:920-1121, 1360-1429, 1593-1658).
module Connection {
  import opened Results
  import opened Codec
  import opened Framing
  import opened ServerState
  import opened Primitives
  import opened Membership
  import opened Commands

  const MAX_SEND_SIZE: nat := 16384

  /** What the bot answers to the n-th line of a connection, should it be asked. */
  type Oracle = nat -> BotAnswer

  /** The state reached, and whether the connection may continue. */
  datatype Served = Served(st: State, connected: bool)

  // ------------------------------------------------------------------
  // Receiving
  // ------------------------------------------------------------------

  /** What one recv can return. */
  type Chunk = s: string | |s| <= RECEIVE_BUFFER_SIZE

  datatype RecvResult = Bytes(chunk: Chunk) | EndOfStream | RecvLater | RecvError

  function WithRequest(st: State, fd: int, reason: string): State
    requires fd in st.users
  {
    WithOutput(st, fd, Request(st.users[fd].out, reason))
  }

  function WithInput(st: State, fd: int, buffer: string, received: string, lines: seq<string>): State
    requires fd in st.users
  {
    WithUser(st, fd, st.users[fd].(inBuffer := buffer, received := received, lines := lines))
  }

  /** A line has left the input buffer; empty lines are dropped. */
  function TakeLine(st: State, fd: int, line: string, rest: string): State
    requires fd in st.users
  {
    var u := st.users[fd];
    WithInput(st, fd, rest, u.received, if line == "" then u.lines else u.lines + [line])
  }

  /** Parse and dispatch one line: a parse error is only reported, an exception closes the connection. */
  function ServeLine(st: State, fd: int, line: string, answer: BotAnswer): (r: State)
    requires fd in st.users
    ensures r.users.Keys == st.users.Keys
  {
    hide Dispatch, Parse;
    match Parse(line)
    case Failure(_) => st
    case Success(m) =>
      match Dispatch(st, fd, m, answer)
      case Done(st1) => st1
      case Threw(st1) => WithRequest(st1, fd, "")
  }

  /** What one round of the loop of Server::processClientBuffer does with a line. */
  function ServeTaken(st: State, fd: int, line: string, rest: string, oracle: Oracle): (r: State)
    requires fd in st.users
    ensures r.users.Keys == st.users.Keys
  {
    hide ServeLine;
    var st1 := TakeLine(st, fd, line, rest);
    if line == "" then st1 else ServeLine(st1, fd, line, oracle(|st.users[fd].lines|))
  }

  /**
   * Server::processClientBuffer. Every round takes a line off the buffer, so
   * the buffer shrinks; the guard only tells that to the termination check.
   */
  function ProcessBuffer(st: State, fd: int, oracle: Oracle): (r: Served)
    requires fd in st.users
    ensures r.st.users.Keys == st.users.Keys
    decreases |st.users[fd].inBuffer|
  {
    hide ServeTaken, Request;
    var u := st.users[fd];
    if u.out.closing then Served(st, false)
    else
      match ExtractNext(u.inBuffer)
      case Incomplete => Served(st, true)
      case TooLong(rest) =>
        Served(WithRequest(WithInput(st, fd, rest, u.received, u.lines), fd, "IRC line exceeds maximum length"), false)
      case Complete(line, rest) =>
        var st1 := ServeTaken(st, fd, line, rest, oracle);
        if |st1.users[fd].inBuffer| < |u.inBuffer| then ProcessBuffer(st1, fd, oracle) else Served(st1, true)
  }

  /** Server::receiveClientData, given what recv returned. */
  function ReceiveData(st: State, fd: int, recv: RecvResult, oracle: Oracle): (r: Served)
    requires fd in st.users
    ensures r.st.users.Keys == st.users.Keys
  {
    hide ProcessBuffer, Request;
    var u := st.users[fd];
    match recv
    case Bytes(chunk) =>
      if |u.inBuffer| + |chunk| > MAX_INPUT_BUFFER then
        Served(WithRequest(st, fd, "Input buffer limit exceeded"), false)
      else
        ProcessBuffer(WithInput(st, fd, u.inBuffer + chunk, u.received + chunk, u.lines), fd, oracle)
    case EndOfStream => Served(WithRequest(st, fd, "Connection closed by peer"), false)
    case RecvLater => Served(st, true)
    case RecvError => Served(WithRequest(st, fd, "Receive error"), false)
  }

  // ------------------------------------------------------------------
  // Flushing
  // ------------------------------------------------------------------

  /** What send reported; it never writes more than it was given. */
  datatype SendResult = Wrote(bytes: nat) | WroteNothing | SendLater | BrokenPipe | ResetByPeer | SendError

  function Min(a: nat, b: nat): nat {
    if a < b then a else b
  }

  /** Client::removeSentOutput, with the bytes moved to the record of what was sent. */
  function SentSome(o: Output, bytes: nat): Output
    requires bytes <= |o.buffer|
  {
    o.(buffer := o.buffer[bytes..], sent := o.sent + o.buffer[..bytes])
  }

  /** Server::flushClientOutput, given what send returned for at most MAX_SEND_SIZE bytes. */
  function Flush(st: State, fd: int, send: SendResult): (r: Served)
    requires fd in st.users
    ensures r.st.users.Keys == st.users.Keys
  {
    var o := st.users[fd].out;
    if o.buffer == "" then Served(st, true)
    else
      match send
      case Wrote(bytes) =>
        if bytes == 0 then Served(WithRequest(st, fd, "Send returned zero bytes"), false)
        else Served(WithOutput(st, fd, SentSome(o, Min(bytes, Min(|o.buffer|, MAX_SEND_SIZE)))), true)
      case WroteNothing => Served(WithRequest(st, fd, "Send returned zero bytes"), false)
      case SendLater => Served(st, true)
      case BrokenPipe => Served(WithRequest(st, fd, "Broken pipe"), false)
      case ResetByPeer => Served(WithRequest(st, fd, "Connection reset by peer"), false)
      case SendError => Served(WithRequest(st, fd, "Send error"), false)
  }

  // ------------------------------------------------------------------
  // Disconnecting
  // ------------------------------------------------------------------

  /** A stored reason wins over the caller's. */
  function FinalReason(o: Output, reason: string): string {
    if o.closing && o.reason != "" then o.reason
    else if reason == "" then "Client disconnected"
    else reason
  }

  function QuitMessage(u: User, reason: string): IrcMessage {
    IrcMessage("QUIT", [FinalReason(u.out, reason)], PrefixOf(u.account), true)
  }

  /** The notification of the related clients, which is skipped outside every channel. */
  function Farewell(st: State, fd: int, reason: string): (r: Outcome)
    requires fd in st.users
    ensures r.st.users.Keys == st.users.Keys
  {
    var u := st.users[fd];
    var st1 := WithRequest(st, fd, FinalReason(u.out, reason));
    if u.joined == {} then Done(st1) else SayRelated(st1, fd, QuitMessage(u, reason))
  }

  /** Server::disconnectClient; accepting resumes unless the server is shutting down. */
  function Disconnect(st: State, fd: int, reason: string, shuttingDown: bool): Outcome {
    if fd !in st.users || Virtual(fd) then Done(st)
    else
      var st1 :- Farewell(st, fd, reason);
      var st2 := Forget(Detach(st1, fd), fd);
      Done(if shuttingDown then st2 else st2.(accepting := true))
  }
}
