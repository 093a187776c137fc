/**
  The per-connection session record (`FtpServer`'s fields) and the two
  data-channel transitions `start_datasocket` / `stop_datasocket`. Sockets are
  tokens: the network's answers are carried by a `Net` value.
 */
module FtpSession {
  import opened Base
  import opened FileSystem

  /** `server_listen_socket`: never created, listening on a port, or closed. */
  datatype Listener = NoListener | Listening(port: int) | ListenerClosed(port: int)

  /**
    `data_socket`: never created (`None`), connected to the client, a socket
    whose accept/connect failed, or closed after a transfer.
   */
  datatype DataSocket = NoSocket | Connected | Unconnected | SocketClosed

  /**
    The fields of one `FtpServer`. `username` and `reprType` can hold Python's
    `None` because the handlers store their argument unchecked.
    `leakedListeners` counts listening sockets a later PASV replaced without
    an explicit `close()`. CPython's finalizer closes such a socket once it is
    no longer referenced; the counter records the missing close, not a
    descriptor that stays open.
   */
  datatype Session = Session(
    isAuthenticated: bool,
    isPassiveMode: bool,
    currentDir: Path,
    username: Option<string>,
    password: string,
    reprType: Option<string>,
    listener: Listener,
    leakedListeners: nat,
    dataSocket: DataSocket,
    dataAddr: string,
    dataPort: int)

  /** The module-level `CWD` every session starts in. */
  const Root: Path := "."

  /** The state `__init__` builds. */
  function Initial(): (s: Session)
    ensures !s.isAuthenticated && !s.isPassiveMode && s.currentDir == Root
    ensures s.listener == NoListener && s.dataSocket == NoSocket && s.leakedListeners == 0
  {
    Session(false, false, Root, Some(""), "", Some(""), NoListener, 0, NoSocket, "", 0)
  }

  /**
    What the outside world does while one command runs:
    - `host`: the server's IPv4 address text (`HOST`);
    - `ephemeralPort`: the port the OS gives a fresh PASV listener;
    - `acceptOk`: `accept` on the passive listener returns a connection
      rather than raising an `OSError`;
    - `resolves`: the PORT target's host name resolves;
    - `connectOk`: the PORT target accepts an outbound connection;
    - `dataSends`: how many sends the client's end of the data connection
      takes before one raises because the client went away
      (`BrokenPipeError`, `ConnectionResetError`); `None` when every send
      goes through.
   */
  datatype Net = Net(
    host: string,
    ephemeralPort: int,
    acceptOk: bool,
    resolves: bool,
    connectOk: bool,
    dataSends: Option<nat>)

  /** The client's end of the data connection takes `n` sends without going away. */
  predicate Takes(net: Net, n: nat) {
    net.dataSends.None? || n <= net.dataSends.value
  }

  /** Something the session writes: a control reply or a data-channel payload. */
  datatype Event = Reply(text: string) | DataText(text: string) | DataBytes(chunk: seq<byte>)

  /** The three-digit reply code a control reply starts with. */
  function Code(e: Event): string {
    if e.Reply? && |e.text| >= 3 then e.text[..3] else ""
  }

  /** The bytes one event puts on the data channel. */
  function Carried(e: Event): seq<byte> {
    if e.DataBytes? then e.chunk else []
  }

  /** The bytes carried by the data events of a transcript. */
  function Payload(out: seq<Event>): seq<byte> {
    if |out| == 0 then [] else Carried(out[0]) + Payload(out[1..])
  }

  lemma {:induction false} PayloadAppend(a: seq<Event>, b: seq<Event>)
    ensures Payload(a + b) == Payload(a) + Payload(b)
  {
    if |a| == 0 {
      assert a + b == b;
    } else {
      var ab := a + b;
      assert ab[0] == a[0] && ab[1..] == a[1..] + b;
      calc {
        Payload(ab);
        Carried(a[0]) + Payload(a[1..] + b);
        { PayloadAppend(a[1..], b); }
        Carried(a[0]) + (Payload(a[1..]) + Payload(b));
        (Carried(a[0]) + Payload(a[1..])) + Payload(b);
      }
    }
  }

  /** The string one event hands to `send_data` (which appends CRLF on the wire, see `Framed`). */
  function Written(e: Event): string {
    if e.DataText? then e.text else ""
  }

  /** The strings a transcript hands to `send_data`, run together without their CRLFs. */
  function TextPayload(out: seq<Event>): string {
    if |out| == 0 then "" else Written(out[0]) + TextPayload(out[1..])
  }

  lemma {:induction false} TextPayloadAppend(a: seq<Event>, b: seq<Event>)
    ensures TextPayload(a + b) == TextPayload(a) + TextPayload(b)
  {
    if |a| == 0 {
      assert a + b == b;
    } else {
      var ab := a + b;
      assert ab[0] == a[0] && ab[1..] == a[1..] + b;
      calc {
        TextPayload(ab);
        Written(a[0]) + TextPayload(a[1..] + b);
        { TextPayloadAppend(a[1..], b); }
        Written(a[0]) + (TextPayload(a[1..]) + TextPayload(b));
        (Written(a[0]) + TextPayload(a[1..])) + TextPayload(b);
      }
    }
  }

  /** What `send_data` puts on the wire for an event's string: the text, then CRLF. */
  function Framed(e: Event): string {
    if e.DataText? then e.text + "\r\n" else ""
  }

  /** The characters the string events of a transcript put on the data connection. */
  function WireText(out: seq<Event>): string {
    if |out| == 0 then "" else Framed(out[0]) + WireText(out[1..])
  }

  lemma {:induction false} WireTextAppend(a: seq<Event>, b: seq<Event>)
    ensures WireText(a + b) == WireText(a) + WireText(b)
  {
    if |a| == 0 {
      assert a + b == b;
    } else {
      var ab := a + b;
      assert ab[0] == a[0] && ab[1..] == a[1..] + b;
      calc {
        WireText(ab);
        Framed(a[0]) + WireText(a[1..] + b);
        { WireTextAppend(a[1..], b); }
        Framed(a[0]) + (WireText(a[1..]) + WireText(b));
        (Framed(a[0]) + WireText(a[1..])) + WireText(b);
      }
    }
  }

  /**
    The result of running a handler: the new record, what it wrote, and
    whether a Python exception escaped it (effects before the raise are kept).
   */
  datatype Outcome = Outcome(s: Session, out: seq<Event>, raised: bool)

  /** The ports `socket.connect` accepts once the host has resolved; others raise OverflowError. */
  predicate ValidPort(p: int) {
    0 <= p < 0x1_0000
  }

  /**
    A port that fits the C `int` into which `socket.connect` first converts
    its argument. Outside it, the conversion raises OverflowError before the
    host is looked at.
   */
  predicate FitsCInt(p: int) {
    -0x8000_0000 <= p < 0x8000_0000
  }

  /** `close()` on a listening socket; closing twice is harmless. */
  function CloseListener(l: Listener): (r: Listener)
    requires !l.NoListener?
    ensures r.ListenerClosed? && r.port == l.port
  {
    ListenerClosed(l.port)
  }

  /**
    `start_datasocket`. Passive: accept on the listener. An `OSError` (the
    listener is closed, or `accept` fails) is logged and leaves `data_socket`
    as it was; `None.accept` raises. Active: a fresh socket connects to the
    PORT target. `connect` first encodes the host name (a name the IDNA
    codec rejects, or one holding NUL, raises TypeError, which escapes),
    converts the port to a C `int` (OverflowError escapes), then resolves
    the host (a failure is an `OSError`, logged), then range-checks the port
    (OverflowError escapes), then connects (a refusal is logged). The model
    does not tell a host that fails to encode from one that does not
    resolve, so that TypeError is not raised here.
   */
  function StartData(s: Session, net: Net): (o: Outcome)
    ensures o.out == [] && o.s == s.(dataSocket := o.s.dataSocket)
    ensures o.raised <==>
      || (s.isPassiveMode && s.listener.NoListener?)
      || (!s.isPassiveMode && (!FitsCInt(s.dataPort) || (net.resolves && !ValidPort(s.dataPort))))
    ensures !o.raised && s.isPassiveMode ==>
      (o.s.dataSocket == Connected <==> (s.listener.Listening? && net.acceptOk) || s.dataSocket == Connected)
    ensures !o.raised && !s.isPassiveMode ==>
      (o.s.dataSocket == Connected <==> net.resolves && net.connectOk)
  {
    if !s.isPassiveMode then
      var s1 := s.(dataSocket := Unconnected);
      if !FitsCInt(s.dataPort) then Outcome(s1, [], true)
      else if !net.resolves then Outcome(s1, [], false)
      else if !ValidPort(s.dataPort) then Outcome(s1, [], true)
      else Outcome(s.(dataSocket := if net.connectOk then Connected else Unconnected), [], false)
    else
      match s.listener
      case NoListener => Outcome(s, [], true)
      case Listening(_) =>
        Outcome(if net.acceptOk then s.(dataSocket := Connected) else s, [], false)
      case ListenerClosed(_) => Outcome(s, [], false)
  }

  /**
    The network lets a transfer through: in passive mode a listener is open
    and the client connects to it; in active mode the PORT target's host
    resolves and a valid port on it accepts the connection.
   */
  predicate DataReady(s: Session, net: Net) {
    if s.isPassiveMode then s.listener.Listening? && net.acceptOk
    else ValidPort(s.dataPort) && net.resolves && net.connectOk
  }

  /**
    `stop_datasocket`: close the data socket and, in passive mode, the listener
    too. `is_passive_mode` is left as it is. `None.close` raises.
   */
  function StopData(s: Session): (o: Outcome)
    ensures o.out == [] && o.s.isPassiveMode == s.isPassiveMode
    ensures o.raised <==> s.dataSocket == NoSocket || (s.isPassiveMode && s.listener.NoListener?)
    ensures !o.raised ==> o.s.dataSocket == SocketClosed
    ensures !o.raised && s.isPassiveMode ==> o.s.listener == ListenerClosed(s.listener.port)
    ensures !s.isPassiveMode ==> o.s.listener == s.listener
    ensures o.s == s.(dataSocket := o.s.dataSocket, listener := o.s.listener)
  {
    if s.dataSocket == NoSocket then Outcome(s, [], true)
    else
      var s1 := s.(dataSocket := SocketClosed);
      if !s.isPassiveMode then Outcome(s1, [], false)
      else if s.listener.NoListener? then Outcome(s1, [], true)
      else Outcome(s1.(listener := CloseListener(s.listener)), [], false)
  }

  /**
    `send_data` after `sent` earlier sends on the same data connection: only
    a connected socket carries data (any other raises), and it raises once
    the client has gone away.
   */
  function SendData(s: Session, net: Net, sent: nat, e: Event): (o: Outcome)
    ensures o.s == s
    ensures o.raised <==> s.dataSocket != Connected || !Takes(net, sent + 1)
    ensures !o.raised ==> o.out == [e]
    ensures o.raised ==> o.out == []
  {
    if s.dataSocket == Connected && Takes(net, sent + 1) then Outcome(s, [e], false)
    else Outcome(s, [], true)
  }

  /** How many of `n` sends in a row go through on the data socket. */
  function Delivered(s: Session, net: Net, n: nat): (k: nat)
    ensures k <= n && (k < n ==> !Takes(net, k + 1) || s.dataSocket != Connected)
    ensures s.dataSocket == Connected ==> Takes(net, k)
    ensures s.dataSocket != Connected ==> k == 0
  {
    if s.dataSocket != Connected then 0
    else if net.dataSends.Some? && net.dataSends.value < n then net.dataSends.value
    else n
  }
}
