/**
  The command handlers of `FtpServer`: USER, PASS, TYPE, PASV, LIST, PORT,
  RETR, PWD, CWD, HELP and QUIT, each a function from the session record and
  the parsed argument to an `Outcome`. The `530` gate of `@authorize` is
  applied by the dispatcher, not here.
 */
module Handlers {
  import opened Base
  import opened Text
  import opened FileSystem
  import opened FtpSession

  /** Python truthiness of an optional string: present and non-empty. */
  predicate Truthy(a: Option<string>) {
    a.Some? && a.value != ""
  }

  /** The text f-strings print for an optional string (`None` prints as `None`). */
  function Show(a: Option<string>): string {
    if a.Some? then a.value else "None"
  }

  const UserMissing := "501 Syntax error: username not supplied."
  const UserOk := "331 User name okay, need password."
  const PassMissing := "501 Syntax error: password not supplied."
  const BadSequence := "503 Bad sequence of commands."
  const LoggedIn := "230 User logged in, proceed."
  const ListMissing := "550 LIST failed: path does not exist."
  const ListStart := "150 Here is listing."
  const ListDone := "226 List done."
  const PortSet := "200 Port set."
  const FileMissing := "550 File not found."
  const FileUnavailable := "450 File unavailable."
  const RetrStart := "150 Opening data connection."
  const RetrDone := "226 Transfer complete."
  const CwdOk := "250 CWD Command successful."
  const CwdMissing := "550 CWD failed Directory not exists."
  const HelpText := "\n            214\n            "
  const Goodbye := "221 Goodbye."

  // ---------------------------------------------------------------- USER / PASS

  /** USER stores its argument whatever it is, and asks for a password unless it is empty. */
  function User(s: Session, user: Option<string>): (o: Outcome)
    ensures !o.raised && o.s == s.(username := user)
    ensures o.out == [Reply(if Truthy(user) then UserOk else UserMissing)]
  {
    Outcome(s.(username := user), [Reply(if !Truthy(user) then UserMissing else UserOk)], false)
  }

  /**
    PASS accepts any password once a username is known, but marks the session
    authenticated on every call, including the 501 and 503 branches.
   */
  function Pass(s: Session, password: Option<string>): (o: Outcome)
    ensures !o.raised && o.s.isAuthenticated
    ensures o.out == [Reply(LoggedIn)] <==> Truthy(password) && Truthy(s.username)
    ensures !Truthy(password) ==> o.out == [Reply(PassMissing)]
    ensures Truthy(password) && !Truthy(s.username) ==> o.out == [Reply(BadSequence)]
    ensures o.s.password == (if o.out == [Reply(LoggedIn)] then password.value else s.password)
    ensures o.s == s.(isAuthenticated := true, password := o.s.password)
  {
    var s1 := s.(isAuthenticated := true);
    if !Truthy(password) then Outcome(s1, [Reply(PassMissing)], false)
    else if !Truthy(s.username) then Outcome(s1, [Reply(BadSequence)], false)
    else Outcome(s1.(password := password.value), [Reply(LoggedIn)], false)
  }

  // ---------------------------------------------------------------- TYPE

  /** TYPE records the code before looking at it, so an unknown code is kept too. */
  function TypeCmd(s: Session, code: Option<string>): (o: Outcome)
    ensures !o.raised && o.s == s.(reprType := code) && |o.out| == 1
    ensures code == Some("I") || code == Some("A") ==> Code(o.out[0]) == "200"
    ensures !(code == Some("I") || code == Some("A")) ==>
      && o.out[0] == Reply("501 Syntax error: type '" + Show(code) + "' not found.")
      && Code(o.out[0]) == "501"
  {
    var s1 := s.(reprType := code);
    if code == Some("I") then Outcome(s1, [Reply("200 Binary mode.")], false)
    else if code == Some("A") then Outcome(s1, [Reply("200 Ascii mode.")], false)
    else
      var text := "501 Syntax error: type '" + Show(code) + "' not found.";
      assert text[..3] == "501";
      Outcome(s1, [Reply(text)], false)
  }

  // ---------------------------------------------------------------- PASV / PORT

  /** `(port >> 8) & 0xFF` and `port & 0xFF`: Python's shift floors, so both are `/` and `%` here. */
  function PortHigh(port: int): nat { (port / 256) % 256 }
  function PortLow(port: int): nat { port % 256 }

  /** `h1,h2,h3,h4,p1,p2`: the host's dots turned into commas, then the two port bytes. */
  function PasvAddress(host: string, port: int): string {
    Join(Split(host, '.'), ',') + "," + NatToString(PortHigh(port)) + "," + NatToString(PortLow(port))
  }

  /**
    PASV switches to passive mode on a fresh listener and announces its
    address; a listener still open from an earlier PASV is dropped unclosed.
   */
  function Pasv(s: Session, net: Net): (o: Outcome)
    ensures !o.raised && o.s.isPassiveMode && o.s.listener == Listening(net.ephemeralPort)
    ensures o.s.leakedListeners == s.leakedListeners + (if s.listener.Listening? then 1 else 0)
    ensures o.s == s.(isPassiveMode := true, listener := o.s.listener, leakedListeners := o.s.leakedListeners)
    ensures o.out == [Reply("227 Entering Passive Mode (" + PasvAddress(net.host, net.ephemeralPort) + ").")]
  {
    var leaked := if s.listener.Listening? then s.leakedListeners + 1 else s.leakedListeners;
    Outcome(s.(isPassiveMode := true, listener := Listening(net.ephemeralPort), leakedListeners := leaked),
            [Reply("227 Entering Passive Mode (" + PasvAddress(net.host, net.ephemeralPort) + ").")], false)
  }

  /** `cmd[5:]` */
  function DropFive(a: string): string {
    if |a| <= 5 then "" else a[5..]
  }

  datatype Target = Target(addr: string, port: int)

  /**
    The fields PORT reads: split `cmd[5:]` at commas, join the first four with
    dots, and compute `(int(f4) << 8) + int(f5)`. `None` when Python raises
    (IndexError for too few fields, ValueError for a non-number).
   */
  function PortTarget(arg: string): Option<Target> {
    var fields := Split(DropFive(arg), ',');
    if |fields| < 6 then None
    else match (ParseInt(fields[4]), ParseInt(fields[5]))
      case (Some(hi), Some(lo)) => Some(Target(Join(fields[..4], '.'), hi * 256 + lo))
      case _ => None
  }

  /**
    PORT first leaves passive mode, closing the listener, and only then parses
    its argument, so a malformed argument still ends passive mode.
   */
  function Port(s: Session, arg: Option<string>): (o: Outcome)
    ensures s.isPassiveMode && !s.listener.NoListener? ==>
      !o.s.isPassiveMode && o.s.listener == ListenerClosed(s.listener.port)
    ensures !s.isPassiveMode ==> !o.s.isPassiveMode && o.s.listener == s.listener
    ensures !o.raised <==>
      !(s.isPassiveMode && s.listener.NoListener?) && arg.Some? && PortTarget(arg.value).Some?
    ensures !o.raised ==>
      o.out == [Reply(PortSet)] && Target(o.s.dataAddr, o.s.dataPort) == PortTarget(arg.value).value
    ensures o.raised ==> o.out == [] && o.s.dataAddr == s.dataAddr && o.s.dataPort == s.dataPort
    ensures o.s == s.(isPassiveMode := o.s.isPassiveMode, listener := o.s.listener,
                      dataAddr := o.s.dataAddr, dataPort := o.s.dataPort)
  {
    if s.isPassiveMode && s.listener.NoListener? then Outcome(s, [], true)
    else
      var s1 := if s.isPassiveMode then s.(listener := CloseListener(s.listener), isPassiveMode := false) else s;
      if arg.None? then Outcome(s1, [], true)
      else match PortTarget(arg.value)
        case None => Outcome(s1, [], true)
        case Some(t) => Outcome(s1.(dataAddr := t.addr, dataPort := t.port), [Reply(PortSet)], false)
  }

  /** The address `gethostbyname` yields: four dot-separated numerals of at most three digits. */
  predicate DottedQuad(host: string) {
    var p := Split(host, '.');
    |p| == 4 && forall i :: 0 <= i < 4 ==> 1 <= |p[i]| <= 3 && AllDigits(p[i])
  }

  /** The six comma-separated fields of a PASV reply, as a list. */
  lemma PasvAddressFields(host: string, port: int)
    requires DottedQuad(host)
    ensures var parts := Split(host, '.') + [NatToString(PortHigh(port)), NatToString(PortLow(port))];
      && PasvAddress(host, port) == Join(parts, ',')
      && |parts| == 6
      && (forall i :: 0 <= i < 6 ==> ',' !in parts[i] && |parts[i]| > 0)
      && Split(PasvAddress(host, port), ',') == parts
  {
    var hi, lo := NatToString(PortHigh(port)), NatToString(PortLow(port));
    var quad := Split(host, '.');
    var parts := quad + [hi, lo];
    JoinAppend(quad, [hi, lo], ',');
    assert Join([hi, lo], ',') == hi + "," + lo by { assert [hi, lo][1..] == [lo]; }
    forall i | 0 <= i < 6 ensures ',' !in parts[i] && |parts[i]| > 0 {
      assert AllDigits(parts[i]);
    }
    SplitJoin(parts, ',');
  }

  /**
    The port bytes PASV announces decode, through PORT's `(p1 << 8) + p2`, to
    the listener's port; the four host fields rejoin to the host address.
    The argument must carry five leading characters, which PORT discards.
   */
  lemma PasvPortRoundTrip(host: string, port: int, skipped: string)
    requires DottedQuad(host) && ValidPort(port) && |skipped| == 5
    ensures PortTarget(skipped + PasvAddress(host, port)) == Some(Target(host, port))
  {
    var arg := skipped + PasvAddress(host, port);
    var hi, lo := NatToString(PortHigh(port)), NatToString(PortLow(port));
    PasvAddressFields(host, port);
    assert DropFive(arg) == PasvAddress(host, port);
    var fields := Split(DropFive(arg), ',');
    assert fields == Split(host, '.') + [hi, lo];
    assert fields[..4] == Split(host, '.') && fields[4] == hi && fields[5] == lo;
    JoinSplit(host, '.');
    ParseIntOfNatToString(PortHigh(port));
    ParseIntOfNatToString(PortLow(port));
    PortBytes(port);
  }

  /** For a port in range, the two announced bytes recombine to it. */
  lemma PortBytes(port: int)
    requires ValidPort(port)
    ensures PortHigh(port) * 256 + PortLow(port) == port
  {
    assert port / 256 < 256;
  }

  /**
    Because PORT discards five characters, the standard argument a client
    sends (`h1,h2,h3,h4,p1,p2`, whose first comma comes within the first four
    characters) leaves at most five fields, so PORT always raises on it.
   */
  lemma StandardPortArgumentRejected(host: string, port: int)
    requires DottedQuad(host)
    ensures PortTarget(PasvAddress(host, port)) == None
  {
    var arg := PasvAddress(host, port);
    PasvAddressFields(host, port);
    var parts := Split(host, '.') + [NatToString(PortHigh(port)), NatToString(PortLow(port))];
    assert |Split(arg, ',')| == 6;
    assert arg == parts[0] + [','] + Join(parts[1..], ',');
    assert |parts[0]| <= 3 && arg[|parts[0]|] == ',';
    assert |arg| > 5;
    assert ',' in arg[..5] by { assert arg[..5][|parts[0]|] == ','; }
    CountPositive(arg[..5], ',');
    assert arg[..5] + arg[5..] == arg;
    CountAppend(arg[..5], arg[5..], ',');
    assert |Split(DropFive(arg), ',')| <= 5;
  }

  // ---------------------------------------------------------------- LIST

  /** The path LIST lists: the working directory, an absolute argument, or the argument under the working directory. */
  function ListTarget(s: Session, fs: Fs, dirpath: Option<string>): (p: Path)
    ensures !Truthy(dirpath) ==> p == fs.abspath(s.currentDir)
    ensures Truthy(dirpath) && dirpath.value[0] == '/' ==> p == fs.abspath(dirpath.value)
    ensures Truthy(dirpath) && dirpath.value[0] != '/' ==> p == fs.abspath(PathJoin(s.currentDir, dirpath.value))
  {
    if !Truthy(dirpath) then fs.abspath(s.currentDir)
    else if dirpath.value[0] == '/' then fs.abspath(dirpath.value)
    else fs.abspath(PathJoin(s.currentDir, dirpath.value))
  }

  /** The listing line for one path, named by its basename. */
  function LineFor(fs: Fs, p: Path): string
    requires p in fs.meta
  {
    ListingLine(IsDir(fs, p), fs.meta[p], Basename(p))
  }

  /**
    The paths LIST stats: the target itself when it is a file, else each
    `os.listdir` entry joined to it. `None` when `os.listdir` raises.
   */
  function ListPaths(fs: Fs, target: Path): (r: Option<seq<Path>>)
    ensures !IsDir(fs, target) ==> r == Some([target])
    ensures IsDir(fs, target) ==> (r.Some? <==> target in fs.entries)
    ensures IsDir(fs, target) && r.Some? ==>
      |r.value| == |fs.entries[target]| && forall i :: 0 <= i < |r.value| ==> r.value[i] == PathJoin(target, fs.entries[target][i])
  {
    if !IsDir(fs, target) then Some([target])
    else if target !in fs.entries then None
    else
      var names := fs.entries[target];
      Some(seq(|names|, i requires 0 <= i < |names| => PathJoin(target, names[i])))
  }

  /** Whether every path can be stat'ed. */
  predicate AllStated(fs: Fs, paths: seq<Path>) {
    forall i :: 0 <= i < |paths| ==> paths[i] in fs.meta
  }

  /** The data lines for paths that can all be stat'ed, one per path and in order. */
  function Lines(fs: Fs, paths: seq<Path>): (es: seq<Event>)
    requires AllStated(fs, paths)
    ensures |es| == |paths| && forall i :: 0 <= i < |paths| ==> es[i] == DataText(LineFor(fs, paths[i]))
  {
    seq(|paths|, i requires 0 <= i < |paths| => DataText(LineFor(fs, paths[i])))
  }

  /** How many paths, from the front, `os.stat` succeeds on before the first failure. */
  function StatedPrefix(fs: Fs, paths: seq<Path>): (k: nat)
    ensures k <= |paths|
    ensures forall i :: 0 <= i < k ==> paths[i] in fs.meta
    ensures k < |paths| ==> paths[k] !in fs.meta
  {
    if |paths| == 0 || paths[0] !in fs.meta then 0
    else
      var k := StatedPrefix(fs, paths[1..]);
      assert forall i :: 1 <= i < k + 1 ==> paths[i] == paths[1..][i - 1];
      k + 1
  }

  /**
    The loop that stats each path and sends its line. Each path is stat'ed
    before its line is sent, so the loop stops at the first `os.stat` that
    raises or the first send that raises, having sent the lines before it;
    on a socket that is not connected the first send raises.
   */
  function SendLines(s: Session, fs: Fs, net: Net, paths: seq<Path>): (o: Outcome)
    ensures o.s == s
    ensures !o.raised <==>
      AllStated(fs, paths) && (|paths| == 0 || (s.dataSocket == Connected && Takes(net, |paths|)))
    ensures !o.raised ==> o.out == Lines(fs, paths)
    ensures o.raised && s.dataSocket == Connected ==>
      var k := |o.out|;
      && k < |paths| && AllStated(fs, paths[..k]) && o.out == Lines(fs, paths[..k]) && Takes(net, k)
      && (paths[k] !in fs.meta || !Takes(net, k + 1))
    ensures s.dataSocket != Connected ==> o.out == []
  {
    if |paths| == 0 then Outcome(s, [], false)
    else if s.dataSocket != Connected then Outcome(s, [], true)
    else
      var stated := StatedPrefix(fs, paths);
      var k := if stated < Delivered(s, net, |paths|) then stated else Delivered(s, net, |paths|);
      assert AllStated(fs, paths[..k]) by {
        forall i | 0 <= i < k ensures paths[..k][i] in fs.meta {
          assert paths[..k][i] == paths[i];
        }
      }
      if k == |paths| then
        assert paths[..k] == paths;
        Outcome(s, Lines(fs, paths), false)
      else Outcome(s, Lines(fs, paths[..k]), true)
  }

  /**
    LIST: 550 when the target does not exist; otherwise 150, open the data
    channel, one line per entry (one for a file), close the channel, 226.
   */
  function List(s: Session, fs: Fs, net: Net, dirpath: Option<string>): (o: Outcome)
    ensures !Exists(fs, ListTarget(s, fs, dirpath)) ==> o == Outcome(s, [Reply(ListMissing)], false)
    ensures Exists(fs, ListTarget(s, fs, dirpath)) ==> o == ListExisting(s, fs, net, ListTarget(s, fs, dirpath))
  {
    var target := ListTarget(s, fs, dirpath);
    if !Exists(fs, target) then Outcome(s, [Reply(ListMissing)], false)
    else ListExisting(s, fs, net, target)
  }

  /** LIST once its target exists: 150, the lines over the data channel, then 226. */
  function ListExisting(s: Session, fs: Fs, net: Net, target: Path): (o: Outcome)
    ensures |o.out| > 0 && o.out[0] == Reply(ListStart)
    ensures !o.raised ==>
      && ListPaths(fs, target).Some? && AllStated(fs, ListPaths(fs, target).value)
      && o.out == [Reply(ListStart)] + Lines(fs, ListPaths(fs, target).value) + [Reply(ListDone)]
      && o.s.dataSocket == SocketClosed
    ensures o.s.isAuthenticated == s.isAuthenticated && o.s.currentDir == s.currentDir
  {
      var head := [Reply(ListStart)];
      var started := StartData(s, net);
      if started.raised then Outcome(started.s, head, true)
      else match ListPaths(fs, target)
        case None => Outcome(started.s, head, true)
        case Some(paths) =>
          var body := SendLines(started.s, fs, net, paths);
          if body.raised then Outcome(started.s, head + body.out, true)
          else
            var closed := StopData(started.s);
            if closed.raised then Outcome(closed.s, head + body.out, true)
            else Outcome(closed.s, head + body.out + [Reply(ListDone)], false)
  }

  /**
    When the data connection comes up, every path can be stat'ed and the
    client stays for every line, LIST completes: it does not raise, and in passive mode the listener is closed.
   */
  lemma ListCompletes(s: Session, fs: Fs, net: Net, target: Path)
    requires DataReady(s, net)
    requires ListPaths(fs, target).Some? && AllStated(fs, ListPaths(fs, target).value)
    requires Takes(net, |ListPaths(fs, target).value|)
    ensures var o := ListExisting(s, fs, net, target);
      && !o.raised
      && (s.isPassiveMode ==> o.s.listener == ListenerClosed(s.listener.port))
  {
  }

  /**
    A completed LIST of a directory sends one data line per `listdir` entry,
    in order, and each reads back to that entry's name, whether it is a
    directory, and its stat fields, for names without spaces or slashes.
   */
  lemma ListingReadsBack(s: Session, fs: Fs, net: Net, dir: Path, i: nat)
    requires IsDir(fs, dir) && dir in fs.entries && AllStated(fs, ListPaths(fs, dir).value)
    requires i < |fs.entries[dir]|
    requires ' ' !in fs.entries[dir][i] && '/' !in fs.entries[dir][i]
    ensures var o := ListExisting(s, fs, net, dir);
      var name := fs.entries[dir][i];
      var p := PathJoin(dir, name);
      !o.raised ==>
        && |o.out| == |fs.entries[dir]| + 2
        && p in fs.meta && o.out[i + 1].DataText?
        && ParseListingLine(o.out[i + 1].text) == Some(Entry(IsDir(fs, p), fs.meta[p], name))
  {
    var o := ListExisting(s, fs, net, dir);
    if o.raised {
      return;
    }
    var paths := ListPaths(fs, dir).value;
    var name := fs.entries[dir][i];
    var p := PathJoin(dir, name);
    assert paths[i] == p;
    var lines := Lines(fs, paths);
    assert o.out == [Reply(ListStart)] + lines + [Reply(ListDone)];
    assert o.out[i + 1] == lines[i];
    BasenameOfJoin(dir, name);
    ListingLineRoundTrip(IsDir(fs, p), fs.meta[p], name);
  }

  // ---------------------------------------------------------------- RETR

  /** `file.read(1024)`: at most 1024 bytes in binary mode, 1024 characters in text mode. */
  const ChunkSize := 1024

  function Flatten<T>(cs: seq<seq<T>>): seq<T> {
    if |cs| == 0 then [] else cs[0] + Flatten(cs[1..])
  }

  /**
    The successive reads that exhaust `b`: each non-empty, all but the last
    exactly 1024 items, so there are |b| / 1024 of them rounded up.
   */
  function Chunks<T>(b: seq<T>): (cs: seq<seq<T>>)
    ensures Flatten(cs) == b
    ensures forall i :: 0 <= i < |cs| ==> 0 < |cs[i]| <= ChunkSize
    ensures forall i :: 0 <= i < |cs| - 1 ==> |cs[i]| == ChunkSize
    ensures |cs| == (|b| + ChunkSize - 1) / ChunkSize
    decreases |b|
  {
    if |b| == 0 then []
    else if |b| <= ChunkSize then [b]
    else
      var rest := Chunks(b[ChunkSize..]);
      assert ([b[..ChunkSize]] + rest)[1..] == rest;
      assert b[..ChunkSize] + b[ChunkSize..] == b;
      [b[..ChunkSize]] + rest
  }

  /** The RETR read loop: read 1024 items at a time until a read comes back empty. */
  method ReadChunks<T>(content: seq<T>) returns (chunks: seq<seq<T>>)
    ensures chunks == Chunks(content)
    ensures Flatten(chunks) == content
  {
    chunks := [];
    var pos := 0;
    while true
      invariant 0 <= pos <= |content|
      invariant chunks + Chunks(content[pos..]) == Chunks(content)
      decreases |content| - pos
    {
      var end := if pos + ChunkSize <= |content| then pos + ChunkSize else |content|;
      var data := content[pos..end];
      if |data| == 0 {
        break;
      }
      ChunksFrom(content, pos, end, chunks);
      chunks := chunks + [data];
      pos := end;
    }
  }

  /**
    One read at `pos` is the first chunk of what remains, so appending it to
    the chunks read so far leaves the same chunks still to come.
   */
  lemma ChunksFrom<T>(content: seq<T>, pos: nat, end: nat, before: seq<seq<T>>)
    requires pos < end <= |content|
    requires end == if pos + ChunkSize <= |content| then pos + ChunkSize else |content|
    ensures Chunks(content[pos..]) == [content[pos..end]] + Chunks(content[end..])
    ensures before + Chunks(content[pos..]) == (before + [content[pos..end]]) + Chunks(content[end..])
  {
    var rest := content[pos..];
    if |rest| > ChunkSize {
      assert rest[..ChunkSize] == content[pos..end] && rest[ChunkSize..] == content[end..];
    } else {
      assert rest == content[pos..end] && content[end..] == [];
    }
    var first, later := [content[pos..end]], Chunks(content[end..]);
    assert before + (first + later) == (before + first) + later;
  }

  /** Binary reads are sent as bytes. */
  function BytesEvents(cs: seq<seq<byte>>): (es: seq<Event>)
    ensures |es| == |cs| && forall i :: 0 <= i < |cs| ==> es[i] == DataBytes(cs[i])
  {
    seq(|cs|, i requires 0 <= i < |cs| => DataBytes(cs[i]))
  }

  /** Text reads are sent as strings. */
  function TextEvents(cs: seq<string>): (es: seq<Event>)
    ensures |es| == |cs| && forall i :: 0 <= i < |cs| ==> es[i] == DataText(cs[i])
  {
    seq(|cs|, i requires 0 <= i < |cs| => DataText(cs[i]))
  }

  lemma {:induction false} PayloadOfChunks(cs: seq<seq<byte>>)
    ensures Payload(BytesEvents(cs)) == Flatten(cs)
  {
    if |cs| > 0 {
      PayloadOfChunks(cs[1..]);
      assert BytesEvents(cs)[1..] == BytesEvents(cs[1..]);
    }
  }

  /** Each read followed by the CRLF that `send_data` appends to a string. */
  function Terminated(cs: seq<string>): (w: string)
    ensures |w| == |Flatten(cs)| + 2 * |cs|
  {
    if |cs| == 0 then "" else cs[0] + "\r\n" + Terminated(cs[1..])
  }

  lemma {:induction false} WireOfChunks(cs: seq<string>)
    ensures WireText(TextEvents(cs)) == Terminated(cs)
  {
    if |cs| > 0 {
      WireOfChunks(cs[1..]);
      assert TextEvents(cs)[1..] == TextEvents(cs[1..]);
    }
  }

  lemma {:induction false} TextOfChunks(cs: seq<string>)
    ensures TextPayload(TextEvents(cs)) == Flatten(cs)
  {
    if |cs| > 0 {
      TextOfChunks(cs[1..]);
      assert TextEvents(cs)[1..] == TextEvents(cs[1..]);
    }
  }

  /**
    What the read loop sends for an opened file: its bytes when the type is
    `I`, otherwise its text; `None` when a text-mode read raises.
   */
  function FileReads(s: Session, fs: Fs, p: Path): Option<seq<Event>>
    requires p in fs.files
  {
    if s.reprType == Some("I") then Some(BytesEvents(Chunks(fs.files[p])))
    else if p in fs.texts then Some(TextEvents(Chunks(fs.texts[p])))
    else None
  }

  /**
    The send loop: every event in order, or a raise at the first send that
    raises, having sent the events before it.
   */
  function SendAll(s: Session, net: Net, es: seq<Event>): (o: Outcome)
    ensures o.s == s
    ensures !o.raised <==> |es| == 0 || (s.dataSocket == Connected && Takes(net, |es|))
    ensures !o.raised ==> o.out == es
    ensures o.raised ==>
      && |o.out| < |es| && o.out == es[..|o.out|]
      && (s.dataSocket == Connected ==> Takes(net, |o.out|) && !Takes(net, |o.out| + 1))
      && (s.dataSocket != Connected ==> o.out == [])
  {
    var k := Delivered(s, net, |es|);
    if k == |es| then Outcome(s, es, false) else Outcome(s, es[..k], true)
  }

  /**
    The send loop is `send_data` repeated: once it has sent `es`, one more
    event goes exactly as `send_data` sends it after `|es|` earlier sends;
    once it has raised, nothing more is sent.
   */
  lemma SendAllSteps(s: Session, net: Net, es: seq<Event>, e: Event)
    ensures var before := SendAll(s, net, es);
      var one := SendData(s, net, |es|, e);
      && (!before.raised ==> SendAll(s, net, es + [e]) == Outcome(s, es + one.out, one.raised))
      && (before.raised ==> SendAll(s, net, es + [e]) == before)
  {
    var before := SendAll(s, net, es);
    if before.raised {
      var k := |before.out|;
      assert (es + [e])[..k] == es[..k];
    } else {
      assert (es + [e])[..|es|] == es;
    }
  }

  /** RETR once the file is open: 150, open the data channel, the read/send loop, close it, 226. */
  function Transfer(s: Session, net: Net, data: Option<seq<Event>>): (o: Outcome)
    ensures |o.out| > 0 && o.out[0] == Reply(RetrStart)
    ensures data.None? ==> o.raised
    ensures !o.raised ==>
      && data.Some? && o.out == [Reply(RetrStart)] + data.value + [Reply(RetrDone)]
      && o.s.dataSocket == SocketClosed
    ensures o.s == s.(dataSocket := o.s.dataSocket, listener := o.s.listener)
    ensures o.s.isPassiveMode && !s.listener.NoListener? ==> !o.s.listener.NoListener?
  {
    var head := [Reply(RetrStart)];
    var started := StartData(s, net);
    if started.raised then Outcome(started.s, head, true)
    else if data.None? then Outcome(started.s, head, true)
    else
      var body := SendAll(started.s, net, data.value);
      if body.raised then Outcome(started.s, head + body.out, true)
      else
        var closed := StopData(started.s);
        if closed.raised then Outcome(closed.s, head + body.out, true)
        else Outcome(closed.s, head + body.out + [Reply(RetrDone)], false)
  }

  /**
    RETR: 550 for a missing file, 450 when it cannot be opened; otherwise the
    transfer of what the reads yield. With no argument `os.path.join` raises
    before anything is sent.
   */
  function Retr(s: Session, fs: Fs, net: Net, filename: Option<string>): (o: Outcome)
    ensures filename.None? ==> o == Outcome(s, [], true)
    ensures filename.Some? ==> var p := PathJoin(s.currentDir, filename.value);
      && (!Exists(fs, p) ==> o == Outcome(s, [Reply(FileMissing)], false))
      && (Exists(fs, p) && !CanOpen(fs, p) ==> o == Outcome(s, [Reply(FileUnavailable)], false))
      && (CanOpen(fs, p) ==> o == Transfer(s, net, FileReads(s, fs, p)))
  {
    if filename.None? then Outcome(s, [], true)
    else
      var path := PathJoin(s.currentDir, filename.value);
      if !Exists(fs, path) then Outcome(s, [Reply(FileMissing)], false)
      else if !CanOpen(fs, path) then Outcome(s, [Reply(FileUnavailable)], false)
      else Transfer(s, net, FileReads(s, fs, path))
  }

  /**
    A RETR that completes sends, between 150 and 226, exactly the file. Under
    type `I` the data connection carries the file's bytes. Otherwise the
    strings handed to `send_data` are the file's decoded text, and the wire
    carries each 1024-character read followed by CRLF: two characters more
    per read.
   */
  lemma RetrDeliversFile(s: Session, fs: Fs, net: Net, name: string)
    requires CanOpen(fs, PathJoin(s.currentDir, name))
    requires !Retr(s, fs, net, Some(name)).raised
    ensures var o := Retr(s, fs, net, Some(name));
      var p := PathJoin(s.currentDir, name);
      && o.out[0] == Reply(RetrStart) && o.out[|o.out| - 1] == Reply(RetrDone)
      && o.s.dataSocket == SocketClosed
      && (s.reprType == Some("I") ==> Payload(o.out) == fs.files[p])
      && (s.reprType != Some("I") ==>
            && p in fs.texts && TextPayload(o.out) == fs.texts[p]
            && WireText(o.out) == Terminated(Chunks(fs.texts[p]))
            && |WireText(o.out)| == |fs.texts[p]| + 2 * ((|fs.texts[p]| + ChunkSize - 1) / ChunkSize))
  {
    var p := PathJoin(s.currentDir, name);
    var data := FileReads(s, fs, p);
    var o := Retr(s, fs, net, Some(name));
    var head, tail := [Reply(RetrStart)], [Reply(RetrDone)];
    assert o.out == head + data.value + tail;
    if s.reprType == Some("I") {
      PayloadAppend(head + data.value, tail);
      PayloadAppend(head, data.value);
      PayloadOfChunks(Chunks(fs.files[p]));
    } else {
      TextPayloadAppend(head + data.value, tail);
      TextPayloadAppend(head, data.value);
      TextOfChunks(Chunks(fs.texts[p]));
      WireTextAppend(head + data.value, tail);
      WireTextAppend(head, data.value);
      WireOfChunks(Chunks(fs.texts[p]));
    }
  }

  /**
    When the data connection comes up, the file can be read in the session's
    mode and the client stays for every chunk, RETR completes without
    raising.
   */
  lemma RetrCompletes(s: Session, fs: Fs, net: Net, name: string)
    requires DataReady(s, net) && CanOpen(fs, PathJoin(s.currentDir, name))
    requires s.reprType == Some("I") || PathJoin(s.currentDir, name) in fs.texts
    requires Takes(net, |FileReads(s, fs, PathJoin(s.currentDir, name)).value|)
    ensures !Retr(s, fs, net, Some(name)).raised
  {
  }

  // ---------------------------------------------------------------- PWD / CWD / HELP / QUIT

  /** PWD quotes the absolute form of the working directory and changes nothing. */
  function Pwd(s: Session, fs: Fs): (o: Outcome)
    ensures !o.raised && o.s == s
    ensures o.out == [Reply("257 \"" + fs.abspath(s.currentDir) + "\"")]
  {
    Outcome(s, [Reply("257 \"" + fs.abspath(s.currentDir) + "\"")], false)
  }

  /**
    CWD tries the argument as given, then joined to the working directory, and
    adopts the first that is an existing directory; otherwise 550 and no change.
   */
  function Cwd(s: Session, fs: Fs, dirname: Option<string>): (o: Outcome)
    ensures o.raised <==> dirname.None?
    ensures o.s == s.(currentDir := o.s.currentDir)
    ensures dirname.Some? ==>
      (o.out == [Reply(CwdOk)] <==> IsDir(fs, dirname.value) || IsDir(fs, PathJoin(s.currentDir, dirname.value)))
    ensures dirname.Some? && o.out == [Reply(CwdOk)] ==>
      && IsDir(fs, o.s.currentDir)
      && o.s.currentDir == (if IsDir(fs, dirname.value) then dirname.value else PathJoin(s.currentDir, dirname.value))
    ensures o.out != [Reply(CwdOk)] ==> o.s == s
    ensures !o.raised && o.out != [Reply(CwdOk)] ==> o.out == [Reply(CwdMissing)]
  {
    if dirname.None? then Outcome(s, [], true)
    else if IsDir(fs, dirname.value) then Outcome(s.(currentDir := dirname.value), [Reply(CwdOk)], false)
    else
      var full := PathJoin(s.currentDir, dirname.value);
      if IsDir(fs, full) then Outcome(s.(currentDir := full), [Reply(CwdOk)], false)
      else Outcome(s, [Reply(CwdMissing)], false)
  }

  /** HELP answers with the bare `214` text block. */
  function Help(s: Session): (o: Outcome)
    ensures o == Outcome(s, [Reply(HelpText)], false)
  {
    Outcome(s, [Reply(HelpText)], false)
  }

  /** QUIT only says goodbye; the connection stays open until the client closes it. */
  function Quit(s: Session): (o: Outcome)
    ensures o == Outcome(s, [Reply(Goodbye)], false)
  {
    Outcome(s, [Reply(Goodbye)], false)
  }
}
