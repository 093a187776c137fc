/**
  Whole-command properties of the server: the authentication gate on real
  command lines, the PORT argument quirk end to end, and concrete sessions.
 */
module Scenarios {
  import opened Base
  import opened Text
  import opened FileSystem
  import opened FtpSession
  import opened Handlers
  import opened Server

  /** A formatted command line arrives unchanged through `bytes.strip()`. */
  lemma FormatSurvivesStrip(v: Verb, word: string, arg: Option<string>)
    requires |word| == |VerbName(v)| && Upper(word) == VerbName(v)
    requires arg.Some? ==> arg.value != "" && Trimmed(arg.value)
    ensures StripAscii(Format(word, arg)) == Format(word, arg)
    ensures Parse(StripAscii(Format(word, arg))) == Command(VerbName(v), arg)
  {
    FormatHasNoOuterSpace(v, word, arg);
    ParseFormat(v, word, arg);
  }

  lemma FormatHasNoOuterSpace(v: Verb, word: string, arg: Option<string>)
    requires |word| == |VerbName(v)| && Upper(word) == VerbName(v)
    requires arg.Some? ==> arg.value != "" && Trimmed(arg.value)
    ensures StripAscii(Format(word, arg)) == Format(word, arg)
  {
    SpellingHasNoSpace(v, word);
    var line := Format(word, arg);
    assert line[0] == word[0];
    if arg.Some? {
      assert line[|line| - 1] == arg.value[|arg.value| - 1];
    } else {
      assert line == word;
    }
    TrimNoop(line, IsAsciiSpace);
  }

  /**
    Before authentication every privileged command, in any letter case and
    with any argument, is answered with exactly 530 and changes nothing.
   */
  lemma UnauthenticatedPrivilegedRefused(v: Verb, word: string, arg: Option<string>, s: Session, fs: Fs, net: Net)
    requires Privileged(v) && !s.isAuthenticated
    requires |word| == |VerbName(v)| && Upper(word) == VerbName(v)
    requires arg.Some? ==> arg.value != "" && Trimmed(arg.value)
    ensures Step(s, fs, net, Format(word, arg)) == Continue(s, [Reply(NotLoggedIn)])
  {
    FormatSurvivesStrip(v, word, arg);
    RefusedWhenParsed(v, Format(word, arg), arg, s, fs, net);
  }

  lemma RefusedWhenParsed(v: Verb, line: string, arg: Option<string>, s: Session, fs: Fs, net: Net)
    requires Privileged(v) && !s.isAuthenticated
    requires StripAscii(line) != "" && Parse(StripAscii(line)) == Command(VerbName(v), arg)
    ensures Step(s, fs, net, line) == Continue(s, [Reply(NotLoggedIn)])
  {
    StepRunsVerb(s, fs, net, line, v, arg);
  }

  /** `CWD /tmp` from a client that has not logged in: 530 and the directory is unchanged. */
  lemma UnauthenticatedCwdRefused(s: Session, fs: Fs, net: Net)
    requires !s.isAuthenticated
    ensures Step(s, fs, net, "CWD /tmp") == Continue(s, [Reply(NotLoggedIn)])
  {
    assert Upper("CWD") == "CWD";
    assert Format("CWD", Some("/tmp")) == "CWD /tmp";
    UnauthenticatedPrivilegedRefused(Cwd, "CWD", Some("/tmp"), s, fs, net);
  }

  /**
    `PASS` sent before any `USER` is refused with 503, yet the session comes
    out authenticated.
   */
  lemma PassBeforeUserStillAuthenticates(fs: Fs, net: Net)
    ensures Step(Initial(), fs, net, "PASS x") == Continue(Initial().(isAuthenticated := true), [Reply(BadSequence)])
  {
    assert Upper("PASS") == "PASS";
    assert Format("PASS", Some("x")) == "PASS x";
    FormatSurvivesStrip(Pass, "PASS", Some("x"));
    PassLineBeforeUser("PASS x", "x", fs, net);
  }

  lemma PassLineBeforeUser(line: string, password: string, fs: Fs, net: Net)
    requires password != ""
    requires StripAscii(line) != "" && Parse(StripAscii(line)) == Command(VerbName(Pass), Some(password))
    ensures Step(Initial(), fs, net, line) == Continue(Initial().(isAuthenticated := true), [Reply(BadSequence)])
  {
    StepRunsVerb(Initial(), fs, net, line, Pass, Some(password));
  }

  /**
    A client's standard `PORT h1,h2,h3,h4,p1,p2` line always ends in the 502
    internal-error reply, because PORT drops the first five characters of
    its argument; in passive mode it has still closed the listener.
   */
  lemma StandardPortLineFails(s: Session, fs: Fs, net: Net, host: string, port: int)
    requires s.isAuthenticated && DottedQuad(host)
    ensures var r := Step(s, fs, net, Format("PORT", Some(PasvAddress(host, port))));
      && r.Continue?
      && r.out == [Reply(InternalError)]
      && r.s.dataAddr == s.dataAddr && r.s.dataPort == s.dataPort
      && (s.isPassiveMode && !s.listener.NoListener? ==>
            !r.s.isPassiveMode && r.s.listener == ListenerClosed(s.listener.port))
  {
    StandardPortLine(host, port);
    var arg := PasvAddress(host, port);
    PortLineWithoutTarget(s, fs, net, Format("PORT", Some(arg)), arg);
  }

  /** The standard PORT line survives parsing, and its argument names no target. */
  lemma StandardPortLine(host: string, port: int)
    requires DottedQuad(host)
    ensures var arg := PasvAddress(host, port);
      var line := Format("PORT", Some(arg));
      && StripAscii(line) != ""
      && Parse(StripAscii(line)) == Command(VerbName(Port), Some(arg))
      && PortTarget(arg).None?
  {
    var arg := PasvAddress(host, port);
    PasvAddressFields(host, port);
    var lo := NatToString(PortLow(port));
    assert arg[0] == Split(host, '.')[0][0];
    assert arg[|arg| - 1] == lo[|lo| - 1];
    assert Upper("PORT") == "PORT";
    FormatSurvivesStrip(Port, "PORT", Some(arg));
    StandardPortArgumentRejected(host, port);
  }

  lemma PortLineWithoutTarget(s: Session, fs: Fs, net: Net, line: string, arg: string)
    requires s.isAuthenticated && PortTarget(arg).None?
    requires StripAscii(line) != "" && Parse(StripAscii(line)) == Command(VerbName(Port), Some(arg))
    ensures var r := Step(s, fs, net, line);
      && r.Continue?
      && r.out == [Reply(InternalError)]
      && r.s.dataAddr == s.dataAddr && r.s.dataPort == s.dataPort
      && (s.isPassiveMode && !s.listener.NoListener? ==>
            !r.s.isPassiveMode && r.s.listener == ListenerClosed(s.listener.port))
  {
    var o := Handlers.Port(s, Some(arg));
    assert Handle(Port, s, fs, net, Some(arg)) == o;
    assert Authorize(Port, s, fs, net, Some(arg)) == o;
    StepRunsVerb(s, fs, net, line, Port, Some(arg));
  }

  /**
    PASV followed by a PORT whose argument carries five throw-away
    characters before the announced fields: PORT lands on the passive
    listener's own address and port, and passive mode ends.
   */
  lemma PasvThenPaddedPort(s: Session, fs: Fs, net: Net, net2: Net)
    requires s.isAuthenticated && DottedQuad(net.host) && ValidPort(net.ephemeralPort)
    ensures var r1 := Step(s, fs, net, "PASV");
      && r1.Continue? && r1.s.isPassiveMode && r1.s.listener == Listening(net.ephemeralPort)
      && var r2 := Step(r1.s, fs, net2, Format("PORT", Some("xxxxx" + PasvAddress(net.host, net.ephemeralPort))));
      && r2.Continue? && r2.out == [Reply(PortSet)]
      && r2.s.dataAddr == net.host && r2.s.dataPort == net.ephemeralPort
      && !r2.s.isPassiveMode && r2.s.listener == ListenerClosed(net.ephemeralPort)
  {
    PasvLine(s, fs, net);
    var r1 := Step(s, fs, net, "PASV");
    var arg := "xxxxx" + PasvAddress(net.host, net.ephemeralPort);
    PaddedPortLine(net.host, net.ephemeralPort);
    PortLineWithTarget(r1.s, fs, net2, Format("PORT", Some(arg)), arg);
  }

  /** `PASV` from a logged-in client opens a listener on the ephemeral port and enters passive mode. */
  lemma PasvLine(s: Session, fs: Fs, net: Net)
    requires s.isAuthenticated
    ensures var r := Step(s, fs, net, "PASV");
      && r.Continue? && r.s.isAuthenticated
      && r.s.isPassiveMode && r.s.listener == Listening(net.ephemeralPort)
      && r.out == [Reply("227 Entering Passive Mode (" + PasvAddress(net.host, net.ephemeralPort) + ").")]
  {
    assert Upper("PASV") == "PASV";
    assert Format("PASV", None) == "PASV";
    FormatSurvivesStrip(Pasv, "PASV", None);
    StepRunsVerb(s, fs, net, "PASV", Pasv, None);
  }

  /** The padded PORT line survives parsing and names the passive address. */
  lemma PaddedPortLine(host: string, port: int)
    requires DottedQuad(host) && ValidPort(port)
    ensures var arg := "xxxxx" + PasvAddress(host, port);
      var line := Format("PORT", Some(arg));
      && StripAscii(line) != ""
      && Parse(StripAscii(line)) == Command(VerbName(Port), Some(arg))
      && PortTarget(arg) == Some(Target(host, port))
  {
    var arg := "xxxxx" + PasvAddress(host, port);
    assert Upper("PORT") == "PORT";
    PasvAddressFields(host, port);
    var lo := NatToString(PortLow(port));
    assert arg[|arg| - 1] == lo[|lo| - 1];
    FormatSurvivesStrip(Port, "PORT", Some(arg));
    PasvPortRoundTrip(host, port, "xxxxx");
  }

  lemma PortLineWithTarget(s: Session, fs: Fs, net: Net, line: string, arg: string)
    requires s.isAuthenticated && PortTarget(arg).Some? && s.isPassiveMode && !s.listener.NoListener?
    requires StripAscii(line) != "" && Parse(StripAscii(line)) == Command(VerbName(Port), Some(arg))
    ensures var r := Step(s, fs, net, line);
      && r.Continue? && r.out == [Reply(PortSet)]
      && Target(r.s.dataAddr, r.s.dataPort) == PortTarget(arg).value
      && !r.s.isPassiveMode && r.s.listener == ListenerClosed(s.listener.port)
  {
    var o := Handlers.Port(s, Some(arg));
    assert Handle(Port, s, fs, net, Some(arg)) == o;
    assert Authorize(Port, s, fs, net, Some(arg)) == o;
    StepRunsVerb(s, fs, net, line, Port, Some(arg));
  }

  /**
    A directory entry that `os.stat` cannot read makes LIST raise after the
    passive data connection was accepted: the client has seen only 150, and
    the data socket and the listener are left open.
   */
  lemma UnstatableEntryLeavesChannelOpen(s: Session, fs: Fs, net: Net, dir: Path)
    requires s.isPassiveMode && s.listener.Listening? && net.acceptOk
    requires IsDir(fs, dir) && dir in fs.entries && |fs.entries[dir]| > 0
    requires PathJoin(dir, fs.entries[dir][0]) !in fs.meta
    ensures var o := ListExisting(s, fs, net, dir);
      && o.raised && o.out == [Reply(ListStart)]
      && o.s.dataSocket == Connected && o.s.listener == s.listener
  {
    var paths := ListPaths(fs, dir).value;
    assert paths[0] == PathJoin(dir, fs.entries[dir][0]);
  }

  /** A verb glued to its argument still runs: the first four characters are the verb. */
  lemma GluedArgumentParses()
    ensures Parse("RETRfile") == Command("RETR", Some("file"))
  {
    ParseColumns("RETR", "file", "RETR", "file");
    assert "RETRfile"[..4] == "RETR" && "RETRfile"[4..] == "file";
    TrimNoop("RETR", IsSpace);
    TrimNoop("file", IsSpace);
    assert Upper("RETR") == "RETR";
  }

  /**
    A three-letter verb glued to its argument is not found: `CWD/tmp` names
    the verb `CWD/`, which is answered with 502 and changes nothing.
   */
  lemma ShortVerbSwallowsArgument(s: Session, fs: Fs, net: Net)
    ensures Step(s, fs, net, "CWD/tmp") == Continue(s, [Reply(Unrecognized("CWD/"))])
  {
    CwdSlashLine();
    assert Lookup("CWD/").None?;
    UnknownVerbAnswers502(s, fs, net, "CWD/tmp");
  }

  lemma CwdSlashLine()
    ensures StripAscii("CWD/tmp") == "CWD/tmp" && Parse("CWD/tmp").verb == "CWD/"
  {
    TrimNoop("CWD/tmp", IsAsciiSpace);
    assert "CWD/tmp"[..4] == "CWD/";
    TrimNoop("CWD/", IsSpace);
    assert Upper("CWD/") == "CWD/";
  }

  /** `USER anon` then `PASS x` on a new session: 331, then 230, and the session is logged in. */
  lemma LoginSession(fs: Fs, net: Net)
    ensures var t := Run(Initial(), fs, [Input("USER anon", net), Input("PASS x", net)]);
      && t.open && t.out == [Reply(UserOk), Reply(LoggedIn)]
      && t.s.isAuthenticated && t.s.username == Some("anon") && t.s.password == "x"
      && t.s.currentDir == Root
  {
    var s1 := Initial().(username := Some("anon"));
    UserLine(fs, net);
    PassLine(s1, fs, net);
    LoopTwo(Turn(fs), Initial(), Input("USER anon", net), Input("PASS x", net));
  }

  lemma UserLine(fs: Fs, net: Net)
    ensures Step(Initial(), fs, net, "USER anon") == Continue(Initial().(username := Some("anon")), [Reply(UserOk)])
  {
    assert Upper("USER") == "USER" && Format("USER", Some("anon")) == "USER anon";
    FormatSurvivesStrip(User, "USER", Some("anon"));
    StepRunsVerb(Initial(), fs, net, "USER anon", User, Some("anon"));
  }

  lemma PassLine(s: Session, fs: Fs, net: Net)
    requires Truthy(s.username)
    ensures Step(s, fs, net, "PASS x") == Continue(s.(isAuthenticated := true, password := "x"), [Reply(LoggedIn)])
  {
    assert Upper("PASS") == "PASS" && Format("PASS", Some("x")) == "PASS x";
    FormatSurvivesStrip(Pass, "PASS", Some("x"));
    StepRunsVerb(s, fs, net, "PASS x", Pass, Some("x"));
  }

  /** After `CWD d` to an existing directory, `PWD` reports that directory's absolute form. */
  lemma CwdThenPwd(s: Session, fs: Fs, net: Net, d: string)
    requires s.isAuthenticated && d != "" && Trimmed(d) && IsDir(fs, d)
    ensures var t := Run(s, fs, [Input("CWD " + d, net), Input("PWD", net)]);
      && t.open && t.s.currentDir == d
      && t.out == [Reply(CwdOk), Reply("257 \"" + fs.abspath(d) + "\"")]
  {
    var s1 := s.(currentDir := d);
    CwdLine(s, fs, net, d);
    PwdLine(s1, fs, net);
    LoopTwo(Turn(fs), s, Input("CWD " + d, net), Input("PWD", net));
  }

  lemma CwdLine(s: Session, fs: Fs, net: Net, d: string)
    requires s.isAuthenticated && d != "" && Trimmed(d) && IsDir(fs, d)
    ensures Step(s, fs, net, "CWD " + d) == Continue(s.(currentDir := d), [Reply(CwdOk)])
  {
    assert Upper("CWD") == "CWD" && Format("CWD", Some(d)) == "CWD " + d;
    FormatSurvivesStrip(Cwd, "CWD", Some(d));
    StepRunsVerb(s, fs, net, "CWD " + d, Cwd, Some(d));
  }

  lemma PwdLine(s: Session, fs: Fs, net: Net)
    requires s.isAuthenticated
    ensures Step(s, fs, net, "PWD") == Continue(s, [Reply("257 \"" + fs.abspath(s.currentDir) + "\"")])
  {
    assert Upper("PWD") == "PWD" && Format("PWD", None) == "PWD";
    FormatSurvivesStrip(Pwd, "PWD", None);
    StepRunsVerb(s, fs, net, "PWD", Pwd, None);
  }

  /** HELP's answer changes nothing, and it does not start with the code 214: it starts with a line break. */
  lemma HelpReplyHasNoCode(s: Session, fs: Fs, net: Net)
    ensures Step(s, fs, net, "HELP") == Continue(s, [Reply(HelpText)])
    ensures Code(Reply(HelpText)) != "214"
  {
    HelpLine(s, fs, net);
    assert Code(Reply(HelpText))[0] == '\n' != "214"[0];
  }

  lemma HelpLine(s: Session, fs: Fs, net: Net)
    ensures Step(s, fs, net, "HELP") == Continue(s, [Reply(HelpText)])
  {
    assert Upper("HELP") == "HELP" && Format("HELP", None) == "HELP";
    FormatSurvivesStrip(Help, "HELP", None);
    StepRunsVerb(s, fs, net, "HELP", Help, None);
  }

  /**
    In active mode, a PORT target whose host does not resolve is only logged,
    even with a port out of range: LIST of an empty directory still answers
    150 then 226.
   */
  lemma UnresolvedTargetListCompletes(s: Session, fs: Fs, net: Net, dir: Path)
    requires !s.isPassiveMode && !net.resolves && FitsCInt(s.dataPort) && !ValidPort(s.dataPort)
    requires IsDir(fs, dir) && dir in fs.entries && fs.entries[dir] == []
    ensures ListExisting(s, fs, net, dir) == Outcome(s.(dataSocket := SocketClosed), [Reply(ListStart), Reply(ListDone)], false)
  {
  }

  /**
    A client that drops the data connection after the first chunk of a
    binary RETR: the second send raises, so the transcript holds 150, the
    first 1024 bytes and the 502 reply. The data socket stays connected and
    the passive listener stays open.
   */
  lemma ClientGoneMidRetr(s: Session, fs: Fs, net: Net, name: string)
    requires s.isAuthenticated && name != "" && Trimmed(name)
    requires s.isPassiveMode && s.listener.Listening? && net.acceptOk && net.dataSends == Some(1)
    requires s.reprType == Some("I") && CanOpen(fs, PathJoin(s.currentDir, name))
    requires |fs.files[PathJoin(s.currentDir, name)]| > ChunkSize
    ensures var first := fs.files[PathJoin(s.currentDir, name)][..ChunkSize];
      Step(s, fs, net, "RETR " + name)
        == Continue(s.(dataSocket := Connected), [Reply(RetrStart), DataBytes(first), Reply(InternalError)])
  {
    RetrStopsAfterFirstChunk(s, fs, net, name);
    RetrLine(s, fs, net, name);
  }

  lemma RetrLine(s: Session, fs: Fs, net: Net, name: string)
    requires s.isAuthenticated && name != "" && Trimmed(name)
    ensures var o := Handlers.Retr(s, fs, net, Some(name));
      Step(s, fs, net, "RETR " + name) == Continue(o.s, if o.raised then o.out + [Reply(InternalError)] else o.out)
  {
    assert Upper("RETR") == "RETR" && Format("RETR", Some(name)) == "RETR " + name;
    FormatSurvivesStrip(Retr, "RETR", Some(name));
    StepRunsVerb(s, fs, net, "RETR " + name, Retr, Some(name));
  }

  lemma RetrStopsAfterFirstChunk(s: Session, fs: Fs, net: Net, name: string)
    requires s.isPassiveMode && s.listener.Listening? && net.acceptOk && net.dataSends == Some(1)
    requires s.reprType == Some("I") && CanOpen(fs, PathJoin(s.currentDir, name))
    requires |fs.files[PathJoin(s.currentDir, name)]| > ChunkSize
    ensures var first := fs.files[PathJoin(s.currentDir, name)][..ChunkSize];
      Handlers.Retr(s, fs, net, Some(name))
        == Outcome(s.(dataSocket := Connected), [Reply(RetrStart), DataBytes(first)], true)
  {
    var b := fs.files[PathJoin(s.currentDir, name)];
    var cs := Chunks(b);
    assert cs == [b[..ChunkSize]] + Chunks(b[ChunkSize..]);
    var es := BytesEvents(cs);
    assert es[..1] == [DataBytes(b[..ChunkSize])];
  }

  /**
    PASV, then LIST of the working directory with the client connecting to
    the listener and staying for every line: 227, then 150, one line per
    entry, 226; the data socket and the listener are closed afterwards.
   */
  lemma PasvThenList(s: Session, fs: Fs, net: Net, net2: Net)
    requires s.isAuthenticated && net2.acceptOk
    requires var t := fs.abspath(s.currentDir);
      && Exists(fs, t) && ListPaths(fs, t).Some? && AllStated(fs, ListPaths(fs, t).value)
      && Takes(net2, |ListPaths(fs, t).value|)
    ensures var r1 := Step(s, fs, net, "PASV");
      var r2 := Step(r1.s, fs, net2, "LIST");
      var paths := ListPaths(fs, fs.abspath(s.currentDir)).value;
      && r1.Continue? && r2.Continue? && r2.s.isAuthenticated && r2.s.currentDir == s.currentDir
      && r2.out == [Reply(ListStart)] + Lines(fs, paths) + [Reply(ListDone)]
      && r2.s.listener == ListenerClosed(net.ephemeralPort) && r2.s.dataSocket == SocketClosed
  {
    PasvLine(s, fs, net);
    var s1 := Step(s, fs, net, "PASV").s;
    assert s1.currentDir == s.currentDir;
    ListLine(s1, fs, net2);
    ListCompletes(s1, fs, net2, fs.abspath(s.currentDir));
  }

  /** `LIST` with no argument from a logged-in client lists the working directory once it exists. */
  lemma ListLine(s: Session, fs: Fs, net: Net)
    requires s.isAuthenticated && Exists(fs, fs.abspath(s.currentDir))
    ensures var o := ListExisting(s, fs, net, fs.abspath(s.currentDir));
      Step(s, fs, net, "LIST") == Continue(o.s, if o.raised then o.out + [Reply(InternalError)] else o.out)
  {
    assert Upper("LIST") == "LIST" && Format("LIST", None) == "LIST";
    FormatSurvivesStrip(List, "LIST", None);
    StepRunsVerb(s, fs, net, "LIST", List, None);
  }

  lemma QuitLine(s: Session, fs: Fs, net: Net)
    ensures Step(s, fs, net, "QUIT") == Continue(s, [Reply(Goodbye)])
  {
    assert Upper("QUIT") == "QUIT" && Format("QUIT", None) == "QUIT";
    FormatSurvivesStrip(Quit, "QUIT", None);
    StepRunsVerb(s, fs, net, "QUIT", Quit, None);
  }

  /**
    A whole listing session: `USER anon`, `PASS x`, `PASV`, `LIST`, `QUIT`
    are answered 331, 230, 227, then 150, the listing lines and 226, then
    221, and the connection stays open for more commands.
   */
  lemma ListingSession(fs: Fs, net: Net, net2: Net)
    requires net2.acceptOk
    requires var t := fs.abspath(Root);
      && Exists(fs, t) && ListPaths(fs, t).Some? && AllStated(fs, ListPaths(fs, t).value)
      && Takes(net2, |ListPaths(fs, t).value|)
    ensures var t := Run(Initial(), fs,
        [Input("USER anon", net), Input("PASS x", net), Input("PASV", net), Input("LIST", net2), Input("QUIT", net)]);
      && t.open
      && t.out == [Reply(UserOk), Reply(LoggedIn)]
                  + ([Reply("227 Entering Passive Mode (" + PasvAddress(net.host, net.ephemeralPort) + ").")]
                     + ([Reply(ListStart)] + Lines(fs, ListPaths(fs, fs.abspath(Root)).value) + [Reply(ListDone)])
                     + [Reply(Goodbye)])
  {
    var a := [Input("USER anon", net), Input("PASS x", net)];
    var b := [Input("PASV", net), Input("LIST", net2), Input("QUIT", net)];
    assert a + b == [Input("USER anon", net), Input("PASS x", net), Input("PASV", net), Input("LIST", net2), Input("QUIT", net)];
    LoginSession(fs, net);
    var ta := Loop(Turn(fs), Initial(), a);
    PasvListQuit(ta.s, fs, net, net2);
    LoopAppend(Turn(fs), Initial(), a, b);
  }

  /** The last three commands of a listing session, from a logged-in session in the root. */
  lemma PasvListQuit(s: Session, fs: Fs, net: Net, net2: Net)
    requires s.isAuthenticated && s.currentDir == Root && net2.acceptOk
    requires var t := fs.abspath(Root);
      && Exists(fs, t) && ListPaths(fs, t).Some? && AllStated(fs, ListPaths(fs, t).value)
      && Takes(net2, |ListPaths(fs, t).value|)
    ensures var t := Loop(Turn(fs), s, [Input("PASV", net), Input("LIST", net2), Input("QUIT", net)]);
      && t.open
      && t.out == [Reply("227 Entering Passive Mode (" + PasvAddress(net.host, net.ephemeralPort) + ").")]
                  + ([Reply(ListStart)] + Lines(fs, ListPaths(fs, fs.abspath(Root)).value) + [Reply(ListDone)])
                  + [Reply(Goodbye)]
  {
    PasvLine(s, fs, net);
    PasvThenList(s, fs, net, net2);
    var r1 := Step(s, fs, net, "PASV");
    var r2 := Step(r1.s, fs, net2, "LIST");
    QuitLine(r2.s, fs, net);
    LoopThree(Turn(fs), s, Input("PASV", net), Input("LIST", net2), Input("QUIT", net));
  }
}
