/**
  `FtpServer.run` and the `authorize` decorator: a received line is stripped,
  split into a four-character verb and an argument, looked up among the
  handlers, gated on authentication, and run; unknown verbs and handler
  exceptions are answered with 502 and the session carries on.
 */
module Server {
  import opened Base
  import opened Text
  import opened FileSystem
  import opened FtpSession
  import Handlers

  /** The handler methods of `FtpServer`, the only upper-case attributes `getattr` can find. */
  datatype Verb = User | Pass | Type | Pasv | List | Port | Retr | Pwd | Cwd | Help | Quit

  function VerbName(v: Verb): string {
    match v
    case User => "USER"
    case Pass => "PASS"
    case Type => "TYPE"
    case Pasv => "PASV"
    case List => "LIST"
    case Port => "PORT"
    case Retr => "RETR"
    case Pwd => "PWD"
    case Cwd => "CWD"
    case Help => "HELP"
    case Quit => "QUIT"
  }

  /** `getattr(self, command)`: the verb whose name is exactly `command`, if any. */
  function Lookup(command: string): Option<Verb> {
    if command == "USER" then Some(User)
    else if command == "PASS" then Some(Pass)
    else if command == "TYPE" then Some(Type)
    else if command == "PASV" then Some(Pasv)
    else if command == "LIST" then Some(List)
    else if command == "PORT" then Some(Port)
    else if command == "RETR" then Some(Retr)
    else if command == "PWD" then Some(Pwd)
    else if command == "CWD" then Some(Cwd)
    else if command == "HELP" then Some(Help)
    else if command == "QUIT" then Some(Quit)
    else None
  }

  /** Lookup finds a verb exactly when the command is that verb's name. */
  lemma LookupFindsExactlyTheName(command: string, v: Verb)
    ensures Lookup(command) == Some(v) <==> command == VerbName(v)
  {
  }

  /** The handlers wrapped in `@authorize`. */
  predicate Privileged(v: Verb) {
    !(v.User? || v.Pass? || v.Help? || v.Quit?)
  }

  /** A parsed control line: the verb text and the argument, `None` when empty. */
  datatype Command = Command(verb: string, arg: Option<string>)

  /** No surrounding `str.strip()` whitespace. */
  predicate Trimmed(a: string) {
    |a| == 0 || (!IsSpace(a[0]) && !IsSpace(a[|a| - 1]))
  }

  /** `data[:4].strip().upper()` and `data[4:].strip() or None`. */
  function Parse(data: string): (c: Command)
    ensures |c.verb| <= 4
  {
    var head := if |data| <= 4 then data else data[..4];
    var rest := if |data| <= 4 then "" else data[4..];
    var arg := Strip(rest);
    Command(Upper(Strip(head)), if arg == "" then None else Some(arg))
  }

  /** The argument `Parse` extracts is never empty and has no surrounding whitespace. */
  lemma ParseArgTrimmed(data: string)
    ensures var c := Parse(data);
      c.arg.Some? ==> c.arg.value != "" && Trimmed(c.arg.value)
  {
    var rest := if |data| <= 4 then "" else data[4..];
    TrimLeftSpec(rest, IsSpace);
    TrimRightSpec(TrimLeft(rest, IsSpace), IsSpace);
  }

  /**
    The verb `Parse` extracts has no surrounding whitespace and no lower-case
    ASCII letter, and a line of at most four characters has no argument.
   */
  lemma ParseVerbShape(data: string)
    ensures var c := Parse(data);
      && Trimmed(c.verb)
      && (forall i :: 0 <= i < |c.verb| ==> !('a' <= c.verb[i] <= 'z'))
      && (|data| <= 4 ==> c.arg.None?)
  {
    var head := if |data| <= 4 then data else data[..4];
    var w := Strip(head);
    TrimLeftSpec(head, IsSpace);
    TrimRightSpec(TrimLeft(head, IsSpace), IsSpace);
    assert Trimmed(w);
    var v := Upper(w);
    if |v| > 0 {
      assert v[0] == UpperChar(w[0]) && v[|v| - 1] == UpperChar(w[|w| - 1]);
    }
    if |data| <= 4 {
      assert Strip("") == "";
    }
  }

  /**
    The split is by column, not by word: the first four characters alone
    decide the verb, and the rest alone decides the argument.
   */
  lemma ParseColumns(a: string, b: string, a2: string, b2: string)
    requires |a| == 4 && |a2| == 4
    ensures Parse(a + b).verb == Parse(a + b2).verb == Parse(a).verb
    ensures Parse(a + b).arg == Parse(a2 + b).arg
  {
    assert (a + b)[..4] == a && (a + b)[4..] == b;
    assert (a + b2)[..4] == a && (a2 + b)[4..] == b;
    if |b| == 0 {
      assert a + b == a && a2 + b == a2;
    }
    if |b2| == 0 {
      assert a + b2 == a;
    }
  }

  /** How a client writes a command: the verb (in any letter case), a space, the argument. */  /** How a client writes a command: the verb (in any letter case), a space, the argument. */
  function Format(word: string, arg: Option<string>): string {
    if arg.Some? then word + " " + arg.value else word
  }

  /** A space before trimmed text is the only thing `Strip` removes. */
  lemma StripAfterSpace(a: string)
    requires Trimmed(a)
    ensures Strip(" " + a) == a && Strip(a) == a && Strip(a + " ") == a
  {
    assert (" " + a)[1..] == a;
    TrimNoop(a, IsSpace);
    if |a| > 0 {
      assert TrimLeft(a, IsSpace) == a;
      assert TrimLeft(" " + a, IsSpace) == a;
      assert TrimLeft(a + " ", IsSpace) == a + " ";
      assert (a + " ")[..|a|] == a;
      assert TrimRight(a + " ", IsSpace) == TrimRight(a, IsSpace);
    } else {
      assert a + " " == " " && " "[1..] == "";
      assert TrimLeft(" ", IsSpace) == "";
    }
  }

  /** Parsing inverts formatting for any space-free word of three or four characters. */
  lemma ParseFormatWord(word: string, arg: Option<string>)
    requires 3 <= |word| <= 4 && forall i :: 0 <= i < |word| ==> !IsSpace(word[i])
    requires arg.Some? ==> arg.value != "" && Trimmed(arg.value)
    ensures Parse(Format(word, arg)) == Command(Upper(word), arg)
  {
    var line := Format(word, arg);
    StripAfterSpace(word);
    if arg.Some? {
      StripAfterSpace(arg.value);
      if |word| == 4 {
        assert line[..4] == word && line[4..] == " " + arg.value;
      } else {
        assert line[..4] == word + " " && line[4..] == arg.value;
      }
    } else {
      assert Strip("") == "";
    }
  }

  /** Verb names are made of upper-case ASCII letters. */
  lemma VerbNameLetters(v: Verb)
    ensures 3 <= |VerbName(v)| <= 4 && forall i :: 0 <= i < |VerbName(v)| ==> 'A' <= VerbName(v)[i] <= 'Z'
  {
  }

  /**
    Parsing inverts formatting: a verb written in any letter case followed by
    a trimmed, non-empty argument (or by nothing) parses back to the verb's
    name and that argument.
   */
  lemma ParseFormat(v: Verb, word: string, arg: Option<string>)
    requires |word| == |VerbName(v)| && Upper(word) == VerbName(v)
    requires arg.Some? ==> arg.value != "" && Trimmed(arg.value)
    ensures Parse(Format(word, arg)) == Command(VerbName(v), arg)
  {
    SpellingHasNoSpace(v, word);
    ParseFormatWord(word, arg);
  }

  /** Any spelling of a verb name, in any letter case, is three or four non-space characters. */
  lemma SpellingHasNoSpace(v: Verb, word: string)
    requires |word| == |VerbName(v)| && Upper(word) == VerbName(v)
    ensures 3 <= |word| <= 4 && forall i :: 0 <= i < |word| ==> !IsSpace(word[i])
  {
    VerbNameLetters(v);
    forall i | 0 <= i < |word| ensures !IsSpace(word[i]) {
      assert UpperChar(word[i]) == VerbName(v)[i];
    }
  }

  const NotLoggedIn := "530 User not logged in."
  const InternalError := "502 Command not implemented: Internal server error"

  function Unrecognized(command: string): string {
    "502 Command not implemented. Command '" + command + "' unrecognized.\r\n"
  }

  /** The session keeps a passive listener whenever it is in passive mode. */
  predicate Wf(s: Session) {
    s.isPassiveMode ==> !s.listener.NoListener?
  }

  /**
    What every handler promises the dispatcher: a normal return ends with a
    control reply, only PASS changes authentication, a data channel opened by
    the command is closed again unless the handler raised, passive mode keeps
    its listener, and listeners once leaked stay leaked.
   */
  predicate Sound(v: Verb, s: Session, o: Outcome) {
    && (!o.raised ==> |o.out| > 0 && o.out[|o.out| - 1].Reply?)
    && (o.s.isAuthenticated != s.isAuthenticated ==> v == Pass)
    && (!o.raised && s.dataSocket != Connected ==> o.s.dataSocket != Connected)
    && (Wf(s) ==> Wf(o.s))
    && o.s.leakedListeners >= s.leakedListeners
  }

  /** The handler a verb names. */
  function Handle(v: Verb, s: Session, fs: Fs, net: Net, arg: Option<string>): (o: Outcome)
    ensures Sound(v, s, o)
  {
    match v
    case User => Handlers.User(s, arg)
    case Pass => Handlers.Pass(s, arg)
    case Type => Handlers.TypeCmd(s, arg)
    case Pasv => Handlers.Pasv(s, net)
    case List => ListSound(s, fs, net, arg); Handlers.List(s, fs, net, arg)
    case Port => PortSound(s, arg); Handlers.Port(s, arg)
    case Retr => RetrSound(s, fs, net, arg); Handlers.Retr(s, fs, net, arg)
    case Pwd => Handlers.Pwd(s, fs)
    case Cwd => Handlers.Cwd(s, fs, arg)
    case Help => Handlers.Help(s)
    case Quit => Handlers.Quit(s)
  }

  lemma ListSound(s: Session, fs: Fs, net: Net, arg: Option<string>)
    ensures Sound(List, s, Handlers.List(s, fs, net, arg))
  {
    var t := Handlers.ListTarget(s, fs, arg);
    if Exists(fs, t) {
      var o := Handlers.ListExisting(s, fs, net, t);
      assert !o.raised ==> o.out[|o.out| - 1] == Reply(Handlers.ListDone);
    }
  }

  lemma PortSound(s: Session, arg: Option<string>)
    ensures Sound(Port, s, Handlers.Port(s, arg))
  {
  }

  lemma RetrSound(s: Session, fs: Fs, net: Net, arg: Option<string>)
    ensures Sound(Retr, s, Handlers.Retr(s, fs, net, arg))
  {
  }

  /**
    `authorize`: a privileged handler run on an unauthenticated session only
    answers 530 and touches nothing; otherwise the handler runs.
   */
  function Authorize(v: Verb, s: Session, fs: Fs, net: Net, arg: Option<string>): (o: Outcome)
    ensures Privileged(v) && !s.isAuthenticated ==> o == Outcome(s, [Reply(NotLoggedIn)], false)
    ensures !(Privileged(v) && !s.isAuthenticated) ==> o == Handle(v, s, fs, net, arg)
    ensures Sound(v, s, o)
  {
    if Privileged(v) && !s.isAuthenticated then Outcome(s, [Reply(NotLoggedIn)], false)
    else Handle(v, s, fs, net, arg)
  }

  /** The gate guards exactly the privileged verbs: on them it blocks, on the others it never does. */
  lemma GateBlocksExactlyPrivileged(v: Verb, s: Session, fs: Fs, net: Net, arg: Option<string>)
    requires !s.isAuthenticated
    ensures Authorize(v, s, fs, net, arg) == Outcome(s, [Reply(NotLoggedIn)], false) <==> Privileged(v)
  {
    if !Privileged(v) {
      var o := Handle(v, s, fs, net, arg);
      assert o.out[0] != Reply(NotLoggedIn) by {
        match v
        case User =>
          assert |Handlers.UserOk| != |NotLoggedIn| && |Handlers.UserMissing| != |NotLoggedIn|;
        case Pass => assert o.s.isAuthenticated;
        case Help => assert o.out[0].text[0] == '\n';
        case Quit => assert Code(o.out[0]) == "221";
      }
    }
  }

  /** One `recv` result handled by `run`: `Closed` when the loop ends. */
  datatype StepResult = Closed | Continue(s: Session, out: seq<Event>)

  /**
    One turn of the `run` loop on the received text (an empty read or a
    failed `recv` is the empty string). Text that strips to nothing ends the
    session; every other line is answered and the session continues.
   */
  function Step(s: Session, fs: Fs, net: Net, received: string): (r: StepResult)
    ensures r.Closed? <==> StripAscii(received) == ""
    ensures r.Continue? ==> |r.out| > 0 && r.out[|r.out| - 1].Reply?
    ensures r.Continue? && Wf(s) ==> Wf(r.s)
    ensures r.Continue? ==> r.s.leakedListeners >= s.leakedListeners
    ensures r.Continue? && s.isAuthenticated ==> r.s.isAuthenticated
  {
    var data := StripAscii(received);
    if |data| == 0 then Closed
    else
      var c := Parse(data);
      match Lookup(c.verb)
      case None => Continue(s, [Reply(Unrecognized(c.verb))])
      case Some(v) =>
        var o := Authorize(v, s, fs, net, c.arg);
        Continue(o.s, if o.raised then o.out + [Reply(InternalError)] else o.out)
  }

  /** A verb no handler has is answered with 502 naming it, and the session is left as it was. */
  lemma UnknownVerbAnswers502(s: Session, fs: Fs, net: Net, received: string)
    requires StripAscii(received) != ""
    requires Lookup(Parse(StripAscii(received)).verb).None?
    ensures Step(s, fs, net, received) == Continue(s, [Reply(Unrecognized(Parse(StripAscii(received)).verb))])
  {
  }

  /** Only a line naming PASS can change whether the session is authenticated. */
  lemma OnlyPassAuthenticates(s: Session, fs: Fs, net: Net, received: string)
    requires Step(s, fs, net, received).Continue?
    requires Step(s, fs, net, received).s.isAuthenticated != s.isAuthenticated
    ensures Lookup(Parse(StripAscii(received)).verb) == Some(Pass)
  {
  }

  /** A line that parses to a known verb runs that verb's handler behind the gate. */
  lemma StepRunsVerb(s: Session, fs: Fs, net: Net, received: string, v: Verb, arg: Option<string>)
    requires StripAscii(received) != ""
    requires Parse(StripAscii(received)) == Command(VerbName(v), arg)
    ensures var o := Authorize(v, s, fs, net, arg);
      Step(s, fs, net, received) == Continue(o.s, if o.raised then o.out + [Reply(InternalError)] else o.out)
  {
    LookupFindsExactlyTheName(VerbName(v), v);
  }

  /** A handler that raises still has its partial effects and output, followed by the 502 reply. */
  lemma RaisingHandlerAnswers502(s: Session, fs: Fs, net: Net, received: string, v: Verb)
    requires StripAscii(received) != ""
    requires Lookup(Parse(StripAscii(received)).verb) == Some(v)
    requires Authorize(v, s, fs, net, Parse(StripAscii(received)).arg).raised
    ensures var o := Authorize(v, s, fs, net, Parse(StripAscii(received)).arg);
      Step(s, fs, net, received) == Continue(o.s, o.out + [Reply(InternalError)])
  {
  }

  /** One received text and the network's behaviour while it is handled. */
  datatype Input = Input(received: string, net: Net)

  /** The state after a run of the loop, what was written, and whether the loop is still going. */
  datatype Transcript = Transcript(s: Session, out: seq<Event>, open: bool)

  /** A receive that strips to nothing: the peer closed, `recv` failed, or only whitespace arrived. */
  predicate Blank(i: Input) {
    StripAscii(i.received) == ""
  }

  /** The shape of the `run` loop: one turn per received text until a turn closes the session. */
  function Loop(turn: (Session, Input) -> StepResult, s: Session, inputs: seq<Input>): Transcript
    decreases |inputs|
  {
    if |inputs| == 0 then Transcript(s, [], true)
    else
      match turn(s, inputs[0])
      case Closed => Transcript(s, [], false)
      case Continue(s1, out) =>
        var rest := Loop(turn, s1, inputs[1..]);
        Transcript(rest.s, out + rest.out, rest.open)
  }

  /**
    The loop stays open exactly when no turn closed it, and any property
    `inv` of the session that every answered turn preserves holds at the end
    whenever it held at the start.
   */
  lemma {:induction false} LoopFacts(
    turn: (Session, Input) -> StepResult, inv: Session -> bool, s: Session, inputs: seq<Input>)
    requires forall s1, i :: turn(s1, i).Closed? <==> Blank(i)
    requires forall s1, i :: inv(s1) && turn(s1, i).Continue? ==> inv(turn(s1, i).s)
    ensures Loop(turn, s, inputs).open <==> forall i :: 0 <= i < |inputs| ==> !Blank(inputs[i])
    ensures inv(s) ==> inv(Loop(turn, s, inputs).s)
    decreases |inputs|
  {
    if |inputs| > 0 {
      var r := turn(s, inputs[0]);
      if r.Continue? {
        LoopFacts(turn, inv, r.s, inputs[1..]);
        assert forall i :: 1 <= i < |inputs| ==> inputs[i] == inputs[1..][i - 1];
      }
    }
  }

  /** Running two batches of input one after the other is running their concatenation. */
  lemma {:induction false} LoopAppend(turn: (Session, Input) -> StepResult, s: Session, a: seq<Input>, b: seq<Input>)
    ensures var ta := Loop(turn, s, a);
      Loop(turn, s, a + b) ==
        if ta.open then
          var tb := Loop(turn, ta.s, b);
          Transcript(tb.s, ta.out + tb.out, tb.open)
        else ta
    decreases |a|
  {
    if |a| > 0 {
      assert (a + b)[0] == a[0] && (a + b)[1..] == a[1..] + b;
      var r := turn(s, a[0]);
      if r.Continue? {
        LoopAppend(turn, r.s, a[1..], b);
        var ra := Loop(turn, r.s, a[1..]);
        if ra.open {
          var tb := Loop(turn, ra.s, b);
          assert r.out + (ra.out + tb.out) == (r.out + ra.out) + tb.out;
        }
      }
    } else {
      assert a + b == b;
    }
  }

  /** Two inputs that each get an answer: the loop stays open and writes both answers in order. */
  lemma LoopTwo(turn: (Session, Input) -> StepResult, s: Session, i1: Input, i2: Input)
    requires turn(s, i1).Continue? && turn(turn(s, i1).s, i2).Continue?
    ensures var r1 := turn(s, i1);
      var r2 := turn(r1.s, i2);
      Loop(turn, s, [i1, i2]) == Transcript(r2.s, r1.out + r2.out, true)
  {
    var r1 := turn(s, i1);
    var r2 := turn(r1.s, i2);
    assert [i2][1..] == [];
    assert Loop(turn, r2.s, []) == Transcript(r2.s, [], true);
    assert r2.out + [] == r2.out;
    assert Loop(turn, r1.s, [i2]) == Transcript(r2.s, r2.out, true);
    assert [i1, i2][1..] == [i2];
  }

  /** Three inputs that each get an answer: the loop stays open and writes the three answers in order. */
  lemma LoopThree(turn: (Session, Input) -> StepResult, s: Session, i1: Input, i2: Input, i3: Input)
    requires turn(s, i1).Continue? && turn(turn(s, i1).s, i2).Continue?
    requires turn(turn(turn(s, i1).s, i2).s, i3).Continue?
    ensures var r1 := turn(s, i1);
      var r2 := turn(r1.s, i2);
      var r3 := turn(r2.s, i3);
      Loop(turn, s, [i1, i2, i3]) == Transcript(r3.s, r1.out + r2.out + r3.out, true)
  {
    var r1 := turn(s, i1);
    LoopTwo(turn, r1.s, i2, i3);
    assert [i1, i2, i3][1..] == [i2, i3];
    var r2 := turn(r1.s, i2);
    var r3 := turn(r2.s, i3);
    assert r1.out + (r2.out + r3.out) == r1.out + r2.out + r3.out;
  }

  /** One turn of this server's loop over a fixed filesystem. */
  function Turn(fs: Fs): (Session, Input) -> StepResult {
    (s: Session, i: Input) => Step(s, fs, i.net, i.received)
  }

  /**
    The `run` loop over successive receives: it stays open until the first
    blank receive, keeps a passive listener whenever it is in passive mode,
    never logs a session out, and never takes back a leaked listener.
   */
  function Run(s: Session, fs: Fs, inputs: seq<Input>): (t: Transcript)
    ensures t.open <==> forall i :: 0 <= i < |inputs| ==> !Blank(inputs[i])
    ensures Wf(s) ==> Wf(t.s)
    ensures s.isAuthenticated ==> t.s.isAuthenticated
    ensures t.s.leakedListeners >= s.leakedListeners
  {
    LoopFacts(Turn(fs), Wf, s, inputs);
    LoopFacts(Turn(fs), (s1: Session) => s1.isAuthenticated, s, inputs);
    LoopFacts(Turn(fs), (s1: Session) => s1.leakedListeners >= s.leakedListeners, s, inputs);
    Loop(Turn(fs), s, inputs)
  }

  const Welcome := "220 Welcome."

  /** A whole connection: the welcome line, then the loop from the initial state. */
  function Serve(fs: Fs, inputs: seq<Input>): (t: Transcript)
    ensures |t.out| > 0 && t.out[0] == Reply(Welcome)
    ensures Wf(t.s)
  {
    var t := Run(Initial(), fs, inputs);
    Transcript(t.s, [Reply(Welcome)] + t.out, t.open)
  }
}
