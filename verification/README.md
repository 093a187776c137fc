# PyFtpServer session model

A Dafny model of the per-connection FTP session of PyFtpServer (`main.py`).
It covers what one `FtpServer` thread does with its control connection:

- how a received line is stripped, cut into a four-character verb and an
  argument, looked up and gated by `@authorize`;
- the eleven command handlers (USER, PASS, TYPE, PASV, LIST, PORT, RETR, PWD,
  CWD, HELP, QUIT);
- the life cycle of the passive listener and the data socket;
- how handler exceptions turn into `502` replies;
- the `run` loop over successive receives.

The handlers are pure functions from the session record to an `Outcome`
(new record, events written, whether a Python exception escaped).

Modules, one per file:

| file | module | what it holds |
|---|---|---|
| `base.dfy` | `Base` | `Option` (Python `None`) |
| `text.dfy` | `Text` | the Python string built-ins the code relies on: `str.strip`, `bytes.strip`, `upper`, `split`, `join`, `int()` and decimal rendering |
| `filesystem.dfy` | `FileSystem` | an abstract read-only filesystem, POSIX `os.path.join`/`basename`, the LIST line and a client-side reading of it |
| `session.dfy` | `FtpSession` | the `FtpServer` fields, `start_datasocket`, `stop_datasocket`, `send_data`, transcripts |
| `handlers.dfy` | `Handlers` | the command handlers |
| `server.dfy` | `Server` | parsing, `getattr` lookup, the 530 gate, one turn of `run`, the loop |
| `scenarios.dfy` | `Scenarios` | whole-line properties and concrete sessions |

Sockets are tokens. What the network does during one command is a `Net`
value: the server address, the ephemeral PASV port, whether `accept` returns
a connection, whether the PORT target's host resolves, whether `connect`
succeeds, and how many data sends the client takes before it goes away (a
send after that raises `BrokenPipeError` or `ConnectionResetError`). Filesystem queries read an `Fs` value. For text-mode
reads, `Fs` also holds each file's decoded text.

Where the code's behaviour is surprising, the model follows the code:

- PASS sets `is_authenticated` on every call, including the 501 and 503
  branches, so PASS before USER still logs the client in.
- PORT parses `cmd[5:]`, not `cmd`. A standard `h1,h2,h3,h4,p1,p2` argument
  therefore always raises, and the client gets 502. The argument works only
  with five throw-away characters in front.
- PORT closes the passive listener and leaves passive mode before parsing.
  A malformed PORT still ends passive mode and also answers 502.
- Python does not roll back, so a handler that raises keeps its partial
  effects and output. The dispatcher appends the 502 reply after them.
- A second PASV replaces the earlier listener without calling `close()` on
  it. CPython's finalizer closes it once it is unreferenced. The model counts
  these missing closes.
- LIST or RETR can raise after the data connection was accepted, for example
  when `os.stat` fails on a directory entry or the client drops the data
  connection mid-transfer. The data socket and a passive listener then stay
  open, and a later transfer whose accept fails reuses that stale socket.
- RETR reads in binary only for type `I`. Every other type, including the
  initial `""` and `None`, reads text. `send_data` appends CRLF to each text
  chunk, so a text-mode RETR puts two extra characters on the wire per
  1024-character read.
- PORT stores any integer as the target port. When `connect` later resolves
  a host that does not exist, the lookup error is caught and logged, even
  if the port is out of range.

## Model

| member | source | states |
|---|---|---|
| `Text.TrimLeftSpec` | main.py:72-73 | `strip` removes only leading whitespace and keeps the rest as a suffix, stopping at the first non-space |
| `Text.TrimRightSpec` | main.py:72-73 | `strip` removes only trailing whitespace and keeps a prefix |
| `Text.TrimNoop` | main.py:58 | text with no whitespace at either end is unchanged by `strip` |
| `Text.Upper` | main.py:72 | `upper` keeps the length and upper-cases each character on its own (ASCII letters) |
| `Text.Split` | main.py:200 | `split(sep)` yields one piece more than there are separators, none containing the separator |
| `Text.JoinSplit` | main.py:162 | `sep.join(s.split(sep)) == s` for every text |
| `Text.SplitJoin` | main.py:200 | splitting the join of separator-free pieces gives the pieces back |
| `Text.JoinAppend` | main.py:162 | `join` of two non-empty piece lists is the two joins around one separator |
| `Text.NatToString` | main.py:163 | the decimal rendering of a natural is a non-empty digit string whose value is the number |
| `Text.ParseIntOfNatToString` | main.py:202 | `int()` reads back every rendered natural |
| `FileSystem.PathJoin` | main.py:172 | `os.path.join` returns an absolute second part as is, otherwise a path ending with it |
| `FileSystem.Basename` | main.py:184 | `os.path.basename` is the longest slash-free suffix; the character before it is a slash |
| `FileSystem.BasenameAfterSlash` | main.py:184 | a slash-free tail that starts the path or follows a slash is the basename |
| `FileSystem.BasenameOfJoin` | main.py:187-190 | the listed name of `join(dir, entry)` is the entry for every slash-free entry |
| `FileSystem.ListingLineFields` | main.py:190 | a listing line splits at spaces into rights, four numbers, the time stamp's words and the name |
| `FileSystem.ListingLineRoundTrip` | main.py:190 | every listing line whose name has no space reads back to the same kind, stat fields and name |
| `FtpSession.Initial` | main.py:32-48 | a new session is unauthenticated and active, in `CWD`, with no listener and no data socket |
| `FtpSession.StartData` | main.py:88-97 | passive accepts on the listener and active connects to the PORT target; socket errors leave the socket unconnected or as it was; it raises exactly on a missing listener, a port beyond a C `int`, or a resolved host with a port out of 0..65535 |
| `FtpSession.StopData` | main.py:99-106 | closes the data socket, and also the listener in passive mode; `is_passive_mode` is left as it is; raises exactly when there is no socket, or no listener in passive mode |
| `FtpSession.SendData` | main.py:113-119 | a send goes through exactly on a connected socket whose client has not gone away, and writes only that event; otherwise it raises having written nothing |
| `FtpSession.PayloadAppend` | main.py:229-233 | the bytes sent by two transcripts in a row are their payloads in a row |
| `FtpSession.TextPayloadAppend` | main.py:229-233 | the same for the strings handed to `send_data` in text mode |
| `FtpSession.WireTextAppend` | main.py:113-117 | the same for those strings as they go over the wire, each followed by CRLF |
| `Handlers.User` | main.py:126-131 | USER stores its argument unchecked and answers 331 exactly for a non-empty one, 501 otherwise |
| `Handlers.Pass` | main.py:133-142 | 230 exactly when password and username are both non-empty; 501 / 503 otherwise; the password is stored only on 230; authenticated afterwards in every branch |
| `Handlers.TypeCmd` | main.py:144-152 | TYPE stores the code in every case; 200 for `I` or `A`, otherwise the 501 text naming the code |
| `Handlers.Pasv` | main.py:154-163 | passive mode on a fresh listener at the ephemeral port; a still-open earlier listener is leaked; the 227 reply carries host and port bytes |
| `Handlers.PasvAddressFields` | main.py:161-163 | the PASV address is six non-empty comma-free fields that split back apart |
| `Handlers.PortBytes` | main.py:163 | the two announced port bytes recombine to any port in range |
| `Handlers.PasvPortRoundTrip` | main.py:200-202 | PORT reads back the PASV host and port when five characters precede them |
| `Handlers.StandardPortArgumentRejected` | main.py:200-202 | PORT finds no target in the standard six-field argument of a dotted-quad host |
| `Handlers.Port` | main.py:194-206 | leaves passive mode, closing the listener, before parsing; raises exactly when passive mode has no listener to close, or the argument is missing or yields no target; on success 200 and the parsed target; on raise the old target stays |
| `Handlers.ListTarget` | main.py:167-172 | LIST lists the working directory, an absolute argument, or the argument joined to the working directory, each through `abspath` |
| `Handlers.ListPaths` | main.py:180-187 | a file is listed as itself; a directory as each `listdir` entry joined to it, in order; `listdir` failure is `None` |
| `Handlers.StatedPrefix` | main.py:186-190 | the number of leading paths that can be stat'ed; the next one cannot |
| `Handlers.Lines` | main.py:186-190 | one data line per path, in order, each the listing line of that path |
| `Handlers.SendLines` | main.py:186-190 | completes exactly when all paths stat and the connected client takes every line (or there is nothing to send); otherwise it stops at the first path whose stat or send fails, having sent the lines before it |
| `Handlers.ListingReadsBack` | main.py:186-190 | each data line of a directory listing reads back to the matching `listdir` name, its kind and its stat fields |
| `Handlers.List` | main.py:165-176 | 550 exactly when the target does not exist; otherwise the transfer of an existing target |
| `Handlers.ListExisting` | main.py:177-192 | 150 first; a completed LIST sends 150, every line, then 226, and closes the data socket |
| `Handlers.ListCompletes` | main.py:177-192 | when the data connection comes up, every path stats and the client takes every line, LIST completes and closes a passive listener |
| `Handlers.Chunks` | main.py:229-233 | the reads are non-empty and exhaust the file; all but the last are exactly 1024 items, so there are the file's length over 1024, rounded up |
| `Handlers.ChunksFrom` | main.py:229-233 | one read at a position is the first chunk of what remains, so the chunks still to come are unchanged by taking it |
| `Handlers.ReadChunks` | main.py:229-233 | the read loop produces exactly those reads, and together they are the file |
| `Handlers.BytesEvents` | main.py:229-233 | a binary read is sent as one byte event per chunk |
| `Handlers.TextEvents` | main.py:229-233 | a text read is sent as one string event per chunk |
| `Handlers.PayloadOfChunks` | main.py:229-233 | the byte events of the reads carry the file's bytes |
| `Handlers.TextOfChunks` | main.py:229-233 | the strings the text reads hand to `send_data` are the file's text |
| `Handlers.Terminated` | main.py:116-117 | the reads each followed by CRLF are two characters longer per read than the reads themselves |
| `Handlers.WireOfChunks` | main.py:229-233 | on the wire the text reads appear each followed by CRLF |
| `Handlers.SendAll` | main.py:229-233 | every event goes out in order exactly when the socket is connected and the client takes them all; otherwise the loop raises at the first send that fails, having sent the events before it (none on an unconnected socket) |
| `Handlers.SendAllSteps` | main.py:229-233 | the send loop is `send_data` repeated: one more event goes as `send_data` sends it after the earlier ones, and nothing follows a raise |
| `Handlers.Transfer` | main.py:226-237 | 150 first; a completed transfer is 150, the reads, 226, with the data socket closed; an unreadable text file raises |
| `Handlers.Retr` | main.py:208-224 | no argument raises; 550 for a missing file, 450 for one that cannot be opened, and nothing else changes; otherwise the transfer |
| `Handlers.RetrDeliversFile` | main.py:215-237 | a completed RETR sends, between 150 and 226, exactly the file. Under type `I` that is its bytes. Otherwise `send_data` receives its text, and the wire carries each read followed by CRLF: the file's length plus two per 1024 characters, rounded up |
| `Handlers.RetrCompletes` | main.py:215-237 | when the data connection comes up, the file can be read in the session's mode and the client takes every chunk, RETR completes |
| `Handlers.Pwd` | main.py:239-242 | 257 with the quoted absolute working directory; nothing changes |
| `Handlers.Cwd` | main.py:245-257 | 250 exactly when the argument or its join with the working directory is a directory, which is adopted (the argument first); otherwise 550 and no change; no argument raises |
| `Handlers.Help` | main.py:262-266 | HELP answers the bare 214 text and changes nothing |
| `Handlers.Quit` | main.py:268-269 | QUIT answers 221, changes nothing and does not end the loop |
| `Server.LookupFindsExactlyTheName` | main.py:75-80 | `getattr` finds a handler exactly when the command is its name |
| `Server.Parse` | main.py:72-73 | the verb text is at most four characters |
| `Server.ParseVerbShape` | main.py:72-73 | the verb has no surrounding whitespace and no lower-case ASCII letter; a line of at most four characters has no argument |
| `Server.ParseColumns` | main.py:72-73 | the first four characters alone decide the verb, and the rest alone decides the argument |
| `Server.ParseArgTrimmed` | main.py:73 | the argument is `None` or non-empty with no surrounding whitespace |
| `Server.ParseFormat` | main.py:72-73 | a verb in any letter case, a space and a trimmed argument parse back to the verb's name and the argument |
| `Server.Handle` | main.py:82-83 | every handler ends a normal return with a reply, leaves authentication alone unless it is PASS, does not leave a data socket it connected open unless it raised, keeps a passive listener, and never un-leaks a listener |
| `Server.ListSound` | main.py:165-192 | LIST meets that contract |
| `Server.PortSound` | main.py:194-206 | PORT meets that contract |
| `Server.RetrSound` | main.py:208-237 | RETR meets that contract |
| `Server.Authorize` | main.py:21-28 | a privileged verb on an unauthenticated session answers 530 and changes nothing; otherwise the handler runs |
| `Server.GateBlocksExactlyPrivileged` | main.py:21-28 | before login the gate's 530 answer comes exactly from the verbs under `@authorize` |
| `Server.Step` | main.py:56-86 | a receive closes the session exactly when it strips to nothing; every other turn ends with a control reply, keeps the listener invariant, never reduces the leak count, and never logs the session out |
| `Server.UnknownVerbAnswers502` | main.py:75-80 | an unknown verb gets 502 naming it and changes nothing |
| `Server.OnlyPassAuthenticates` | main.py:142 | a turn that changes authentication was a PASS line |
| `Server.StepRunsVerb` | main.py:72-86 | a line that parses to a verb runs that verb behind the gate, with 502 appended when it raises |
| `Server.RaisingHandlerAnswers502` | main.py:82-86 | a raising handler's partial effects and output stay, followed by the 502 reply |
| `Server.LoopFacts` | main.py:52-63 | the loop is still open exactly when no receive was blank, and any session property every answered turn preserves holds after the loop if it held before |
| `Server.LoopAppend` | main.py:52-86 | running two batches of receives in a row is running their concatenation |
| `Server.LoopTwo` | main.py:52-86 | two answered receives leave the loop open with both answers in order |
| `Server.LoopThree` | main.py:52-86 | three answered receives leave the loop open with the three answers in order |
| `Server.Run` | main.py:50-63 | `run` stays open until the first blank receive; a passive session always has a listener, a logged-in session stays logged in, and the leak count never drops |
| `Server.Serve` | main.py:50-52 | a connection starts with the 220 welcome and keeps the listener invariant |
| `Scenarios.FormatSurvivesStrip` | main.py:58-73 | a client-formatted command line passes through `bytes.strip` unchanged and parses to its verb and argument |
| `Scenarios.UnauthenticatedPrivilegedRefused` | main.py:21-28 | before login every privileged command line, in any case and with any argument, gets exactly 530 and changes nothing |
| `Scenarios.UnauthenticatedCwdRefused` | main.py:21-28 | `CWD /tmp` before login answers exactly 530 and leaves the working directory unchanged |
| `Scenarios.PassBeforeUserStillAuthenticates` | main.py:133-142 | `PASS x` on a new session answers 503 yet authenticates it |
| `Scenarios.StandardPortLineFails` | main.py:194-206 | the standard `PORT h1,..,p2` line from a logged-in client gets only 502, keeps the old target, and in passive mode still closes the listener |
| `Scenarios.PortLineWithTarget` | main.py:194-206 | a PORT line whose argument names a target, in passive mode, answers 200, sets the target and closes the listener |
| `Scenarios.PasvLine` | main.py:154-163 | `PASV` from a logged-in client enters passive mode on the ephemeral port and answers 227 |
| `Scenarios.PasvThenPaddedPort` | main.py:154-206 | PASV then a padded PORT with its address lands on the listener's own host and port and ends passive mode |
| `Scenarios.UnstatableEntryLeavesChannelOpen` | main.py:177-191 | a directory entry that cannot be stat'ed makes LIST raise after 150 with the data socket and the listener left open |
| `Scenarios.GluedArgumentParses` | main.py:72-73 | `RETRfile` parses to the verb RETR with the argument `file` |
| `Scenarios.ShortVerbSwallowsArgument` | main.py:72-80 | `CWD/tmp` names the unknown verb `CWD/`: 502 and no change |
| `Scenarios.LoginSession` | main.py:126-142 | `USER anon` then `PASS x` on a new connection answer 331 then 230 and leave it logged in as `anon` |
| `Scenarios.CwdThenPwd` | main.py:239-257 | `CWD d` to an existing directory, then `PWD`, answer 250 then 257 with the absolute form of `d` |
| `Scenarios.HelpReplyHasNoCode` | main.py:262-266 | HELP changes nothing, and its reply does not start with the code 214: it starts with a line break |
| `Scenarios.ListLine` | main.py:165-176 | a bare `LIST` from a logged-in client lists the working directory once it exists, with 502 after a raise |
| `Scenarios.PasvThenList` | main.py:154-192 | PASV, then LIST of the working directory with the client connecting and taking every line, answer 227, then 150, one line per entry and 226, and close the data socket and the listener |
| `Scenarios.QuitLine` | main.py:268-269 | a `QUIT` line answers 221 and changes nothing, with or without login |
| `Scenarios.PasvListQuit` | main.py:154-269 | `PASV`, `LIST`, `QUIT` from a logged-in session in the root answer 227, the listing between 150 and 226, then 221, and the loop stays open |
| `Scenarios.ListingSession` | main.py:50-269 | `USER anon`, `PASS x`, `PASV`, `LIST`, `QUIT` on a new connection answer 331, 230, 227, 150, the listing lines, 226, 221 |
| `Scenarios.RetrLine` | main.py:208-237 | a `RETR name` line from a logged-in client runs RETR, with 502 after a raise |
| `Scenarios.RetrStopsAfterFirstChunk` | main.py:226-233 | a passive binary RETR of a file over 1024 bytes, to a client that takes one send, raises after 150 and the first 1024 bytes, with the data socket still connected |
| `Scenarios.ClientGoneMidRetr` | main.py:226-233 | the same as a command line: 150, the first 1024 bytes, then 502, with the data socket and the listener left open |
| `Scenarios.UnresolvedTargetListCompletes` | main.py:94-97 | in active mode, with a target host that does not resolve and a port out of range, LIST of an empty directory answers 150 then 226 |

## Left out

- Socket I/O itself is not modelled: a send that fails on the control connection, partial sends, and the CRLF framing of replies. A reply is its text. On the data connection, a client that goes away is modelled only as a count of sends that go through; the partial send that can precede the raise is not. The CRLF `send_data` appends to data strings is modelled by `WireText`.
- Each receive is taken as exactly one command line. Several commands in one `recv(1024)`, or one command split across receives, are not modelled.
- Received text is taken as already decoded. Bytes that are not valid UTF-8 raise `UnicodeDecodeError`. The source does not catch it there, so the thread ends. That path is not modelled.
- `Text.Upper` handles ASCII letters only. Python's `str.upper` also maps `ı` to `I` and `ſ` to `S`, so a line like `paſs x` reaches PASS in the source but is an unknown verb here.
- `int()` is modelled on ASCII digits with an optional sign and surrounding whitespace. Underscores between digits and non-ASCII decimal digits, which Python also accepts, are not.
- The `STOP` flag, threads, `server_listener`, the `__main__` block and logging are out of scope. The `mtime` column is an opaque string because `time.strftime` and `gmtime` are not modelled.
- A passive data connection that never arrives blocks `accept` forever, because the listener has no timeout, and the session stops answering. The model does not represent that; `acceptOk` false stands for an `accept` that raises.
- `FtpSession.StartData`: two kinds of PORT host make `connect` raise `TypeError` and escape. One is a non-ASCII host that the IDNA codec rejects ("encoding of hostname failed"); the other is a host containing a NUL character. CPython encodes the host before it converts the port to a C `int`, so either error comes first. The model counts both as hosts that do not resolve, which is only logged.
- PASV socket creation, `bind` and `listen` are assumed to succeed. Their failures are not modelled, and `HOST` is a parameter.
- `start_datasocket` overwrites `self.address` on accept. Nothing else reads that field, so it is left out.
- `os.path.abspath` and the process working directory are parameters of the filesystem. The model has no path normalisation of its own.
- A text-mode decoding error is modelled as raising at the first read. In the source it raises at the read that meets the bad bytes, after earlier chunks have been sent.
- Opened files are never closed when RETR raises. The model has no file handles, so that leak is not tracked.
- STOR, MKD, RMD, DELE, SIZE and MDTM have no handler in the source. `getattr` does not find them, so they are unknown verbs (502), as modelled.
