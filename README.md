# Clivia engine model

A Dafny model of the engine class `Clivia` of clivia, a command-line session
multiplexer for MicroPython boards. The engine keeps five tables: input streams
and output streams by name, sessions by input-stream name, and argument parsers
and commands (handler plus required permission level) by command name. Each
call of `loop` reads one line from every ready input stream. For each line it:

- resolves an optional trailing `<< name` (act on behalf of another session) or
  `>> name` (write to another output stream);
- looks the command up;
- treats `exit` as closing the source session;
- checks the permission level;
- runs the parser, the handler and the session's return handler.

The model has two layers:

- `registry.dfy`, `dispatch.dfy` and `loop.dfy` define each operation as a
  function on an `EngineState` value, and prove its properties as lemmas.
- `engine.dfy` holds the class `Clivia`. Its five `map` fields are updated in
  place, the way the source updates its dicts. Every method is proved to
  produce exactly what the matching function says. `DispatchLine` takes tokens
  off the list the way the source's `pop` calls do. `Loop` is a `for` loop over
  the ready lines.

The argument parser, the command handlers and custom return handlers are foreign
code. They are the function-valued fields of `Loop.Collaborators`, which either
succeed with a value or fail. Each receives the name of the destination output
stream, which stands for the `print` the source binds to that stream.

Where the source has a defect, the model follows what the code evidently means:

- The ready reader is identified by its name. The source looks this name up by
  iterating `in_streams.values()` while unpacking pairs.
- Sessions are registered under `stream_in_name`. The source reads
  `session.name`, which sessions do not have.
- `close_session` removes entries by key. The source calls `popitem` with a
  value.

In these places the model follows the code, which a reader might not expect:

- `exit` is honoured only if a command named `exit` is registered. The lookup
  in `commands` comes before the `exit` test (clivia/clivia.py:122-128).
  `exit` is never permission-checked.
- An empty line is not skipped. It reaches `pop(0)` and raises, after the
  session and output-stream lookups (clivia/clivia.py:106-121).
- Only `>>` redirects output. `>` is an ordinary token.
- `register_session` does not mount the session's streams.
- Every error ends the whole `loop` call, including a failing handler. The
  remaining ready lines are not processed.
- There is no `unmount`. A second mount of a name silently overwrites the first.

## Model

| member | source | states |
|---|---|---|
| Sessions.NewSession | clivia/clivia.py:21-27 | a new session borrows both streams (`close_in`/`close_out` false), uses the no-op return handler and keeps the given names and level |
| Registry.Mount | clivia/clivia.py:55-59 | STREAM_IN/STREAM_IO bind the input name to the handle, STREAM_OUT/STREAM_IO the output name; any other mode leaves that namespace unchanged; every other name keeps its binding; sessions and commands untouched |
| Registry.GetStream | clivia/clivia.py:61-74 | the mode is the bit mask (1 input, 2 output) of the namespaces holding the name, so IO iff both, IN iff input only, OUT iff output only, CLOSED with no handle iff neither; the input handle is returned whenever the name is an input |
| Registry.RegisterSession | clivia/clivia.py:76-77 | the session is stored under its input-stream name, every other key is unchanged, streams and commands are untouched, and the engine invariant is kept |
| Registry.AddCommand | clivia/clivia.py:79-81 | the command maps to (handler, level) and to its parser, every other command is unchanged, and every command keeps a parser |
| Registry.CloseSession | clivia/clivia.py:154-169 | fails with UnknownSession iff the key has no session (tables unchanged); otherwise removes exactly that session key; removes the input stream under the key only if `close_in`, and the session's output stream only if `close_out`; fails iff an owned stream is missing: a missing input stream raises UnknownInputStream with only the session removed; a missing output stream raises UnknownOutputStream with the session and any owned input stream already removed |
| Registry.MountIOThenGetStream | clivia/clivia.py:55-74 | after mounting a name with STREAM_IO, `get_stream` returns that handle with STREAM_IO |
| Registry.MountInThenGetStream | clivia/clivia.py:55-74 | after mounting a name with STREAM_IN, `get_stream` returns that handle, with STREAM_IO if the name was already an output and STREAM_IN otherwise |
| Registry.MountOtherModeUnchanged | clivia/clivia.py:55-59 | mounting with a mode other than 1, 2, 3 (e.g. STREAM_CLOSED) changes nothing |
| Registry.MountKeepsOtherNames | clivia/clivia.py:55-74 | mounting one name never changes `get_stream` for another name |
| Registry.RegisterThenCloseRestores | clivia/clivia.py:154-169 | registering a new session under a free key and closing it restores the original tables exactly, since a new session owns neither stream |
| Dispatch.StripRedirection | clivia/clivia.py:98-114 | stripping succeeds iff the penultimate token is the operator, and then the line is the kept prefix plus operator plus target; a one-token list fails on the second pop, any other mismatch is a malformed redirection |
| Dispatch.Resolve | clivia/clivia.py:95-123 | both operators fail with BothRedirections whatever the tables hold; on success, the session, output stream and command are registered; with `<<` the line is `cmd args << key` and output goes to that session's own stream; with `>>` the line is `cmd args >> out` and the session is the reader's; with neither it is `cmd args` for the reader's session and its own stream |
| Dispatch.Decide | clivia/clivia.py:121-134 | `exit` closes the resolved source session (not necessarily the reader's) and skips the permission check; any other command is refused with PermissionDenied exactly when its level is higher than the session's; a resolved non-`exit` command whose level is at most the session's (equality allowed) and which has a parser is invoked on exactly its resolved session, output stream and arguments, and nothing else is invoked |
| Dispatch.ConsistentHasParser | clivia/clivia.py:130-134 | in an engine built by `add_command`, a registered command always has its parser |
| Dispatch.PlainLineResolves | clivia/clivia.py:95-123 | a plain `cmd args` from a reader with a session whose output stream is mounted, with `cmd` registered, resolves to the reader's session and its own output stream, with exactly `args` left for the parser |
| Dispatch.OutputRedirectionResolves | clivia/clivia.py:108-118 | `cmd args >> target`, with no `<<` and with target mounted for output, resolves to the reader's session writing to target, with exactly `args` left for the parser |
| Dispatch.InputRedirectionResolves | clivia/clivia.py:98-118 | `cmd args << name`, with no `>>`, resolves to the session under `name` and its own output stream, whatever the physical reader |
| Dispatch.DefaultLevelAllowsEveryone | clivia/clivia.py:130-132 | a command added with the default level 0 is never refused for permission to a session with a non-negative level |
| Dispatch.RedirectionAloneIsEmptyCommand | clivia/clivia.py:108-121 | a line that is only `>> target` leaves no command and fails with EmptyCommand |
| Loop.ReturnHandlerSucceeds | clivia/clivia.py:36-37 | the default return handler never fails |
| Loop.Step | clivia/clivia.py:87-152 | one line either raises and records nothing, or records exactly one event |
| Loop.StepEffects | clivia/clivia.py:87-152 | only `exit` changes the tables; a refused line leaves them unchanged and raises the decision's error; a recorded event has the session, command and output stream of the decision |
| Loop.StepExit | clivia/clivia.py:126-128 | after `exit` the tables are exactly those `close_session` of the decided session leaves, its error is the line's error, and the closing is recorded only when nothing raised |
| Loop.StepInvoke | clivia/clivia.py:134-152 | a failing parser raises ArgumentParseError, a failing handler HandlerExecutionError, a failing return handler ReturnHandlerError; on success the event carries the arguments the command's parser produced from the remaining tokens and the value its handler returned for them, and the session's return handler accepted that value with the raw line; conversely, when all three succeed the line raises nothing and records exactly that invocation; the tables are untouched |
| Loop.RunAppend | clivia/clivia.py:85-152 | processing `a + b` is processing `a` and then, only if `a` raised nothing, processing `b` from the tables `a` left |
| Loop.ErrorAbortsRest | clivia/clivia.py:85-152 | once a line raises, no later ready line is processed |
| Loop.Run | clivia/clivia.py:85-152 | a call runs at most one command per ready line, and exactly one per line when nothing raised |
| Loop.ExitNeverInvoked | clivia/clivia.py:121-128 | no recorded invocation is of a command named `exit` |
| Loop.RunKeepsConsistent | clivia/clivia.py:48-52 | a call of `loop` keeps every session under its input-stream name and every command with a parser, whichever line raised |
| Loop.ExitOnBehalfClosesNamedSession | clivia/clivia.py:98-127 | `exit << name` from any mounted reader removes the session under `name` and no other session |
| Engine.Clivia.constructor | clivia/clivia.py:47-53 | a new engine has all five tables empty |
| Engine.Clivia.MountStream | clivia/clivia.py:55-59 | updates the stream fields exactly as `Registry.Mount`; after a STREAM_IO mount, `get_stream` gives the handle with STREAM_IO |
| Engine.Clivia.RegisterSession | clivia/clivia.py:76-77 | updates the session field exactly as `Registry.RegisterSession` |
| Engine.Clivia.AddCommand | clivia/clivia.py:79-81 | updates the parser and command fields exactly as `Registry.AddCommand`, with the level defaulting to 0 |
| Engine.Clivia.CloseSession | clivia/clivia.py:154-169 | updates the fields and reports the error exactly as `Registry.CloseSession` |
| Engine.Clivia.DispatchLine | clivia/clivia.py:95-134 | popping tokens as the source does gives exactly the decision `Dispatch.Decide` specifies |
| Engine.Clivia.ProcessLine | clivia/clivia.py:87-152 | one line's processing changes the fields and yields the events and error exactly as `Loop.Step` |
| Engine.Clivia.Loop | clivia/clivia.py:83-152 | the `for` loop over the ready lines yields the tables, the trace and the first error exactly as `Loop.Run` |
| Scenarios.GreetWritesToOwnStream | clivia/clivia.py:108-118 | `greet -q` from A runs `greet` with `-q` on A's session, writing to A's own output stream |
| Scenarios.GreetRedirectedToB | clivia/clivia.py:108-152 | `greet -q >> B` writes to B; the invocation is recorded on A's session with the parsed arguments and return value |
| Scenarios.RestartRefused | clivia/clivia.py:130-132 | a level-5 command from a level-0 session fails with PermissionDenied and changes nothing |
| Scenarios.EmptyLineRaises | clivia/clivia.py:121 | an empty token list fails with EmptyCommand |
| Scenarios.ExitClosesOnlyTheSession | clivia/clivia.py:154-169 | `exit` from a session that owns neither stream removes the session and leaves both streams mounted |
| Scenarios.UnknownCommandStopsTheCall | clivia/clivia.py:122-123 | an unknown command fails and the ready lines after it are not processed |

## Left out

- The readiness poll (`select.select`, `select_timeout`) is left out. It is an
  operating-system primitive. The ready readers are an input sequence of names,
  in the order the poll would report them.
- `readline`, the UTF-8 decode and `shlex.split` are library I/O and
  tokenisation. Each ready line arrives as its raw text plus its tokens.
- The source finds the reader's name by searching for its handle. If two names
  share one handle, the first one wins. Naming readers directly does not model
  that choice.
- `argparse` parsing, the `dir(args)` reflection into keyword arguments, the
  handler call and custom return handlers are foreign code. They are modelled as
  opaque functions that succeed or fail. Parsed arguments are a map from field
  to rendered value, and return values are rendered as strings.
- The model assumes handlers do not modify the engine's tables. The source does
  not prevent arbitrary handler code from doing so.
- `print_to_stream` is not part of this model. Writing is represented only by
  the destination stream name passed to the collaborators.
- Echo is not modelled. It is commented out in the source.
- The stream objects' `close()` calls, `CliviaSession.open`/`close` (no-ops) and
  the `cache` attribute are left out. The model records only the removals from
  the tables.
- The transport classes (`CliviaStream`, `CliviaFile`, `CliviaUSB`,
  `CliviaTCPClient`, `CliviaTCPServer` and its `accept_clients`) are left out.
  They are file, console and socket plumbing.
