/**
 * One call of `loop`: every ready reader contributes one tokenised line, and
 * the lines are processed in order until the first one that raises.
 */
module Loop {
  import opened Wrappers
  import opened Errors
  import opened Sessions
  import opened Registry
  import opened Dispatch

  /** The parsed argument namespace, as field name to rendered value. */
  type Args = map<string, string>

  /** A handler's return value, rendered. */
  type RetVal = string

  /**
   * The code the engine calls but does not contain. Each function receives the
   * name of the destination output stream, standing for the `print` bound to it;
   * `None`/`false` stands for "raised an exception".
   */
  datatype Collaborators = Collaborators(
    parseArgs: (ParserId, seq<string>, Name) -> Option<Args>,
    call: (HandlerId, Args, Name) -> Option<RetVal>,
    customReturn: (nat, string, RetVal, Name) -> bool)

  /**
   * One line read from a ready input stream: the raw line and its tokens. The
   * reader is identified by its name; the source's lookup of that name iterates
   * `in_streams.values()` while unpacking key/value pairs, which cannot work.
   */
  datatype ReadyLine = ReadyLine(reader: Name, raw: string, words: seq<string>)

  /** What a successfully processed line did. */
  datatype Event =
    | Invoked(sessionKey: Name, command: Name, outName: Name, args: Args, retval: RetVal)
    | Exited(sessionKey: Name)

  /** The tables after a call, what each processed line did, and the error that stopped it. */
  datatype RunResult = RunResult(st: EngineState, trace: seq<Event>, error: Option<Error>)

  /** Runs a session's return handler; the default one does nothing and cannot fail. */
  predicate ReturnHandlerSucceeds(env: Collaborators, h: ReturnHandler, raw: string, retval: RetVal, outName: Name)
    ensures h == EmptyReturnHandler ==> ReturnHandlerSucceeds(env, h, raw, retval, outName)
  {
    match h
    case EmptyReturnHandler => true
    case CustomReturnHandler(id) => env.customReturn(id, raw, retval, outName)
  }

  /** The body of `for reader in readers` for one line. */
  function Step(st: EngineState, line: ReadyLine, env: Collaborators): (r: RunResult)
    // a line either raises and records nothing, or records exactly one event
    ensures r.error.Some? ==> r.trace == []
    ensures r.error.None? ==> |r.trace| == 1
  {
    if line.reader !in st.inStreams then RunResult(st, [], Some(ReaderNotMounted))
    else
      match Decide(st, line.reader, line.words)
      case Reject(e) => RunResult(st, [], Some(e))
      case Exit(key) =>
        var (st', err) := CloseSession(st, key);
        RunResult(st', if err.None? then [Exited(key)] else [], err)
      case Invoke(key, command, outName, args) =>
        var session := st.sessions[key];
        match env.parseArgs(st.parsers[command], args, outName)
        case None => RunResult(st, [], Some(ArgumentParseError))
        case Some(parsed) =>
          match env.call(st.commands[command].func, parsed, outName)
          case None => RunResult(st, [], Some(HandlerExecutionError))
          case Some(retval) =>
            if !ReturnHandlerSucceeds(env, session.returnHandler, line.raw, retval, outName) then
              RunResult(st, [], Some(ReturnHandlerError))
            else
              RunResult(st, [Invoked(key, command, outName, parsed, retval)], None)
  }

  /** What one line can do: its effects on the tables and the event it records. */
  lemma StepEffects(st: EngineState, line: ReadyLine, env: Collaborators)
    // only `exit` changes the tables; a refused line or a command changes nothing
    ensures Step(st, line, env).st != st ==> line.reader in st.inStreams && Decide(st, line.reader, line.words).Exit?
    ensures line.reader in st.inStreams && Decide(st, line.reader, line.words).Reject? ==>
      Step(st, line, env) == RunResult(st, [], Some(Decide(st, line.reader, line.words).error))
    // the event is what the decision said, on the session the decision named
    ensures var r := Step(st, line, env);
      r.error.None? && r.trace[0].Exited? ==> Decide(st, line.reader, line.words) == Exit(r.trace[0].sessionKey)
    ensures var r := Step(st, line, env);
      r.error.None? && r.trace[0].Invoked? ==>
        && Decide(st, line.reader, line.words).Invoke?
        && Decide(st, line.reader, line.words).sessionKey == r.trace[0].sessionKey
        && Decide(st, line.reader, line.words).command == r.trace[0].command
        && Decide(st, line.reader, line.words).outName == r.trace[0].outName
  {
  }

  /**
   * `exit` from a mounted reader leaves the tables exactly as `close_session` of
   * the decided session leaves them, raises what it raises, and records the
   * closing only when it raised nothing.
   */
  lemma StepExit(st: EngineState, line: ReadyLine, env: Collaborators)
    requires line.reader in st.inStreams && Decide(st, line.reader, line.words).Exit?
    ensures var key := Decide(st, line.reader, line.words).sessionKey;
      && Step(st, line, env).st == CloseSession(st, key).0
      && Step(st, line, env).error == CloseSession(st, key).1
      && Step(st, line, env).trace == if CloseSession(st, key).1.None? then [Exited(key)] else []
  {
  }

  /**
   * A permitted command from a mounted reader: the parser of the command gets
   * the remaining tokens, the handler gets the parsed arguments, the session's
   * return handler gets the raw line and the return value, each with the
   * destination stream; the first of them to fail decides the error.
   */
  lemma StepInvoke(st: EngineState, line: ReadyLine, env: Collaborators)
    requires line.reader in st.inStreams && Decide(st, line.reader, line.words).Invoke?
    ensures var d := Decide(st, line.reader, line.words);
      var parsed := env.parseArgs(st.parsers[d.command], d.args, d.outName);
      parsed.None? ==> Step(st, line, env).error == Some(ArgumentParseError)
    ensures var d := Decide(st, line.reader, line.words);
      var parsed := env.parseArgs(st.parsers[d.command], d.args, d.outName);
      parsed.Some? && env.call(st.commands[d.command].func, parsed.value, d.outName).None? ==>
        Step(st, line, env).error == Some(HandlerExecutionError)
    ensures var d := Decide(st, line.reader, line.words);
      var parsed := env.parseArgs(st.parsers[d.command], d.args, d.outName);
      var retval := if parsed.Some? then env.call(st.commands[d.command].func, parsed.value, d.outName) else None;
      retval.Some? && !ReturnHandlerSucceeds(env, st.sessions[d.sessionKey].returnHandler, line.raw, retval.value, d.outName) ==>
        Step(st, line, env).error == Some(ReturnHandlerError)
    // on success the event carries what the parser and the handler produced,
    // and the session's return handler accepted that value
    ensures var d := Decide(st, line.reader, line.words);
      var r := Step(st, line, env);
      r.error.None? ==>
        && r.trace[0] == Invoked(d.sessionKey, d.command, d.outName, r.trace[0].args, r.trace[0].retval)
        && env.parseArgs(st.parsers[d.command], d.args, d.outName) == Some(r.trace[0].args)
        && env.call(st.commands[d.command].func, r.trace[0].args, d.outName) == Some(r.trace[0].retval)
        && ReturnHandlerSucceeds(env, st.sessions[d.sessionKey].returnHandler, line.raw, r.trace[0].retval, d.outName)
    // when all three succeed, the line raises nothing and records the invocation
    ensures var d := Decide(st, line.reader, line.words);
      var parsed := env.parseArgs(st.parsers[d.command], d.args, d.outName);
      parsed.Some? ==>
        var retval := env.call(st.commands[d.command].func, parsed.value, d.outName);
        retval.Some? && ReturnHandlerSucceeds(env, st.sessions[d.sessionKey].returnHandler, line.raw, retval.value, d.outName) ==>
          Step(st, line, env) == RunResult(st, [Invoked(d.sessionKey, d.command, d.outName, parsed.value, retval.value)], None)
    // and the tables are untouched whatever happened
    ensures Step(st, line, env).st == st
  {
  }

  /** `loop()` over the ready lines: the first line that raises ends the call. */
  function Run(st: EngineState, lines: seq<ReadyLine>, env: Collaborators): (r: RunResult)
    // at most one command per ready line, and exactly one per line when nothing raised
    ensures |r.trace| <= |lines|
    ensures r.error.None? ==> |r.trace| == |lines|
    decreases |lines|
  {
    if lines == [] then RunResult(st, [], None)
    else
      var first := Step(st, lines[0], env);
      if first.error.Some? then first
      else Then(first, Run(first.st, lines[1..], env))
  }

  /** `rest` run after the error-free `first`: the traces concatenate. */
  function Then(first: RunResult, rest: RunResult): (r: RunResult)
  {
    RunResult(rest.st, first.trace + rest.trace, rest.error)
  }

  /** Running `a + b` is running `a`, then, only if `a` raised nothing, running `b` from where `a` left the tables. */
  lemma {:induction false} RunAppend(st: EngineState, a: seq<ReadyLine>, b: seq<ReadyLine>, env: Collaborators)
    ensures Run(st, a + b, env) ==
      if Run(st, a, env).error.Some? then Run(st, a, env)
      else Then(Run(st, a, env), Run(Run(st, a, env).st, b, env))
    decreases |a|
  {
    if a == [] {
      assert a + b == b;
    } else {
      var first := Step(st, a[0], env);
      assert (a + b)[0] == a[0];
      assert (a + b)[1..] == a[1..] + b;
      if first.error.None? {
        RunAppend(first.st, a[1..], b, env);
        var ra := Run(first.st, a[1..], env);
        if ra.error.None? {
          var rb := Run(ra.st, b, env);
          assert first.trace + (ra.trace + rb.trace) == (first.trace + ra.trace) + rb.trace;
        }
      }
    }
  }

  /** Once a line raises, the lines after it in the ready list are not processed at all. */
  lemma ErrorAbortsRest(st: EngineState, a: seq<ReadyLine>, b: seq<ReadyLine>, env: Collaborators)
    requires Run(st, a, env).error.Some?
    ensures Run(st, a + b, env) == Run(st, a, env)
  {
    RunAppend(st, a, b, env);
  }

  /** No command named `exit` is ever invoked: that name only ever closes a session. */
  lemma {:induction false} ExitNeverInvoked(st: EngineState, lines: seq<ReadyLine>, env: Collaborators)
    ensures forall i :: 0 <= i < |Run(st, lines, env).trace| && Run(st, lines, env).trace[i].Invoked? ==>
      Run(st, lines, env).trace[i].command != EXIT
    decreases |lines|
  {
    if lines != [] {
      var first := Step(st, lines[0], env);
      if first.error.None? {
        ExitNeverInvoked(first.st, lines[1..], env);
      }
    }
  }

  /** A call of `loop` keeps the engine's invariant, whichever line raised. */
  lemma {:induction false} RunKeepsConsistent(st: EngineState, lines: seq<ReadyLine>, env: Collaborators)
    requires Consistent(st)
    ensures Consistent(Run(st, lines, env).st)
    decreases |lines|
  {
    if lines != [] {
      var first := Step(st, lines[0], env);
      assert Consistent(first.st);
      if first.error.None? {
        RunKeepsConsistent(first.st, lines[1..], env);
      }
    }
  }

  /**
   * `exit << name` read from any mounted reader closes the session under `name`
   * (not the reader's own) and removes no other session.
   */
  lemma ExitOnBehalfClosesNamedSession(st: EngineState, reader: Name, raw: string, name: Name, env: Collaborators)
    requires reader in st.inStreams
    requires name in st.inStreams && name in st.sessions && st.sessions[name].streamOutName in st.outStreams
    requires EXIT in st.commands && name != OPERATOR_OUT
    ensures Step(st, ReadyLine(reader, raw, [EXIT, OPERATOR_IN, name]), env).trace == [Exited(name)]
    ensures Step(st, ReadyLine(reader, raw, [EXIT, OPERATOR_IN, name]), env).st.sessions == st.sessions - {name}
  {
  }
}
