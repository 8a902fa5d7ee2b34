/**
 * The decision `loop` takes for one tokenised line: strip a trailing `<< name`
 * or `>> name`, resolve the source session and the destination output stream,
 * look the command up, and either close the session (`exit`), refuse, or hand
 * the remaining tokens to the command.
 */
module Dispatch {
  import opened Wrappers
  import opened Errors
  import opened Sessions
  import opened Registry

  const OPERATOR_IN: string := "<<"
  const OPERATOR_OUT: string := ">>"
  const EXIT: string := "exit"

  /** Where a line goes once its redirections are resolved and its command name is taken off. */
  datatype Route = Route(sessionKey: Name, outName: Name, command: Name, args: seq<string>)

  /** What `loop` does with one line. */
  datatype Decision =
    | Invoke(sessionKey: Name, command: Name, outName: Name, args: seq<string>)
    | Exit(sessionKey: Name)
    | Reject(error: Error)

  /**
   * Two `words.pop()` calls: the last token is the redirection target, the one
   * before it must be the operator `op`.
   */
  function StripRedirection(words: seq<string>, op: string): (r: Result<(seq<string>, Name), Error>)
    // success exactly when the penultimate token is the operator, and then the
    // line is the kept prefix followed by the operator and the target
    ensures r.Success? <==> |words| >= 2 && words[|words| - 2] == op
    ensures r.Success? ==> words == r.value.0 + [op, r.value.1]
    ensures r.Failure? ==> r.error == (if |words| < 2 then MissingRedirectionOperand else MalformedRedirection)
  {
    if |words| < 2 then Failure(MissingRedirectionOperand)
    else if words[|words| - 2] != op then Failure(MalformedRedirection)
    else Success((words[..|words| - 2], words[|words| - 1]))
  }

  /**
   * The part of `loop` from the operator check to the command lookup: the
   * source session, the destination stream, the command name and its tokens.
   */
  function Resolve(st: EngineState, reader: Name, words: seq<string>): (r: Result<Route, Error>)
    // a line with both operators is refused whatever the tables hold
    ensures r == Failure(BothRedirections) <==> OPERATOR_IN in words && OPERATOR_OUT in words
    ensures r.Success? ==>
      && r.value.sessionKey in st.sessions
      && r.value.outName in st.outStreams
      && r.value.command in st.commands
    // `cmd args << name`: the session is the one under `name`, output is its own
    ensures r.Success? && OPERATOR_IN in words ==>
      && words == [r.value.command] + r.value.args + [OPERATOR_IN, r.value.sessionKey]
      && r.value.sessionKey in st.inStreams
      && r.value.outName == st.sessions[r.value.sessionKey].streamOutName
    // `cmd args >> name`: the reader's session, output to `name`
    ensures r.Success? && OPERATOR_OUT in words ==>
      && words == [r.value.command] + r.value.args + [OPERATOR_OUT, r.value.outName]
      && r.value.sessionKey == reader
    // no operator: the reader's session and its own output stream
    ensures r.Success? && OPERATOR_IN !in words && OPERATOR_OUT !in words ==>
      && words == [r.value.command] + r.value.args
      && r.value.sessionKey == reader
      && r.value.outName == st.sessions[reader].streamOutName
  {
    if OPERATOR_IN in words && OPERATOR_OUT in words then Failure(BothRedirections)
    else
      var source: Result<(seq<string>, Name), Error> :=
        if OPERATOR_IN in words then
          match StripRedirection(words, OPERATOR_IN)
          case Failure(e) => Failure(e)
          case Success((rest, name)) => if name in st.inStreams then Success((rest, name)) else Failure(UnknownInputStream)
        else Success((words, reader));
      match source
      case Failure(e) => Failure(e)
      case Success((w1, key)) =>
        if key !in st.sessions then Failure(UnknownSession)
        else
          var dest: Result<(seq<string>, Name), Error> :=
            if OPERATOR_OUT in w1 then
              match StripRedirection(w1, OPERATOR_OUT)
              case Failure(e) => Failure(e)
              case Success((rest, name)) => if name in st.outStreams then Success((rest, name)) else Failure(UnknownOutputStream)
            else Success((w1, st.sessions[key].streamOutName));
          match dest
          case Failure(e) => Failure(e)
          case Success((w2, out)) =>
            if out !in st.outStreams then Failure(UnknownOutputStream)
            else if |w2| == 0 then Failure(EmptyCommand)
            else if w2[0] !in st.commands then Failure(UnknownCommand)
            else Success(Route(key, out, w2[0], w2[1..]))
  }

  /**
   * The whole per-line decision: `exit` closes the resolved session without a
   * permission check; any other command runs only if its level does not exceed
   * the session's.
   */
  function Decide(st: EngineState, reader: Name, words: seq<string>): (d: Decision)
    ensures Resolve(st, reader, words).Failure? ==> d == Reject(Resolve(st, reader, words).error)
    // `exit` closes the resolved source session, which `<<` may have redirected
    ensures d.Exit? <==> Resolve(st, reader, words).Success? && Resolve(st, reader, words).value.command == EXIT
    ensures d.Exit? ==> d.sessionKey == Resolve(st, reader, words).value.sessionKey
    ensures d.Invoke? ==>
      && Resolve(st, reader, words) == Success(Route(d.sessionKey, d.outName, d.command, d.args))
      && d.command != EXIT
      && d.command in st.parsers
      && st.commands[d.command].permLvl <= st.sessions[d.sessionKey].permLvl
    // refused for permission exactly when the required level is higher
    ensures d == Reject(PermissionDenied) <==>
      && Resolve(st, reader, words).Success?
      && Resolve(st, reader, words).value.command != EXIT
      && st.commands[Resolve(st, reader, words).value.command].permLvl
         > st.sessions[Resolve(st, reader, words).value.sessionKey].permLvl
    // and a resolved, permitted command with a parser is invoked on exactly its route
    ensures var res := Resolve(st, reader, words);
      && res.Success?
      && res.value.command != EXIT
      && st.commands[res.value.command].permLvl <= st.sessions[res.value.sessionKey].permLvl
      && res.value.command in st.parsers
      ==> d == Invoke(res.value.sessionKey, res.value.command, res.value.outName, res.value.args)
  {
    match Resolve(st, reader, words)
    case Failure(e) => Reject(e)
    case Success(route) =>
      if route.command == EXIT then Exit(route.sessionKey)
      else if st.commands[route.command].permLvl > st.sessions[route.sessionKey].permLvl then Reject(PermissionDenied)
      else if route.command !in st.parsers then Reject(UnregisteredParser)
      else Invoke(route.sessionKey, route.command, route.outName, route.args)
  }

  /** In a consistent engine every registered command has its parser, so that refusal never happens. */
  lemma ConsistentHasParser(st: EngineState, reader: Name, words: seq<string>)
    requires Consistent(st)
    ensures Decide(st, reader, words) != Reject(UnregisteredParser)
  {
  }

  /**
   * A plain `cmd args` from a reader with a session whose output stream is
   * mounted, with `cmd` registered, resolves to the reader's session writing to
   * its own output stream, with exactly `args` left for the parser.
   */
  lemma PlainLineResolves(st: EngineState, reader: Name, cmd: Name, args: seq<string>)
    requires OPERATOR_IN !in [cmd] + args && OPERATOR_OUT !in [cmd] + args
    requires reader in st.sessions && st.sessions[reader].streamOutName in st.outStreams
    requires cmd in st.commands
    ensures Resolve(st, reader, [cmd] + args) == Success(Route(reader, st.sessions[reader].streamOutName, cmd, args))
  {
  }

  /**
   * `cmd args >> target` from a reader with a session, with `target` mounted for
   * output and `cmd` registered, resolves to the reader's session writing to
   * `target`, with exactly `args` left for the parser.
   */
  lemma OutputRedirectionResolves(st: EngineState, reader: Name, cmd: Name, args: seq<string>, target: Name)
    requires OPERATOR_IN !in [cmd] + args + [OPERATOR_OUT, target]
    requires reader in st.sessions && target in st.outStreams && cmd in st.commands
    ensures Resolve(st, reader, [cmd] + args + [OPERATOR_OUT, target]) == Success(Route(reader, target, cmd, args))
  {
  }

  /**
   * `cmd args << name`, with `name` mounted for input and holding a session
   * whose output stream is mounted, resolves to that session and its own output
   * stream, whatever the physical reader was.
   */
  lemma InputRedirectionResolves(st: EngineState, reader: Name, cmd: Name, args: seq<string>, name: Name)
    requires OPERATOR_OUT !in [cmd] + args + [OPERATOR_IN, name]
    requires name in st.inStreams && name in st.sessions && st.sessions[name].streamOutName in st.outStreams
    requires cmd in st.commands
    ensures Resolve(st, reader, [cmd] + args + [OPERATOR_IN, name]) ==
      Success(Route(name, st.sessions[name].streamOutName, cmd, args))
  {
  }

  /**
   * A command added with the default level 0 is allowed for every session whose
   * level is not negative: once its line resolves, it is invoked (or is `exit`).
   */
  lemma DefaultLevelAllowsEveryone(st: EngineState, command: Name, func: HandlerId, parser: ParserId, reader: Name, words: seq<string>)
    requires var st' := AddCommand(st, command, func, parser, 0);
      && Resolve(st', reader, words).Success?
      && Resolve(st', reader, words).value.command == command
      && st'.sessions[Resolve(st', reader, words).value.sessionKey].permLvl >= 0
    ensures var d := Decide(AddCommand(st, command, func, parser, 0), reader, words);
      d.Invoke? || d.Exit?
  {
  }

  /** A line holding only a redirection pair has no command left: `pop(0)` raises. */
  lemma RedirectionAloneIsEmptyCommand(st: EngineState, reader: Name, target: Name)
    requires reader in st.sessions && target in st.outStreams && target != OPERATOR_IN
    ensures Resolve(st, reader, [OPERATOR_OUT, target]) == Failure(EmptyCommand)
  {
  }
}
