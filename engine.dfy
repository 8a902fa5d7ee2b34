/**
 * The engine object `Clivia`: five dictionaries updated in place, and the
 * `loop` that reads one line from each ready stream and dispatches it. Every
 * method is proved against the value-level definition of the same operation.
 */
module Engine {
  import opened Wrappers
  import opened Errors
  import opened Sessions
  import opened Registry
  import opened Dispatch
  import opened Loop

  class Clivia {
    var inStreams: map<Name, Handle>
    var outStreams: map<Name, Handle>
    var sessions: map<Name, Session>      // keyed by input-stream name
    var parsers: map<Name, ParserId>
    var commands: map<Name, Command>

    /** The five tables as one value. */
    function Model(): (st: EngineState)
      reads this
    {
      EngineState(inStreams, outStreams, sessions, parsers, commands)
    }

    /** `Clivia()`: nothing mounted, registered or added. */
    constructor ()
      ensures Model() == Empty
      ensures Consistent(Model())
    {
      inStreams, outStreams, sessions, parsers, commands := map[], map[], map[], map[], map[];
    }

    /** `mount_stream(name, stream, mode)`. */
    method MountStream(name: Name, stream: Handle, mode: int)
      modifies this
      ensures Model() == Mount(old(Model()), name, stream, mode)
      ensures mode == STREAM_IO ==> GetStream(Model(), name) == (Some(stream), STREAM_IO)
    {
      if mode == STREAM_IN || mode == STREAM_IO {
        inStreams := inStreams[name := stream];
      }
      if mode == STREAM_OUT || mode == STREAM_IO {
        outStreams := outStreams[name := stream];
      }
      MountIOThenGetStream(old(Model()), name, stream);
    }

    /** `register_session(session)`. */
    method RegisterSession(session: Session)
      modifies this
      ensures Model() == Registry.RegisterSession(old(Model()), session)
    {
      sessions := sessions[session.streamInName := session];
    }

    /** `add_command(command, func, parser, perm_lvl = 0)`. */
    method AddCommand(command: Name, func: HandlerId, parser: ParserId, permLvl: int := 0)
      modifies this
      ensures Model() == Registry.AddCommand(old(Model()), command, func, parser, permLvl)
    {
      parsers := parsers[command := parser];
      commands := commands[command := Command(func, permLvl)];
    }

    /**
     * `close_session(stream_in_name)`. An error is returned at the point the
     * source raises, with the removals made before it kept.
     */
    method CloseSession(key: Name) returns (err: Option<Error>)
      modifies this
      ensures (Model(), err) == Registry.CloseSession(old(Model()), key)
    {
      if key !in sessions {
        return Some(UnknownSession);
      }
      var session := sessions[key];
      sessions := sessions - {key};
      if session.closeIn {
        if key !in inStreams {
          return Some(UnknownInputStream);
        }
        inStreams := inStreams - {key};
      }
      if session.closeOut {
        if session.streamOutName !in outStreams {
          return Some(UnknownOutputStream);
        }
        outStreams := outStreams - {session.streamOutName};
      }
      return None;
    }

    /**
     * The token-level body of `loop` for one line from `reader`, taking tokens
     * off the end and the front of the list as the source's `pop` calls do.
     */
    method DispatchLine(reader: Name, words: seq<string>) returns (d: Decision)
      ensures d == Decide(Model(), reader, words)
    {
      var w := words;
      var streamInName := reader;
      if OPERATOR_IN in w && OPERATOR_OUT in w {
        return Reject(BothRedirections);
      }
      if OPERATOR_IN in w {
        streamInName := w[|w| - 1];
        w := w[..|w| - 1];
        if w == [] {
          return Reject(MissingRedirectionOperand);
        }
        var operator := w[|w| - 1];
        w := w[..|w| - 1];
        if operator != OPERATOR_IN {
          return Reject(MalformedRedirection);
        }
        if streamInName !in inStreams {
          return Reject(UnknownInputStream);
        }
        assert words == w + [OPERATOR_IN, streamInName];
      }
      if streamInName !in sessions {
        return Reject(UnknownSession);
      }
      var session := sessions[streamInName];
      var w1 := w;
      var streamOutName;
      if OPERATOR_OUT in w {
        streamOutName := w[|w| - 1];
        w := w[..|w| - 1];
        if w == [] {
          return Reject(MissingRedirectionOperand);
        }
        var operator := w[|w| - 1];
        w := w[..|w| - 1];
        if operator != OPERATOR_OUT {
          return Reject(MalformedRedirection);
        }
        if streamOutName !in outStreams {
          return Reject(UnknownOutputStream);
        }
        assert w1 == w + [OPERATOR_OUT, streamOutName];
      } else {
        streamOutName := session.streamOutName;
      }
      if streamOutName !in outStreams {
        return Reject(UnknownOutputStream);
      }
      if w == [] {
        return Reject(EmptyCommand);
      }
      var command := w[0];
      w := w[1..];
      if command !in commands {
        return Reject(UnknownCommand);
      }
      if command == EXIT {
        return Exit(streamInName);
      }
      if commands[command].permLvl > session.permLvl {
        return Reject(PermissionDenied);
      }
      if command !in parsers {
        return Reject(UnregisteredParser);
      }
      return Invoke(streamInName, command, streamOutName, w);
    }

    /**
     * The body of `for reader in readers` for one line: dispatch it, then either
     * close the session or parse, call the handler and the return handler.
     */
    method ProcessLine(line: ReadyLine, env: Collaborators) returns (events: seq<Event>, err: Option<Error>)
      modifies this
      ensures RunResult(Model(), events, err) == Step(old(Model()), line, env)
    {
      if line.reader !in inStreams {
        return [], Some(ReaderNotMounted);
      }
      var d := DispatchLine(line.reader, line.words);
      match d {
        case Reject(e) =>
          return [], Some(e);
        case Exit(key) =>
          err := CloseSession(key);
          events := if err.None? then [Exited(key)] else [];
        case Invoke(key, command, outName, args) =>
          var session := sessions[key];
          var parsed := env.parseArgs(parsers[command], args, outName);
          if parsed.None? {
            return [], Some(ArgumentParseError);
          }
          var retval := env.call(commands[command].func, parsed.value, outName);
          if retval.None? {
            return [], Some(HandlerExecutionError);
          }
          if !ReturnHandlerSucceeds(env, session.returnHandler, line.raw, retval.value, outName) {
            return [], Some(ReturnHandlerError);
          }
          return [Invoked(key, command, outName, parsed.value, retval.value)], None;
      }
    }

    /**
     * `loop()`, given the lines read from the ready input streams in the order
     * the readiness poll reported them. The first error ends the call.
     */
    method Loop(ready: seq<ReadyLine>, env: Collaborators) returns (trace: seq<Event>, err: Option<Error>)
      modifies this
      ensures RunResult(Model(), trace, err) == Run(old(Model()), ready, env)
    {
      trace, err := [], None;
      for i := 0 to |ready|
        invariant Run(old(Model()), ready, env) == Then(RunResult(Model(), trace, None), Run(Model(), ready[i..], env))
      {
        ghost var before := Model();
        assert ready[i..][0] == ready[i] && ready[i..][1..] == ready[i + 1..];
        var events, e := ProcessLine(ready[i], env);
        if e.Some? {
          trace, err := trace + events, e;
          return;
        }
        ghost var rest := Run(Model(), ready[i + 1..], env);
        assert Run(before, ready[i..], env) == Then(RunResult(Model(), events, None), rest);
        assert trace + (events + rest.trace) == (trace + events) + rest.trace;
        trace := trace + events;
      }
      assert ready[|ready|..] == [];
    }
  }
}
