/**
 * Concrete sessions and lines on one small configuration: what the engine
 * does with a plain command, a redirected one, a refused one and `exit`.
 */
module Scenarios {
  import opened Wrappers
  import opened Errors
  import opened Sessions
  import opened Registry
  import opened Dispatch
  import opened Loop

  /**
   * Session A (level 0) reads and writes stream "A"; stream "B" is mounted for
   * output; `greet` needs level 0, `restart` level 5, and `exit` is registered.
   */
  function Demo(): (st: EngineState)
    ensures Consistent(st)
  {
    EngineState(
      map["A" := Handle(0)],
      map["A" := Handle(0), "B" := Handle(1)],
      map["A" := NewSession("A", "A", 0)],
      map["greet" := ParserId(0), "restart" := ParserId(1), EXIT := ParserId(2)],
      map["greet" := Command(HandlerId(0), 0), "restart" := Command(HandlerId(1), 5), EXIT := Command(HandlerId(2), 0)])
  }

  /** `greet -q` from A runs `greet` with `-q` and writes to A's own output stream. */
  lemma GreetWritesToOwnStream()
    ensures Decide(Demo(), "A", ["greet", "-q"]) == Invoke("A", "greet", "A", ["-q"])
  {
  }

  /**
   * `greet -q >> B` from A writes to B; the event is recorded on A's session
   * with the parsed arguments and return value passed through unchanged.
   */
  lemma GreetRedirectedToB(env: Collaborators, parsed: Args, retval: RetVal)
    requires env.parseArgs(ParserId(0), ["-q"], "B") == Some(parsed)
    requires env.call(HandlerId(0), parsed, "B") == Some(retval)
    ensures Run(Demo(), [ReadyLine("A", "greet -q >> B", ["greet", "-q", OPERATOR_OUT, "B"])], env) ==
      RunResult(Demo(), [Invoked("A", "greet", "B", parsed, retval)], None)
  {
    OutputRedirectionResolves(Demo(), "A", "greet", ["-q"], "B");
    assert ["greet"] + ["-q"] + [OPERATOR_OUT, "B"] == ["greet", "-q", OPERATOR_OUT, "B"];
  }

  /** `restart` needs level 5 and A has 0: refused, and the tables are untouched. */
  lemma RestartRefused(env: Collaborators)
    ensures Run(Demo(), [ReadyLine("A", "restart", ["restart"])], env) ==
      RunResult(Demo(), [], Some(PermissionDenied))
  {
  }

  /** An empty line is not skipped: it reaches `pop(0)` and raises. */
  lemma EmptyLineRaises()
    ensures Decide(Demo(), "A", []) == Reject(EmptyCommand)
  {
  }

  /** `exit` removes A's session and, because A borrows its streams, leaves both mounted. */
  lemma ExitClosesOnlyTheSession(env: Collaborators)
    ensures Run(Demo(), [ReadyLine("A", "exit", [EXIT])], env) ==
      RunResult(Demo().(sessions := map[]), [Exited("A")], None)
  {
  }

  /** A second line after an unknown command is never looked at. */
  lemma UnknownCommandStopsTheCall(env: Collaborators, rest: seq<ReadyLine>)
    ensures Run(Demo(), [ReadyLine("A", "reboot", ["reboot"])] + rest, env) ==
      RunResult(Demo(), [], Some(UnknownCommand))
  {
  }
}
