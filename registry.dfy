/**
 * The engine's five tables as one value, and the operations of `Clivia` that
 * update or read them: mounting a stream, classifying a stream name,
 * registering a session, adding a command and closing a session.
 */
module Registry {
  import opened Wrappers
  import opened Errors
  import opened Sessions

  type Name = string

  /** An opaque stream object (file, UART, socket...). */
  datatype Handle = Handle(id: nat)

  /** Opaque references to a command's handler function and its argument parser. */
  datatype HandlerId = HandlerId(id: nat)
  datatype ParserId = ParserId(id: nat)

  /** A row of `commands`: the handler and the permission level it requires. */
  datatype Command = Command(func: HandlerId, permLvl: int)

  // Stream modes; the value is a bit mask: 1 = input, 2 = output.
  const STREAM_CLOSED: int := 0
  const STREAM_IN: int := 1
  const STREAM_OUT: int := 2
  const STREAM_IO: int := 3

  datatype EngineState = EngineState(
    inStreams: map<Name, Handle>,
    outStreams: map<Name, Handle>,
    sessions: map<Name, Session>,   // keyed by the session's input-stream name
    parsers: map<Name, ParserId>,
    commands: map<Name, Command>)

  /** A freshly constructed engine: every table empty. */
  const Empty: EngineState := EngineState(map[], map[], map[], map[], map[])

  /**
   * The invariant the engine's own operations keep: each session sits under its
   * input-stream name, and every command has a parser.
   */
  predicate Consistent(st: EngineState)
  {
    && (forall k :: k in st.sessions ==> st.sessions[k].streamInName == k)
    && st.parsers.Keys == st.commands.Keys
  }

  /** The binding of `n` in `m`, if any. */
  function Lookup<V>(m: map<Name, V>, n: Name): (r: Option<V>)
  {
    if n in m then Some(m[n]) else None
  }

  /** `mount_stream(name, stream, mode)`. */
  function Mount(st: EngineState, name: Name, h: Handle, mode: int): (r: EngineState)
    ensures r.sessions == st.sessions && r.parsers == st.parsers && r.commands == st.commands
    // STREAM_IN and STREAM_IO bind the input name, STREAM_OUT and STREAM_IO the output name
    ensures (mode == STREAM_IN || mode == STREAM_IO) ==> Lookup(r.inStreams, name) == Some(h)
    ensures (mode == STREAM_OUT || mode == STREAM_IO) ==> Lookup(r.outStreams, name) == Some(h)
    // a mode that does not name a direction leaves that direction alone
    ensures !(mode == STREAM_IN || mode == STREAM_IO) ==> r.inStreams == st.inStreams
    ensures !(mode == STREAM_OUT || mode == STREAM_IO) ==> r.outStreams == st.outStreams
    // every other name keeps its binding
    ensures forall n :: n != name ==> Lookup(r.inStreams, n) == Lookup(st.inStreams, n)
    ensures forall n :: n != name ==> Lookup(r.outStreams, n) == Lookup(st.outStreams, n)
  {
    var ins := if mode == STREAM_IN || mode == STREAM_IO then st.inStreams[name := h] else st.inStreams;
    var outs := if mode == STREAM_OUT || mode == STREAM_IO then st.outStreams[name := h] else st.outStreams;
    st.(inStreams := ins, outStreams := outs)
  }

  /**
   * `get_stream(name)`: the handle and the direction(s) under which `name` is
   * mounted. The input handle wins when the name is mounted both ways.
   */
  function GetStream(st: EngineState, name: Name): (r: (Option<Handle>, int))
    // the mode is the bit mask of the namespaces holding the name
    ensures r.1 == (if name in st.inStreams then STREAM_IN else 0) + (if name in st.outStreams then STREAM_OUT else 0)
    ensures r.0 == None <==> r.1 == STREAM_CLOSED
    ensures name in st.inStreams ==> r.0 == Some(st.inStreams[name])
    ensures name !in st.inStreams && name in st.outStreams ==> r.0 == Some(st.outStreams[name])
  {
    var isInput := name in st.inStreams;
    var isOutput := name in st.outStreams;
    if isInput && isOutput then (Some(st.inStreams[name]), STREAM_IO)
    else if isInput then (Some(st.inStreams[name]), STREAM_IN)
    else if isOutput then (Some(st.outStreams[name]), STREAM_OUT)
    else (None, STREAM_CLOSED)
  }

  /**
   * `register_session(session)`, keyed by the session's input-stream name. The
   * source reads `session.name`, an attribute sessions do not have; the key used
   * here is the input-stream name, the key `close_session` and `loop` use.
   */
  function RegisterSession(st: EngineState, s: Session): (r: EngineState)
    ensures Lookup(r.sessions, s.streamInName) == Some(s)
    ensures forall k :: k != s.streamInName ==> Lookup(r.sessions, k) == Lookup(st.sessions, k)
    // registering does not mount the session's streams
    ensures r.inStreams == st.inStreams && r.outStreams == st.outStreams
    ensures r.parsers == st.parsers && r.commands == st.commands
    ensures Consistent(st) ==> Consistent(r)
  {
    st.(sessions := st.sessions[s.streamInName := s])
  }

  /** `add_command(command, func, parser, perm_lvl)`. */
  function AddCommand(st: EngineState, command: Name, func: HandlerId, parser: ParserId, permLvl: int): (r: EngineState)
    ensures Lookup(r.commands, command) == Some(Command(func, permLvl))
    ensures Lookup(r.parsers, command) == Some(parser)
    ensures forall c :: c != command ==> Lookup(r.commands, c) == Lookup(st.commands, c)
    ensures forall c :: c != command ==> Lookup(r.parsers, c) == Lookup(st.parsers, c)
    ensures r.inStreams == st.inStreams && r.outStreams == st.outStreams && r.sessions == st.sessions
    ensures Consistent(st) ==> Consistent(r)
  {
    st.(parsers := st.parsers[command := parser], commands := st.commands[command := Command(func, permLvl)])
  }

  /**
   * `close_session(stream_in_name)`: drop the session, then its input stream if
   * it owns it, then its output stream if it owns it. A missing entry is a
   * KeyError raised after the earlier removals have already happened, so the
   * state is returned alongside the error. The source removes entries with
   * `popitem(value)`, which takes no argument; removal here is by key.
   */
  function CloseSession(st: EngineState, key: Name): (r: (EngineState, Option<Error>))
    ensures r.0.parsers == st.parsers && r.0.commands == st.commands
    ensures r.1 == Some(UnknownSession) <==> key !in st.sessions
    ensures key !in st.sessions ==> r.0 == st
    ensures r.1.None? <==>
      key in st.sessions
      && (st.sessions[key].closeIn ==> key in st.inStreams)
      && (st.sessions[key].closeOut ==> st.sessions[key].streamOutName in st.outStreams)
    // exactly the session's own key leaves the session table
    ensures key in st.sessions ==> r.0.sessions == st.sessions - {key}
    // an input stream goes only if the session owns it, and only its own
    ensures r.1.None? ==> r.0.inStreams == if st.sessions[key].closeIn then st.inStreams - {key} else st.inStreams
    ensures r.1.None? ==>
      r.0.outStreams == if st.sessions[key].closeOut then st.outStreams - {st.sessions[key].streamOutName} else st.outStreams
    // a missing owned input stream raises after the session is gone, touching no stream
    ensures key in st.sessions && st.sessions[key].closeIn && key !in st.inStreams ==>
      r == (st.(sessions := st.sessions - {key}), Some(UnknownInputStream))
    // a missing owned output stream raises after the session and any owned input stream are gone
    ensures
      && key in st.sessions
      && (st.sessions[key].closeIn ==> key in st.inStreams)
      && st.sessions[key].closeOut
      && st.sessions[key].streamOutName !in st.outStreams
      ==> r == (st.(sessions := st.sessions - {key},
                inStreams := if st.sessions[key].closeIn then st.inStreams - {key} else st.inStreams),
            Some(UnknownOutputStream))
    ensures Consistent(st) ==> Consistent(r.0)
  {
    if key !in st.sessions then (st, Some(UnknownSession))
    else
      var s := st.sessions[key];
      var st1 := st.(sessions := st.sessions - {key});
      if s.closeIn && key !in st1.inStreams then (st1, Some(UnknownInputStream))
      else
        var st2 := if s.closeIn then st1.(inStreams := st1.inStreams - {key}) else st1;
        if s.closeOut && s.streamOutName !in st2.outStreams then (st2, Some(UnknownOutputStream))
        else
          var st3 := if s.closeOut then st2.(outStreams := st2.outStreams - {s.streamOutName}) else st2;
          (st3, None)
  }

  /** Mounting a stream both ways makes `get_stream` report exactly that handle and STREAM_IO. */
  lemma MountIOThenGetStream(st: EngineState, name: Name, h: Handle)
    ensures GetStream(Mount(st, name, h, STREAM_IO), name) == (Some(h), STREAM_IO)
  {
  }

  /** Mounting input-only makes the name readable with that handle; its output binding is untouched. */
  lemma MountInThenGetStream(st: EngineState, name: Name, h: Handle)
    ensures GetStream(Mount(st, name, h, STREAM_IN), name) ==
      (Some(h), if name in st.outStreams then STREAM_IO else STREAM_IN)
  {
  }

  /** Mounting with a mode that is not 1, 2 or 3 (STREAM_CLOSED, say) changes nothing. */
  lemma MountOtherModeUnchanged(st: EngineState, name: Name, h: Handle, mode: int)
    requires mode != STREAM_IN && mode != STREAM_OUT && mode != STREAM_IO
    ensures Mount(st, name, h, mode) == st
  {
  }

  /** Mounting one name never changes what `get_stream` says about another. */
  lemma MountKeepsOtherNames(st: EngineState, name: Name, other: Name, h: Handle, mode: int)
    requires other != name
    ensures GetStream(Mount(st, name, h, mode), other) == GetStream(st, other)
  {
  }

  /**
   * Registering a new session under a free key and closing it again gives back
   * the original tables: a new session owns neither stream, so closing it
   * removes no stream.
   */
  lemma RegisterThenCloseRestores(st: EngineState, streamIn: Name, streamOut: Name, permLvl: int)
    requires streamIn !in st.sessions
    ensures CloseSession(RegisterSession(st, NewSession(streamIn, streamOut, permLvl)), streamIn) == (st, None)
  {
    var s := NewSession(streamIn, streamOut, permLvl);
    var r := CloseSession(RegisterSession(st, s), streamIn);
    assert r.0.sessions == st.sessions;
  }
}
