/** The per-party record `CliviaSession`: which streams it reads and writes and what it may run. */
module Sessions {

  /** The callback run after every successful command; the default one does nothing. */
  datatype ReturnHandler = EmptyReturnHandler | CustomReturnHandler(id: nat)

  /**
   * A session. `closeIn`/`closeOut` say whether closing the session also drops
   * its input/output stream from the registry (ownership); `permLvl` is the
   * level compared against each command's required level.
   */
  datatype Session = Session(
    streamInName: string,
    streamOutName: string,
    closeIn: bool,
    closeOut: bool,
    returnHandler: ReturnHandler,
    permLvl: int)

  /** `CliviaSession(stream_in_name, stream_out_name, perm_lvl)` with its defaults. */
  function NewSession(streamInName: string, streamOutName: string, permLvl: int): (s: Session)
    ensures s.streamInName == streamInName && s.streamOutName == streamOutName
    ensures s.permLvl == permLvl
    // a new session borrows both streams: closing it closes neither
    ensures !s.closeIn && !s.closeOut
    ensures s.returnHandler == EmptyReturnHandler
  {
    Session(streamInName, streamOutName, false, false, EmptyReturnHandler, permLvl)
  }
}
