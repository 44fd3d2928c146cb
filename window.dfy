/**
 * Window addressing: CASET and RASET program the rectangle of frame memory
 * that the next memory write fills.  Coordinates are sent as they are given,
 * plus a fixed per-panel offset; nothing clamps them to the panel.
 */
module Window {
  import opened Wire

  const X_OFFSET: Word := 0
  const Y_OFFSET: Word := 0

  /** A coordinate plus an offset, in the driver's uint16_t arithmetic. */
  function Offset(v: Word, offset: Word): (shifted: Word)
  {
    (v + offset) % 0x1_0000
  }

  /** What set_window(x0, x1, y0, y1) puts on the link. */
  function WindowTrace(x0: Word, x1: Word, y0: Word, y1: Word): (trace: seq<Event>)
  {
    [Cmd(CASET), Data(WordBytes(Offset(x0, X_OFFSET))), Data(WordBytes(Offset(x1, X_OFFSET))),
     Cmd(RASET), Data(WordBytes(Offset(y0, Y_OFFSET))), Data(WordBytes(Offset(y1, Y_OFFSET)))]
  }

  /** A window in the controller's address space: columns x0..x1, rows y0..y1. */
  datatype Rect = Rect(x0: Word, x1: Word, y0: Word, y1: Word)

  /**
   * The controller's reading of a window-set: a column-address command with
   * its start and end words, then a row-address command with its two words.
   */
  function DecodeWindow(t: seq<Event>): (rect: Option<Rect>)
  {
    if |t| == 6 && t[0] == Cmd(CASET) && t[3] == Cmd(RASET)
       && t[1].Data? && t[2].Data? && t[4].Data? && t[5].Data?
    then
      match (DecodeWord(t[1].bytes), DecodeWord(t[2].bytes), DecodeWord(t[4].bytes), DecodeWord(t[5].bytes))
      case (Some(x0), Some(x1), Some(y0), Some(y1)) => Some(Rect(x0, x1, y0, y1))
      case _ => None
    else None
  }

  /**
   * set_window programs exactly the given coordinates shifted by the offsets,
   * in six events, and with zero offsets exactly the given coordinates.
   */
  lemma WindowProgramsCoordinates(x0: Word, x1: Word, y0: Word, y1: Word)
    ensures |WindowTrace(x0, x1, y0, y1)| == 6
    ensures DecodeWindow(WindowTrace(x0, x1, y0, y1))
            == Some(Rect(Offset(x0, X_OFFSET), Offset(x1, X_OFFSET), Offset(y0, Y_OFFSET), Offset(y1, Y_OFFSET)))
    ensures DecodeWindow(WindowTrace(x0, x1, y0, y1)) == Some(Rect(x0, x1, y0, y1))
  {
    var t := WindowTrace(x0, x1, y0, y1);
    assert DecodeWord(t[1].bytes) == Some(x0);
    assert DecodeWord(t[2].bytes) == Some(x1);
    assert DecodeWord(t[4].bytes) == Some(y0);
    assert DecodeWord(t[5].bytes) == Some(y1);
  }
}
