/**
 * The serial link between the microcontroller and the ST7789 controller.
 *
 * Bytes and 16-bit words are bounded integers.  The driver's bit operations
 * are written arithmetically: a right shift by k is a division by 2^k, a mask
 * of the k low bits is a remainder modulo 2^k, and an OR of bit fields that do
 * not overlap is their sum.
 *
 * Everything the driver does on the link is recorded as an append-only
 * transmission trace of events.  The level of the data/command select line is
 * folded into the tag of the event (Cmd or Data).
 */
module Wire {

  type Byte = x: int | 0 <= x < 0x100
  type Word = x: int | 0 <= x < 0x1_0000

  // Opcodes of the ST7789 instruction set used by the driver (datasheet values).
  const SWRESET: Byte := 0x01
  const SLPOUT: Byte := 0x11
  const NORON: Byte := 0x13
  const INVON: Byte := 0x21
  const DISPON: Byte := 0x29
  const CASET: Byte := 0x2A
  const RASET: Byte := 0x2B
  const RAMWR: Byte := 0x2C
  const TEON: Byte := 0x35
  const MADCTL: Byte := 0x36
  const COLMOD: Byte := 0x3A
  const PORCTRL: Byte := 0xB2
  const GCTRL: Byte := 0xB7
  const VCOMS: Byte := 0xBB

  datatype Option<T> = None | Some(value: T)

  /** Platform set-up that happens outside the controller protocol. */
  datatype PlatformCall = SpiInit | GpioInit | Backlight(duty: Byte)

  datatype Event =
    | Cmd(op: Byte)                  // one byte sent in command mode
    | Data(bytes: seq<Byte>)         // one transfer sent in data mode
    | Delay(ms: nat)                 // a task delay of ms milliseconds
    | ResetLine(high: bool)          // the level driven on the reset pin
    | Platform(call: PlatformCall)   // bus, pin or backlight configuration

  /** k == 0 is the only multiple of d strictly between -d and d. */
  lemma MulBounds(d: int, k: int)
    requires d > 0 && -d < d * k < d
    ensures k == 0
  {
  }

  /** Quotient and remainder of q * d + rem are q and rem when 0 <= rem < d. */
  lemma DivMod(q: int, rem: int, d: int)
    requires d > 0 && 0 <= rem < d
    ensures (q * d + rem) / d == q && (q * d + rem) % d == rem
  {
    var a := q * d + rem;
    assert d * (a / d - q) == rem - a % d;
    MulBounds(d, a / d - q);
  }

  /** The high byte of a word, `w >> 8`. */
  function Hi(w: Word): (hi: Byte) { w / 0x100 }

  /** The low byte of a word, `w & 0xFF`. */
  function Lo(w: Word): (lo: Byte) { w % 0x100 }

  /** The word whose big-endian bytes are hi and lo. */
  function WordOf(hi: Byte, lo: Byte): (w: Word)
    ensures Hi(w) == hi && Lo(w) == lo
  {
    DivMod(hi, lo, 0x100);
    hi * 0x100 + lo
  }

  /** The two bytes a word is sent as, high byte first. */
  function WordBytes(w: Word): (b: seq<Byte>)
    ensures |b| == 2
    ensures WordOf(b[0], b[1]) == w
  {
    [Hi(w), Lo(w)]
  }

  /** The word carried by a two-byte payload. */
  function DecodeWord(b: seq<Byte>): (r: Option<Word>)
    ensures r.Some? <==> |b| == 2
    ensures r.Some? ==> WordBytes(r.value) == b
  {
    if |b| == 2 then Some(WordOf(b[0], b[1])) else None
  }

  /** Appending to a trace piece by piece is appending the pieces at once. */
  lemma AppendAssoc(s: seq<Event>, a: seq<Event>, b: seq<Event>)
    ensures s + a + b == s + (a + b)
  {
  }

  /** The bytes an event carries in data mode. */
  function Payload(e: Event): (bytes: seq<Byte>)
  {
    if e.Data? then e.bytes else []
  }

  /** Every data byte of a trace, in the order the controller receives it. */
  function DataBytes(t: seq<Event>): (bytes: seq<Byte>)
  {
    DataBytesFrom(t, 0)
  }

  /** The data bytes of the events of t from index i on. */
  function DataBytesFrom(t: seq<Event>, i: nat): (bytes: seq<Byte>)
    requires i <= |t|
    decreases |t| - i
  {
    if i == |t| then [] else Payload(t[i]) + DataBytesFrom(t, i + 1)
  }

  lemma {:induction false} DataBytesShift(a: seq<Event>, b: seq<Event>, j: nat)
    requires j <= |b|
    ensures DataBytesFrom(a + b, |a| + j) == DataBytesFrom(b, j)
    decreases |b| - j
  {
    if j < |b| {
      assert (a + b)[|a| + j] == b[j];
      DataBytesShift(a, b, j + 1);
    }
  }

  /** The data bytes of a non-empty trace: those of its first event, then the rest. */
  lemma DataBytesCons(t: seq<Event>)
    requires t != []
    ensures DataBytes(t) == Payload(t[0]) + DataBytes(t[1..])
  {
    assert t == [t[0]] + t[1..];
    DataBytesShift([t[0]], t[1..], 0);
  }

  lemma {:induction false} DataBytesAppendFrom(a: seq<Event>, b: seq<Event>, i: nat)
    requires i <= |a|
    ensures DataBytesFrom(a + b, i) == DataBytesFrom(a, i) + DataBytes(b)
    decreases |a| - i
  {
    if i == |a| {
      DataBytesShift(a, b, 0);
    } else {
      assert (a + b)[i] == a[i];
      DataBytesAppendFrom(a, b, i + 1);
      var p, rest := Payload(a[i]), DataBytesFrom(a, i + 1);
      assert DataBytesFrom(a + b, i) == p + (rest + DataBytes(b));
      assert DataBytesFrom(a, i) == p + rest;
      assert p + (rest + DataBytes(b)) == (p + rest) + DataBytes(b);
    }
  }

  /** The data bytes of two traces one after the other. */
  lemma DataBytesAppend(a: seq<Event>, b: seq<Event>)
    ensures DataBytes(a + b) == DataBytes(a) + DataBytes(b)
  {
    DataBytesAppendFrom(a, b, 0);
  }

  /**
   * The commands of a trace in order, each paired with the milliseconds of
   * delay that elapsed since the previous command.
   */
  function Schedule(t: seq<Event>): (sched: seq<(Byte, nat)>)
  {
    ScheduleFrom(t, 0, 0)
  }

  /** The schedule of the events of t from index i on, `waited` ms after the last command. */
  function ScheduleFrom(t: seq<Event>, i: nat, waited: nat): (sched: seq<(Byte, nat)>)
    requires i <= |t|
    decreases |t| - i
  {
    if i == |t| then []
    else match t[i]
      case Cmd(op) => [(op, waited)] + ScheduleFrom(t, i + 1, 0)
      case Delay(ms) => ScheduleFrom(t, i + 1, waited + ms)
      case _ => ScheduleFrom(t, i + 1, waited)
  }

  /** The delay accumulated since the last command at the end of the events of t from index i on. */
  function PendingFrom(t: seq<Event>, i: nat, waited: nat): (pending: nat)
    requires i <= |t|
    decreases |t| - i
  {
    if i == |t| then waited
    else match t[i]
      case Cmd(_) => PendingFrom(t, i + 1, 0)
      case Delay(ms) => PendingFrom(t, i + 1, waited + ms)
      case _ => PendingFrom(t, i + 1, waited)
  }

  lemma {:induction false} ScheduleShift(a: seq<Event>, b: seq<Event>, j: nat, waited: nat)
    requires j <= |b|
    ensures ScheduleFrom(a + b, |a| + j, waited) == ScheduleFrom(b, j, waited)
    ensures PendingFrom(a + b, |a| + j, waited) == PendingFrom(b, j, waited)
    decreases |b| - j
  {
    if j < |b| {
      assert (a + b)[|a| + j] == b[j];
      match b[j]
      case Cmd(_) => ScheduleShift(a, b, j + 1, 0);
      case Delay(ms) => ScheduleShift(a, b, j + 1, waited + ms);
      case _ => ScheduleShift(a, b, j + 1, waited);
    }
  }

  lemma {:induction false} ScheduleAppendFrom(a: seq<Event>, b: seq<Event>, i: nat, waited: nat)
    requires i <= |a|
    ensures ScheduleFrom(a + b, i, waited)
            == ScheduleFrom(a, i, waited) + ScheduleFrom(b, 0, PendingFrom(a, i, waited))
    ensures PendingFrom(a + b, i, waited) == PendingFrom(b, 0, PendingFrom(a, i, waited))
    decreases |a| - i
  {
    if i == |a| {
      ScheduleShift(a, b, 0, waited);
    } else {
      assert (a + b)[i] == a[i];
      match a[i]
      case Cmd(op) =>
        ScheduleAppendFrom(a, b, i + 1, 0);
        var head, rest := [(op, waited)], ScheduleFrom(a, i + 1, 0);
        var tail := ScheduleFrom(b, 0, PendingFrom(a, i + 1, 0));
        assert head + (rest + tail) == (head + rest) + tail;
      case Delay(ms) => ScheduleAppendFrom(a, b, i + 1, waited + ms);
      case _ => ScheduleAppendFrom(a, b, i + 1, waited);
    }
  }

  /**
   * The schedule of two traces one after the other: the second one starts
   * with whatever delay the first left pending after its last command.
   */
  lemma ScheduleAppend(a: seq<Event>, b: seq<Event>, waited: nat)
    ensures ScheduleFrom(a + b, 0, waited)
            == ScheduleFrom(a, 0, waited) + ScheduleFrom(b, 0, PendingFrom(a, 0, waited))
    ensures PendingFrom(a + b, 0, waited) == PendingFrom(b, 0, PendingFrom(a, 0, waited))
  {
    ScheduleAppendFrom(a, b, 0, waited);
  }
}
