/**
 * Pixel streaming: colours go to the controller as big-endian 16-bit words
 * after a memory-write command.  A filled rectangle is sent in chunks of at
 * most one buffer of 512 pixels.
 */
module Stream {
  import opened Wire
  import opened Window

  /** Size in bytes of the packing buffer of send_color and of draw_rectangle's buffer. */
  const BUFFER_BYTES: nat := 1024

  /** Pixels per chunk of draw_rectangle, `sizeof(buffer) / 2`. */
  const CHUNK_PIXELS: nat := 512

  /** Colours packed two bytes each, high byte first. */
  function ColorBytes(cs: seq<Word>): (b: seq<Byte>)
    ensures |b| == 2 * |cs|
  {
    if cs == [] then [] else ColorBytes(cs[..|cs| - 1]) + WordBytes(cs[|cs| - 1])
  }

  /** One colour packs to its two big-endian bytes. */
  lemma ColorBytesSingle(c: Word)
    ensures ColorBytes([c]) == WordBytes(c)
  {
    assert [c][..0] == [];
  }

  /** Bytes 2i and 2i+1 of the packing are the high and low byte of colour i. */
  lemma {:induction false} ColorBytesAt(cs: seq<Word>, i: nat)
    requires i < |cs|
    ensures ColorBytes(cs)[2 * i] == Hi(cs[i]) && ColorBytes(cs)[2 * i + 1] == Lo(cs[i])
  {
    if i < |cs| - 1 {
      ColorBytesAt(cs[..|cs| - 1], i);
    }
  }

  /** The first 2k bytes of a packing are the packing of the first k colours. */
  lemma {:induction false} ColorBytesPrefix(cs: seq<Word>, k: nat)
    requires k <= |cs|
    ensures ColorBytes(cs)[..2 * k] == ColorBytes(cs[..k])
  {
    if k < |cs| {
      var init := cs[..|cs| - 1];
      assert init[..k] == cs[..k];
      ColorBytesPrefix(init, k);
    } else {
      assert cs[..k] == cs;
    }
  }

  /** Packing two runs of colours packs them one after the other. */
  lemma {:induction false} ColorBytesAppend(a: seq<Word>, b: seq<Word>)
    ensures ColorBytes(a + b) == ColorBytes(a) + ColorBytes(b)
  {
    if b == [] {
      assert a + b == a;
    } else {
      var init := b[..|b| - 1];
      assert (a + b)[..|a + b| - 1] == a + init;
      ColorBytesAppend(a, init);
    }
  }

  /** The colour words a packing stands for. */
  function DecodeColors(b: seq<Byte>): (cs: seq<Word>)
    requires |b| % 2 == 0
    ensures |cs| == |b| / 2
  {
    if b == [] then [] else DecodeColors(b[..|b| - 2]) + [WordOf(b[|b| - 2], b[|b| - 1])]
  }

  /** Unpacking a packing gives back the colours. */
  lemma {:induction false} DecodeColorBytes(cs: seq<Word>)
    ensures DecodeColors(ColorBytes(cs)) == cs
  {
    if cs != [] {
      var b := ColorBytes(cs);
      assert b[..|b| - 2] == ColorBytes(cs[..|cs| - 1]);
      DecodeColorBytes(cs[..|cs| - 1]);
    }
  }

  /** n pixels of colour c. */
  function Fill(c: Word, n: nat): (cs: seq<Word>)
    ensures |cs| == n && forall i :: 0 <= i < n ==> cs[i] == c
  {
    seq(n, _ => c)
  }

  /**
   * The pixel counts of draw_rectangle's transfers for n pixels: each chunk
   * is the smaller of one buffer and what remains.
   */
  function Chunks(n: nat): (sizes: seq<nat>)
  {
    if n == 0 then []
    else
      var k := if n > CHUNK_PIXELS then CHUNK_PIXELS else n;
      [k] + Chunks(n - k)
  }

  function Sum(s: seq<nat>): (total: nat)
  {
    if s == [] then 0 else s[0] + Sum(s[1..])
  }

  /** The chunks add up to exactly n pixels. */
  lemma {:induction false} ChunksSum(n: nat)
    ensures Sum(Chunks(n)) == n
  {
    if n > 0 {
      var k := if n > CHUNK_PIXELS then CHUNK_PIXELS else n;
      ChunksSum(n - k);
      assert Chunks(n)[1..] == Chunks(n - k);
    }
  }

  /** There are ceil(n / 512) chunks. */
  lemma {:induction false} ChunksCount(n: nat)
    ensures |Chunks(n)| == (n + CHUNK_PIXELS - 1) / CHUNK_PIXELS
  {
    if n > CHUNK_PIXELS {
      ChunksCount(n - CHUNK_PIXELS);
      assert (n - 1) / CHUNK_PIXELS == 1 + (n - 1 - CHUNK_PIXELS) / CHUNK_PIXELS by {
        var q, r := (n - 1 - CHUNK_PIXELS) / CHUNK_PIXELS, (n - 1 - CHUNK_PIXELS) % CHUNK_PIXELS;
        DivMod(q + 1, r, CHUNK_PIXELS);
      }
    } else if n > 0 {
      DivMod(1, n - 1, CHUNK_PIXELS);
    }
  }

  /**
   * Every chunk but the last is a full buffer; the last one carries n mod 512
   * pixels, or a full buffer when 512 divides n.
   */
  lemma {:induction false} ChunksShape(n: nat, i: nat)
    requires i < |Chunks(n)|
    ensures 0 < Chunks(n)[i] <= CHUNK_PIXELS
    ensures i < |Chunks(n)| - 1 ==> Chunks(n)[i] == CHUNK_PIXELS
    ensures i == |Chunks(n)| - 1 ==> Chunks(n)[i] == if n % CHUNK_PIXELS == 0 then CHUNK_PIXELS else n % CHUNK_PIXELS
  {
    if n > CHUNK_PIXELS {
      assert Chunks(n)[1..] == Chunks(n - CHUNK_PIXELS);
      assert n % CHUNK_PIXELS == (n - CHUNK_PIXELS) % CHUNK_PIXELS by {
        var q, r := (n - CHUNK_PIXELS) / CHUNK_PIXELS, (n - CHUNK_PIXELS) % CHUNK_PIXELS;
        DivMod(q + 1, r, CHUNK_PIXELS);
      }
      if i > 0 {
        ChunksShape(n - CHUNK_PIXELS, i - 1);
      } else {
        assert |Chunks(n - CHUNK_PIXELS)| > 0;
      }
    } else {
      assert Chunks(n) == [n];
      if n < CHUNK_PIXELS {
        DivMod(0, n, CHUNK_PIXELS);
      }
    }
  }

  /** After m pixels in full chunks, one more chunk of k pixels extends the chunk list by k. */
  lemma {:induction false} ChunksAppend(m: nat, k: nat)
    requires m % CHUNK_PIXELS == 0 && 0 < k <= CHUNK_PIXELS
    ensures Chunks(m + k) == Chunks(m) + [k]
  {
    if m > 0 {
      assert m >= CHUNK_PIXELS;
      DivMod(m / CHUNK_PIXELS - 1, 0, CHUNK_PIXELS);
      ChunksAppend(m - CHUNK_PIXELS, k);
    }
  }

  /** The transfers that carry chunks of the given sizes of colour c, one per chunk. */
  function ChunkEvents(c: Word, sizes: seq<nat>): (t: seq<Event>)
    ensures |t| == |sizes|
  {
    if sizes == [] then [] else [Data(ColorBytes(Fill(c, sizes[0])))] + ChunkEvents(c, sizes[1..])
  }

  /** Transfer i carries sizes[i] pixels of colour c, and nothing else. */
  lemma {:induction false} ChunkEventsAt(c: Word, sizes: seq<nat>, i: nat)
    requires i < |sizes|
    ensures ChunkEvents(c, sizes)[i] == Data(ColorBytes(Fill(c, sizes[i])))
  {
    if i > 0 {
      ChunkEventsAt(c, sizes[1..], i - 1);
    }
  }

  /**
   * Every chunk transfer is the colour's two bytes repeated, high byte first,
   * once per pixel of the chunk.
   */
  lemma ChunkPattern(c: Word, n: nat, i: nat, j: nat)
    requires i < |Chunks(n)| && j < Chunks(n)[i]
    ensures var e := ChunkEvents(c, Chunks(n))[i];
            e.Data? && |e.bytes| == 2 * Chunks(n)[i] && e.bytes[2 * j] == Hi(c) && e.bytes[2 * j + 1] == Lo(c)
  {
    ChunkEventsAt(c, Chunks(n), i);
    ColorBytesAt(Fill(c, Chunks(n)[i]), j);
  }

  /** The transfers of two runs of chunks, one after the other. */
  lemma {:induction false} ChunkEventsAppend(c: Word, a: seq<nat>, b: seq<nat>)
    ensures ChunkEvents(c, a + b) == ChunkEvents(c, a) + ChunkEvents(c, b)
  {
    if a == [] {
      assert a + b == b;
    } else {
      assert (a + b)[1..] == a[1..] + b;
      ChunkEventsAppend(c, a[1..], b);
    }
  }

  /**
   * One turn of draw_rectangle's send loop: after sent pixels in full chunks,
   * the next transfer of min(512, total - sent) pixels either ends on a chunk
   * boundary or finishes the rectangle, and extends the chunk transfers by one.
   */
  lemma ChunkStep(c: Word, sent: nat, total: nat)
    requires sent < total && sent % CHUNK_PIXELS == 0
    ensures var k := if total - sent > CHUNK_PIXELS then CHUNK_PIXELS else total - sent;
            ((sent + k) % CHUNK_PIXELS == 0 || sent + k == total)
            && ChunkEvents(c, Chunks(sent + k)) == ChunkEvents(c, Chunks(sent)) + [Data(ColorBytes(Fill(c, k)))]
            && ColorBytes(Fill(c, CHUNK_PIXELS))[..k * 2] == ColorBytes(Fill(c, k))
  {
    var k := if total - sent > CHUNK_PIXELS then CHUNK_PIXELS else total - sent;
    if k == CHUNK_PIXELS {
      NextBoundary(sent, k);
    }
    ChunksAppend(sent, k);
    ChunkEventsAppend(c, Chunks(sent), [k]);
    assert ChunkEvents(c, [k]) == [Data(ColorBytes(Fill(c, k)))];
    ColorBytesPrefix(Fill(c, CHUNK_PIXELS), k);
    assert Fill(c, CHUNK_PIXELS)[..k] == Fill(c, k);
  }

  lemma NextBoundary(sent: nat, k: nat)
    requires sent % CHUNK_PIXELS == 0 && k == CHUNK_PIXELS
    ensures (sent + k) % CHUNK_PIXELS == 0
  {
    DivMod(sent / CHUNK_PIXELS + 1, 0, CHUNK_PIXELS);
  }

  /** A full 240 x 240 panel goes out as 112 chunks of 512 pixels and one of 256. */
  lemma ChunksFullPanel()
    ensures Chunks(240 * 240) == Fill(512, 112) + [256]
  {
    var s := Chunks(240 * 240);
    ChunksCount(240 * 240);
    assert |s| == 113;
    forall i | 0 <= i < 113
      ensures s[i] == (Fill(512, 112) + [256])[i]
    {
      ChunksShape(240 * 240, i);
    }
  }

  /** One more pixel of colour c adds its two bytes at the end. */
  lemma FillSnoc(c: Word, n: nat)
    ensures ColorBytes(Fill(c, n + 1)) == ColorBytes(Fill(c, n)) + WordBytes(c)
  {
    assert Fill(c, n + 1)[..n] == Fill(c, n);
  }

  lemma FillAppend(c: Word, a: nat, b: nat)
    ensures Fill(c, a) + Fill(c, b) == Fill(c, a + b)
  {
  }

  /** The chunks of n pixels carry, end to end, exactly n pixels of colour c. */
  lemma {:induction false} ChunksCarryPixels(c: Word, n: nat)
    ensures DataBytes(ChunkEvents(c, Chunks(n))) == ColorBytes(Fill(c, n))
  {
    if n > 0 {
      var k := if n > CHUNK_PIXELS then CHUNK_PIXELS else n;
      var t := ChunkEvents(c, Chunks(n));
      var first, rest := Fill(c, k), Fill(c, n - k);
      assert t[0] == Data(ColorBytes(first)) && t[1..] == ChunkEvents(c, Chunks(n - k)) by {
        assert Chunks(n) == [k] + Chunks(n - k);
      }
      calc {
        DataBytes(t);
        == { DataBytesCons(t); }
        ColorBytes(first) + DataBytes(ChunkEvents(c, Chunks(n - k)));
        == { ChunksCarryPixels(c, n - k); }
        ColorBytes(first) + ColorBytes(rest);
        == { ColorBytesAppend(first, rest); }
        ColorBytes(first + rest);
        == { FillAppend(c, k, n - k); }
        ColorBytes(Fill(c, n));
      }
    }
  }

  /** uint16_t width = x2 - x1 + 1: the column count, modulo 2^16. */
  function Span(lo: Word, hi: Word): (count: nat)
  {
    (hi - lo + 1) % 0x1_0000
  }

  /**
   * What the 16-bit subtraction makes of a span: the true count when the
   * ends are in order and less than 65536 apart; 0 for an empty span (hi one
   * below lo) and for the full 65536-wide range; and for any other reversed
   * pair the count wraps to 65536 + hi - lo + 1, a large positive width.
   */
  lemma SpanWraps(lo: Word, hi: Word)
    ensures lo <= hi < lo + 0xFFFF ==> Span(lo, hi) == hi - lo + 1
    ensures hi - lo + 1 == 0 || hi - lo + 1 == 0x1_0000 ==> Span(lo, hi) == 0
    ensures hi < lo - 1 ==> Span(lo, hi) == 0x1_0000 + hi - lo + 1 && 0 < Span(lo, hi) < 0x1_0000
  {
    if lo <= hi < lo + 0xFFFF {
      DivMod(0, hi - lo + 1, 0x1_0000);
    } else if hi < lo - 1 {
      DivMod(-1, 0x1_0000 + hi - lo + 1, 0x1_0000);
    }
  }

  /** total_pixels = width * height. */
  function TotalPixels(x1: Word, y1: Word, x2: Word, y2: Word): (area: nat)
  {
    Span(x1, x2) * Span(y1, y2)
  }

  /** What draw_rectangle(x1, y1, x2, y2, c) puts on the link. */
  function RectangleTrace(x1: Word, y1: Word, x2: Word, y2: Word, c: Word): (trace: seq<Event>)
  {
    WindowTrace(x1, x2, y1, y2) + [Cmd(RAMWR)] + ChunkEvents(c, Chunks(TotalPixels(x1, y1, x2, y2)))
  }

  /** What draw_pixel(x, y, c) puts on the link. */
  function PixelTrace(x: Word, y: Word, c: Word): (trace: seq<Event>)
  {
    WindowTrace(x, x, y, y) + [Cmd(RAMWR), Data(WordBytes(c))]
  }

  /**
   * For a rectangle given in order and less than 65536 pixels wide and high
   * (a full 65536-wide span wraps to a width of 0), draw_rectangle programs exactly that
   * window, issues one memory write, and then streams nothing but data: one
   * colour word per pixel of the window, never more and never fewer.
   */
  lemma RectangleFillsWindow(x1: Word, y1: Word, x2: Word, y2: Word, c: Word)
    requires x1 <= x2 < x1 + 0xFFFF && y1 <= y2 < y1 + 0xFFFF
    ensures Span(x1, x2) == x2 - x1 + 1 && Span(y1, y2) == y2 - y1 + 1
    ensures var t := RectangleTrace(x1, y1, x2, y2, c);
            var area := TotalPixels(x1, y1, x2, y2);
            |t| > 7 && DecodeWindow(t[..6]) == Some(Rect(x1, x2, y1, y2)) && t[6] == Cmd(RAMWR)
            && (forall i :: 7 <= i < |t| ==> t[i].Data?)
            && DataBytes(t[7..]) == ColorBytes(Fill(c, area))
            && |DataBytes(t[7..])| == 2 * area
  {
    var w, h := x2 - x1 + 1, y2 - y1 + 1;
    DivMod(0, w, 0x1_0000);
    DivMod(0, h, 0x1_0000);
    assert Span(x1, x2) == w && Span(y1, y2) == h;
    var area := TotalPixels(x1, y1, x2, y2);
    assert area == w * h >= 1;
    var t := RectangleTrace(x1, y1, x2, y2, c);
    var chunks := ChunkEvents(c, Chunks(area));
    assert Chunks(area) != [];
    assert t[..6] == WindowTrace(x1, x2, y1, y2);
    WindowProgramsCoordinates(x1, x2, y1, y2);
    assert t[7..] == chunks;
    forall i | 7 <= i < |t|
      ensures t[i].Data?
    {
      ChunkEventsAt(c, Chunks(area), i - 7);
    }
    ChunksCarryPixels(c, area);
  }

  /**
   * The 16-bit width wraps: when x2 - x1 + 1 is 0 or 65536 (x2 = x1 - 1, or
   * the full 0..0xFFFF range), the width computes to 0, and draw_rectangle
   * programs the window, issues the memory write and then streams no pixel.
   */
  lemma RectangleWidthWraps(x1: Word, y1: Word, x2: Word, y2: Word, c: Word)
    requires x2 - x1 + 1 == 0 || x2 - x1 + 1 == 0x1_0000
    ensures RectangleTrace(x1, y1, x2, y2, c) == WindowTrace(x1, x2, y1, y2) + [Cmd(RAMWR)]
  {
    assert Span(x1, x2) == 0;
    assert TotalPixels(x1, y1, x2, y2) == 0;
    assert ChunkEvents(c, Chunks(0)) == [];
  }

  /** The 16-bit height wraps the same way: a height of 0 streams no pixel. */
  lemma RectangleHeightWraps(x1: Word, y1: Word, x2: Word, y2: Word, c: Word)
    requires y2 - y1 + 1 == 0 || y2 - y1 + 1 == 0x1_0000
    ensures RectangleTrace(x1, y1, x2, y2, c) == WindowTrace(x1, x2, y1, y2) + [Cmd(RAMWR)]
  {
    assert Span(y1, y2) == 0;
    assert TotalPixels(x1, y1, x2, y2) == 0;
    assert ChunkEvents(c, Chunks(0)) == [];
  }

  /** draw_pixel sends exactly what draw_rectangle sends for a one-pixel rectangle. */
  lemma PixelIsRectangle(x: Word, y: Word, c: Word)
    ensures PixelTrace(x, y, c) == RectangleTrace(x, y, x, y, c)
  {
    assert Span(x, x) * Span(y, y) == 1;
    assert Chunks(1) == [1];
    assert Fill(c, 1) == [c];
    ColorBytesSingle(c);
  }
}
