/**
 * The driver: one device session whose every operation appends to the trace
 * of what has been sent to the controller.  Each method's postcondition
 * states exactly what it appends; the modules it imports say what those
 * traces mean.
 */
module Driver {
  import opened Wire
  import opened Window
  import opened InitSequence
  import opened Stream

  class Display {
    /** Everything sent so far, oldest first. */
    var trace: seq<Event>

    /** The static packing buffer of send_color, kept across calls. */
    const colorBuffer: array<Byte>

    ghost predicate Valid()
    {
      colorBuffer.Length == BUFFER_BYTES
    }

    constructor ()
      ensures Valid() && trace == [] && fresh(colorBuffer)
    {
      trace := [];
      colorBuffer := new Byte[BUFFER_BYTES];
    }

    // ---- Command channel ----

    /** send_cmd: one byte in command mode. */
    method SendCmd(cmd: Byte)
      modifies this
      ensures trace == old(trace) + [Cmd(cmd)]
    {
      trace := trace + [Cmd(cmd)];
    }

    /** send_data: the first size bytes of data in data mode, as one transfer. */
    method SendData(data: seq<Byte>, size: nat)
      requires size <= |data|
      modifies this
      ensures trace == old(trace) + [Data(data[..size])]
      ensures size == |data| ==> trace == old(trace) + [Data(data)]
    {
      assert data[..|data|] == data;
      trace := trace + [Data(data[..size])];
    }

    /** send_word: a word as one two-byte transfer, high byte first. */
    method SendWord(w: Word)
      modifies this
      ensures trace == old(trace) + [Data(WordBytes(w))]
    {
      var buffer := [Hi(w), Lo(w)];
      SendData(buffer, 2);
    }

    // ---- Platform calls ----

    /** vTaskDelay(pdMS_TO_TICKS(ms)). */
    method Wait(ms: nat)
      modifies this
      ensures trace == old(trace) + [Delay(ms)]
    {
      trace := trace + [Delay(ms)];
    }

    /** gpio_set_level(TFT_RST, level). */
    method SetResetLine(high: bool)
      modifies this
      ensures trace == old(trace) + [ResetLine(high)]
    {
      trace := trace + [ResetLine(high)];
    }

    /** spi_init, gpio_init and backlight, which configure the platform. */
    method Configure(call: PlatformCall)
      modifies this
      ensures trace == old(trace) + [Platform(call)]
    {
      trace := trace + [Platform(call)];
    }

    // ---- Init sequencer ----

    /** RESET: hardware reset pulse, then SWRESET. */
    method Reset()
      modifies this
      ensures trace == old(trace) + ResetTrace()
    {
      SetResetLine(false);
      Wait(20);
      SetResetLine(true);
      SendCmd(SWRESET);
      Wait(150);
    }

    /** porch_control: PORCTRL and six masked parameter bytes, one transfer each. */
    method PorchControl(bpa: Byte, fpa: Byte, psen: bool, bpb: Byte, fpb: Byte, bpc: Byte, fpc: Byte)
      modifies this
      ensures trace == old(trace) + PorchTrace(bpa, fpa, psen, bpb, fpb, bpc, fpc)
    {
      SendCmd(PORCTRL);
      var bpaData := bpa % 0x80;
      SendData([bpaData], 1);
      var fpaData := fpa % 0x80;
      SendData([fpaData], 1);
      var byte3 := (if psen then 0x80 else 0x00) + bpb % 0x10;
      SendData([byte3], 1);
      var fpbData := fpb % 0x10;
      SendData([fpbData], 1);
      var bpcData := bpc % 0x10;
      SendData([bpcData], 1);
      var fpcData := fpc % 0x10;
      SendData([fpcData], 1);
    }

    /** set_orientation: MADCTL with one parameter byte. */
    method SetOrientation(data: Byte)
      modifies this
      ensures trace == old(trace) + OrientationTrace(data)
    {
      SendCmd(MADCTL);
      SendData([data], 1);
    }

    // The stages of INIT, in the order INIT runs them.

    /** Bus and pin configuration. */
    method BringUp()
      modifies this
      ensures trace == old(trace) + BringUpTrace()
    {
      Configure(SpiInit);
      Configure(GpioInit);
    }

    /** SLPOUT and the wait for the controller to leave sleep mode. */
    method WakeUp()
      modifies this
      ensures trace == old(trace) + WakeUpTrace()
    {
      SendCmd(SLPOUT);
      Wait(120);
    }

    /** COLMOD: 16 bits per pixel. */
    method SetColorMode()
      modifies this
      ensures trace == old(trace) + ColorModeTrace()
    {
      SendCmd(COLMOD);
      var colmodData := 0x55;
      SendData([colmodData], 1);
    }

    /** GCTRL and VCOMS: gate voltages and VCOM level. */
    method TunePanel()
      modifies this
      ensures trace == old(trace) + TuningTrace()
    {
      SendCmd(GCTRL);
      var gctrlData := 0x35;
      SendData([gctrlData], 1);
      SendCmd(VCOMS);
      var vcomsData := 0x1F;
      SendData([vcomsData], 1);
    }

    /** INVON, NORON and DISPON with the delays between them. */
    method DisplayOn()
      modifies this
      ensures trace == old(trace) + DisplayOnTrace()
    {
      SendCmd(INVON);
      Wait(10);
      SendCmd(NORON);
      SendCmd(DISPON);
      Wait(150);
    }

    /** TEON and the backlight. */
    method Finish()
      modifies this
      ensures trace == old(trace) + FinishTrace()
    {
      SendCmd(TEON);
      var teon := 0x00;
      SendData([teon], 1);
      Configure(Backlight(10));
    }

    /** INIT: the whole power-on sequence. */
    method Init()
      modifies this
      ensures trace == old(trace) + InitTrace()
    {
      BringUp();
      Reset();
      WakeUp();
      SetColorMode();
      SetOrientation(0x00);
      PorchControl(0x0C, 0x0C, false, 0x10, 0x10, 0x02, 0x02);
      TunePanel();
      DisplayOn();
      Finish();
    }

    // ---- Window addressing ----

    /** set_window: CASET with the column words, RASET with the row words; no clamping. */
    method SetWindow(x0: Word, x1: Word, y0: Word, y1: Word)
      modifies this
      ensures trace == old(trace) + WindowTrace(x0, x1, y0, y1)
    {
      SendCmd(CASET);
      var xStart := Offset(x0, X_OFFSET);
      var xEnd := Offset(x1, X_OFFSET);
      SendWord(xStart);
      SendWord(xEnd);
      SendCmd(RASET);
      var yStart := Offset(y0, Y_OFFSET);
      var yEnd := Offset(y1, Y_OFFSET);
      SendWord(yStart);
      SendWord(yEnd);
    }

    // ---- Pixel streamer ----

    /**
     * send_color: packs the first size colours into the static buffer, two
     * bytes each, high byte first, and sends them as one transfer.  The rest
     * of the buffer keeps what earlier calls left there.
     */
    method SendColor(colors: seq<Word>, size: Word)
      requires Valid()
      requires size <= |colors| && 2 * size <= BUFFER_BYTES
      modifies this, colorBuffer
      ensures trace == old(trace) + [Data(ColorBytes(colors[..size]))]
      ensures colorBuffer[..2 * size] == ColorBytes(colors[..size])
      ensures colorBuffer[2 * size..] == old(colorBuffer[2 * size..])
    {
      var index := 0;
      for i := 0 to size
        invariant index == 2 * i
        invariant colorBuffer[..index] == ColorBytes(colors[..i])
        invariant colorBuffer[2 * size..] == old(colorBuffer[2 * size..])
        invariant trace == old(trace)
      {
        colorBuffer[index] := Hi(colors[i]);
        index := index + 1;
        colorBuffer[index] := Lo(colors[i]);
        index := index + 1;
        assert colors[..i + 1][..i] == colors[..i];
        assert colorBuffer[..index] == colorBuffer[..index - 2] + WordBytes(colors[i]);
      }
      SendData(colorBuffer[..], 2 * size);
      assert colorBuffer[..][..2 * size] == colorBuffer[..2 * size];
    }

    /** draw_pixel: a one-pixel window, RAMWR, and the pixel's colour word. */
    method DrawPixel(x: Word, y: Word, color: Word)
      requires Valid()
      modifies this, colorBuffer
      ensures trace == old(trace) + PixelTrace(x, y, color)
      ensures colorBuffer[..2] == WordBytes(color) && colorBuffer[2..] == old(colorBuffer[2..])
    {
      SetWindow(x, x, y, y);
      SendCmd(RAMWR);
      SendColor([color], 1);
      assert [color][..1] == [color];
      ColorBytesSingle(color);
    }

    /**
     * draw_rectangle: the window, RAMWR, then width * height pixels of one
     * colour from a buffer filled once, in chunks of at most 512 pixels.
     * The product is computed in a signed int, so it must not exceed 2^31 - 1.
     */
    method DrawRectangle(x1: Word, y1: Word, x2: Word, y2: Word, color: Word)
      requires TotalPixels(x1, y1, x2, y2) < 0x8000_0000
      modifies this
      ensures trace == old(trace) + RectangleTrace(x1, y1, x2, y2, color)
    {
      ghost var start := trace;
      SetWindow(x1, x2, y1, y2);
      SendCmd(RAMWR);
      ghost var header := trace;

      var width := Span(x1, x2);
      var height := Span(y1, y2);
      var totalPixels := width * height;
      var buffer := new Byte[BUFFER_BYTES];

      for i := 0 to buffer.Length / 2
        invariant buffer[..2 * i] == ColorBytes(Fill(color, i))
        invariant trace == header
      {
        buffer[i * 2] := Hi(color);
        buffer[i * 2 + 1] := Lo(color);
        FillSnoc(color, i);
        assert buffer[..2 * (i + 1)] == buffer[..2 * i] + WordBytes(color);
      }
      assert buffer[..] == buffer[..2 * CHUNK_PIXELS];

      var sent := 0;
      while sent < totalPixels
        invariant sent <= totalPixels
        invariant sent % CHUNK_PIXELS == 0 || sent == totalPixels
        invariant buffer[..] == ColorBytes(Fill(color, CHUNK_PIXELS))
        invariant trace == header + ChunkEvents(color, Chunks(sent))
        decreases totalPixels - sent
      {
        var remaining := totalPixels - sent;
        var chunk := if remaining > buffer.Length / 2 then buffer.Length / 2 else remaining;
        SendData(buffer[..], chunk * 2);
        ChunkStep(color, sent, totalPixels);
        AppendAssoc(header, ChunkEvents(color, Chunks(sent)), [Data(ColorBytes(Fill(color, chunk)))]);
        sent := sent + chunk;
      }
      AppendAssoc(start, WindowTrace(x1, x2, y1, y2), [Cmd(RAMWR)]);
      AppendAssoc(start, WindowTrace(x1, x2, y1, y2) + [Cmd(RAMWR)],
                  ChunkEvents(color, Chunks(TotalPixels(x1, y1, x2, y2))));
    }
  }
}
