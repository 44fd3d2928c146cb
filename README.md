# ST7789 protocol layer, modelled in Dafny

This project models the controller protocol layer of an ESP32 driver for an
ST7789 TFT panel (`components/st7789/src/st7789.c`). The layer turns drawing
calls into the controller's command/data byte protocol. It covers:

- the command channel (`send_cmd`, `send_data`, `send_word`);
- window addressing (`set_window`);
- the power-on sequence (`RESET`, `porch_control`, `set_orientation`, `INIT`);
- pixel streaming (`send_color`, `draw_pixel`, `draw_rectangle`);
- colour conversion (`rgb888_to_rgb565`).

The serial link is an append-only transmission trace, a `seq<Event>`. The
class `Driver.Display` holds it in its field `trace`:

- `Cmd(op)` is one byte in command mode;
- `Data(bytes)` is one transfer in data mode;
- `Delay(ms)` is a task delay;
- `ResetLine(level)` is the reset pin;
- `Platform(call)` marks the bus, pin and backlight set-up that `INIT` calls.

The data/command select line is folded into the `Cmd`/`Data` tag. Each method
ensures `trace == old(trace) + X`, where `X` is a specification function of
its arguments. The lemmas state what those functions mean:

- the window the controller decodes;
- the schedule of commands and delays;
- the parameter bytes in order;
- the chunk sizes, their number and sum;
- the pixel bytes a rectangle fill streams.

Modules, one file each:

- `Wire` (`wire.dfy`): bytes, words, events, and the trace readers `DataBytes` and `Schedule`.
- `Color` (`color.dfy`): RGB565 packing.
- `Window` (`window.dfy`): `set_window`'s trace and its decoding.
- `InitSequence` (`init.dfy`): the stages of `INIT`.
- `Stream` (`stream.dfy`): pixel packing, chunking and the rectangle and pixel traces.
- `Driver` (`driver.dfy`): the class with the imperative methods.

Encoding choices:

- Bytes and 16-bit words are bounded integers (`Byte`, `Word`).
- A right shift by k is a division by 2^k.
- A mask of the k low bits is a remainder modulo 2^k.
- An OR of bit fields that do not overlap is their sum.
- `uint16_t` arithmetic that can wrap (`x0 + X_OFFSET`, `x2 - x1 + 1`) is written modulo 2^16.
- `st7789.h` is not part of this model, so the opcodes are the ST7789 datasheet values: SWRESET 0x01, SLPOUT 0x11, NORON 0x13, INVON 0x21, DISPON 0x29, CASET 0x2A, RASET 0x2B, RAMWR 0x2C, TEON 0x35, MADCTL 0x36, COLMOD 0x3A, PORCTRL 0xB2, GCTRL 0xB7, VCOMS 0xBB. No contract depends on the particular values.

## What the code does

Some behaviour of the code is worth stating on its own:

- `set_window` clamps nothing. The coordinates plus the offsets (both 0) are sent as given.
- `porch_control` sends six parameter bytes, each as its own transfer.
- Because of its 4-bit masks, the `0x10` that `INIT` passes for the second back and front porch goes out as `0x00`. `InitExactTrace` and `InitParameters` show this.
- A 240 × 240 fill is 57600 pixels, which is 112 chunks of 512 plus one of 256 (`ChunksFullPanel`).

## Model

| member | source | states |
|---|---|---|
| `Driver.Display.constructor` | components/st7789/src/st7789.c:181 | A new session has an empty trace and its own 1024-byte packing buffer. |
| `Driver.Display.SendCmd` | components/st7789/src/st7789.c:11-18 | Appends exactly one `Cmd(cmd)` and nothing else. |
| `Driver.Display.SendData` | components/st7789/src/st7789.c:20-27 | Appends exactly one `Data` transfer carrying the first `size` bytes of `data`. |
| `Driver.Display.SendWord` | components/st7789/src/st7789.c:29-33 | Appends one two-byte transfer, the word's bytes high byte first. |
| `Wire.WordOf` | components/st7789/src/st7789.c:30 | The word built from a high and a low byte splits back into exactly those bytes. |
| `Wire.Hi` | components/st7789/src/st7789.c:30 | No ensures: computes `data >> 8` as `w / 256`. Its contract is carried by `Wire.WordOf` and `Wire.WordBytes`. |
| `Wire.Lo` | components/st7789/src/st7789.c:30 | No ensures: computes `data & 0xFF` as `w % 256`. Its contract is carried by `Wire.WordOf` and `Wire.WordBytes`. |
| `Wire.WordBytes` | components/st7789/src/st7789.c:30 | The split of a word is two bytes, and `hi * 256 + lo` gives the word back. |
| `Wire.DecodeWord` | components/st7789/src/st7789.c:29-33 | A payload decodes to a word exactly when it has two bytes, and the word re-encodes to that payload. |
| `Driver.Display.Wait` | components/st7789/src/st7789.c:66 | A task delay appends one `Delay(ms)` event. |
| `Driver.Display.SetResetLine` | components/st7789/src/st7789.c:65 | Driving the reset pin appends one `ResetLine(level)` event. |
| `Driver.Display.Configure` | components/st7789/src/st7789.c:123-124 | Platform set-up appends one opaque marker. |
| `Driver.Display.Reset` | components/st7789/src/st7789.c:64-71 | Appends: reset low, 20 ms, reset high, SWRESET, 150 ms. |
| `InitSequence.PorchBytes` | components/st7789/src/st7789.c:75-85 | There are six bytes. Bytes 1–2 are below 0x80 and keep the 7 low bits of their inputs. Byte 3 has its top bit set iff `psen`, bits 4–6 clear, and the low nibble of `bpb`. Bytes 4–6 are the low nibbles of their inputs. |
| `Driver.Display.PorchControl` | components/st7789/src/st7789.c:73-87 | Appends `Cmd(PORCTRL)`, then each of the six masked bytes as a one-byte transfer. |
| `Driver.Display.SetOrientation` | components/st7789/src/st7789.c:89-92 | Appends `Cmd(MADCTL)` and a one-byte transfer with the orientation byte. |
| `Driver.Display.SetWindow` | components/st7789/src/st7789.c:94-108 | Appends CASET with the start and end column words, then RASET with the start and end row words. Each word is the coordinate plus the offset, modulo 2^16. |
| `Window.WindowProgramsCoordinates` | components/st7789/src/st7789.c:97-108 | The six events decode to the window of the offset coordinates. With offsets 0, that is exactly the requested window, unclamped. |
| `Driver.Display.BringUp` | components/st7789/src/st7789.c:123-124 | Appends the SPI and GPIO set-up markers. |
| `Driver.Display.WakeUp` | components/st7789/src/st7789.c:126-127 | Appends SLPOUT, then 120 ms. |
| `Driver.Display.SetColorMode` | components/st7789/src/st7789.c:128-130 | Appends COLMOD with parameter 0x55. |
| `Driver.Display.TunePanel` | components/st7789/src/st7789.c:136-141 | Appends GCTRL 0x35, then VCOMS 0x1F. |
| `Driver.Display.DisplayOn` | components/st7789/src/st7789.c:142-146 | Appends INVON, 10 ms, NORON, DISPON, 150 ms. |
| `Driver.Display.Finish` | components/st7789/src/st7789.c:147-150 | Appends TEON with parameter 0x00, then the backlight marker at duty 10. |
| `Driver.Display.Init` | components/st7789/src/st7789.c:122-151 | Appends exactly the stages of `INIT`, in source order, and nothing else. |
| `InitSequence.InitExactTrace` | components/st7789/src/st7789.c:122-151 | That trace is one fixed 32-event script. Porch bytes 3 and 4 are 0x00. |
| `InitSequence.InitSchedule` | components/st7789/src/st7789.c:122-151 | The commands of `INIT`, in order, each with the delay elapsed since the previous command: SWRESET after 20 ms of reset, SLPOUT 150 ms after SWRESET, COLMOD 120 ms after SLPOUT, NORON 10 ms after INVON, TEON 150 ms after DISPON. |
| `InitSequence.InitParameters` | components/st7789/src/st7789.c:128-149 | The parameter bytes of `INIT`, in order: 0x55, 0x00, the six porch bytes 0x0C 0x0C 0x00 0x00 0x02 0x02, 0x35, 0x1F, 0x00. |
| `Color.Rgb888ToRgb565` | components/st7789/src/st7789.c:175-177 | No ensures: computes `(r / 8) * 2^11 + (g / 4) * 2^5 + b / 8`, the shifted fields, whose OR is a sum because they do not overlap. The `Color.Rgb565*` lemmas below state its properties. |
| `Color.Rgb565Fields` | components/st7789/src/st7789.c:175-177 | The packed colour is below 2^16. `c >> 11 == r >> 3`, `(c >> 5) & 0x3F == g >> 2`, and `c & 0x1F == b >> 3`. |
| `Color.Rgb565RoundTrip` | components/st7789/src/st7789.c:175-177 | Every 16-bit value is the packing of the colour it stands for. |
| `Color.Rgb565KeepsHighBits` | components/st7789/src/st7789.c:175-177 | Packing then unpacking keeps exactly the top 5, 6 and 5 bits of the channels. |
| `Color.Rgb565Black` | components/st7789/src/st7789.c:175-177 | (0, 0, 0) packs to 0x0000. |
| `Color.Rgb565White` | components/st7789/src/st7789.c:175-177 | (255, 255, 255) packs to 0xFFFF. |
| `Color.Rgb565Red` | components/st7789/src/st7789.c:175-177 | (255, 0, 0) packs to 0xF800. |
| `Color.Rgb565AppColor` | main/TOHA.c:9 | The application's fill colour (210, 132, 120) packs to 0xD42F. |
| `Driver.Display.SendColor` | components/st7789/src/st7789.c:180-188 | Packs the first `size` colours into the first `2 * size` bytes of the static buffer and leaves the rest of it unchanged. Then sends those bytes as one transfer. |
| `Stream.ColorBytes` | components/st7789/src/st7789.c:183-186 | Packing `n` colours gives `2n` bytes. The packing loop's contents are stated by `Stream.ColorBytesAt` and `Stream.DecodeColorBytes`. |
| `Stream.ColorBytesAt` | components/st7789/src/st7789.c:183-186 | Bytes `2i` and `2i + 1` of a packing are the high and low byte of colour `i`. |
| `Stream.ColorBytesSingle` | components/st7789/src/st7789.c:193 | One colour packs to its two big-endian bytes. |
| `Stream.ColorBytesPrefix` | components/st7789/src/st7789.c:187 | The first `2k` packed bytes are the packing of the first `k` colours. |
| `Stream.ColorBytesAppend` | components/st7789/src/st7789.c:183-186 | Packing two runs of colours packs them one after the other. |
| `Stream.DecodeColorBytes` | components/st7789/src/st7789.c:183-186 | Unpacking a packing gives back the colours. |
| `Driver.Display.DrawPixel` | components/st7789/src/st7789.c:190-194 | Appends the one-pixel window, RAMWR, and the colour's two bytes. Leaves them in the static buffer. |
| `Stream.PixelIsRectangle` | components/st7789/src/st7789.c:190-217 | `draw_pixel` sends what `draw_rectangle` sends for the same one-pixel rectangle. |
| `Stream.FillSnoc` | components/st7789/src/st7789.c:206-209 | Each turn of the fill loop adds the colour's two bytes at the end. |
| `Stream.Chunks` | components/st7789/src/st7789.c:211-217 | No ensures: the pixel counts of the send loop's transfers, each the smaller of 512 and what remains. `Stream.ChunksSum`, `Stream.ChunksCount` and `Stream.ChunksShape` state its properties. |
| `Stream.ChunksSum` | components/st7789/src/st7789.c:211-217 | The chunk sizes add up to exactly `width * height`. |
| `Stream.ChunksCount` | components/st7789/src/st7789.c:211-217 | There are ceil(N / 512) chunks. |
| `Stream.ChunksShape` | components/st7789/src/st7789.c:213-214 | Every chunk has 1 to 512 pixels. All but the last have 512. The last has N mod 512, or 512 when 512 divides N. |
| `Stream.ChunksAppend` | components/st7789/src/st7789.c:212-216 | After whole chunks, one more chunk of k pixels adds k to the list. |
| `Stream.ChunkStep` | components/st7789/src/st7789.c:212-216 | One turn of the send loop ends on a chunk boundary or at the total. It adds one transfer, whose bytes are the prefix of the full buffer. |
| `Stream.ChunksFullPanel` | components/st7789/src/st7789.c:200-217 | A 240 × 240 fill is 112 chunks of 512 pixels and one of 256. |
| `Stream.ChunkEventsAt` | components/st7789/src/st7789.c:215 | Transfer `i` carries `sizes[i]` pixels of the colour. |
| `Stream.ChunkEventsAppend` | components/st7789/src/st7789.c:212-217 | The transfers of two runs of chunks follow one another. |
| `Stream.ChunkPattern` | components/st7789/src/st7789.c:206-215 | Every chunk is 2 × its pixel count bytes: the colour's high byte, then its low byte, repeated. |
| `Stream.ChunksCarryPixels` | components/st7789/src/st7789.c:211-217 | End to end, the chunk transfers carry exactly N pixels of the colour. |
| `Stream.Span` | components/st7789/src/st7789.c:200-201 | No ensures: `(hi - lo + 1) mod 2^16`, the `uint16_t` width or height. `Stream.SpanWraps` states what it comes to. |
| `Stream.SpanWraps` | components/st7789/src/st7789.c:200-201 | A span `hi - lo + 1` in `uint16_t` is the true count when `lo <= hi` and they are less than 65536 apart. It is 0 when `hi` is one below `lo` or the span is the full 65536. For any other reversed pair it wraps to `65536 + hi - lo + 1`, between 1 and 65535: for example `x1 = 10, x2 = 5` gives 65532 columns. |
| `Stream.TotalPixels` | components/st7789/src/st7789.c:200-202 | No ensures: `width * height` of the two 16-bit spans, computed without wrap-around under the precondition of `Driver.Display.DrawRectangle`. |
| `Driver.Display.DrawRectangle` | components/st7789/src/st7789.c:196-217 | Appends the window, RAMWR, then one transfer per chunk of `Chunks(width * height)`, each carrying that many pixels of the colour. The loop invariants are `sent <= total_pixels`, `sent` on a chunk boundary or at the total, the buffer holding 512 copies of the colour, and the trace so far. |
| `Stream.RectangleFillsWindow` | components/st7789/src/st7789.c:196-217 | For a rectangle given in order and less than 65536 pixels wide and high, the trace programs exactly that window and issues one RAMWR. After that it has only data, whose bytes are one colour word per pixel of the window, `2 * width * height` bytes in all. |
| `Stream.RectangleWidthWraps` | components/st7789/src/st7789.c:200-202 | When `x2 - x1 + 1` is 0 or 65536, the 16-bit width is 0. Only the window and RAMWR are sent. |
| `Stream.RectangleHeightWraps` | components/st7789/src/st7789.c:200-202 | When `y2 - y1 + 1` is 0 or 65536, the 16-bit height is 0. Only the window and RAMWR are sent. |
| `Wire.DataBytesCons` | components/st7789/src/st7789.c:20-27 | The data bytes of a trace are those of its first event followed by those of the rest. |
| `Wire.DataBytesAppend` | components/st7789/src/st7789.c:20-27 | The data bytes of two traces in a row are the bytes of each, in order. |
| `Wire.ScheduleAppend` | components/st7789/src/st7789.c:122-151 | The schedule of two traces in a row: the second starts with the delay the first left pending. |

## Left out

- `spi_init`, `gpio_init`, `backlight` (lines 36-61, 111-120, 153-173): ESP-IDF bus, pin and PWM configuration with no protocol logic. `INIT` records them only as `Platform` markers.
- `ESP_ERROR_CHECK` (lines 17, 26): a failed transfer aborts the program. The model assumes every transfer succeeds.
- Timing: `vTaskDelay(pdMS_TO_TICKS(ms))` is a `Delay(ms)` event. Tick rounding and wall-clock behaviour are not modelled.
- `spi_init`'s `max_transfer_sz`: it comes from panel constants in `st7789.h`, which is not part of this model. No transfer-size bound is checked.
- `main/TOHA.c`: the application entry point is not modelled. Its `fill_screen` is not defined in the files this model covers. Only its colour constant appears, in `Color.Rgb565AppColor`.
- Concurrency: the driver's globals (the SPI handle and `send_color`'s static buffer) are taken to be used from one thread.
- `Driver.Display.SendColor`: requires `2 * size <= 1024` and `size <= |colors|`. In C, a larger `size` writes past the static buffer or reads past the colour array, which is undefined behaviour.
- `Driver.Display.DrawRectangle`: requires `width * height < 2^31`. The product of two `uint16_t` values is computed as a signed `int`, and overflow is undefined behaviour (possible for sizes above about 46341 × 46341). The source has no `x1 <= x2` precondition and the model adds none. Reversed coordinates wrap in `uint16_t`: the width is `(x2 - x1 + 1) mod 2^16` and the height likewise (`Stream.SpanWraps`). So a general reversed rectangle streams a large wrapped count of pixels. When a span is 0, only the window and RAMWR are sent, as `Stream.RectangleWidthWraps` and `Stream.RectangleHeightWraps` show.
