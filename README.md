# fm-transmitter: the control-request handler of an Si4713 FM transmitter

This firmware runs an FM transmitter on an ESP32-C3. The transmitter is an
Si4713 chip whose reset line is pin 10. The firmware shows a GyverHub
control panel with three widgets:

- the switch `radio_on`;
- the slider `freq_slider`, covering 8000..11000 in 10 kHz units;
- the drop-down `freq_select`, listing ten preset stations.

Three globals hold the state:

- `radioOn`, which starts false;
- `freq_khz`, a `uint16_t` in 10 kHz units that starts at 9840 (98.40 MHz);
- `presetIdx`, a `uint8_t` that starts at 0.

At start-up `setup` makes the reset pin an output and holds the chip in
reset. The hub's request callback `onReq` does the rest:

- It ignores every command except Set, and every name except the three
  widgets.
- `radio_on` powers the chip on or off. Powering on releases reset, waits
  10 ms and calls `begin()`. Only if `begin()` succeeds does it program TX
  power 115 dBuV and the frequency.
- `freq_slider` stores the value, truncated to 16 bits, and retunes if the
  radio is on.
- `freq_select` truncates the value to 8 bits and replaces an index past
  the table with 0. It then loads that preset's frequency, sends the new
  value to the slider, and retunes if the radio is on.

The drop-down's text is built by a loop in `build`. The loop prints each
preset as `"%u.%02u"` (8810 becomes "88.10") into an 8-byte buffer and
joins the items with `;`.

The model has three modules:

- `Numbers` covers the fixed-width conversions, printf's `%u`, and
  `String::toInt`, which is atol.
- `PresetTable` covers the table, an item's label, the list string, and the
  loop that builds it, as a method proved equal to the list function.
- `Radio` covers the handler as a pure function `Handle` and the firmware's
  state as the class `Transmitter`. The class has the three globals as
  fields, plus `trace`: every pin, delay, driver and hub call, in order.
  `Transmitter.OnReq` is proved to do exactly what `Handle` describes, and
  the properties are proved as lemmas about `Handle`. What `begin()`
  answers is a parameter (`chipFound`).

The handler does not clamp values to the widgets' ranges. It has no fault
state, no RDS, no frequency correction and no scan. A slider value is
stored unclamped, modulo 2^16. `radioOn` stays true after a failed
`begin()`, so later slider moves still call `tuneFM`.
`FailedBeginStillTunes` and `SliderUnclamped` prove this.

## Model

| member | source | states |
|---|---|---|
| Numbers.ToUint16 | src/main.cpp:99 | Storing a `long` into the `uint16_t` `freq_khz` keeps it modulo 2^16: the result is congruent to the input and equals it when it is in range. |
| Numbers.ToUint8 | src/main.cpp:107 | Storing a `long` into the `uint8_t` `idx` keeps it modulo 2^8: the result is congruent to the input and equals it when it is in range. |
| Numbers.Decimal | src/main.cpp:70 | printf's `%u` of n: a digit string without leading zeros that has enough digits for n. DecimalValue and DecimalOfValue state that it is exactly n's decimal rendering. |
| Numbers.DecimalValue | src/main.cpp:70 | The `%u` rendering of n, read as decimal digits, denotes n. |
| Numbers.DecimalOfValue | src/main.cpp:70 | On digit strings without leading zeros, `%u` inverts digit reading. |
| Numbers.DecimalLength | src/main.cpp:69-70 | A number below 10^k renders in at most k digits. |
| Numbers.SkipSpace | src/main.cpp:99 | atol's leading white-space skip: the result is a suffix of the input, all characters removed are white space, and the result does not start with white space. |
| Numbers.LeadingDigits | src/main.cpp:99 | The digits atol reads: a prefix of all digits that stops only at a non-digit or at the end of the text. |
| Numbers.ToInt | src/main.cpp:99 | `String::toInt` (atol): white space, an optional sign, then the leading digits. It has no contract of its own; ToIntAfterSpace, ToIntDecimal, ToIntNegatedDecimal and ToIntOfDecimal state what it reads. |
| Numbers.ToIntAfterSpace | src/main.cpp:99 | Leading white space does not change what `toInt` returns. |
| Numbers.ToIntDecimal | src/main.cpp:99 | After any white space, `toInt` of a `%u` rendering of a number up to 2147483647 (LONG_MAX), followed by non-digit text, returns that number. |
| Numbers.ToIntNegatedDecimal | src/main.cpp:99 | With a '-' before the rendering of a number up to 2147483648, `toInt` returns the negated number, down to -2147483648 (LONG_MIN). |
| Numbers.ToIntOfDecimal | src/main.cpp:107 | `toInt` of a bare decimal rendering of a number up to 2147483647 returns that number. |
| PresetTable.PresetTableFacts | src/main.cpp:23-25 | PRESETS_N is 10 and fits the `uint8_t` loop counter. Every preset lies in 8810..10790, and the table is strictly ascending. |
| PresetTable.Presets | src/main.cpp:23-24 | The PRESETS table, entry for entry. PresetTableFacts states its size, range and order. |
| PresetTable.ZeroPad | src/main.cpp:70 | `%02u`'s padding: width max(len, w), the original text as suffix, zeros before it. |
| PresetTable.Snprintf | src/main.cpp:69-70 | snprintf into an n-byte buffer keeps text shorter than n whole. Longer text is cut to its first n - 1 characters. |
| PresetTable.Label | src/main.cpp:70 | `"%u.%02u"` of kHz / 100 and kHz % 100. It has no contract of its own; ParseLabelRoundTrip states that it denotes kHz, LabelFits bounds its length, and FirstAndLastLabels gives two concrete values. |
| PresetTable.Item | src/main.cpp:69-70 | The label printed into `buf[8]`. LabelFits states that it equals the untruncated label. |
| PresetTable.FractionField | src/main.cpp:70 | The `%02u` field of kHz % 100 is exactly two digits and denotes kHz % 100. |
| PresetTable.LabelFits | src/main.cpp:69-70 | Every `uint16_t` label has at most 6 characters, so the 8-byte buffer never truncates an item. |
| PresetTable.ParseLabelRoundTrip | src/main.cpp:70 | Reading a label back as whole.frac gives the original kHz value, so labels denote their frequency exactly. |
| PresetTable.FirstAndLastLabels | src/main.cpp:68-70 | The table's first and last presets render as "88.10" and "107.90". |
| PresetTable.BuildPresetList | src/main.cpp:63-72 | The loop returns the joined list of item texts: a `;` before every item but the first, one item per table entry, in order. |
| PresetTable.PresetList | src/main.cpp:63-72 | The drop-down text the loop builds. BuildPresetList states that the loop computes it; PresetListFields states its fields and separators. |
| PresetTable.JoinedSplit | src/main.cpp:64-71 | Joining n separator-free items with `;` gives a string that splits back into exactly those n items. |
| PresetTable.JoinedCount | src/main.cpp:64-67 | Joining n items puts exactly n - 1 semicolons in the list. |
| PresetTable.PresetListFields | src/main.cpp:63-72 | The list has as many fields as the table has entries. Field i is the untruncated label of entry i, and the list holds exactly N - 1 semicolons. |
| Radio.PowerOnSequence | src/main.cpp:28-40 | Power-on drives reset HIGH, waits 10 ms, then calls `begin()`. `setTXpower(115)` and then `tuneFM(freq)` follow if and only if `begin()` succeeds; nothing follows a failure. |
| Radio.PowerOnEvents | src/main.cpp:28-40 | radioPowerOn's effects. PowerOnSequence states their order and when TX power and tuning happen. |
| Radio.PowerOffEvents | src/main.cpp:42-46 | radioPowerOff's single effect: reset driven LOW. RadioOnSwitch states that radio_on off issues exactly this. |
| Radio.Initial | src/main.cpp:20-22 | The declared initial globals: off, 9840, preset 0. Transmitter.Setup states that the object starts in this state. |
| Radio.PresetIndex | src/main.cpp:107-109 | freq_select's guard: an index below PRESETS_N is kept, any other becomes 0, and the result always indexes the table. |
| Radio.Handle | src/main.cpp:81-122 | The handler answers true if and only if the command is Set and the name is one of the three widgets. Otherwise nothing changes and nothing is issued. The handler's own writes keep presetIdx inside the table (GyverHub's direct writes to `&presetIdx` are not modelled). |
| Radio.RadioOnSwitch | src/main.cpp:86-95 | The flag becomes true exactly for "1" or "true", whatever `begin()` answers. On runs the power-on sequence, off only drives reset LOW. The frequency and preset are unchanged, and the request is handled. |
| Radio.SliderRetunes | src/main.cpp:97-103 | freq_slider stores `toInt` truncated to 16 bits and changes nothing else. It issues one tune to the new value if and only if the radio is on, and nothing else; the request is handled. |
| Radio.SliderUnclamped | src/main.cpp:97-103 | A decimal slider value up to 2147483647 (LONG_MAX) is stored modulo 2^16. Every value below 65536 is stored exactly, including values outside 8000..11000. |
| Radio.SelectLandsOnPreset | src/main.cpp:105-119 | The preset index is the value truncated to 8 bits, or 0 if that is past the table. The frequency becomes that preset, inside 8810..10790 and the slider's 8000..11000. One slider update with the new frequency goes out first, then one tune if and only if the radio is on, and nothing else. The power flag is unchanged. |
| Radio.SelectByDecimal | src/main.cpp:107-110 | A decimal preset index up to 2147483647 (LONG_MAX) is taken modulo 256 before the range check. |
| Radio.OffIssuesNoTune | src/main.cpp:81-122 | While the radio is off, a request other than radio_on issues no tune, no TX power and no reset-pin write. |
| Radio.FailedBeginStillTunes | src/main.cpp:86-103 | After radio_on with a failed `begin()`, radioOn is true and nothing was tuned. A following slider move still issues `tuneFM`. |
| Radio.RetryTunesLatest | src/main.cpp:28-40 | Suppose a frequency is set while the chip was not found. The next power-on that finds the chip programs TX power and ends by tuning to that frequency. |
| Radio.Run | src/main.cpp:81-122 | Any sequence of requests keeps presetIdx inside the table, as far as onReq's own writes go (GyverHub's direct writes to `&presetIdx` are not modelled). |
| Radio.KeepsFrequency | src/main.cpp:81-122 | Requests other than freq_slider and freq_select never change the frequency. |
| Radio.RunEndsOnPreset | src/main.cpp:105-119 | After a freq_select followed by requests that are not freq_slider or freq_select, the frequency is a preset value. |
| Radio.Transmitter.Setup | src/main.cpp:137-138 | Initial state: radioOn false, frequency 9840, preset 0 (declared on lines 20-22). The pin is set to output and reset is driven LOW. |
| Radio.Transmitter.RadioPowerOn | src/main.cpp:28-40 | Appends the power-on events for the current frequency and `begin()`'s answer to the trace; nothing else changes. |
| Radio.Transmitter.RadioPowerOff | src/main.cpp:42-46 | Appends the reset-LOW write to the trace; nothing else changes. |
| Radio.Transmitter.SwitchRadio | src/main.cpp:89-93 | radio_on's branch: the flag follows the value text, and the power-on or power-off events are appended. |
| Radio.Transmitter.MoveSlider | src/main.cpp:99-101 | freq_slider's branch: stores the truncated value and appends a tune only when the radio is on. |
| Radio.Transmitter.SelectPreset | src/main.cpp:107-117 | freq_select's branch: stores the guarded index and its preset frequency, then appends the slider update and, when on, a tune. |
| Radio.Transmitter.OnReq | src/main.cpp:81-122 | The answer, new globals and appended trace are exactly those of `Handle` on the globals before the call. presetIdx stays inside the table. |

## Left out

- Wi-Fi access point, Serial logging (including the "Not found after reset" message), `hub.begin`, `hub.tick` and `loop`: network and console I/O with no effect on the modelled state.
- `Serial.begin`, `delay(200)` and `Wire.begin(8, 9)` in `setup`: they are not recorded in the trace, which begins with `pinMode(RESETPIN, OUTPUT)`.
- The builder's widgets apart from the drop-down's text: title, labels, units and the slider's range. The range appears only as the constants `SliderMin`/`SliderMax`.
- GyverHub writing widget values into the bound variables (`&radioOn`, `&freq_khz`, `&presetIdx`) by itself: that happens inside the library, which is not part of this model.
- The Adafruit_Si4713 driver and I2C: `begin()` is the input `chipFound`, and `setTXpower`/`tuneFM` are trace events.
- Delays are trace events only; no clock is modelled.
- Numbers.ToInt: `String::toInt` returns a 32-bit `long`. The model reads the digits as an unbounded integer, so it does not capture atol's saturation of values outside -2147483648..2147483647 (LONG_MIN..LONG_MAX). The lemmas that read numbers back (ToIntDecimal, ToIntNegatedDecimal, ToIntOfDecimal and their users) require the number to lie in that range.
- `gh::Request`: the command kinds are reduced to Set, Get, Read and OtherCommand. The name and the `AnyText` value are plain strings, compared by equality.
- `src/main.cpp` has no clamping, fault state, frequency correction, RDS or scanning, so the model has none either.
