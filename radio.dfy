/** The control-request handler and the transmitter power helpers: three
    globals (radioOn, freq_khz, presetIdx), the Si4713 reset line, and the
    calls made to the Si4713 driver and to the hub, kept as a trace. */
module Radio {
  import opened Numbers
  import opened PresetTable

  /** RESETPIN. */
  const ResetPin: nat := 10
  /** TX_POWER_DBuv. */
  const TxPowerDbuv: nat := 115
  /** Initial freq_khz: 98.40 MHz. */
  const DefaultFreqKhz: uint16 := 9840
  /** The wait after releasing reset, in milliseconds. */
  const WakeDelayMs: nat := 10
  /** The range the frequency slider offers. */
  const SliderMin: nat := 8000
  const SliderMax: nat := 11000

  datatype Level = Low | High

  /** One outside effect, in the order the firmware issues it. */
  datatype Event =
    | PinModeOutput(pin: nat)
    | DigitalWrite(pin: nat, level: Level)
    | Delay(ms: nat)
      /** radio.begin(), with the driver's answer */
    | Begin(found: bool)
    | SetTxPower(dbuv: nat)
    | TuneFM(freq: uint16)
    | SendUpdate(name: string, value: int)

  predicate IsTune(e: Event) { e.TuneFM? }
  predicate IsTxPower(e: Event) { e.SetTxPower? }
  predicate IsUpdate(e: Event) { e.SendUpdate? }

  /** The events of es that satisfy p, in order. */
  function Filter(es: seq<Event>, p: Event -> bool): (r: seq<Event>)
    ensures |r| <= |es|
    ensures forall i :: 0 <= i < |r| ==> p(r[i]) && r[i] in es
  {
    if es == [] then [] else (if p(es[0]) then [es[0]] else []) + Filter(es[1..], p)
  }

  lemma {:induction false} FilterAppend(a: seq<Event>, b: seq<Event>, p: Event -> bool)
    ensures Filter(a + b, p) == Filter(a, p) + Filter(b, p)
  {
    if a == [] {
      assert a + b == b;
    } else {
      assert (a + b)[0] == a[0];
      assert (a + b)[1..] == a[1..] + b;
      FilterAppend(a[1..], b, p);
    }
  }

  lemma {:induction false} FilterNone(es: seq<Event>, p: Event -> bool)
    requires forall i :: 0 <= i < |es| ==> !p(es[i])
    ensures Filter(es, p) == []
  {
    if es != [] {
      FilterNone(es[1..], p);
    }
  }

  /** The request kinds the hub delivers; all but Set are ignored here. */
  datatype Command = Set | Get | Read | OtherCommand

  /** gh::Request: the command, the widget name, and the value as text. */
  datatype Request = Request(cmd: Command, name: string, value: string)

  /** The three globals. */
  datatype Globals = Globals(radioOn: bool, freqKhz: uint16, presetIdx: uint8)
  {
    /** presetIdx always names an entry of the table. */
    predicate Valid() { presetIdx < PresetCount }
  }

  /** The values the declarations give the globals. */
  const Initial: Globals := Globals(false, DefaultFreqKhz, 0)

  /** What one request does: the handler's answer, the new globals, and the
      outside effects it issued. */
  datatype Outcome = Outcome(handled: bool, globals: Globals, events: seq<Event>)

  // ---------- the power helpers ----------

  /** radioPowerOn: release reset, wait, begin(); only a found chip gets its
      TX power and frequency programmed. */
  function PowerOnEvents(freqKhz: uint16, chipFound: bool): seq<Event>
  {
    [DigitalWrite(ResetPin, High), Delay(WakeDelayMs), Begin(chipFound)]
    + (if chipFound then [SetTxPower(TxPowerDbuv), TuneFM(freqKhz)] else [])
  }

  /** radioPowerOff: hold the chip in reset. */
  const PowerOffEvents: seq<Event> := [DigitalWrite(ResetPin, Low)]

  /** Power-on starts with the reset release, the wait and begin(); after
      begin() come a TX-power call and a tune exactly when begin() succeeds,
      power before tune, and nothing at all after a failed begin(). */
  lemma PowerOnSequence(freqKhz: uint16, chipFound: bool)
    ensures var es := PowerOnEvents(freqKhz, chipFound);
      |es| >= 3 && es[..3] == [DigitalWrite(ResetPin, High), Delay(WakeDelayMs), Begin(chipFound)] &&
      Filter(es[3..], IsTxPower) == (if chipFound then [SetTxPower(TxPowerDbuv)] else []) &&
      Filter(es[3..], IsTune) == (if chipFound then [TuneFM(freqKhz)] else []) &&
      (chipFound ==> es[3..] == [SetTxPower(TxPowerDbuv), TuneFM(freqKhz)]) &&
      (!chipFound ==> |es| == 3)
  {
    var es := PowerOnEvents(freqKhz, chipFound);
    if chipFound {
      var tail := es[3..];
      assert tail == [SetTxPower(TxPowerDbuv), TuneFM(freqKhz)];
      assert tail[1..][1..] == [];
    } else {
      assert es[3..] == [];
    }
  }

  // ---------- onReq ----------

  /** The value text that turns the radio on. */
  predicate IsOnText(value: string) { value == "1" || value == "true" }

  /** freq_select's guard: an index past the table falls back to 0. */
  function PresetIndex(raw: uint8): (idx: uint8)
    ensures idx < PresetCount
    ensures raw < PresetCount ==> idx == raw
    ensures raw >= PresetCount ==> idx == 0
  {
    if raw >= PresetCount then 0 else raw
  }

  /** The names onReq acts on. */
  const HandledNames: set<string> := {"radio_on", "freq_slider", "freq_select"}

  /** onReq, as a function of the globals before the request and of what
      begin() answers if the request powers the chip on. */
  function Handle(g: Globals, r: Request, chipFound: bool): (o: Outcome)
    requires g.Valid()
    ensures o.globals.Valid()
    ensures o.handled <==> r.cmd == Set && r.name in HandledNames
    ensures !o.handled ==> o.globals == g && o.events == []
  {
    if r.cmd != Set then Outcome(false, g, [])
    else if r.name == "radio_on" then
      var on := IsOnText(r.value);
      Outcome(true, g.(radioOn := on),
              if on then PowerOnEvents(g.freqKhz, chipFound) else PowerOffEvents)
    else if r.name == "freq_slider" then
      var f := ToUint16(ToInt(r.value));
      Outcome(true, g.(freqKhz := f), if g.radioOn then [TuneFM(f)] else [])
    else if r.name == "freq_select" then
      var idx := PresetIndex(ToUint8(ToInt(r.value)));
      var f := Presets[idx];
      Outcome(true, g.(presetIdx := idx, freqKhz := f),
              [SendUpdate("freq_slider", f)] + if g.radioOn then [TuneFM(f)] else [])
    else Outcome(false, g, [])
  }

  /** radio_on: the flag becomes true exactly for "1" or "true", whatever
      begin() answers; on runs the power-on sequence, off only drives reset
      low; the frequency and preset are untouched; the request is handled. */
  lemma RadioOnSwitch(g: Globals, value: string, chipFound: bool)
    requires g.Valid()
    ensures var o := Handle(g, Request(Set, "radio_on", value), chipFound);
      o.handled &&
      (o.globals.radioOn <==> value == "1" || value == "true") &&
      o.globals.freqKhz == g.freqKhz && o.globals.presetIdx == g.presetIdx &&
      (o.globals.radioOn ==> o.events == PowerOnEvents(g.freqKhz, chipFound)) &&
      (!o.globals.radioOn ==> o.events == [DigitalWrite(ResetPin, Low)])
  {
  }

  /** freq_slider stores the parsed value cut to 16 bits, with no clamping
      to the slider's range, and tunes there once if and only if the radio
      is on; nothing else is issued and the request is handled. */
  lemma SliderRetunes(g: Globals, value: string, chipFound: bool)
    requires g.Valid()
    ensures var o := Handle(g, Request(Set, "freq_slider", value), chipFound);
      o.handled &&
      o.globals == g.(freqKhz := ToUint16(ToInt(value))) &&
      Filter(o.events, IsTune) == (if g.radioOn then [TuneFM(o.globals.freqKhz)] else []) &&
      |o.events| == |Filter(o.events, IsTune)|
  {
    var o := Handle(g, Request(Set, "freq_slider", value), chipFound);
    if g.radioOn {
      assert o.events[1..] == [];
    }
  }

  /** A slider value written in decimal, up to the largest value toInt's
      32-bit long holds, is stored modulo 2^16: every value below 65536
      exactly as sent, including those outside 8000..11000. */
  lemma SliderUnclamped(g: Globals, n: nat, chipFound: bool)
    requires g.Valid() && n <= LongMax
    ensures Handle(g, Request(Set, "freq_slider", Decimal(n)), chipFound).globals.freqKhz == n % 0x1_0000
    ensures n < 0x1_0000 ==> Handle(g, Request(Set, "freq_slider", Decimal(n)), chipFound).globals.freqKhz == n
  {
    ToIntOfDecimal(n);
  }

  /** freq_select lands on a table entry: the parsed value is cut to 8 bits,
      an index past the table becomes 0, freq_khz takes that entry (so it
      lies in 8810..10790, inside the slider's range); exactly one slider
      update carrying the new frequency goes out first, then one tune if and
      only if the radio is on; the request is handled. */
  lemma SelectLandsOnPreset(g: Globals, value: string, chipFound: bool)
    requires g.Valid()
    ensures var o := Handle(g, Request(Set, "freq_select", value), chipFound);
      var raw := ToUint8(ToInt(value));
      o.handled && o.globals.radioOn == g.radioOn &&
      o.globals.presetIdx < PresetCount &&
      o.globals.presetIdx == (if raw < PresetCount then raw else 0) &&
      o.globals.freqKhz == Presets[o.globals.presetIdx] &&
      8810 <= o.globals.freqKhz <= 10790 &&
      SliderMin <= o.globals.freqKhz <= SliderMax &&
      o.events != [] && o.events[0] == SendUpdate("freq_slider", o.globals.freqKhz) &&
      Filter(o.events, IsUpdate) == [SendUpdate("freq_slider", o.globals.freqKhz)] &&
      Filter(o.events, IsTune) == (if g.radioOn then [TuneFM(o.globals.freqKhz)] else []) &&
      |o.events| == 1 + |Filter(o.events, IsTune)|
  {
    PresetTableFacts();
    var o := Handle(g, Request(Set, "freq_select", value), chipFound);
    var f := o.globals.freqKhz;
    var tail := if g.radioOn then [TuneFM(f)] else [];
    assert o.events == [SendUpdate("freq_slider", f)] + tail;
    FilterAppend([SendUpdate("freq_slider", f)], tail, IsUpdate);
    FilterAppend([SendUpdate("freq_slider", f)], tail, IsTune);
    FilterNone(tail, IsUpdate);
    if g.radioOn {
      assert Filter(tail, IsTune) == tail;
    }
    assert Filter([SendUpdate("freq_slider", f)], IsTune) == [];
  }

  /** A decimal preset index, up to the largest 32-bit long, is taken modulo
      256 before the range check. */
  lemma SelectByDecimal(g: Globals, n: nat, chipFound: bool)
    requires g.Valid() && n <= LongMax
    ensures var o := Handle(g, Request(Set, "freq_select", Decimal(n)), chipFound);
      o.globals.presetIdx == (if n % 0x100 < PresetCount then n % 0x100 else 0)
  {
    SelectLandsOnPreset(g, Decimal(n), chipFound);
    ToIntOfDecimal(n);
  }

  /** While the radio is off, nothing but a radio_on request reaches the
      transmitter: no tune, no TX power, no reset change. */
  lemma OffIssuesNoTune(g: Globals, r: Request, chipFound: bool)
    requires g.Valid() && !g.radioOn && r.name != "radio_on"
    ensures var o := Handle(g, r, chipFound);
      Filter(o.events, IsTune) == [] && Filter(o.events, IsTxPower) == [] &&
      forall i :: 0 <= i < |o.events| ==> !o.events[i].DigitalWrite?
  {
    var o := Handle(g, r, chipFound);
    FilterNone(o.events, IsTune);
    FilterNone(o.events, IsTxPower);
  }

  /** radioOn stays true after begin() fails, so a later slider move still
      tunes the chip that was never initialised. */
  lemma FailedBeginStillTunes(g: Globals, value: string, chipFound: bool)
    requires g.Valid()
    ensures var o1 := Handle(g, Request(Set, "radio_on", "1"), false);
      var o2 := Handle(o1.globals, Request(Set, "freq_slider", value), chipFound);
      o1.globals.radioOn && Filter(o1.events, IsTune) == [] &&
      Filter(o2.events, IsTune) == [TuneFM(ToUint16(ToInt(value)))]
  {
    var o1 := Handle(g, Request(Set, "radio_on", "1"), false);
    PowerOnSequence(g.freqKhz, false);
    FilterNone(o1.events, IsTune);
    SliderRetunes(o1.globals, value, chipFound);
  }

  /** A frequency set while begin() kept failing is the one programmed when
      a later power-on finds the chip. */
  lemma RetryTunesLatest(g: Globals, value: string)
    requires g.Valid()
    ensures var o1 := Handle(g, Request(Set, "radio_on", "1"), false);
      var o2 := Handle(o1.globals, Request(Set, "freq_slider", value), false);
      var o3 := Handle(o2.globals, Request(Set, "radio_on", "1"), true);
      o3.events[|o3.events| - 1] == TuneFM(ToUint16(ToInt(value))) &&
      SetTxPower(TxPowerDbuv) in o3.events
  {
    var o1 := Handle(g, Request(Set, "radio_on", "1"), false);
    assert o1.globals == g.(radioOn := true);
    var f := ToUint16(ToInt(value));
    var o2 := Handle(o1.globals, Request(Set, "freq_slider", value), false);
    assert o2.globals == o1.globals.(freqKhz := f);
    var o3 := Handle(o2.globals, Request(Set, "radio_on", "1"), true);
    assert o3.events == PowerOnEvents(f, true);
  }

  /** The globals after a run of requests, each with its begin() answer. */
  function Run(g: Globals, rs: seq<Request>, answers: seq<bool>): (h: Globals)
    requires g.Valid() && |answers| == |rs|
    ensures h.Valid()
    decreases |rs|
  {
    if rs == [] then g else Run(Handle(g, rs[0], answers[0]).globals, rs[1..], answers[1..])
  }

  /** After a freq_select followed only by requests that are neither
      freq_slider nor freq_select, the frequency is a preset value. */
  lemma {:induction false} RunEndsOnPreset(g: Globals, rs: seq<Request>, answers: seq<bool>)
    requires g.Valid() && |answers| == |rs| && |rs| >= 1
    requires rs[0].cmd == Set && rs[0].name == "freq_select"
    requires forall i :: 1 <= i < |rs| ==> rs[i].name != "freq_slider" && rs[i].name != "freq_select"
    ensures Run(g, rs, answers).freqKhz in Presets
  {
    var h := Handle(g, rs[0], answers[0]).globals;
    SelectLandsOnPreset(g, rs[0].value, answers[0]);
    assert h.freqKhz in Presets;
    KeepsFrequency(h, rs[1..], answers[1..]);
  }

  /** Requests that are neither freq_slider nor freq_select leave the
      frequency alone. */
  lemma {:induction false} KeepsFrequency(g: Globals, rs: seq<Request>, answers: seq<bool>)
    requires g.Valid() && |answers| == |rs|
    requires forall i :: 0 <= i < |rs| ==> rs[i].name != "freq_slider" && rs[i].name != "freq_select"
    ensures Run(g, rs, answers).freqKhz == g.freqKhz
    decreases |rs|
  {
    if rs != [] {
      KeepsFrequency(Handle(g, rs[0], answers[0]).globals, rs[1..], answers[1..]);
    }
  }

  /** A solver hint: appending to a trace in two steps or in one. */
  lemma AppendAssoc(t: seq<Event>, a: seq<Event>, b: seq<Event>)
    ensures t + a + b == t + (a + b)
  {
  }

  // ---------- the state-holding object ----------

  /** The firmware's radio state: the globals, plus the trace of every pin,
      driver and hub call issued so far. */
  class Transmitter {
    var radioOn: bool
    var freqKhz: uint16
    var presetIdx: uint8
    var trace: seq<Event>

    ghost predicate Valid()
      reads this
    {
      State().Valid()
    }

    function State(): (g: Globals)
      reads this
      ensures g.radioOn == radioOn && g.freqKhz == freqKhz && g.presetIdx == presetIdx
    {
      Globals(radioOn, freqKhz, presetIdx)
    }

    /** The declarations' initial values, then setup's pinMode(RESETPIN,
        OUTPUT) and radioPowerOff(): the chip starts held in reset. */
    constructor Setup()
      ensures Valid() && State() == Initial
      ensures trace == [PinModeOutput(ResetPin), DigitalWrite(ResetPin, Low)]
    {
      radioOn := false;
      freqKhz := DefaultFreqKhz;
      presetIdx := 0;
      trace := [];
      new;
      trace := trace + [PinModeOutput(ResetPin)];
      RadioPowerOff();
    }

    /** radioPowerOn; chipFound is what radio.begin() answers. */
    method RadioPowerOn(chipFound: bool)
      modifies this`trace
      ensures trace == old(trace) + PowerOnEvents(freqKhz, chipFound)
    {
      trace := trace + [DigitalWrite(ResetPin, High)];
      trace := trace + [Delay(WakeDelayMs)];
      trace := trace + [Begin(chipFound)];
      if !chipFound {
        return;
      }
      trace := trace + [SetTxPower(TxPowerDbuv)];
      trace := trace + [TuneFM(freqKhz)];
    }

    /** radioPowerOff. */
    method RadioPowerOff()
      modifies this`trace
      ensures trace == old(trace) + PowerOffEvents
    {
      trace := trace + [DigitalWrite(ResetPin, Low)];
    }

    /** onReq's radio_on branch. */
    method SwitchRadio(value: string, chipFound: bool)
      modifies this
      ensures radioOn == IsOnText(value)
      ensures freqKhz == old(freqKhz) && presetIdx == old(presetIdx)
      ensures trace == old(trace) + if radioOn then PowerOnEvents(freqKhz, chipFound) else PowerOffEvents
    {
      radioOn := IsOnText(value);
      if radioOn {
        RadioPowerOn(chipFound);
      } else {
        RadioPowerOff();
      }
    }

    /** onReq's freq_slider branch. */
    method MoveSlider(value: string)
      modifies this
      ensures freqKhz == ToUint16(ToInt(value))
      ensures radioOn == old(radioOn) && presetIdx == old(presetIdx)
      ensures trace == old(trace) + if radioOn then [TuneFM(freqKhz)] else []
    {
      freqKhz := ToUint16(ToInt(value));
      if radioOn {
        trace := trace + [TuneFM(freqKhz)];
      }
    }

    /** onReq's freq_select branch. */
    method SelectPreset(value: string)
      modifies this
      ensures presetIdx == PresetIndex(ToUint8(ToInt(value))) && freqKhz == Presets[presetIdx]
      ensures radioOn == old(radioOn)
      ensures trace == old(trace) + [SendUpdate("freq_slider", freqKhz)] + if radioOn then [TuneFM(freqKhz)] else []
    {
      var idx := ToUint8(ToInt(value));
      if idx >= PresetCount {
        idx := 0;
      }
      presetIdx := idx;
      freqKhz := Presets[presetIdx];
      trace := trace + [SendUpdate("freq_slider", freqKhz)];
      if radioOn {
        trace := trace + [TuneFM(freqKhz)];
      }
    }

    /** onReq: answers whether the request was handled, updates the globals
        and issues its effects exactly as Handle describes. */
    method OnReq(r: Request, chipFound: bool) returns (handled: bool)
      requires Valid()
      modifies this
      ensures Valid()
      ensures var o := Handle(old(State()), r, chipFound);
        handled == o.handled && State() == o.globals && trace == old(trace) + o.events
    {
      if r.cmd != Set {
        return false;
      }
      if r.name == "radio_on" {
        SwitchRadio(r.value, chipFound);
        return true;
      }
      if r.name == "freq_slider" {
        MoveSlider(r.value);
        return true;
      }
      if r.name == "freq_select" {
        SelectPreset(r.value);
        AppendAssoc(old(trace), [SendUpdate("freq_slider", freqKhz)], if radioOn then [TuneFM(freqKhz)] else []);
        return true;
      }
      return false;
    }
  }
}
