/** The Harvard DecaDAC driver of the FZJ variant: conversion between
    voltages and 16-bit DAC codes, the voltage range of each switch
    position, the one buffered ramp the instrument can hold, and the
    caching of the selected slot and channel in front of the serial line,
    whose every reply is checked. */
module Decadac {
  import opened Util

  datatype DacError =
    | ValueError          // a voltage or switch position out of range
    | ZeroDivisionError   // an empty voltage range
    | KeyError            // a switch position without a range
    | IndexError          // an empty sweep, an empty command or reply
    | NotImplementedError // a buffered loop the instrument cannot run
    | DacException        // a reply that does not acknowledge the command

  /** The largest DAC code. */
  const MaxCode := 65535

  // ---------------------------------------------------------------------
  // Conversion between voltages and codes (DacBase)
  // ---------------------------------------------------------------------

  /** Python's `round` on a number: the nearest integer, ties to the even
      one. */
  function Round(x: real): (n: int)
    ensures -0.5 <= x - n as real <= 0.5
    ensures (x - n as real == 0.5 || x - n as real == -0.5) ==> n % 2 == 0
  {
    var f := x.Floor;
    var d := x - f as real;
    if d < 0.5 then f
    else if d > 0.5 then f + 1
    else if f % 2 == 0 then f
    else f + 1
  }

  /** An integer is rounded to itself. */
  lemma RoundOfInt(n: int)
    ensures Round(n as real) == n
  {
    assert (n as real).Floor == n;
  }

  /** Rounding keeps [0, MaxCode]. */
  lemma RoundInCodeRange(x: real)
    requires 0.0 <= x <= MaxCode as real
    ensures 0 <= Round(x) <= MaxCode
  {
    assert x.Floor >= 0;
    assert x.Floor <= MaxCode;
    if x.Floor == MaxCode {
      assert x == MaxCode as real;
    }
  }

  /** The fraction of the range [lo, hi] at which volt lies. */
  lemma FractionInUnit(volt: real, lo: real, hi: real)
    requires lo <= volt <= hi && lo < hi
    ensures 0.0 <= (volt - lo) / (hi - lo) <= 1.0
  {
    var d := hi - lo;
    var f := (volt - lo) / d;
    assert f * d == volt - lo;
    if f > 1.0 {
      assert f * d > 1.0 * d;
    }
  }

  /** `_dac_v_to_code(volt, min_volt, max_volt)`: the code whose fraction of
      MaxCode is nearest the voltage's fraction of the range. A voltage
      outside the range raises ValueError, an empty range
      ZeroDivisionError. */
  function VToCode(volt: real, lo: real, hi: real): (r: Result<int, DacError>)
    ensures r == Failure(ValueError) <==> volt < lo || volt > hi
    ensures r == Failure(ZeroDivisionError) <==> lo <= volt <= hi && lo == hi
    ensures r.Success? ==> lo < hi && 0 <= r.value <= MaxCode
    ensures r.Success? ==>
              var x := (volt - lo) / (hi - lo) * MaxCode as real;
              -0.5 <= x - r.value as real <= 0.5 &&
              ((x - r.value as real == 0.5 || x - r.value as real == -0.5) ==> r.value % 2 == 0)
  {
    if volt < lo || volt > hi then Failure(ValueError)
    else if hi - lo == 0.0 then Failure(ZeroDivisionError)
    else
      var frac := (volt - lo) / (hi - lo);
      FractionInUnit(volt, lo, hi);
      var x := frac * MaxCode as real;
      RoundInCodeRange(x);
      var v := Round(x);
      if v > MaxCode || v < 0 then Failure(ValueError) else Success(v)
  }

  /** `_dac_code_to_v(code, min_volt, max_volt)`: the voltage at the code's
      fraction of the range. */
  function CodeToV(code: int, lo: real, hi: real): (v: real)
    ensures code == 0 ==> v == lo
    ensures code == MaxCode ==> v == hi
  {
    code as real / MaxCode as real * (hi - lo) + lo
  }

  /** Equal code steps are equal voltage steps. */
  lemma CodeToVLinear(c1: int, c2: int, lo: real, hi: real)
    ensures CodeToV(c2, lo, hi) - CodeToV(c1, lo, hi) == (c2 - c1) as real / MaxCode as real * (hi - lo)
  {
  }

  /** Converting a code to a voltage and back gives the code again. */
  lemma CodeRoundTrip(c: int, lo: real, hi: real)
    requires 0 <= c <= MaxCode && lo < hi
    ensures VToCode(CodeToV(c, lo, hi), lo, hi) == Success(c)
  {
    var d := hi - lo;
    var f := c as real / MaxCode as real;
    var v := CodeToV(c, lo, hi);
    assert v - lo == f * d;
    assert 0.0 <= f <= 1.0;
    assert 0.0 <= f * d <= d by {
      assert f * d <= 1.0 * d;
    }
    assert (v - lo) / d == f;
    assert f * MaxCode as real == c as real;
    RoundOfInt(c);
  }

  lemma NonNegativeProduct(a: real, b: real)
    requires a >= 0.0 && b >= 0.0
    ensures a * b >= 0.0
  {
  }

  /** The voltage a converted code stands for is within half a code step of
      the voltage converted. */
  lemma QuantisationError(volt: real, lo: real, hi: real)
    requires VToCode(volt, lo, hi).Success?
    ensures var e := CodeToV(VToCode(volt, lo, hi).value, lo, hi) - volt;
            -(hi - lo) / (2.0 * MaxCode as real) <= e <= (hi - lo) / (2.0 * MaxCode as real)
  {
    var c := VToCode(volt, lo, hi).value;
    var d := hi - lo;
    var m := MaxCode as real;
    var x := (volt - lo) / d * m;
    var t := c as real - x;
    assert -0.5 <= t <= 0.5;
    assert volt - lo == x / m * d;
    assert CodeToV(c, lo, hi) - volt == t * (d / m);
    var k := d / m;
    assert k > 0.0;
    NonNegativeProduct(0.5 - t, k);
    NonNegativeProduct(t + 0.5, k);
    assert 0.5 * k == d / (2.0 * m);
  }

  // ---------------------------------------------------------------------
  // Switch positions
  // ---------------------------------------------------------------------

  const SwitchLeft := -1
  const SwitchMid := 0
  const SwitchRight := 1

  /** `_SWITCH_POS_TO_RANGE`: the output range of each switch position. */
  const SwitchPosToRange: map<int, (real, real)> := map[
    SwitchLeft := (-10.0, 0.0),
    SwitchMid := (0.0, 10.0),
    SwitchRight := (-10.0, 10.0)
  ]

  /** `_evaluate_switchpos`: the minimum and maximum voltage of a switch
      position, ValueError for any other number. */
  function EvaluateSwitchPos(pos: int): (r: Result<(real, real), DacError>)
    ensures r.Success? <==> pos == SwitchLeft || pos == SwitchMid || pos == SwitchRight
    ensures r.Failure? ==> r.error == ValueError
    ensures r.Success? ==> r.value.0 < r.value.1 && r.value.0 <= 0.0 <= r.value.1
  {
    var lo, hi := 0.0, 0.0;
    if pos == SwitchLeft then Success((-10.0, hi))
    else if pos == SwitchMid then Success((lo, 10.0))
    else if pos == SwitchRight then Success((-10.0, 10.0))
    else Failure(ValueError)
  }

  /** The function and the table agree on every position. */
  lemma SwitchPosAgreesWithTable(pos: int)
    ensures EvaluateSwitchPos(pos).Success? <==> pos in SwitchPosToRange
    ensures pos in SwitchPosToRange ==> EvaluateSwitchPos(pos).value == SwitchPosToRange[pos]
  {
  }

  /** `DacChannel._get_voltage_range`: the range of the channel's switch
      position; ValueError while the position is unset. */
  function VoltageRange(switchPos: Option<int>): (r: Result<(real, real), DacError>)
    ensures switchPos.None? ==> r == Failure(ValueError)
    ensures switchPos.Some? ==>
              (r.Success? <==> switchPos.value in SwitchPosToRange) &&
              (r.Success? ==> r.value == SwitchPosToRange[switchPos.value]) &&
              (r.Failure? ==> r.error == KeyError)
  {
    match switchPos
    case None => Failure(ValueError)
    case Some(p) => if p in SwitchPosToRange then Success(SwitchPosToRange[p]) else Failure(KeyError)
  }

  /** `DacChannel._dac_v_to_code`: a voltage converted in the channel's
      range. */
  function ChannelVToCode(volt: real, switchPos: Option<int>): (r: Result<int, DacError>)
    ensures VoltageRange(switchPos).Failure? ==> r == Failure(VoltageRange(switchPos).error)
    ensures VoltageRange(switchPos).Success? ==>
              r == VToCode(volt, VoltageRange(switchPos).value.0, VoltageRange(switchPos).value.1)
    ensures r.Success? ==> 0 <= r.value <= MaxCode
  {
    match VoltageRange(switchPos)
    case Failure(e) => Failure(e)
    case Success(range) => VToCode(volt, range.0, range.1)
  }

  // ---------------------------------------------------------------------
  // Buffered ramps
  // ---------------------------------------------------------------------

  /** `numpy.linspace(start, stop, num)`: num evenly spaced values from
      start to stop. */
  function Linspace(start: real, stop: real, num: nat): (r: seq<real>)
    ensures |r| == num
    ensures num >= 1 ==> r[0] == start
    ensures num >= 2 ==> r[num - 1] == stop
  {
    if num == 1 then [start]
    else
      var d := (num - 1) as real;
      var r := seq(num, k requires 0 <= k < num => start + k as real * (stop - start) / d);
      assert num >= 2 ==> d != 0.0 && r[num - 1] == start + d * (stop - start) / d;
      if num >= 2 then DivCancel(stop - start, d); r else r
  }

  /** Point k of the evenly spaced values from 0 to (num - 1) * step is
      k * step. */
  lemma LinspaceFromZero(step: real, num: nat, k: nat)
    requires num >= 2 && k < num
    ensures Linspace(0.0, step * (num - 1) as real, num)[k] == k as real * step
  {
    var d := (num - 1) as real;
    var x := k as real;
    assert x * (step * d - 0.0) == (x * step) * d;
    assert (x * step) * d / d == x * step;
  }

  /** Multiplying by a non-zero d and dividing by it again is the identity. */
  lemma DivCancel(x: real, d: real)
    requires d != 0.0
    ensures d * x / d == x
  {
  }

  /** `int(x)` on a number: truncation toward zero. */
  function Trunc(x: real): (n: int)
    ensures 0.0 <= x ==> 0 <= n && n as real <= x < n as real + 1.0
    ensures x < 0.0 ==> n <= 0 && n as real - 1.0 < x <= n as real
  {
    if x >= 0.0 then x.Floor else -((-x).Floor)
  }

  /** The ramp stored by `_sweep_parameter`. */
  datatype BufferedLoop = BufferedLoop(parameter: string, start: real, stop: real, num: nat)

  /** A ramp the instrument can run: from one value to a different one. */
  predicate RampOk(l: BufferedLoop) {
    l.start != l.stop && l.num >= 2
  }

  const VoltName := "volt"
  const VoltRawName := "volt_raw"

  /** What `_send_buffer` needs to know of the calling channel. */
  datatype ChannelInfo = ChannelInfo(switchPos: Option<int>, updatePeriod: int)

  /** A ramp setting `_send_buffer` makes on the channel, in order. */
  datatype Setting =
    | LowerLimit(code: real) | UpperLimit(code: real) | VoltRaw(code: real) | Slope(slope: int)

  /** Measurement windows of the ramp, under the window name "M". */
  datatype Windows = Windows(begins: seq<real>, lengths: seq<real>)

  /** The start and stop codes of a ramp on a channel: volt ramps are
      converted in the channel's range, raw ramps are codes already. */
  function RampCodes(l: BufferedLoop, ch: ChannelInfo): (r: Result<(real, real), DacError>)
    ensures l.parameter != VoltName && l.parameter != VoltRawName ==> r == Failure(NotImplementedError)
    ensures l.parameter == VoltRawName ==> r == Success((l.start, l.stop))
    ensures l.parameter == VoltName ==>
              (r.Success? <==> ChannelVToCode(l.start, ch.switchPos).Success? &&
                               ChannelVToCode(l.stop, ch.switchPos).Success?)
    ensures l.parameter == VoltName && r.Success? ==>
              r.value == (ChannelVToCode(l.start, ch.switchPos).value as real,
                          ChannelVToCode(l.stop, ch.switchPos).value as real)
  {
    if l.parameter == VoltName then
      match ChannelVToCode(l.start, ch.switchPos)
      case Failure(e) => Failure(e)
      case Success(a) =>
        match ChannelVToCode(l.stop, ch.switchPos)
        case Failure(e) => Failure(e)
        case Success(b) => Success((a as real, b as real))
    else if l.parameter == VoltRawName then Success((l.start, l.stop))
    else Failure(NotImplementedError)
  }

  /** The ramp slope in code units per update, scaled by 65536 and
      truncated. */
  function RampSlope(cStart: real, cStop: real, num: nat): (s: int)
    requires num >= 2
    ensures var exact := (cStop - cStart) / (num - 1) as real * 65536.0;
            (exact >= 0.0 ==> 0 <= s && s as real <= exact < s as real + 1.0) &&
            (exact < 0.0 ==> s <= 0 && s as real - 1.0 < exact <= s as real)
  {
    Trunc((cStop - cStart) / (num - 1) as real * 65536.0)
  }

  /** The settings that set up a ramp from cStart to cStop: the limits,
      the lower first when the ramp rises, then the start value and the
      slope. */
  function RampSettings(cStart: real, cStop: real, num: nat): (s: seq<Setting>)
    requires num >= 2
    ensures |s| == 4 && s[2] == VoltRaw(cStart) && s[3] == Slope(RampSlope(cStart, cStop, num))
    ensures var lo := if cStart < cStop then cStart else cStop;
            var hi := if cStart < cStop then cStop else cStart;
            lo <= hi && {s[0], s[1]} == {LowerLimit(lo), UpperLimit(hi)}
    ensures s[0].LowerLimit? <==> cStart < cStop
  {
    var limits := if cStart < cStop then [LowerLimit(cStart), UpperLimit(cStop)]
                  else [UpperLimit(cStart), LowerLimit(cStop)];
    limits + [VoltRaw(cStart), Slope(RampSlope(cStart, cStop, num))]
  }

  /** The measurement windows of a ramp of num points with one update
      period (in microseconds) each: num windows of equal length, the
      first at 0, each starting where the one before ends. */
  function RampWindows(updatePeriod: int, num: nat): (w: Windows)
    requires num >= 2
    ensures |w.begins| == num && |w.lengths| == num
    ensures w.begins[0] == 0.0
    ensures forall k :: 0 <= k < num ==> w.lengths[k] == updatePeriod as real * 1000.0
    ensures forall k :: 0 <= k < num - 1 ==> w.begins[k + 1] == w.begins[k] + w.lengths[k]
  {
    var meas := updatePeriod as real * 1000.0;
    var begins := Linspace(0.0, meas * (num - 1) as real, num);
    forall k | 0 <= k < num - 1
      ensures begins[k + 1] == begins[k] + meas
    {
      LinspaceFromZero(meas, num, k);
      LinspaceFromZero(meas, num, k + 1);
    }
    Windows(begins, seq(num, _ => meas))
  }

  /** The whole instrument: the serial line with its replies, the selected
      slot and channel, and the buffered ramp. */
  class Decadac {
    /** The device's reply to each command. */
    const answer: string -> string
    /** Whether a `run_buffered_cmd` callback was given. */
    const hasRunCmd: bool
    /** Commands written on the serial line, oldest first. */
    var sent: seq<string>
    var currentSlot: Option<nat>
    var currentChannel: Option<nat>
    var bufferedLoop: Option<BufferedLoop>
    /** How many times the `run_buffered_cmd` callback was called. */
    var runs: nat

    ghost predicate Valid()
      reads this
    {
      bufferedLoop.Some? ==> RampOk(bufferedLoop.value)
    }

    constructor (answer: string -> string, hasRunCmd: bool)
      ensures Valid()
      ensures this.answer == answer && this.hasRunCmd == hasRunCmd
      ensures sent == [] && currentSlot.None? && currentChannel.None?
      ensures bufferedLoop.None? && runs == 0
    {
      this.answer := answer;
      this.hasRunCmd := hasRunCmd;
      sent := [];
      currentSlot := None;
      currentChannel := None;
      bufferedLoop := None;
      runs := 0;
    }

    /** `_write(self, cmd)` as the instrument calls it on itself: the
        command is written and the reply checked. */
    method Ask(cmd: string) returns (r: Result<string, DacError>)
      modifies this`sent
      ensures sent == old(sent) + [cmd]
      ensures r == CheckReply(cmd, answer(cmd))
    {
      sent := sent + [cmd];
      r := CheckReply(cmd, answer(cmd));
    }

    /** `_set_slot`: selects the slot unless it is already the current one;
        true exactly when it wrote the selection. */
    method SetSlot(slot: nat) returns (r: Result<bool, DacError>)
      modifies this`sent, this`currentSlot
      ensures old(currentSlot) == Some(slot) ==>
                r == Success(false) && sent == old(sent) && currentSlot == old(currentSlot)
      ensures old(currentSlot) != Some(slot) ==>
                sent == old(sent) + [SlotCommand(slot)] &&
                (r.Success? <==> CheckReply(SlotCommand(slot), answer(SlotCommand(slot))).Success?) &&
                (r.Success? ==> r.value && currentSlot == Some(slot)) &&
                (r.Failure? ==> currentSlot == old(currentSlot))
      ensures sent == old(sent) + WriteAll(SlotSelection(old(currentSlot), slot), answer).lines
      ensures r.Failure? <==> WriteAll(SlotSelection(old(currentSlot), slot), answer).error.Some?
      ensures r.Failure? ==> r.error == WriteAll(SlotSelection(old(currentSlot), slot), answer).error.value
      ensures currentSlot == SlotAfter(ToSlot(slot), old(currentSlot), answer)
    {
      if currentSlot.None? || currentSlot.value != slot {
        var reply := Ask(SlotCommand(slot));
        if reply.Failure? {
          return Failure(reply.error);
        }
        currentSlot := Some(slot);
        return Success(true);
      }
      return Success(false);
    }

    /** `_set_channel`: selects the slot, then the channel when the slot
        changed or the channel is not the current one. */
    method SetChannel(slot: nat, channel: nat) returns (r: Result<bool, DacError>)
      modifies this`sent, this`currentSlot, this`currentChannel
      ensures old(currentSlot) == Some(slot) && old(currentChannel) == Some(channel) ==>
                r == Success(false) && sent == old(sent) &&
                currentSlot == old(currentSlot) && currentChannel == old(currentChannel)
      ensures r.Success? ==> currentSlot == Some(slot) && currentChannel == Some(channel)
      ensures r.Success? ==> (r.value <==> old(currentSlot) != Some(slot) || old(currentChannel) != Some(channel))
      ensures r.Failure? ==> currentChannel == old(currentChannel)
      ensures sent == old(sent) +
                WriteAll(ChannelSelection(old(currentSlot), old(currentChannel), slot, channel), answer).lines
      ensures r.Failure? <==>
                WriteAll(ChannelSelection(old(currentSlot), old(currentChannel), slot, channel), answer).error.Some?
      ensures r.Failure? ==>
                r.error == WriteAll(ChannelSelection(old(currentSlot), old(currentChannel), slot, channel), answer).error.value
      ensures currentSlot == SlotAfter(ToChannel(slot, channel), old(currentSlot), answer)
      ensures currentChannel == ChannelAfter(ToChannel(slot, channel), old(currentSlot), old(currentChannel), answer)
    {
      WriteAllAppend(SlotSelection(currentSlot, slot),
        if currentSlot == Some(slot) && currentChannel == Some(channel) then [] else [ChannelCommand(channel)], answer);
      var slotChanged := SetSlot(slot);
      if slotChanged.Failure? {
        return Failure(slotChanged.error);
      }
      if slotChanged.value || currentChannel.None? || currentChannel.value != channel {
        var reply := Ask(ChannelCommand(channel));
        if reply.Failure? {
          return Failure(reply.error);
        }
        currentChannel := Some(channel);
        return Success(true);
      }
      return Success(false);
    }

    /** The first part of `_write(obj, cmd)`: a slot writer selects its
        slot, a channel writer its channel; the instrument itself selects
        nothing. */
    method Select(target: Target) returns (r: Result<(), DacError>)
      modifies this`sent, this`currentSlot, this`currentChannel
      ensures sent == old(sent) + WriteAll(Selection(target, old(currentSlot), old(currentChannel)), answer).lines
      ensures r.Failure? <==> WriteAll(Selection(target, old(currentSlot), old(currentChannel)), answer).error.Some?
      ensures r.Failure? ==>
                r.error == WriteAll(Selection(target, old(currentSlot), old(currentChannel)), answer).error.value
      ensures r.Success? && target.ToSlot? ==> currentSlot == Some(target.slot)
      ensures r.Success? && target.ToChannel? ==>
                currentSlot == Some(target.slot) && currentChannel == Some(target.channel)
      ensures target.ToDevice? ==>
                sent == old(sent) && currentSlot == old(currentSlot) && currentChannel == old(currentChannel)
      ensures currentSlot == SlotAfter(target, old(currentSlot), answer)
      ensures currentChannel == ChannelAfter(target, old(currentSlot), old(currentChannel), answer)
    {
      match target {
        case ToDevice =>
          return Success(());
        case ToSlot(s) =>
          var selected := SetSlot(s);
          if selected.Failure? {
            return Failure(selected.error);
          }
          return Success(());
        case ToChannel(s, c) =>
          var selected := SetChannel(s, c);
          if selected.Failure? {
            return Failure(selected.error);
          }
          return Success(());
      }
    }

    /** `_write(obj, cmd)`: selects the slot or channel the writer belongs
        to, then writes the command and checks the reply. */
    method Write(target: Target, cmd: string) returns (r: Result<string, DacError>)
      modifies this`sent, this`currentSlot, this`currentChannel
      ensures r.Success? ==> |sent| >= 1 && sent[|sent| - 1] == cmd && r == CheckReply(cmd, answer(cmd))
      ensures r.Success? && target.ToSlot? ==> currentSlot == Some(target.slot)
      ensures r.Success? && target.ToChannel? ==>
                currentSlot == Some(target.slot) && currentChannel == Some(target.channel)
      ensures target.ToDevice? ==>
                sent == old(sent) + [cmd] &&
                currentSlot == old(currentSlot) && currentChannel == old(currentChannel)
      ensures sent == old(sent) + WriteAll(Selection(target, old(currentSlot), old(currentChannel)) + [cmd], answer).lines
      ensures r.Failure? <==>
                WriteAll(Selection(target, old(currentSlot), old(currentChannel)) + [cmd], answer).error.Some?
      ensures r.Failure? ==>
                r.error == WriteAll(Selection(target, old(currentSlot), old(currentChannel)) + [cmd], answer).error.value
      ensures currentSlot == SlotAfter(target, old(currentSlot), answer)
      ensures currentChannel == ChannelAfter(target, old(currentSlot), old(currentChannel), answer)
    {
      ghost var commands := Selection(target, currentSlot, currentChannel);
      ghost var total := WriteAll(commands + [cmd], answer);
      var selected := Select(target);
      if selected.Failure? {
        assert total == WriteAll(commands, answer) by {
          WriteAllAppend(commands, [cmd], answer);
        }
        return Failure(selected.error);
      }
      WriteAllComplete(commands, answer);
      assert total.lines == commands + [cmd] by {
        WriteAllAppend(commands, [cmd], answer);
        WriteOne(cmd, answer);
      }
      assert total.error.None? <==> CheckReply(cmd, answer(cmd)).Success? by {
        WriteAllAppend(commands, [cmd], answer);
        WriteOne(cmd, answer);
      }
      assert total.error.Some? ==> total.error.value == CheckReply(cmd, answer(cmd)).error by {
        WriteAllAppend(commands, [cmd], answer);
        WriteOne(cmd, answer);
      }
      ghost var selectedLines := sent;
      r := Ask(cmd);
      assert sent == selectedLines + [cmd];
    }

    /** `reset_programs`: forgets the buffered ramp. */
    method ResetPrograms()
      requires Valid()
      modifies this`bufferedLoop
      ensures Valid() && bufferedLoop.None?
    {
      bufferedLoop := None;
    }

    /** `_sweep_parameter`: stores the ramp of a linear sweep. It raises
        when a ramp is already stored, when the sweep is empty, and when
        the values are not the evenly spaced sweep from the first to the
        last value or start and end at the same value. */
    method SweepParameter(parameter: string, values: seq<real>) returns (r: Result<(), DacError>)
      requires Valid()
      modifies this`bufferedLoop
      ensures Valid()
      ensures old(bufferedLoop).Some? ==> r == Failure(NotImplementedError)
      ensures old(bufferedLoop).None? && values == [] ==> r == Failure(IndexError)
      ensures old(bufferedLoop).None? && values != [] ==>
                (r.Success? <==> values == Linspace(values[0], values[|values| - 1], |values|) &&
                                 values[0] != values[|values| - 1])
      ensures r.Failure? ==> bufferedLoop == old(bufferedLoop)
      ensures r.Success? ==>
                bufferedLoop == Some(BufferedLoop(parameter, values[0], values[|values| - 1], |values|))
    {
      if bufferedLoop.Some? {
        return Failure(NotImplementedError);
      }
      if values == [] {
        return Failure(IndexError);
      }
      var start, stop, num := values[0], values[|values| - 1], |values|;
      if Linspace(start, stop, num) != values || start == stop {
        return Failure(NotImplementedError);
      }
      bufferedLoop := Some(BufferedLoop(parameter, start, stop, num));
      return Success(());
    }

    /** `_send_buffer`: with no ramp stored nothing happens; otherwise the
        ramp's codes are computed, the settings that make the channel run
        it are returned in the order they are made, and the measurement
        windows of the ramp. */
    method SendBuffer(ch: ChannelInfo) returns (r: Result<Option<Windows>, DacError>, settings: seq<Setting>)
      requires Valid()
      ensures bufferedLoop.None? ==> r == Success(None) && settings == []
      ensures bufferedLoop.Some? ==>
                var l := bufferedLoop.value;
                (r.Success? <==> RampCodes(l, ch).Success?) &&
                (r.Failure? ==> r.error == RampCodes(l, ch).error && settings == []) &&
                (r.Success? ==>
                   r.value == Some(RampWindows(ch.updatePeriod, l.num)) &&
                   settings == RampSettings(RampCodes(l, ch).value.0, RampCodes(l, ch).value.1, l.num))
    {
      settings := [];
      if bufferedLoop.None? {
        return Success(None), settings;
      }
      var l := bufferedLoop.value;
      var codes := RampCodes(l, ch);
      if codes.Failure? {
        return Failure(codes.error), settings;
      }
      var cStart, cStop := codes.value.0, codes.value.1;
      settings := RampSettings(cStart, cStop, l.num);
      r := Success(Some(RampWindows(ch.updatePeriod, l.num)));
    }

    /** `_run_program`: calls the run callback if there is one, then
        forgets the ramp. */
    method RunProgram()
      requires Valid()
      modifies this`runs, this`bufferedLoop
      ensures Valid() && bufferedLoop.None?
      ensures runs == old(runs) + (if hasRunCmd then 1 else 0)
    {
      if hasRunCmd {
        runs := runs + 1;
      }
      ResetPrograms();
    }
  }

  /** Who writes a command: the instrument itself, a slot, or a channel of
      a slot. */
  datatype Target = ToDevice | ToSlot(slot: nat) | ToChannel(slot: nat, channel: nat)

  /** A command template `"<letter>{};"` filled with n: the letter, the
      decimal digits of n, and ';'. */
  function NumberedCommand(letter: char, n: nat): (c: string)
    ensures |c| >= 3 && c[0] == letter && c[|c| - 1] == ';'
    ensures AllDigits(c[1..|c| - 1]) && DigitsValue(c[1..|c| - 1]) == n
  {
    var c := [letter] + NatToString(n) + ";";
    assert c[1..|c| - 1] == NatToString(n);
    NatToStringRoundTrip(n);
    c
  }

  /** `_COMMAND_SET_SLOT.format(n)` */
  function SlotCommand(n: nat): string {
    NumberedCommand('B', n)
  }

  /** `_COMMAND_SET_CHANNEL.format(n)` */
  function ChannelCommand(n: nat): string {
    NumberedCommand('C', n)
  }

  /** The check `_write` makes of a reply: it must start with the
      command's first character and end with '!'. An empty command or
      reply raises IndexError. */
  function CheckReply(cmd: string, reply: string): (r: Result<string, DacError>)
    ensures r.Success? <==> |reply| > 0 && |cmd| > 0 && reply[0] == cmd[0] && reply[|reply| - 1] == '!'
    ensures r.Success? ==> r.value == reply
    ensures r.Failure? ==> r.error == (if |reply| == 0 || |cmd| == 0 then IndexError else DacException)
  {
    if |reply| == 0 || |cmd| == 0 then Failure(IndexError)
    else if reply[0] != cmd[0] then Failure(DacException)
    else if reply[|reply| - 1] != '!' then Failure(DacException)
    else Success(reply)
  }

  /** The outcome of writing commands one after another: the commands that
      reached the line and the error that stopped the writing, if any. */
  datatype Written = Written(lines: seq<string>, error: Option<DacError>)

  /** Writes `cmds` in order through `_write`, each reply checked, and
      stops after the first command whose reply fails the check. */
  function WriteAll(cmds: seq<string>, answer: string -> string): Written
  {
    if cmds == [] then Written([], None)
    else
      var first := CheckReply(cmds[0], answer(cmds[0]));
      if first.Failure? then Written([cmds[0]], Some(first.error))
      else
        var rest := WriteAll(cmds[1..], answer);
        Written([cmds[0]] + rest.lines, rest.error)
  }

  /** Writing ends without an error exactly when every reply is
      acknowledged, and then every command was written. */
  lemma {:induction false} WriteAllComplete(cmds: seq<string>, answer: string -> string)
    ensures WriteAll(cmds, answer).error.None? <==>
              forall c | c in cmds :: CheckReply(c, answer(c)).Success?
    ensures WriteAll(cmds, answer).error.None? ==> WriteAll(cmds, answer).lines == cmds
  {
    if cmds != [] {
      WriteAllComplete(cmds[1..], answer);
      assert forall c | c in cmds :: c == cmds[0] || c in cmds[1..];
      assert [cmds[0]] + cmds[1..] == cmds;
    }
  }

  /** Writing stops exactly at the first failing reply: when it ends with
      an error, a prefix of the commands was written, every reply but the
      last acknowledged and the last one raising that error. */
  lemma {:induction false} WriteAllStopsAtFailure(cmds: seq<string>, answer: string -> string)
    requires WriteAll(cmds, answer).error.Some?
    ensures var n := |WriteAll(cmds, answer).lines|;
              0 < n <= |cmds| && WriteAll(cmds, answer).lines == cmds[..n] &&
              CheckReply(cmds[n - 1], answer(cmds[n - 1])) == Failure(WriteAll(cmds, answer).error.value) &&
              forall i | 0 <= i < n - 1 :: CheckReply(cmds[i], answer(cmds[i])).Success?
  {
    var first := CheckReply(cmds[0], answer(cmds[0]));
    if first.Success? {
      var rest := WriteAll(cmds[1..], answer);
      WriteAllStopsAtFailure(cmds[1..], answer);
      var n := |rest.lines| + 1;
      assert cmds[..n] == [cmds[0]] + cmds[1..][..n - 1];
      assert cmds[n - 1] == cmds[1..][n - 2];
      forall i | 0 <= i < n - 1
        ensures CheckReply(cmds[i], answer(cmds[i])).Success?
      {
        if i > 0 {
          assert cmds[i] == cmds[1..][i - 1];
        }
      }
    } else {
      assert cmds[..1] == [cmds[0]];
    }
  }

  /** Writing a + b writes a, and then b unless writing a failed. */
  lemma {:induction false} WriteAllAppend(a: seq<string>, b: seq<string>, answer: string -> string)
    ensures WriteAll(a + b, answer) ==
              if WriteAll(a, answer).error.Some? then WriteAll(a, answer)
              else Written(a + WriteAll(b, answer).lines, WriteAll(b, answer).error)
  {
    if a == [] {
      assert a + b == b;
    } else {
      var ab := a + b;
      assert ab != [] && ab[0] == a[0] && ab[1..] == a[1..] + b;
      if CheckReply(a[0], answer(a[0])).Success? {
        var tail := WriteAll(a[1..], answer);
        WriteAllAppend(a[1..], b, answer);
        assert WriteAll(a, answer) == Written([a[0]] + tail.lines, tail.error);
        assert WriteAll(ab, answer) ==
               Written([a[0]] + WriteAll(a[1..] + b, answer).lines, WriteAll(a[1..] + b, answer).error);
        if tail.error.None? {
          WriteAllComplete(a[1..], answer);
          assert tail.lines == a[1..];
          assert [a[0]] + (a[1..] + WriteAll(b, answer).lines) == a + WriteAll(b, answer).lines;
        }
      } else {
        assert WriteAll(ab, answer) == WriteAll(a, answer);
      }
    }
  }

  /** Writing a single command writes it and raises what its reply check
      raises. */
  lemma WriteOne(cmd: string, answer: string -> string)
    ensures WriteAll([cmd], answer).lines == [cmd]
    ensures WriteAll([cmd], answer).error.None? <==> CheckReply(cmd, answer(cmd)).Success?
    ensures WriteAll([cmd], answer).error.Some? ==>
              WriteAll([cmd], answer).error.value == CheckReply(cmd, answer(cmd)).error
  {
    assert [cmd][1..] == [];
  }

  /** What `_set_slot` writes: the slot command unless the slot is the
      current one. */
  function SlotSelection(currentSlot: Option<nat>, slot: nat): seq<string>
  {
    if currentSlot == Some(slot) then [] else [SlotCommand(slot)]
  }

  /** What `_set_channel` writes: the slot selection, then the channel
      command when the slot changed or another channel is current. */
  function ChannelSelection(currentSlot: Option<nat>, currentChannel: Option<nat>, slot: nat, channel: nat): seq<string>
  {
    SlotSelection(currentSlot, slot) +
    (if currentSlot == Some(slot) && currentChannel == Some(channel) then [] else [ChannelCommand(channel)])
  }

  /** What `_write` writes before the command itself for each writer. */
  function Selection(target: Target, currentSlot: Option<nat>, currentChannel: Option<nat>): seq<string>
  {
    match target
    case ToDevice => []
    case ToSlot(s) => SlotSelection(currentSlot, s)
    case ToChannel(s, c) => ChannelSelection(currentSlot, currentChannel, s, c)
  }

  /** The current slot after a writer's selection: a slot is stored as
      soon as its selection is acknowledged (or was already current), even
      when a later write fails; the instrument itself changes nothing. */
  function SlotAfter(target: Target, currentSlot: Option<nat>, answer: string -> string): Option<nat>
  {
    match target
    case ToDevice => currentSlot
    case ToSlot(s) => if WriteAll(SlotSelection(currentSlot, s), answer).error.None? then Some(s) else currentSlot
    case ToChannel(s, _) => if WriteAll(SlotSelection(currentSlot, s), answer).error.None? then Some(s) else currentSlot
  }

  /** The current channel after a writer's selection: only a channel
      writer whose whole selection is acknowledged changes it. */
  function ChannelAfter(target: Target, currentSlot: Option<nat>, currentChannel: Option<nat>, answer: string -> string): Option<nat>
  {
    match target
    case ToChannel(s, c) =>
      if WriteAll(ChannelSelection(currentSlot, currentChannel, s, c), answer).error.None? then Some(c) else currentChannel
    case _ => currentChannel
  }

  /** A selection written in full leaves the writer's slot, and for a
      channel writer its channel, current. */
  lemma {:induction false} SelectedOnSuccess(target: Target, currentSlot: Option<nat>, currentChannel: Option<nat>, answer: string -> string)
    requires WriteAll(Selection(target, currentSlot, currentChannel), answer).error.None?
    ensures target.ToSlot? ==> SlotAfter(target, currentSlot, answer) == Some(target.slot)
    ensures target.ToChannel? ==>
              SlotAfter(target, currentSlot, answer) == Some(target.slot) &&
              ChannelAfter(target, currentSlot, currentChannel, answer) == Some(target.channel)
  {
    if target.ToChannel? {
      var s, c := target.slot, target.channel;
      WriteAllAppend(SlotSelection(currentSlot, s),
        if currentSlot == Some(s) && currentChannel == Some(c) then [] else [ChannelCommand(c)], answer);
    }
  }

  /** A slot selection is acknowledged by a reply to it, never by the
      reply to a channel selection. */
  lemma ChannelReplyDoesNotAckSlot(n: nat, m: nat, reply: string)
    requires CheckReply(ChannelCommand(m), reply).Success?
    ensures CheckReply(SlotCommand(n), reply).Failure?
  {
  }
}
