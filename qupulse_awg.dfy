/** The bookkeeping of the qupulse AWG instrument: the loops that the
    buffered parameters of a measurement loop register layer by layer, the
    flags that hold back upload and run until every loop has reached that
    point, the hardware channels registered under channel identifiers, and
    the measurement windows gathered from the programs of an upload. */
module QuPulseAwg {
  import opened Util

  /** A hardware channel of an AWG: a playback or a marker channel. */
  datatype HwChannel = Playback(awg: nat, index: nat) | Marker(awg: nat, index: nat)

  /** An element of what `set_channel` is given: a hardware channel or an
      object of another type. */
  datatype Member = Hw(channel: HwChannel) | NotAChannel(id: nat)

  /** The `single_channel` argument: one hardware channel, an iterable of
      elements, or an object that is neither. */
  datatype ChannelArg = Single(channel: HwChannel) | Collection(members: seq<Member>) | NotIterable

  datatype AwgError = AttributeError | ValueError | TypeError | KeyError

  /** A sweep of a named parameter over values, or a repetition. */
  datatype LoopKind = Sweep(parameter: string, values: seq<real>) | Repetition(count: int)

  /** One entry of `_loops`. */
  datatype Loop = Loop(layer: int, kind: LoopKind, isSent: bool, isRun: bool)

  /** The begins and the lengths of the windows of one measurement. */
  type Window = (seq<real>, seq<real>)

  /** Measurement windows by measurement name. */
  type Windows = map<string, Window>

  // ---------------------------------------------------------------------
  // Loops
  // ---------------------------------------------------------------------

  /** No two loops occupy the same layer. */
  predicate LayersDistinct(loops: seq<Loop>) {
    forall i, j :: 0 <= i < j < |loops| ==> loops[i].layer != loops[j].layer
  }

  /** No parameter is swept by two loops. */
  predicate SweptOnce(loops: seq<Loop>) {
    forall i, j :: 0 <= i < j < |loops| && loops[i].kind.Sweep? && loops[j].kind.Sweep? ==>
      loops[i].kind.parameter != loops[j].kind.parameter
  }

  /** The loop stands in the way of a new loop in layer, sweeping the
      named parameter if any. */
  predicate Blocks(l: Loop, layer: int, parameter: Option<string>) {
    l.layer == layer || (parameter.Some? && l.kind.Sweep? && l.kind.parameter == parameter.value)
  }

  /** What `_send_buffer(layer)` does to the loops: those of the layer are
      marked sent. */
  function MarkSent(loops: seq<Loop>, layer: int): (r: seq<Loop>)
    ensures |r| == |loops|
    ensures forall i :: 0 <= i < |loops| ==>
              r[i].layer == loops[i].layer && r[i].kind == loops[i].kind && r[i].isRun == loops[i].isRun &&
              r[i].isSent == (loops[i].isSent || loops[i].layer == layer)
  {
    seq(|loops|, i requires 0 <= i < |loops| =>
      if loops[i].layer == layer then loops[i].(isSent := true) else loops[i])
  }

  /** What `_run_program(layer)` does to the loops: those of the layer are
      marked run. */
  function MarkRun(loops: seq<Loop>, layer: int): (r: seq<Loop>)
    ensures |r| == |loops|
    ensures forall i :: 0 <= i < |loops| ==>
              r[i].layer == loops[i].layer && r[i].kind == loops[i].kind && r[i].isSent == loops[i].isSent &&
              r[i].isRun == (loops[i].isRun || loops[i].layer == layer)
  {
    seq(|loops|, i requires 0 <= i < |loops| =>
      if loops[i].layer == layer then loops[i].(isRun := true) else loops[i])
  }

  predicate AllSent(loops: seq<Loop>) {
    forall i :: 0 <= i < |loops| ==> loops[i].isSent
  }

  predicate AllRun(loops: seq<Loop>) {
    forall i :: 0 <= i < |loops| ==> loops[i].isRun
  }

  /** The loops after `_send_buffer` was called for each layer in turn. */
  function MarkSentAll(loops: seq<Loop>, layers: seq<int>): (r: seq<Loop>)
    decreases |layers|
  {
    if layers == [] then loops else MarkSentAll(MarkSent(loops, layers[0]), layers[1..])
  }

  /** Once `_send_buffer` has been called for the layer of every loop, in
      any order, every loop is sent, so the upload has happened. */
  lemma {:induction false} EveryLayerSent(loops: seq<Loop>, layers: seq<int>)
    requires forall i :: 0 <= i < |loops| ==> loops[i].isSent || loops[i].layer in layers
    ensures AllSent(MarkSentAll(loops, layers))
    decreases |layers|
  {
    if layers != [] {
      var next := MarkSent(loops, layers[0]);
      forall i | 0 <= i < |next| ensures next[i].isSent || next[i].layer in layers[1..] {
        if !next[i].isSent {
          assert loops[i].layer in layers && loops[i].layer != layers[0];
          assert layers == [layers[0]] + layers[1..];
        }
      }
      EveryLayerSent(next, layers[1..]);
    }
  }

  /** A loop whose layer was never named is still waiting. */
  lemma {:induction false} UnsentLayerWaits(loops: seq<Loop>, layers: seq<int>, i: nat)
    requires i < |loops| && !loops[i].isSent && loops[i].layer !in layers
    ensures |MarkSentAll(loops, layers)| == |loops| && !MarkSentAll(loops, layers)[i].isSent
    decreases |layers|
  {
    if layers != [] {
      assert loops[i].layer !in layers[1..];
      UnsentLayerWaits(MarkSent(loops, layers[0]), layers[1..], i);
    }
  }

  // ---------------------------------------------------------------------
  // Measurement windows of an upload
  // ---------------------------------------------------------------------

  /** The windows the programs hold for a name, in program order. */
  function Collected(programs: seq<Windows>, name: string): seq<Window>
    decreases |programs|
  {
    if programs == [] then []
    else
      var last := programs[|programs| - 1];
      Collected(programs[..|programs| - 1], name) + (if name in last then [last[name]] else [])
  }

  /** The names any of the programs holds windows for. */
  function Names(programs: seq<Windows>): set<string> {
    set i, n | 0 <= i < |programs| && n in programs[i] :: n
  }

  /** `np.concatenate` of the begins of the windows. */
  function ConcatBegins(ws: seq<Window>): seq<real>
    decreases |ws|
  {
    if ws == [] then [] else ConcatBegins(ws[..|ws| - 1]) + ws[|ws| - 1].0
  }

  /** `np.concatenate` of the lengths of the windows. */
  function ConcatLengths(ws: seq<Window>): seq<real>
    decreases |ws|
  {
    if ws == [] then [] else ConcatLengths(ws[..|ws| - 1]) + ws[|ws| - 1].1
  }

  /** What `_calc_measurement_windows` computes: for every name any program
      has windows for, the begins of all programs' windows of that name
      joined in program order, and likewise the lengths. */
  function MeasurementWindows(programs: seq<Windows>): (r: Windows)
    ensures r.Keys == Names(programs)
  {
    map n | n in Names(programs) :: (ConcatBegins(Collected(programs, n)), ConcatLengths(Collected(programs, n)))
  }

  /** A name has windows collected exactly when some program has it. */
  lemma {:induction false} CollectedExactly(programs: seq<Windows>, name: string)
    ensures Collected(programs, name) != [] <==> name in Names(programs)
    decreases |programs|
  {
    if programs != [] {
      var init := programs[..|programs| - 1];
      CollectedExactly(init, name);
      if name in Names(init) {
        var i :| 0 <= i < |init| && name in init[i];
        assert programs[i] == init[i];
      }
      if name in Names(programs) {
        var i :| 0 <= i < |programs| && name in programs[i];
        if i < |init| {
          assert init[i] == programs[i];
        }
      }
    }
  }

  lemma {:induction false} CollectedConcat(a: seq<Windows>, b: seq<Windows>, name: string)
    ensures Collected(a + b, name) == Collected(a, name) + Collected(b, name)
    decreases |b|
  {
    if b == [] {
      assert a + b == a;
    } else {
      var init := b[..|b| - 1];
      assert (a + b)[..|a + b| - 1] == a + init;
      CollectedConcat(a, init, name);
    }
  }

  lemma {:induction false} ConcatBeginsConcat(x: seq<Window>, y: seq<Window>)
    ensures ConcatBegins(x + y) == ConcatBegins(x) + ConcatBegins(y)
    decreases |y|
  {
    if y == [] {
      assert x + y == x;
    } else {
      assert (x + y)[..|x + y| - 1] == x + y[..|y| - 1];
      ConcatBeginsConcat(x, y[..|y| - 1]);
    }
  }

  lemma {:induction false} ConcatLengthsConcat(x: seq<Window>, y: seq<Window>)
    ensures ConcatLengths(x + y) == ConcatLengths(x) + ConcatLengths(y)
    decreases |y|
  {
    if y == [] {
      assert x + y == x;
    } else {
      assert (x + y)[..|x + y| - 1] == x + y[..|y| - 1];
      ConcatLengthsConcat(x, y[..|y| - 1]);
    }
  }

  /** The windows of two groups of programs together are those of the first
      group followed by those of the second, name by name. */
  lemma WindowsOfJoinedPrograms(a: seq<Windows>, b: seq<Windows>, name: string)
    requires name in Names(a) && name in Names(b)
    ensures name in MeasurementWindows(a + b)
    ensures MeasurementWindows(a + b)[name].0 == MeasurementWindows(a)[name].0 + MeasurementWindows(b)[name].0
    ensures MeasurementWindows(a + b)[name].1 == MeasurementWindows(a)[name].1 + MeasurementWindows(b)[name].1
  {
    CollectedConcat(a, b, name);
    CollectedExactly(a + b, name);
    CollectedExactly(a, name);
    ConcatBeginsConcat(Collected(a, name), Collected(b, name));
    ConcatLengthsConcat(Collected(a, name), Collected(b, name));
  }

  /** Windows whose begins and lengths pair up. */
  predicate Balanced(ws: seq<Window>) {
    forall i :: 0 <= i < |ws| ==> |ws[i].0| == |ws[i].1|
  }

  /** Joining windows that pair up gives begins and lengths that pair up. */
  lemma {:induction false} BalancedConcat(ws: seq<Window>)
    requires Balanced(ws)
    ensures |ConcatBegins(ws)| == |ConcatLengths(ws)|
    decreases |ws|
  {
    if ws != [] {
      BalancedConcat(ws[..|ws| - 1]);
    }
  }

  /** The grouping after one more program: each of its windows joins the
      group of its name. */
  function AddProgram(grouped: map<string, seq<Window>>, program: Windows): (r: map<string, seq<Window>>)
    ensures r.Keys == grouped.Keys + program.Keys
    ensures forall n :: n in r ==>
              r[n] == (if n in grouped then grouped[n] else []) + (if n in program then [program[n]] else [])
  {
    map n | n in grouped.Keys + program.Keys ::
      (if n in grouped then grouped[n] else []) + (if n in program then [program[n]] else [])
  }

  /** Grouping all programs: each name holds the windows of all programs
      that have it. */
  predicate GroupedUpTo(grouped: map<string, seq<Window>>, programs: seq<Windows>) {
    grouped.Keys == Names(programs) && forall n :: n in grouped ==> grouped[n] == Collected(programs, n)
  }

  lemma GroupStep(grouped: map<string, seq<Window>>, programs: seq<Windows>, i: nat)
    requires i < |programs| && GroupedUpTo(grouped, programs[..i])
    ensures GroupedUpTo(AddProgram(grouped, programs[i]), programs[..i + 1])
  {
    var next := AddProgram(grouped, programs[i]);
    assert programs[..i + 1][..i] == programs[..i] && programs[..i + 1][i] == programs[i];
    NamesSnoc(programs, i);
    forall n | n in next ensures next[n] == Collected(programs[..i + 1], n) {
      if n !in grouped {
        CollectedExactly(programs[..i], n);
      }
    }
  }

  /** The inner loop of the grouping: the windows of one program added
      name by name. */
  method GroupProgram(grouped: map<string, seq<Window>>, program: Windows)
    returns (r: map<string, seq<Window>>)
    ensures r == AddProgram(grouped, program)
  {
    r := grouped;
    var pending := program.Keys;
    ghost var done: set<string> := {};
    while pending != {}
      invariant done !! pending && done + pending == program.Keys
      invariant r.Keys == grouped.Keys + done
      invariant forall n :: n in r && n !in done ==> r[n] == grouped[n]
      invariant forall n :: n in done ==> r[n] == (if n in grouped then grouped[n] else []) + [program[n]]
      decreases pending
    {
      var n :| n in pending;
      r := r[n := (if n in r then r[n] else []) + [program[n]]];
      pending := pending - {n};
      done := done + {n};
    }
    var target := AddProgram(grouped, program);
    forall n | n in r ensures r[n] == target[n] {
      if n !in program {
        assert grouped[n] + [] == grouped[n];
      }
    }
  }

  /** The second loop: every group joined into begins and lengths. */
  method JoinGroups(grouped: map<string, seq<Window>>) returns (r: Windows)
    ensures r.Keys == grouped.Keys
    ensures forall n :: n in r ==> r[n] == (ConcatBegins(grouped[n]), ConcatLengths(grouped[n]))
  {
    r := map[];
    var rest := grouped;
    while rest != map[]
      invariant rest.Keys <= grouped.Keys && r.Keys == grouped.Keys - rest.Keys
      invariant forall n :: n in rest ==> rest[n] == grouped[n]
      invariant forall n :: n in r ==> r[n] == (ConcatBegins(grouped[n]), ConcatLengths(grouped[n]))
      decreases |rest.Keys|
    {
      var n :| n in rest;
      var group := rest[n];
      r := r[n := (ConcatBegins(group), ConcatLengths(group))];
      rest := rest - {n};
    }
  }

  /** `_calc_measurement_windows(mcp)` given the measurement windows of each
      of the program's channel programs: the windows are first grouped by
      name, then each group is joined. */
  method CalcMeasurementWindows(programs: seq<Windows>) returns (r: Windows)
    ensures r == MeasurementWindows(programs)
  {
    var grouped: map<string, seq<Window>> := map[];
    var i := 0;
    while i < |programs|
      invariant 0 <= i <= |programs|
      invariant GroupedUpTo(grouped, programs[..i])
    {
      GroupStep(grouped, programs, i);
      grouped := GroupProgram(grouped, programs[i]);
      i := i + 1;
    }
    assert programs[..i] == programs;
    r := JoinGroups(grouped);
  }

  lemma NamesSnoc(programs: seq<Windows>, i: nat)
    requires i < |programs|
    ensures Names(programs[..i + 1]) == Names(programs[..i]) + programs[i].Keys
  {
    var a, b := programs[..i + 1], programs[..i];
    forall n | n in Names(a) ensures n in Names(b) + programs[i].Keys {
      var k :| 0 <= k < |a| && n in a[k];
      if k < i {
        assert b[k] == a[k];
      }
    }
    forall n | n in Names(b) ensures n in Names(a) {
      var k :| 0 <= k < |b| && n in b[k];
      assert a[k] == b[k];
    }
    forall n | n in programs[i].Keys ensures n in Names(a) {
      assert a[i] == programs[i];
    }
  }

  // ---------------------------------------------------------------------
  // Registered channels
  // ---------------------------------------------------------------------

  /** No element is registered under two identifiers. */
  predicate Disjoint(m: map<string, set<Member>>) {
    forall a, b :: a in m && b in m && a != b ==> m[a] * m[b] == {}
  }

  /** Only hardware channels are registered. */
  predicate OnlyChannels(m: map<string, set<Member>>) {
    forall a, x :: a in m && x in m[a] ==> x.Hw?
  }

  /** The set `set_channel` tries to register: a single channel joins the
      identifier's registered channels, an iterable is taken as a set. */
  function Candidate(m: map<string, set<Member>>, identifier: string, arg: ChannelArg): set<Member>
    requires !arg.NotIterable?
  {
    match arg
    case Single(c) => if identifier in m then m[identifier] + {Hw(c)} else {Hw(c)}
    case Collection(ms) => set x | x in ms
  }

  /** The candidate shares an element with some registered set. */
  predicate Overlaps(m: map<string, set<Member>>, s: set<Member>) {
    exists a :: a in m && m[a] * s != {}
  }

  /** `QuPulseAWGInstrument` as far as its loops and channels go. The
      callback `run_program_cmd` is present or not; `runCalls` counts its
      calls and `uploads` the uploads of a built program. */
  class AwgInstrument {
    const hasRunCmd: bool
    var loops: seq<Loop>
    var channelMap: map<string, set<Member>>
    var uploads: nat
    var runCalls: nat

    ghost predicate Valid()
      reads this
    {
      LayersDistinct(loops) && SweptOnce(loops) && Disjoint(channelMap) && OnlyChannels(channelMap)
    }

    constructor (hasRunCmd: bool)
      ensures Valid()
      ensures this.hasRunCmd == hasRunCmd && loops == [] && channelMap == map[]
      ensures uploads == 0 && runCalls == 0
    {
      this.hasRunCmd := hasRunCmd;
      loops := [];
      channelMap := map[];
      uploads := 0;
      runCalls := 0;
    }

    /** `_sweep_parameter(parameter, sweep_values, layer)`: AttributeError
        when a loop already occupies the layer or already sweeps the
        parameter; otherwise one loop, neither sent nor run, is added. */
    method SweepParameter(name: string, values: seq<real>, layer: int) returns (r: Result<(), AwgError>)
      requires Valid()
      modifies this`loops
      ensures Valid()
      ensures r.Failure? <==> exists i :: 0 <= i < |old(loops)| && Blocks(old(loops)[i], layer, Some(name))
      ensures r.Failure? ==> r.error == AttributeError && loops == old(loops)
      ensures r.Success? ==> loops == old(loops) + [Loop(layer, Sweep(name, values), false, false)]
    {
      var i := 0;
      while i < |loops|
        invariant 0 <= i <= |loops|
        invariant forall k :: 0 <= k < i ==> !Blocks(loops[k], layer, Some(name))
      {
        if loops[i].layer == layer {
          return Failure(AttributeError);
        }
        if loops[i].kind.Sweep? && loops[i].kind.parameter == name {
          return Failure(AttributeError);
        }
        i := i + 1;
      }
      loops := loops + [Loop(layer, Sweep(name, values), false, false)];
      return Success(());
    }

    /** `_repeat_parameter(repetition_count, layer)`: AttributeError when a
        loop already occupies the layer; otherwise one repetition loop,
        neither sent nor run, is added. */
    method RepeatParameter(count: int, layer: int) returns (r: Result<(), AwgError>)
      requires Valid()
      modifies this`loops
      ensures Valid()
      ensures r.Failure? <==> exists i :: 0 <= i < |old(loops)| && old(loops)[i].layer == layer
      ensures r.Failure? ==> r.error == AttributeError && loops == old(loops)
      ensures r.Success? ==> loops == old(loops) + [Loop(layer, Repetition(count), false, false)]
    {
      var i := 0;
      while i < |loops|
        invariant 0 <= i <= |loops|
        invariant forall k :: 0 <= k < i ==> loops[k].layer != layer
      {
        if loops[i].layer == layer {
          return Failure(AttributeError);
        }
        i := i + 1;
      }
      loops := loops + [Loop(layer, Repetition(count), false, false)];
      return Success(());
    }

    /** `_send_buffer(layer)`: the loops of the layer are marked sent; when
        every other loop was already sent the program is built and uploaded
        and its measurement windows returned. `programs` are the
        measurement windows of the built program's channel programs. */
    method SendBuffer(layer: int, programs: seq<Windows>) returns (r: Option<Windows>)
      requires Valid()
      modifies this`loops, this`uploads
      ensures Valid()
      ensures loops == MarkSent(old(loops), layer)
      ensures r.Some? <==> old(loops) != [] && AllSent(loops)
      ensures r.Some? ==> r.value == MeasurementWindows(programs) && uploads == old(uploads) + 1
      ensures r.None? ==> uploads == old(uploads)
    {
      if loops == [] {
        return None;
      }
      var send := true;
      var marked := loops;
      var i := 0;
      while i < |marked|
        invariant 0 <= i <= |marked| == |loops|
        invariant forall k :: 0 <= k < i ==> marked[k] == MarkSent(loops, layer)[k]
        invariant forall k :: i <= k < |marked| ==> marked[k] == loops[k]
        invariant send <==> forall k :: 0 <= k < i ==> marked[k].isSent
      {
        if marked[i].layer == layer {
          marked := marked[i := marked[i].(isSent := true)];
        } else if !marked[i].isSent {
          send := false;
        }
        i := i + 1;
      }
      assert marked == MarkSent(loops, layer);
      loops := marked;
      if send {
        var windows := CalcMeasurementWindows(programs);
        uploads := uploads + 1;
        return Some(windows);
      }
      return None;
    }

    /** `_run_program(layer)`: the loops of the layer are marked run; when
        every loop has run, `run_program_cmd` is called if there is one and
        the loops are cleared. */
    method RunProgram(layer: int)
      requires Valid()
      modifies this`loops, this`runCalls
      ensures Valid()
      ensures old(loops) != [] && AllRun(MarkRun(old(loops), layer)) ==>
                loops == [] && runCalls == old(runCalls) + (if hasRunCmd then 1 else 0)
      ensures !(old(loops) != [] && AllRun(MarkRun(old(loops), layer))) ==>
                loops == MarkRun(old(loops), layer) && runCalls == old(runCalls)
    {
      if loops == [] {
        return;
      }
      var run := true;
      var marked := loops;
      var i := 0;
      while i < |marked|
        invariant 0 <= i <= |marked| == |loops|
        invariant forall k :: 0 <= k < i ==> marked[k] == MarkRun(loops, layer)[k]
        invariant forall k :: i <= k < |marked| ==> marked[k] == loops[k]
        invariant run <==> forall k :: 0 <= k < i ==> marked[k].isRun
      {
        if marked[i].layer == layer {
          marked := marked[i := marked[i].(isRun := true)];
        } else if !marked[i].isRun {
          run := false;
        }
        i := i + 1;
      }
      assert marked == MarkRun(loops, layer);
      loops := marked;
      if run {
        if hasRunCmd {
          runCalls := runCalls + 1;
        }
        ResetPrograms();
      }
    }

    /** `reset_programs`: every loop is dropped. */
    method ResetPrograms()
      modifies this`loops
      ensures loops == []
      ensures old(Valid()) ==> Valid()
    {
      loops := [];
    }

    /** `remove_programs`: every loop and every registered channel is
        dropped. */
    method RemovePrograms()
      requires Valid()
      modifies this`loops, this`channelMap
      ensures Valid() && loops == [] && channelMap == map[]
    {
      ResetPrograms();
      channelMap := map[];
    }

    /** `set_channel(identifier, single_channel)`: TypeError for an argument
        that is neither a channel nor iterable; ValueError when the
        candidate set shares a channel with any registered set, that of the
        same identifier included; TypeError when it holds anything but
        hardware channels. Otherwise the identifier maps to the candidate. */
    method SetChannel(identifier: string, arg: ChannelArg) returns (r: Result<(), AwgError>)
      requires Valid()
      modifies this`channelMap
      ensures Valid()
      ensures r.Failure? ==> channelMap == old(channelMap)
      ensures arg.NotIterable? ==> r == Failure(TypeError)
      ensures !arg.NotIterable? ==>
                var s := Candidate(old(channelMap), identifier, arg);
                (Overlaps(old(channelMap), s) ==> r == Failure(ValueError)) &&
                (!Overlaps(old(channelMap), s) && (exists x :: x in s && !x.Hw?) ==> r == Failure(TypeError)) &&
                (r.Success? <==> !Overlaps(old(channelMap), s) && forall x :: x in s ==> x.Hw?) &&
                (r.Success? ==> channelMap == old(channelMap)[identifier := s])
      ensures arg.Single? && identifier in old(channelMap) && old(channelMap)[identifier] != {} ==>
                r == Failure(ValueError)
    {
      if arg.NotIterable? {
        return Failure(TypeError);
      }
      var s := Candidate(channelMap, identifier, arg);
      if arg.Single? && identifier in channelMap && channelMap[identifier] != {} {
        var x :| x in channelMap[identifier];
        assert x in channelMap[identifier] * s;
      }
      if exists a :: a in channelMap && channelMap[a] * s != {} {
        return Failure(ValueError);
      }
      if exists x :: x in s && !x.Hw? {
        return Failure(TypeError);
      }
      channelMap := channelMap[identifier := s];
      return Success(());
    }

    /** `remove_channel(identifier)`: KeyError for an identifier that is not
        registered. */
    method RemoveChannel(identifier: string) returns (r: Result<(), AwgError>)
      requires Valid()
      modifies this`channelMap
      ensures Valid()
      ensures r.Success? <==> identifier in old(channelMap)
      ensures r.Failure? ==> r.error == KeyError && channelMap == old(channelMap)
      ensures r.Success? ==> channelMap == old(channelMap) - {identifier}
    {
      if identifier !in channelMap {
        return Failure(KeyError);
      }
      channelMap := channelMap - {identifier};
      return Success(());
    }
  }
}
