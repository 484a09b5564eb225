/** The bookkeeping of the qupulse DAC instrument: measurement masks
    registered under window names, the measurement each channel parameter is
    configured for, the arming of the DACs once every configured parameter
    is ready, and the buffer of measured values handed out one step at a
    time. */
module QuPulseDac {
  import opened Util

  /** A measurement mask: its name and the DAC it belongs to. */
  datatype Mask = Mask(maskName: string, dac: nat)

  /** The `measurement_masks` argument: one mask, an iterable of masks, or
      an object that is neither. */
  datatype MaskArg = SingleMask(mask: Mask) | MaskCollection(masks: seq<Mask>) | NotIterableMasks

  datatype DacError =
    | TypeError
    | ValueError
    | MeasuredTwice   // the parameter is already configured
    | WindowNotGiven  // the window owning the parameter's mask is missing
    | KeyError
    | AttributeError  // no DAC was armed before the first read

  /** The begins and the lengths of the windows of one measurement. */
  type Window = (seq<real>, seq<real>)

  /** Windows for each mask name, by DAC. */
  type Affected = map<nat, map<string, Window>>

  /** The measured values by parameter name. */
  type Data = map<string, seq<real>>

  // ---------------------------------------------------------------------
  // Masks
  // ---------------------------------------------------------------------

  /** No mask is registered under two window names. */
  predicate Disjoint(m: map<string, set<Mask>>) {
    forall a, b :: a in m && b in m && a != b ==> m[a] * m[b] == {}
  }

  /** The set `_set_measurement` tries to register: a single mask joins the
      name's registered masks, an iterable is taken as a set. */
  function Candidate(m: map<string, set<Mask>>, name: string, arg: MaskArg): set<Mask>
    requires !arg.NotIterableMasks?
  {
    match arg
    case SingleMask(x) => if name in m then m[name] + {x} else {x}
    case MaskCollection(xs) => set x | x in xs
  }

  /** The candidate shares a mask with some registered set. */
  predicate Overlaps(m: map<string, set<Mask>>, s: set<Mask>) {
    exists a :: a in m && m[a] * s != {}
  }

  /** Registering a set that overlaps no registered set keeps the sets
      pairwise disjoint. */
  lemma RegisterKeepsDisjoint(m: map<string, set<Mask>>, name: string, s: set<Mask>)
    requires Disjoint(m) && !Overlaps(m, s)
    ensures Disjoint(m[name := s])
  {
    var m' := m[name := s];
    forall a, b | a in m' && b in m' && a != b
      ensures m'[a] * m'[b] == {}
    {
      if a == name {
        assert b in m && m[b] * s == {};
      } else if b == name {
        assert a in m && m[a] * s == {};
      }
    }
  }

  /** Some mask of the set has the given mask name. */
  predicate HasMask(s: set<Mask>, maskId: string) {
    exists x :: x in s && x.maskName == maskId
  }

  /** The position, among the window names from start on, of the first
      window holding a mask of the given name. */
  function OwnerFrom(names: seq<string>, masks: map<string, set<Mask>>, maskId: string, start: nat): (r: Option<nat>)
    requires forall i :: 0 <= i < |names| ==> names[i] in masks
    requires start <= |names|
    ensures r.Some? ==> start <= r.value < |names| && HasMask(masks[names[r.value]], maskId) &&
                        forall k :: start <= k < r.value ==> !HasMask(masks[names[k]], maskId)
    ensures r.None? ==> forall k :: start <= k < |names| ==> !HasMask(masks[names[k]], maskId)
    decreases |names| - start
  {
    if start == |names| then None
    else if HasMask(masks[names[start]], maskId) then Some(start)
    else OwnerFrom(names, masks, maskId, start + 1)
  }

  /** The window, in registration order, that owns the mask name. */
  function Owner(names: seq<string>, masks: map<string, set<Mask>>, maskId: string): (r: Option<nat>)
    requires forall i :: 0 <= i < |names| ==> names[i] in masks
  {
    OwnerFrom(names, masks, maskId, 0)
  }

  /** Where the owner is: the first window holding the mask name. */
  lemma OwnerIsFirst(names: seq<string>, masks: map<string, set<Mask>>, maskId: string, i: nat)
    requires forall k :: 0 <= k < |names| ==> names[k] in masks
    requires i < |names| && HasMask(masks[names[i]], maskId)
    requires forall k :: 0 <= k < i ==> !HasMask(masks[names[k]], maskId)
    ensures Owner(names, masks, maskId) == Some(i)
  {
  }

  // ---------------------------------------------------------------------
  // The buffer of measured values
  // ---------------------------------------------------------------------

  /** `_data` is falsy: never filled, or emptied. */
  predicate NeedsRefill(data: Option<Data>) {
    data.None? || data.value == map[]
  }

  /** Taking the next value of a parameter from the buffer: KeyError when it
      has no values, ValueError when its values are exhausted; otherwise the
      first value, with the rest kept, the name removed when nothing is left
      and the whole buffer dropped when no name is left. On an error the
      buffer is unchanged. */
  function Popped(d: Data, name: string): (r: (Result<real, DacError>, Option<Data>))
    ensures name !in d ==> r == (Failure(KeyError), Some(d))
    ensures name in d && d[name] == [] ==> r == (Failure(ValueError), Some(d))
    ensures r.0.Success? <==> name in d && d[name] != []
    ensures r.0.Success? ==> r.0.value == d[name][0]
    ensures r.0.Success? && |d[name]| > 1 ==> r.1 == Some(d[name := d[name][1..]])
    ensures r.0.Success? && |d[name]| == 1 ==> r.1 == (if d - {name} == map[] then None else Some(d - {name}))
  {
    if name !in d then (Failure(KeyError), Some(d))
    else if d[name] == [] then (Failure(ValueError), Some(d))
    else
      var rest := d[name][1..];
      if rest != [] then (Success(d[name][0]), Some(d[name := rest]))
      else
        var left := d - {name};
        (Success(d[name][0]), if left == map[] then None else Some(left))
  }

  /** k reads of the same parameter from a filled buffer, without a refill
      in between. */
  function Drain(d: Data, name: string, k: nat): Result<seq<real>, DacError>
    decreases k
  {
    if k == 0 then Success([])
    else
      var (v, next) := Popped(d, name);
      if v.Failure? then Failure(v.error)
      else if k == 1 then Success([v.value])
      else if next.None? then Failure(KeyError)
      else match Drain(next.value, name, k - 1)
        case Failure(e) => Failure(e)
        case Success(vs) => Success([v.value] + vs)
  }

  /** Successive reads hand out a parameter's values in the order they were
      measured. */
  lemma {:induction false} DrainInOrder(d: Data, name: string, k: nat)
    requires name in d && k <= |d[name]|
    ensures Drain(d, name, k) == Success(d[name][..k])
    decreases k
  {
    if k > 1 {
      var next := d[name := d[name][1..]];
      DrainInOrder(next, name, k - 1);
      assert d[name][..k] == [d[name][0]] + d[name][1..][..k - 1];
    } else if k == 1 {
      assert d[name][..1] == [d[name][0]];
    }
  }

  /** Reading a parameter leaves the values of every other parameter as
      they were. */
  lemma PopLeavesOthers(d: Data, name: string, other: string)
    requires other != name && other in d && Popped(d, name).0.Success?
    ensures Popped(d, name).1.Some? && other in Popped(d, name).1.value
    ensures Popped(d, name).1.value[other] == d[other]
  {
    assert other in d - {name};
  }

  // ---------------------------------------------------------------------
  // Channel parameters and the instrument
  // ---------------------------------------------------------------------

  /** A `QuPulseDACChannel`: a parameter measuring an operation on the mask
      `maskId`, with the measurement window it is configured for. */
  class DacChannel {
    const name: string
    const maskId: string
    var window: Option<(string, Window)>
    var configured: bool
    var ready: bool

    constructor (name: string, maskId: string)
      ensures this.name == name && this.maskId == maskId
      ensures window.None? && !configured && !ready
    {
      this.name := name;
      this.maskId := maskId;
      window := None;
      configured := false;
      ready := false;
    }

    /** `reset`: no window, neither configured nor ready. */
    method Reset()
      modifies this
      ensures window.None? && !configured && !ready
    {
      window := None;
      configured := false;
      ready := false;
    }
  }

  /** The names of the channels whose flag is set, in order. */
  function ReadyNames(cs: seq<DacChannel>, flags: seq<bool>): seq<string>
    requires |flags| == |cs|
    decreases |cs|
  {
    if cs == [] then []
    else
      var n := |cs| - 1;
      ReadyNames(cs[..n], flags[..n]) + (if flags[n] then [cs[n].name] else [])
  }

  /** Taking one more channel adds its name exactly when it is flagged. */
  lemma ReadyNamesStep(cs: seq<DacChannel>, flags: seq<bool>, i: nat)
    requires |flags| == |cs| && i < |cs|
    ensures ReadyNames(cs[..i + 1], flags[..i + 1]) ==
            ReadyNames(cs[..i], flags[..i]) + (if flags[i] then [cs[i].name] else [])
  {
    assert cs[..i + 1][..i] == cs[..i] && flags[..i + 1][..i] == flags[..i];
  }

  /** The ready flags of the channels. */
  function ReadyFlags(cs: seq<DacChannel>): (r: seq<bool>)
    reads cs
    ensures |r| == |cs| && forall i :: 0 <= i < |cs| ==> r[i] == cs[i].ready
  {
    seq(|cs|, i reads cs requires 0 <= i < |cs| => cs[i].ready)
  }

  /** What the armed DACs return for the ready parameters: nothing when no
      DAC was armed. `measure` stands for the merged answers of the DACs. */
  function Measured(affected: Affected, measure: seq<string> -> Data, names: seq<string>): Data {
    if affected == map[] then map[] else measure(names)
  }

  /** `QuPulseDACInstrument` with its channel parameters, in parameter
      order. `names` keeps the order in which window names were first
      registered. */
  class DacInstrument {
    const channels: seq<DacChannel>
    var names: seq<string>
    var masks: map<string, set<Mask>>
    var affected: Option<Affected>
    var data: Option<Data>

    ghost predicate Valid()
      reads this
    {
      Distinct(names) &&
      (forall i :: 0 <= i < |names| ==> names[i] in masks) &&
      (forall n :: n in masks ==> n in names) &&
      Disjoint(masks) &&
      (forall i, j :: 0 <= i < j < |channels| ==> channels[i] != channels[j])
    }

    constructor (channels: seq<DacChannel>)
      requires forall i, j :: 0 <= i < j < |channels| ==> channels[i] != channels[j]
      ensures Valid()
      ensures this.channels == channels && names == [] && masks == map[] && affected.None? && data.None?
    {
      this.channels := channels;
      names := [];
      masks := map[];
      affected := None;
      data := None;
    }

    /** `_set_measurement(name, measurement_masks)`: TypeError for an
        argument that is neither a mask nor iterable; ValueError when the
        candidate set shares a mask with any registered set, that of the
        same name included. Otherwise the name maps to the candidate. */
    method SetMeasurement(name: string, arg: MaskArg) returns (r: Result<(), DacError>)
      requires Valid()
      modifies this`names, this`masks
      ensures Valid()
      ensures r.Failure? ==> masks == old(masks) && names == old(names)
      ensures arg.NotIterableMasks? ==> r == Failure(TypeError)
      ensures !arg.NotIterableMasks? ==>
                var s := Candidate(old(masks), name, arg);
                (r.Failure? <==> Overlaps(old(masks), s)) &&
                (r.Failure? ==> r.error == ValueError) &&
                (r.Success? ==> masks == old(masks)[name := s])
      ensures r.Success? ==> names == old(names) + (if name in old(masks) then [] else [name])
      ensures arg.SingleMask? && name in old(masks) && old(masks)[name] != {} ==> r == Failure(ValueError)
    {
      if arg.NotIterableMasks? {
        return Failure(TypeError);
      }
      var s := Candidate(masks, name, arg);
      if arg.SingleMask? && name in masks && masks[name] != {} {
        var x :| x in masks[name];
        assert x in masks[name] * s;
      }
      if exists a :: a in masks && masks[a] * s != {} {
        return Failure(ValueError);
      }
      RegisterKeepsDisjoint(masks, name, s);
      if name !in masks {
        names := names + [name];
      }
      masks := masks[name := s];
      return Success(());
    }

    /** `_configure_measurement(parameter, measurement_windows)`: an error
        for a parameter already configured, and one when the first window
        holding its mask is not among the given windows; otherwise the
        parameter records that window, if any holds its mask, and is
        configured. */
    method ConfigureMeasurement(p: DacChannel, windows: map<string, Window>) returns (r: Result<(), DacError>)
      requires Valid()
      modifies p
      ensures old(p.configured) ==> r == Failure(MeasuredTwice)
      ensures r.Failure? ==> p.window == old(p.window) && p.configured == old(p.configured)
      ensures !old(p.configured) ==>
                var o := Owner(names, masks, p.maskId);
                (r.Success? <==> o.None? || names[o.value] in windows) &&
                (r.Failure? ==> r.error == WindowNotGiven) &&
                (r.Success? ==> p.configured &&
                                p.window == (if o.Some? then Some((names[o.value], windows[names[o.value]]))
                                             else old(p.window)))
      ensures p.ready == old(p.ready)
    {
      if p.configured {
        return Failure(MeasuredTwice);
      }
      var i := 0;
      while i < |names|
        invariant 0 <= i <= |names|
        invariant forall k :: 0 <= k < i ==> !HasMask(masks[names[k]], p.maskId)
        invariant p.window == old(p.window) && !p.configured
      {
        if exists x :: x in masks[names[i]] && x.maskName == p.maskId {
          OwnerIsFirst(names, masks, p.maskId, i);
          if names[i] in windows {
            p.window := Some((names[i], windows[names[i]]));
            break;
          } else {
            return Failure(WindowNotGiven);
          }
        }
        i := i + 1;
      }
      p.configured := true;
      return Success(());
    }

    /** Every configured channel is ready. */
    ghost predicate AllConfiguredReady()
      reads channels
    {
      forall i :: 0 <= i < |channels| && channels[i].configured ==> channels[i].ready
    }

    /** The channel is ready, configured with a window of a registered name
        that holds the mask named n of DAC d, with windows w. */
    ghost predicate Contributes(c: DacChannel, d: nat, n: string, w: Window)
      reads this`masks, c
    {
      c.ready && c.window.Some? && c.window.value.0 in masks &&
      c.maskId == n && Mask(n, d) in masks[c.window.value.0] && c.window.value.1 == w
    }

    /** Every entry of the affected DACs comes from a ready channel. */
    ghost predicate Sound(acc: Affected, upto: nat)
      reads this`masks, channels
      requires upto <= |channels|
    {
      forall d, n :: d in acc && n in acc[d] ==>
        exists k :: 0 <= k < upto && Contributes(channels[k], d, n, acc[d][n])
    }

    /** Every ready channel whose window holds its mask has an entry. */
    ghost predicate Complete(acc: Affected, upto: nat)
      reads this`masks, channels
      requires upto <= |channels|
    {
      forall k :: 0 <= k < upto && channels[k].ready && channels[k].window.Some? &&
                  channels[k].window.value.0 in masks &&
                  HasMask(masks[channels[k].window.value.0], channels[k].maskId) ==>
        exists d :: d in acc && channels[k].maskId in acc[d]
    }

    /** `_arm_measurement(parameter)`: the parameter becomes ready; once
        every configured parameter is ready, the windows of every ready
        parameter are collected by DAC and mask name, and those DACs are
        given their windows and armed. The result says whether that
        happened; KeyError for a ready parameter without a registered
        window. */
    method ArmMeasurement(p: DacChannel) returns (r: Result<bool, DacError>)
      requires Valid() && p in channels
      modifies p, this`affected
      ensures p.ready && p.window == old(p.window) && p.configured == old(p.configured)
      ensures Valid()
      ensures r == Success(false) <==> !AllConfiguredReady()
      ensures r == Success(false) ==> affected == old(affected)
      ensures r == Success(true) ==>
                affected.Some? && Sound(affected.value, |channels|) && Complete(affected.value, |channels|)
      ensures r.Failure? ==> r.error == KeyError && affected.Some? && SomeReadyUnregistered()
    {
      p.ready := true;
      var allReady := CheckAllReady();
      if !allReady {
        return Success(false);
      }
      var acc, ok := CollectAffected();
      affected := Some(acc);
      if !ok {
        return Failure(KeyError);
      }
      assert Sound(acc, |channels|) && Complete(acc, |channels|);
      return Success(true);
    }

    /** The loop of `_arm_measurement` that looks for a configured parameter
        that is not ready. */
    method CheckAllReady() returns (allReady: bool)
      ensures allReady <==> AllConfiguredReady()
    {
      allReady := true;
      var i := 0;
      while i < |channels| && allReady
        invariant 0 <= i <= |channels|
        invariant allReady <==> forall k :: 0 <= k < i && channels[k].configured ==> channels[k].ready
        invariant !allReady ==> !AllConfiguredReady()
      {
        if channels[i].configured && !channels[i].ready {
          allReady := false;
        }
        i := i + 1;
      }
    }

    /** Some ready parameter has no window of a registered name. */
    ghost predicate SomeReadyUnregistered()
      reads this`masks, channels
    {
      exists k :: 0 <= k < |channels| && channels[k].ready &&
                  (channels[k].window.None? || channels[k].window.value.0 !in masks)
    }

    /** The loop of `_arm_measurement` that collects the windows of the ready
        parameters by DAC and mask name; it stops with what it has collected
        at a ready parameter without a registered window (KeyError). */
    method CollectAffected() returns (acc: Affected, ok: bool)
      ensures ok ==> Sound(acc, |channels|) && Complete(acc, |channels|)
      ensures !ok <==> SomeReadyUnregistered()
    {
      acc := map[];
      var i := 0;
      while i < |channels|
        invariant 0 <= i <= |channels|
        invariant Sound(acc, i) && Complete(acc, i)
        invariant forall k :: 0 <= k < i && channels[k].ready ==>
                    channels[k].window.Some? && channels[k].window.value.0 in masks
      {
        var c := channels[i];
        if c.ready {
          if c.window.None? || c.window.value.0 !in masks {
            return acc, false;
          }
          var w := c.window.value;
          if exists x :: x in masks[w.0] && x.maskName == c.maskId {
            var x :| x in masks[w.0] && x.maskName == c.maskId;
            SoundAfterAdd(acc, i, x.dac, w.1);
            CompleteAfterAdd(acc, i, x.dac, w.1);
            acc := AddEntryValue(acc, x.dac, c.maskId, w.1);
          }
        }
        i := i + 1;
      }
      return acc, true;
    }

    /** One step of the collection: a window recorded under DAC d and mask
        name n. */
    function AddEntryValue(acc: Affected, d: nat, n: string, w: Window): (r: Affected)
      ensures d in r && n in r[d] && r[d][n] == w
      ensures forall d', n' :: d' in acc && n' in acc[d'] ==> d' in r && n' in r[d']
      ensures forall d', n' :: d' in r && n' in r[d'] && (d' != d || n' != n) ==>
                d' in acc && n' in acc[d'] && r[d'][n'] == acc[d'][n']
    {
      acc[d := (if d in acc then acc[d] else map[])[n := w]]
    }

    lemma SoundAfterAdd(acc: Affected, i: nat, d: nat, w: Window)
      requires i < |channels| && Sound(acc, i)
      requires Contributes(channels[i], d, channels[i].maskId, w)
      ensures Sound(AddEntryValue(acc, d, channels[i].maskId, w), i + 1)
    {
      var n := channels[i].maskId;
      var r := AddEntryValue(acc, d, n, w);
      forall d', n' | d' in r && n' in r[d']
        ensures exists k :: 0 <= k < i + 1 && Contributes(channels[k], d', n', r[d'][n'])
      {
        if d' == d && n' == n {
          assert Contributes(channels[i], d', n', r[d'][n']);
        } else {
          var k :| 0 <= k < i && Contributes(channels[k], d', n', acc[d'][n']);
        }
      }
    }

    lemma CompleteAfterAdd(acc: Affected, i: nat, d: nat, w: Window)
      requires i < |channels| && Complete(acc, i)
      requires Contributes(channels[i], d, channels[i].maskId, w)
      ensures Complete(AddEntryValue(acc, d, channels[i].maskId, w), i + 1)
    {
      var n := channels[i].maskId;
      var r := AddEntryValue(acc, d, n, w);
      forall k | 0 <= k < i + 1 && channels[k].ready && channels[k].window.Some? &&
                 channels[k].window.value.0 in masks &&
                 HasMask(masks[channels[k].window.value.0], channels[k].maskId)
        ensures exists d' :: d' in r && channels[k].maskId in r[d']
      {
        if k == i {
          assert d in r && n in r[d];
        } else {
          var d' :| d' in acc && channels[k].maskId in acc[d'];
          assert d' in r && channels[k].maskId in r[d'];
        }
      }
    }

    /** The channels that are ready are reset, and their names returned in
        order. */
    method ResetReady() returns (readyNames: seq<string>)
      requires Valid()
      modifies channels
      ensures readyNames == ReadyNames(channels, old(ReadyFlags(channels)))
      ensures forall i :: 0 <= i < |channels| && old(channels[i].ready) ==>
                channels[i].window.None? && !channels[i].configured && !channels[i].ready
      ensures forall i :: 0 <= i < |channels| && !old(channels[i].ready) ==>
                channels[i].window == old(channels[i].window) && channels[i].configured == old(channels[i].configured) &&
                !channels[i].ready
    {
      var cs := channels;
      ghost var flags := ReadyFlags(cs);
      readyNames := [];
      var i := 0;
      while i < |cs|
        invariant 0 <= i <= |cs|
        invariant readyNames == ReadyNames(cs[..i], flags[..i])
        invariant forall k :: 0 <= k < i && flags[k] ==>
                    cs[k].window.None? && !cs[k].configured && !cs[k].ready
        invariant forall k :: 0 <= k < |cs| && (i <= k || !flags[k]) ==> unchanged(cs[k])
        invariant forall a, b :: 0 <= a < b < |cs| ==> cs[a] != cs[b]
      {
        ReadyNamesStep(cs, flags, i);
        if cs[i].ready {
          readyNames := readyNames + [cs[i].name];
          cs[i].Reset();
        }
        i := i + 1;
      }
      assert cs[..i] == cs && flags[..i] == flags;
    }

    /** `_get_buffered(parameter)`: on the first read after the buffer ran
        empty, every ready parameter is reset and the armed DACs are asked
        for the measurements of those parameters (AttributeError when none
        was armed); then the parameter's next value is taken from the
        buffer. `measure` stands for what the DACs return. */
    method GetBuffered(p: DacChannel, measure: seq<string> -> Data) returns (r: Result<real, DacError>)
      requires Valid()
      modifies channels, this`data
      ensures !NeedsRefill(old(data)) ==> (r, data) == Popped(old(data).value, p.name)
      ensures NeedsRefill(old(data)) && old(affected).None? ==>
                r == Failure(AttributeError) && data == Some(map[])
      ensures NeedsRefill(old(data)) && old(affected).Some? ==>
                (r, data) == Popped(Measured(old(affected).value, measure,
                                             ReadyNames(channels, old(ReadyFlags(channels)))), p.name)
      ensures NeedsRefill(old(data)) ==>
                forall i :: 0 <= i < |channels| && old(channels[i].ready) ==>
                  channels[i].window.None? && !channels[i].configured && !channels[i].ready
      ensures NeedsRefill(old(data)) ==>
                forall i :: 0 <= i < |channels| && !old(channels[i].ready) ==>
                  channels[i].window == old(channels[i].window) &&
                  channels[i].configured == old(channels[i].configured) && !channels[i].ready
      ensures !NeedsRefill(old(data)) ==> forall i :: 0 <= i < |channels| ==> unchanged(channels[i])
      ensures Valid()
    {
      if data.None? || data.value == map[] {
        var readyNames := ResetReady();
        data := Some(map[]);
        if affected.None? {
          return Failure(AttributeError);
        }
        data := Some(Measured(affected.value, measure, readyNames));
      }
      var d := data.value;
      var next;
      r, next := Popped(d, p.name).0, Popped(d, p.name).1;
      data := next;
    }

    /** `reset_measurements`: every channel parameter is reset. */
    method ResetMeasurements()
      modifies channels
      ensures forall i :: 0 <= i < |channels| ==>
                channels[i].window.None? && !channels[i].configured && !channels[i].ready
    {
      var i := 0;
      while i < |channels|
        invariant 0 <= i <= |channels|
        invariant forall k :: 0 <= k < i ==>
                    channels[k].window.None? && !channels[k].configured && !channels[k].ready
      {
        channels[i].Reset();
        i := i + 1;
      }
    }
  }
}
