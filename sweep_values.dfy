/** Fixed sweeps of a parameter: the list of values a measurement loop sets
    one after another, built from slices, sequences and single values,
    changed in place by list operations, and kept together with a list of
    snapshot entries that summarise the values for the metadata. */
module SweepValues {
  import opened Util

  /** The parameter a sweep sets. `settable` says whether it has a truthy
      `set` and does not declare `has_set = False`; `accepts` is its
      `validate`, everything being accepted when it has none. */
  class Parameter {
    const name: string
    const settable: bool
    const accepts: real -> bool

    constructor (name: string, settable: bool, accepts: real -> bool)
      ensures this.name == name && this.settable == settable && this.accepts == accepts
    {
      this.name := name;
      this.settable := settable;
      this.accepts := accepts;
    }
  }

  datatype SweepError =
    | NotSettable       // TypeError: the parameter has no set
    | IncompleteSlice   // TypeError: a slice without start, stop or step
    | InvalidValue      // the parameter's validator refused a value
    | EmptySweep        // IndexError: a linear snapshot of no values
    | EmptySequence     // ValueError: `min` of no values
    | ForeignParameter  // TypeError: extending by a sweep of another parameter
    | NotASequence      // TypeError: extending by something else

  // ---------------------------------------------------------------------
  // Snapshot entries and the values they describe
  // ---------------------------------------------------------------------

  /** One entry of `_value_snapshot`: a single value, a linear sweep, or a
      sequence summarised by its extremes and ends. */
  datatype Snapshot =
    | Item(value: real)
    | Linear(first: real, last: real, num: nat)
    | SequenceSnap(min: real, max: real, first: real, last: real, num: nat)

  /** How many values the entry stands for. */
  function Count(s: Snapshot): nat {
    match s
    case Item(_) => 1
    case Linear(_, _, n) => n
    case SequenceSnap(_, _, _, _, n) => n
  }

  /** Python's `min` of a non-empty list. */
  function Min(s: seq<real>): real
    requires |s| > 0
    decreases |s|
  {
    if |s| == 1 then s[0]
    else var m := Min(s[1..]); if s[0] <= m then s[0] else m
  }

  /** Python's `max` of a non-empty list. */
  function Max(s: seq<real>): real
    requires |s| > 0
    decreases |s|
  {
    if |s| == 1 then s[0]
    else var m := Max(s[1..]); if s[0] >= m then s[0] else m
  }

  /** `min` is an element no other element is below, `max` one no other
      element is above. */
  lemma {:induction false} Extremes(s: seq<real>)
    requires |s| > 0
    ensures Min(s) in s && forall i :: 0 <= i < |s| ==> Min(s) <= s[i]
    ensures Max(s) in s && forall i :: 0 <= i < |s| ==> s[i] <= Max(s)
    decreases |s|
  {
    if |s| > 1 {
      Extremes(s[1..]);
      forall i | 1 <= i < |s| ensures s[i] == s[1..][i - 1] {
      }
    }
  }

  /** `_add_linear_snapshot(vals)`: IndexError for no values. */
  function LinearSnapshot(vals: seq<real>): (r: Result<Snapshot, SweepError>)
    ensures r.Success? <==> vals != []
    ensures r.Failure? ==> r.error == EmptySweep
    ensures r.Success? ==> Fits(r.value, vals)
  {
    if vals == [] then Failure(EmptySweep) else Success(Linear(vals[0], vals[|vals| - 1], |vals|))
  }

  /** `_add_sequence_snapshot(vals)`: ValueError for no values. */
  function SequenceSnapshot(vals: seq<real>): (r: Result<Snapshot, SweepError>)
    ensures r.Success? <==> vals != []
    ensures r.Failure? ==> r.error == EmptySequence
    ensures r.Success? ==> Fits(r.value, vals) && r.value.SequenceSnap?
  {
    if vals == [] then Failure(EmptySequence)
    else Success(SequenceSnap(Min(vals), Max(vals), vals[0], vals[|vals| - 1], |vals|))
  }

  /** The entry is a true summary of the run of values seg. */
  predicate Fits(s: Snapshot, seg: seq<real>) {
    match s
    case Item(v) => seg == [v]
    case Linear(f, l, n) => |seg| == n > 0 && seg[0] == f && seg[n - 1] == l
    case SequenceSnap(mn, mx, f, l, n) =>
      |seg| == n > 0 && seg[0] == f && seg[n - 1] == l && mn == Min(seg) && mx == Max(seg)
  }

  /** The entries, in order, summarise consecutive runs of the values that
      together make up all of them. */
  predicate Describes(snaps: seq<Snapshot>, vals: seq<real>)
    decreases |snaps|
  {
    if snaps == [] then vals == []
    else
      var n := Count(snaps[0]);
      n <= |vals| && Fits(snaps[0], vals[..n]) && Describes(snaps[1..], vals[n..])
  }

  /** A single entry describes the run it fits. */
  lemma DescribesOne(s: Snapshot, vals: seq<real>)
    requires Fits(s, vals)
    ensures Describes([s], vals)
  {
    assert [s][1..] == [];
    assert vals[Count(s)..] == [];
    assert vals[..Count(s)] == vals;
  }

  /** Descriptions of two lists together describe the two lists joined. */
  lemma {:induction false} DescribesConcat(a: seq<Snapshot>, x: seq<real>, b: seq<Snapshot>, y: seq<real>)
    requires Describes(a, x) && Describes(b, y)
    ensures Describes(a + b, x + y)
    decreases |a|
  {
    if a == [] {
      assert a + b == b && x + y == y;
    } else {
      var n := Count(a[0]);
      assert n <= |x| && Fits(a[0], x[..n]) && Describes(a[1..], x[n..]);
      var ab, xy := a + b, x + y;
      DescribesConcat(a[1..], x[n..], b, y);
      assert ab[0] == a[0] && ab[1..] == a[1..] + b;
      assert xy[..n] == x[..n] && xy[n..] == x[n..] + y;
      assert Fits(ab[0], xy[..n]);
      assert Describes(ab[1..], xy[n..]);
      DescribesCons(ab, xy);
    }
  }

  /** Describes unfolded once, for a non-empty list of entries. */
  lemma DescribesCons(s: seq<Snapshot>, v: seq<real>)
    requires s != [] && Count(s[0]) <= |v|
    requires Fits(s[0], v[..Count(s[0])]) && Describes(s[1..], v[Count(s[0])..])
    ensures Describes(s, v)
  {
  }

  /** n copies of a description describe n copies of the values. */
  lemma {:induction false} DescribesRepeat(s: seq<Snapshot>, v: seq<real>, n: nat)
    requires Describes(s, v)
    ensures Describes(RepeatSeq(s, n), RepeatSeq(v, n))
    decreases n
  {
    if n > 0 {
      DescribesRepeat(s, v, n - 1);
      DescribesConcat(RepeatSeq(s, n - 1), RepeatSeq(v, n - 1), s, v);
    }
  }

  /** The entry for the same run read backwards: first and last change
      places. */
  function Swapped(s: Snapshot): (r: Snapshot)
    ensures Count(r) == Count(s)
  {
    match s
    case Item(_) => s
    case Linear(f, l, n) => Linear(l, f, n)
    case SequenceSnap(mn, mx, f, l, n) => SequenceSnap(mn, mx, l, f, n)
  }

  /** Every entry swapped. */
  function SwapAll(ss: seq<Snapshot>): (r: seq<Snapshot>)
    ensures |r| == |ss| && forall i :: 0 <= i < |ss| ==> r[i] == Swapped(ss[i])
  {
    seq(|ss|, i requires 0 <= i < |ss| => Swapped(ss[i]))
  }

  lemma SwapAllConcat(a: seq<Snapshot>, b: seq<Snapshot>)
    ensures SwapAll(a + b) == SwapAll(a) + SwapAll(b)
  {
    assert forall i :: 0 <= i < |a| + |b| ==> SwapAll(a + b)[i] == (SwapAll(a) + SwapAll(b))[i];
  }

  lemma ReversedConcat<T>(a: seq<T>, b: seq<T>)
    ensures Reversed(a + b) == Reversed(b) + Reversed(a)
  {
    assert |Reversed(a + b)| == |Reversed(b) + Reversed(a)|;
    forall i | 0 <= i < |a| + |b|
      ensures Reversed(a + b)[i] == (Reversed(b) + Reversed(a))[i]
    {
      if i < |b| {
        assert Reversed(a + b)[i] == (a + b)[|a| + |b| - 1 - i] == b[|b| - 1 - i];
      } else {
        assert Reversed(a + b)[i] == (a + b)[|a| + |b| - 1 - i] == a[|a| - 1 - (i - |b|)];
      }
    }
  }

  lemma InReversed(s: seq<real>, x: real)
    ensures x in Reversed(s) <==> x in s
  {
    if x in s {
      var i :| 0 <= i < |s| && s[i] == x;
      assert Reversed(s)[|s| - 1 - i] == x;
    }
  }

  /** The extremes of a list do not depend on its order. */
  lemma ExtremesOfReversed(s: seq<real>)
    requires |s| > 0
    ensures Min(Reversed(s)) == Min(s) && Max(Reversed(s)) == Max(s)
  {
    var r := Reversed(s);
    Extremes(s);
    Extremes(r);
    InReversed(s, Min(r));
    InReversed(s, Max(r));
    InReversed(s, Min(s));
    InReversed(s, Max(s));
    var i :| 0 <= i < |s| && s[i] == Min(s);
    var j :| 0 <= j < |s| && s[j] == Max(s);
    var k :| 0 <= k < |r| && r[k] == Min(r);
    var l :| 0 <= l < |r| && r[l] == Max(r);
    assert r[|s| - 1 - i] == s[i] && r[|s| - 1 - j] == s[j];
    assert s[|s| - 1 - k] == r[k] && s[|s| - 1 - l] == r[l];
  }

  /** A swapped entry fits the run read backwards. */
  lemma SwappedFits(s: Snapshot, seg: seq<real>)
    requires Fits(s, seg)
    ensures Fits(Swapped(s), Reversed(seg))
  {
    if s.SequenceSnap? {
      ExtremesOfReversed(seg);
    }
  }

  /** What `reverse` does to the snapshot entries keeps them describing
      the values, which it reverses. */
  lemma {:induction false} ReverseKeepsDescription(s: seq<Snapshot>, v: seq<real>)
    requires Describes(s, v)
    ensures Describes(SwapAll(Reversed(s)), Reversed(v))
    decreases |s|
  {
    if s == [] {
      assert Reversed(v) == [];
      assert SwapAll(Reversed(s)) == [];
    } else {
      var n := Count(s[0]);
      var seg, rest := v[..n], v[n..];
      ReverseKeepsDescription(s[1..], rest);
      SwappedFits(s[0], seg);
      DescribesOne(Swapped(s[0]), Reversed(seg));
      var tail := SwapAll(Reversed(s[1..]));
      DescribesConcat(tail, Reversed(rest), [Swapped(s[0])], Reversed(seg));
      assert s == [s[0]] + s[1..];
      ReversedConcat([s[0]], s[1..]);
      assert Reversed([s[0]]) == [s[0]];
      SwapAllConcat(Reversed(s[1..]), [s[0]]);
      assert SwapAll(Reversed(s)) == tail + [Swapped(s[0])];
      assert v == seg + rest;
      ReversedConcat(seg, rest);
    }
  }

  /** Reversing twice restores both the values and the snapshot entries. */
  lemma ReverseTwice(s: seq<Snapshot>, v: seq<real>)
    ensures Reversed(Reversed(v)) == v
    ensures SwapAll(Reversed(SwapAll(Reversed(s)))) == s
  {
    assert Reversed(Reversed(v)) == v;
    var once := SwapAll(Reversed(s));
    assert |SwapAll(Reversed(once))| == |s|;
    forall i | 0 <= i < |s| ensures SwapAll(Reversed(once))[i] == s[i] {
      assert Reversed(once)[i] == once[|s| - 1 - i] == Swapped(s[i]);
      assert Swapped(Swapped(s[i])) == s[i];
    }
  }

  // ---------------------------------------------------------------------
  // Keys of the constructor
  // ---------------------------------------------------------------------

  datatype Slice = Slice(start: Option<real>, stop: Option<real>, step: Option<real>)

  /** One item of a key sequence. */
  datatype Key = Scalar(v: real) | SliceKey(s: Slice) | Values(vs: seq<real>)

  /** The `keys` argument: absent (the values come from `make_sweep`, given
      here as they come out of it), one slice, a sequence of items, or a
      single value. */
  datatype Keys = Generated(sweep: seq<real>) | OneSlice(s: Slice) | KeyList(items: seq<Key>) | OneValue(v: real)

  /** `permissive_range(start, stop, step)`, a helper outside this model,
      given as a function. */
  type Range = (real, real, real) -> seq<real>

  /** `_add_slice`: the values of a slice, which must give all three
      parts. */
  function SliceValues(s: Slice, range: Range): (r: Result<seq<real>, SweepError>)
    ensures r.Failure? <==> s.start.None? || s.stop.None? || s.step.None?
    ensures r.Failure? ==> r.error == IncompleteSlice
    ensures r.Success? ==> r.value == range(s.start.value, s.stop.value, s.step.value)
  {
    if s.start.None? || s.stop.None? || s.step.None? then Failure(IncompleteSlice)
    else Success(range(s.start.value, s.stop.value, s.step.value))
  }

  /** The values one item contributes: a slice expanded, a sequence
      taken as it is, a scalar on its own. */
  function ItemValues(k: Key, range: Range): (r: Result<seq<real>, SweepError>)
    ensures r.Failure? <==> k.SliceKey? && SliceValues(k.s, range).Failure?
    ensures k.Scalar? ==> r == Success([k.v])
    ensures k.Values? ==> r == Success(k.vs)
  {
    match k
    case Scalar(v) => Success([v])
    case SliceKey(s) => SliceValues(s, range)
    case Values(vs) => Success(vs)
  }

  /** The key sequence flattened one level, item by item. */
  function Flatten(items: seq<Key>, range: Range): Result<seq<real>, SweepError>
    decreases |items|
  {
    if items == [] then Success([])
    else match Flatten(items[..|items| - 1], range)
      case Failure(e) => Failure(e)
      case Success(front) =>
        match ItemValues(items[|items| - 1], range)
        case Failure(e) => Failure(e)
        case Success(last) => Success(front + last)
  }

  /** Flattening fails exactly when some slice is incomplete. */
  lemma {:induction false} FlattenFails(items: seq<Key>, range: Range)
    ensures Flatten(items, range).Failure? <==>
              exists i :: 0 <= i < |items| && ItemValues(items[i], range).Failure?
    ensures Flatten(items, range).Failure? ==> Flatten(items, range).error == IncompleteSlice
    decreases |items|
  {
    if items != [] {
      var front := items[..|items| - 1];
      FlattenFails(front, range);
      if exists i :: 0 <= i < |front| && ItemValues(front[i], range).Failure? {
        var i :| 0 <= i < |front| && ItemValues(front[i], range).Failure?;
        assert items[i] == front[i];
      }
      if exists i :: 0 <= i < |items| && ItemValues(items[i], range).Failure? {
        var i :| 0 <= i < |items| && ItemValues(items[i], range).Failure?;
        if i < |front| {
          assert items[i] == front[i];
        }
      }
    }
  }

  /** Flattening a sequence of items in two parts and joining the results
      is flattening the whole. */
  lemma {:induction false} FlattenConcat(a: seq<Key>, b: seq<Key>, range: Range)
    requires Flatten(a, range).Success? && Flatten(b, range).Success?
    ensures Flatten(a + b, range) == Success(Flatten(a, range).value + Flatten(b, range).value)
    decreases |b|
  {
    if b == [] {
      assert a + b == a;
      assert Flatten(a, range).value + [] == Flatten(a, range).value;
    } else {
      var front, last := b[..|b| - 1], b[|b| - 1];
      var ab := a + b;
      assert ab[..|ab| - 1] == a + front && ab[|ab| - 1] == last;
      FlattenConcat(a, front, range);
      var fa, ff, fl := Flatten(a, range).value, Flatten(front, range).value, ItemValues(last, range).value;
      assert Flatten(b, range).value == ff + fl;
      assert Flatten(ab, range) == Success((fa + ff) + fl);
      assert (fa + ff) + fl == fa + (ff + fl);
    }
  }

  /** Single values contribute themselves, in order. */
  lemma {:induction false} FlattenScalars(vs: seq<real>, range: Range)
    ensures Flatten(seq(|vs|, i requires 0 <= i < |vs| => Scalar(vs[i])), range) == Success(vs)
    decreases |vs|
  {
    var items := seq(|vs|, i requires 0 <= i < |vs| => Scalar(vs[i]));
    if vs != [] {
      var front := vs[..|vs| - 1];
      assert items[..|items| - 1] == seq(|front|, i requires 0 <= i < |front| => Scalar(front[i]));
      FlattenScalars(front, range);
      assert vs == front + [vs[|vs| - 1]];
    }
  }

  /** The loop over a key sequence in the constructor. */
  method FlattenKeys(items: seq<Key>, range: Range) returns (r: Result<seq<real>, SweepError>)
    ensures r == Flatten(items, range)
  {
    var values: seq<real> := [];
    var i := 0;
    while i < |items|
      invariant 0 <= i <= |items|
      invariant Flatten(items[..i], range) == Success(values)
    {
      assert items[..i + 1][..i] == items[..i];
      var item := items[i];
      assert items[..i + 1][i] == item;
      match item {
        case SliceKey(s) =>
          var part := SliceValues(s, range);
          if part.Failure? {
            FailureStays(items, i + 1, range);
            return Failure(part.error);
          }
          values := values + part.value;
        case Values(vs) =>
          values := values + vs;
        case Scalar(v) =>
          values := values + [v];
      }
      i := i + 1;
    }
    assert items[..i] == items;
    return Success(values);
  }

  /** Once a prefix fails, the whole fails with the same error. */
  lemma {:induction false} FailureStays(items: seq<Key>, k: nat, range: Range)
    requires k <= |items| && Flatten(items[..k], range).Failure?
    ensures Flatten(items, range) == Flatten(items[..k], range)
    decreases |items| - k
  {
    if k < |items| {
      assert items[..k + 1][..k] == items[..k];
      FailureStays(items, k + 1, range);
    } else {
      assert items[..k] == items;
    }
  }

  /** Every value accepted by the parameter. */
  predicate AllAccepted(p: Parameter, vals: seq<real>) {
    forall i :: 0 <= i < |vals| ==> p.accepts(vals[i])
  }

  /** The values each kind of key gives, or the error raised while they
      and their snapshot entry are built: no generated values or an empty
      slice leave nothing for the linear entry (IndexError). */
  function KeyValues(keys: Keys, range: Range): Result<seq<real>, SweepError>
  {
    match keys
    case Generated(sweep) => if sweep == [] then Failure(EmptySweep) else Success(sweep)
    case OneSlice(s) =>
      (match SliceValues(s, range)
       case Failure(e) => Failure(e)
       case Success(vs) => if vs == [] then Failure(EmptySweep) else Success(vs))
    case KeyList(items) => Flatten(items, range)
    case OneValue(v) => Success([v])
  }

  /** Values and snapshot entries the constructor starts from, before the
      values are validated. */
  method InitialContents(keys: Keys, range: Range)
    returns (r: Result<(seq<real>, seq<Snapshot>), SweepError>)
    ensures r.Success? ==> Describes(r.value.1, r.value.0)
    ensures r.Success? <==> KeyValues(keys, range).Success?
    ensures r.Success? ==> r.value.0 == KeyValues(keys, range).value
    ensures r.Failure? ==> r.error == KeyValues(keys, range).error
    ensures r.Success? && (keys.Generated? || keys.OneSlice?) ==>
              LinearSnapshot(r.value.0).Success? && r.value.1 == [LinearSnapshot(r.value.0).value]
    ensures r.Success? && keys.KeyList? && r.value.0 == [] ==> r.value.1 == []
    ensures r.Success? && keys.KeyList? && r.value.0 != [] ==>
              r.value.1 == [SequenceSnapshot(r.value.0).value]
    ensures keys.Generated? ==>
              (r.Success? <==> keys.sweep != []) && (r.Success? ==> r.value.0 == keys.sweep)
    ensures keys.OneSlice? ==>
              (r.Success? <==> SliceValues(keys.s, range).Success? && SliceValues(keys.s, range).value != [])
    ensures keys.OneSlice? && r.Success? ==> r.value.0 == SliceValues(keys.s, range).value
    ensures keys.KeyList? ==>
              (r.Success? <==> Flatten(keys.items, range).Success?) &&
              (r.Success? ==> r.value.0 == Flatten(keys.items, range).value)
    ensures keys.OneValue? ==> r == Success(([keys.v], [Item(keys.v)]))
    ensures r.Failure? ==> r.error in {IncompleteSlice, EmptySweep}
  {
    match keys {
      case Generated(sweep) =>
        var snap := LinearSnapshot(sweep);
        if snap.Failure? {
          return Failure(snap.error);
        }
        DescribesOne(snap.value, sweep);
        return Success((sweep, [snap.value]));
      case OneSlice(s) =>
        var vals := SliceValues(s, range);
        if vals.Failure? {
          return Failure(vals.error);
        }
        var snap := LinearSnapshot(vals.value);
        if snap.Failure? {
          return Failure(snap.error);
        }
        DescribesOne(snap.value, vals.value);
        return Success((vals.value, [snap.value]));
      case KeyList(items) =>
        var vals := FlattenKeys(items, range);
        if vals.Failure? {
          FlattenFails(items, range);
          return Failure(vals.error);
        }
        if vals.value == [] {
          return Success(([], []));
        }
        var snap := SequenceSnapshot(vals.value);
        DescribesOne(snap.value, vals.value);
        return Success((vals.value, [snap.value]));
      case OneValue(v) =>
        DescribesOne(Item(v), [v]);
        return Success(([v], [Item(v)]));
    }
  }

  /** `list(s) * n` for any integer n: no copies when n is not positive. */
  function Times<T>(s: seq<T>, n: int): (r: seq<T>)
    ensures |r| == (if n <= 0 then 0 else n * |s|)
  {
    if n <= 0 then [] else RepeatSeq(s, n)
  }

  /** What `extend` and `+` accept: another sweep, a plain sequence, or
      something else. */
  datatype ExtendArg = FromSweep(sv: SweepFixedValues) | FromSeq(vs: seq<real>) | NotSequence

  /** `SweepFixedValues`: the parameter, its values and their snapshot
      entries. */
  class SweepFixedValues {
    const parameter: Parameter
    var values: seq<real>
    var snapshots: seq<Snapshot>

    /** The parameter can be set, it accepts every value, and the snapshot
        entries describe the values. */
    ghost predicate Valid()
      reads this
    {
      parameter.settable && AllAccepted(parameter, values) && Describes(snapshots, values)
    }

    constructor Init(parameter: Parameter, values: seq<real>, snapshots: seq<Snapshot>)
      ensures this.parameter == parameter && this.values == values && this.snapshots == snapshots
    {
      this.parameter := parameter;
      this.values := values;
      this.snapshots := snapshots;
    }

    /** `SweepFixedValues(parameter, keys, ...)`: TypeError for a parameter
        that cannot be set, then the values of the keys with their snapshot
        entry, then every value validated. */
    static method Create(parameter: Parameter, keys: Keys, range: Range)
      returns (r: Result<SweepFixedValues, SweepError>)
      ensures !parameter.settable ==> r == Failure(NotSettable)
      ensures parameter.settable && KeyValues(keys, range).Failure? ==>
                r == Failure(KeyValues(keys, range).error)
      ensures parameter.settable && KeyValues(keys, range).Success? ==>
                (r.Success? <==> AllAccepted(parameter, KeyValues(keys, range).value)) &&
                (r.Failure? ==> r.error == InvalidValue)
      ensures r.Success? ==> fresh(r.value) && r.value.Valid() && r.value.parameter == parameter
      ensures r.Success? ==> r.value.values == KeyValues(keys, range).value
      ensures r.Success? && (keys.Generated? || keys.OneSlice?) ==>
                r.value.snapshots == [LinearSnapshot(r.value.values).value]
      ensures r.Success? && keys.KeyList? ==>
                r.value.snapshots == if r.value.values == [] then [] else [SequenceSnapshot(r.value.values).value]
      ensures r.Success? && keys.OneValue? ==> r.value.snapshots == [Item(keys.v)]
    {
      if !parameter.settable {
        return Failure(NotSettable);
      }
      var contents := InitialContents(keys, range);
      if contents.Failure? {
        return Failure(contents.error);
      }
      var vals := contents.value.0;
      if exists i :: 0 <= i < |vals| && !parameter.accepts(vals[i]) {
        return Failure(InvalidValue);
      }
      var sv := new SweepFixedValues.Init(parameter, vals, contents.value.1);
      return Success(sv);
    }

    /** `len(sv)` */
    method Length() returns (n: nat)
      ensures n == |values|
    {
      n := |values|;
    }

    /** `value in sv` */
    method Contains(v: real) returns (b: bool)
      ensures b <==> exists i :: 0 <= i < |values| && values[i] == v
    {
      b := v in values;
    }

    /** `append(value)`: the value is validated, then added at the end with
        an entry of its own. */
    method Append(v: real) returns (r: Result<(), SweepError>)
      requires Valid()
      modifies this
      ensures Valid()
      ensures r.Failure? <==> !parameter.accepts(v)
      ensures r.Failure? ==> r.error == InvalidValue && values == old(values) && snapshots == old(snapshots)
      ensures r.Success? ==> values == old(values) + [v] && snapshots == old(snapshots) + [Item(v)]
    {
      if !parameter.accepts(v) {
        return Failure(InvalidValue);
      }
      DescribesOne(Item(v), [v]);
      DescribesConcat(snapshots, values, [Item(v)], [v]);
      values := values + [v];
      snapshots := snapshots + [Item(v)];
      return Success(());
    }

    /** `extend(new_values)`: another sweep of the same parameter adds its
        values and entries; a sequence is validated and added with a
        sequence entry (an empty one raises ValueError from `min`);
        anything else raises TypeError. Nothing changes on an error. */
    method Extend(arg: ExtendArg) returns (r: Result<(), SweepError>)
      requires Valid()
      requires arg.FromSweep? ==> arg.sv.Valid()
      modifies this
      ensures Valid()
      ensures r.Failure? ==> values == old(values) && snapshots == old(snapshots)
      ensures arg.NotSequence? ==> r == Failure(NotASequence)
      ensures arg.FromSweep? ==>
                (r.Success? <==> arg.sv.parameter == parameter) &&
                (r.Failure? ==> r.error == ForeignParameter) &&
                (r.Success? ==> values == old(values) + old(arg.sv.values) &&
                                snapshots == old(snapshots) + old(arg.sv.snapshots))
      ensures arg.FromSeq? ==>
                (r.Success? <==> AllAccepted(parameter, arg.vs) && arg.vs != []) &&
                (!AllAccepted(parameter, arg.vs) ==> r == Failure(InvalidValue)) &&
                (AllAccepted(parameter, arg.vs) && arg.vs == [] ==> r == Failure(EmptySequence)) &&
                (r.Success? ==> values == old(values) + arg.vs &&
                                snapshots == old(snapshots) + [SequenceSnapshot(arg.vs).value])
    {
      match arg {
        case FromSweep(sv) =>
          if sv.parameter != parameter {
            return Failure(ForeignParameter);
          }
          DescribesConcat(snapshots, values, sv.snapshots, sv.values);
          values, snapshots := values + sv.values, snapshots + sv.snapshots;
          return Success(());
        case FromSeq(vs) =>
          if exists i :: 0 <= i < |vs| && !parameter.accepts(vs[i]) {
            return Failure(InvalidValue);
          }
          var snap := SequenceSnapshot(vs);
          if snap.Failure? {
            return Failure(snap.error);
          }
          DescribesOne(snap.value, vs);
          DescribesConcat(snapshots, values, [snap.value], vs);
          values, snapshots := values + vs, snapshots + [snap.value];
          return Success(());
        case NotSequence =>
          return Failure(NotASequence);
      }
    }

    /** `copy()`: a new sweep of the same parameter with the same values
        and entries; this one is unchanged. */
    method Copy() returns (c: SweepFixedValues)
      requires Valid()
      ensures fresh(c) && c.Valid()
      ensures c.parameter == parameter && c.values == values && c.snapshots == snapshots
    {
      c := new SweepFixedValues.Init(parameter, values, snapshots);
    }

    /** `reverse()`: values and entries in the opposite order, each entry's
        first and last exchanged. */
    method Reverse()
      requires Valid()
      modifies this
      ensures Valid()
      ensures values == Reversed(old(values))
      ensures snapshots == SwapAll(Reversed(old(snapshots)))
    {
      ghost var target := SwapAll(Reversed(snapshots));
      ReverseKeepsDescription(snapshots, values);
      var snaps := Reversed(snapshots);
      var i := 0;
      while i < |snaps|
        invariant 0 <= i <= |snaps| == |target|
        invariant forall k :: 0 <= k < i ==> snaps[k] == target[k]
        invariant forall k :: i <= k < |snaps| ==> Swapped(snaps[k]) == target[k]
      {
        snaps := snaps[i := Swapped(snaps[i])];
        i := i + 1;
      }
      assert snaps == target;
      values := Reversed(values);
      snapshots := snaps;
      InReversedAccepted(old(values), parameter);
    }

    /** `repeat(n)`: the values and the entries n times over (none for
        n <= 0). */
    method Repeat(n: int)
      requires Valid()
      modifies this
      ensures Valid()
      ensures values == Times(old(values), n) && snapshots == Times(old(snapshots), n)
      ensures |values| == (if n <= 0 then 0 else n * |old(values)|)
    {
      if n > 0 {
        DescribesRepeat(snapshots, values, n);
        RepeatAccepted(values, n, parameter);
      }
      values, snapshots := Times(values, n), Times(snapshots, n);
    }

    /** `sv + other`: a copy extended by other; this one is unchanged. */
    method Plus(other: ExtendArg) returns (r: Result<SweepFixedValues, SweepError>)
      requires Valid()
      requires other.FromSweep? ==> other.sv.Valid()
      ensures r.Success? ==> fresh(r.value) && r.value.Valid() && r.value.parameter == parameter
      ensures other.FromSweep? ==>
                (r.Success? <==> other.sv.parameter == parameter) &&
                (r.Failure? ==> r.error == ForeignParameter) &&
                (r.Success? ==> r.value.values == values + other.sv.values &&
                                r.value.snapshots == snapshots + other.sv.snapshots)
      ensures other.FromSeq? ==>
                (r.Success? <==> AllAccepted(parameter, other.vs) && other.vs != []) &&
                (!AllAccepted(parameter, other.vs) ==> r == Failure(InvalidValue)) &&
                (AllAccepted(parameter, other.vs) && other.vs == [] ==> r == Failure(EmptySequence)) &&
                (r.Success? ==> r.value.values == values + other.vs &&
                                r.value.snapshots == snapshots + [SequenceSnapshot(other.vs).value])
      ensures other.NotSequence? ==> r == Failure(NotASequence)
    {
      var c := Copy();
      var done := c.Extend(other);
      if done.Failure? {
        return Failure(done.error);
      }
      return Success(c);
    }

    /** `reversed(sv)`: a reversed copy; this one is unchanged. */
    method ReversedCopy() returns (c: SweepFixedValues)
      requires Valid()
      ensures fresh(c) && c.Valid()
      ensures c.values == Reversed(values) && c.snapshots == SwapAll(Reversed(snapshots))
    {
      c := Copy();
      c.Reverse();
    }
  }

  lemma InReversedAccepted(vals: seq<real>, p: Parameter)
    requires AllAccepted(p, vals)
    ensures AllAccepted(p, Reversed(vals))
  {
  }

  lemma RepeatAccepted(vals: seq<real>, n: nat, p: Parameter)
    requires AllAccepted(p, vals)
    ensures AllAccepted(p, RepeatSeq(vals, n))
  {
    forall i | 0 <= i < |RepeatSeq(vals, n)| ensures p.accepts(RepeatSeq(vals, n)[i]) {
      RepeatSeqElements(vals, n, i);
    }
  }

  /** Every element of n copies of s is an element of s. */
  lemma {:induction false} RepeatSeqElements<T>(s: seq<T>, n: nat, i: nat)
    requires i < |RepeatSeq(s, n)|
    ensures exists j :: 0 <= j < |s| && RepeatSeq(s, n)[i] == s[j]
    decreases n
  {
    var prev := RepeatSeq(s, n - 1);
    if i < |prev| {
      RepeatSeqElements(s, n - 1, i);
    } else {
      assert RepeatSeq(s, n)[i] == s[i - |prev|];
    }
  }

  // ---------------------------------------------------------------------
  // Snapshot entries shared by `repeat`
  // ---------------------------------------------------------------------

  /** The entries as the source holds them after `repeat`: the list holds
      references to dictionaries, here keys into a store, and `list * n`
      repeats the references, not the dictionaries. */
  datatype SharedSnapshots = SharedSnapshots(refs: seq<nat>, store: map<nat, Snapshot>)
  {
    ghost predicate Valid() {
      forall i :: 0 <= i < |refs| ==> refs[i] in store
    }

    /** The entries the references currently stand for. */
    function View(): (r: seq<Snapshot>)
      requires Valid()
      ensures |r| == |refs|
    {
      seq(|refs|, i requires 0 <= i < |refs| => store[refs[i]])
    }
  }

  /** The loop of `reverse` as written, on shared entries: each reference in
      turn has its dictionary's first and last exchanged, so a dictionary
      held twice is exchanged twice. */
  function SwapEachShared(refs: seq<nat>, store: map<nat, Snapshot>): (r: map<nat, Snapshot>)
    requires forall i :: 0 <= i < |refs| ==> refs[i] in store
    ensures r.Keys == store.Keys
    decreases |refs|
  {
    if refs == [] then store
    else SwapEachShared(refs[1..], store[refs[0] := Swapped(store[refs[0]])])
  }

  /** `repeat(n)` then `reverse()` as written on shared entries. */
  function RepeatThenReverseShared(s: SharedSnapshots, n: nat): (r: SharedSnapshots)
    requires s.Valid()
    ensures r.Valid()
  {
    var refs := Reversed(RepeatSeq(s.refs, n));
    forall i | 0 <= i < |refs| ensures refs[i] in s.store {
      RepeatSeqElements(s.refs, n, |refs| - 1 - i);
    }
    SharedSnapshots(refs, SwapEachShared(refs, s.store))
  }

  /** After `repeat(2)` and `reverse()` as written, a linear sweep's entries
      still name its old first and last value, so they no longer describe
      the reversed values; the model's entries (one dictionary per entry)
      do. */
  lemma SharedEntriesMisdescribe()
    ensures var s := SharedSnapshots([0], map[0 := Linear(1.0, 2.0, 2)]);
            var vals := Reversed(RepeatSeq([1.0, 2.0], 2));
            Describes(s.View(), [1.0, 2.0]) &&
            !Describes(RepeatThenReverseShared(s, 2).View(), vals) &&
            Describes(SwapAll(Reversed(RepeatSeq(s.View(), 2))), vals)
  {
    var s := SharedSnapshots([0], map[0 := Linear(1.0, 2.0, 2)]);
    assert s.View() == [Linear(1.0, 2.0, 2)];
    DescribesOne(Linear(1.0, 2.0, 2), [1.0, 2.0]);
    SharedExampleReversed();
    DescribesRepeat(s.View(), [1.0, 2.0], 2);
    ReverseKeepsDescription(RepeatSeq(s.View(), 2), RepeatSeq([1.0, 2.0], 2));
  }

  /** The shared example after `repeat(2)` and `reverse()` as written: both
      entries are the one dictionary, swapped twice back to 1.0 … 2.0,
      while the values now start 2.0, 1.0. */
  lemma SharedExampleReversed()
    ensures var s := SharedSnapshots([0], map[0 := Linear(1.0, 2.0, 2)]);
            !Describes(RepeatThenReverseShared(s, 2).View(), Reversed(RepeatSeq([1.0, 2.0], 2)))
  {
    var s := SharedSnapshots([0], map[0 := Linear(1.0, 2.0, 2)]);
    assert RepeatSeq([1.0, 2.0], 2) == [1.0, 2.0, 1.0, 2.0];
    var vals := Reversed(RepeatSeq([1.0, 2.0], 2));
    assert vals == [2.0, 1.0, 2.0, 1.0];
    assert RepeatSeq(s.refs, 2) == [0, 0];
    assert Reversed([0, 0]) == [0, 0];
    var store := SwapEachShared([0, 0], s.store);
    assert store == SwapEachShared([0], map[0 := Linear(2.0, 1.0, 2)]);
    assert store == map[0 := Linear(1.0, 2.0, 2)];
    var view := RepeatThenReverseShared(s, 2).View();
    assert view[0] == Linear(1.0, 2.0, 2);
    assert vals[..2][0] == 2.0;
  }
}
