/** Argument handling of the attocube ANC350 positioner driver: the axis
    argument accepted as a number or as a letter, the checks a positioner
    parameter makes when it is created, and the move mode of `set_raw`. */
module Anc350 {
  import opened Util

  /** A Python argument as far as these checks look at it. `bool` values
      are Python ints and arrive as `IntArg`. */
  datatype Arg = IntArg(i: int) | StrArg(s: string) | NoneArg | OtherArg

  datatype ArgError = TypeError | ValueError

  /** `string.ascii_lowercase`. */
  function Lowercase(): (s: string)
    ensures |s| == 26 && forall i :: 0 <= i < 26 ==> s[i] == (97 + i) as char
  {
    seq(26, i requires 0 <= i < 26 => (97 + i) as char)
  }

  /** The alphabet position of a lowercase letter ('a' is 0). */
  lemma LowercaseIndex(c: char)
    ensures IndexOf(Lowercase(), c).Some? <==> 'a' <= c <= 'z'
    ensures 'a' <= c <= 'z' ==> IndexOf(Lowercase(), c).value == c as int - 'a' as int
  {
    if 'a' <= c <= 'z' {
      assert Lowercase()[c as int - 97] == c;
    }
  }

  /** `_parse_direction_arg`: the axis number of a direction argument. An
      int is taken as it is; a one-character string is its alphabet index
      minus 23, so that 'x', 'y' and 'z' are axes 0, 1 and 2. */
  function ParseDirection(d: Arg): (r: Result<int, ArgError>)
    ensures d.IntArg? ==> r == Success(d.i)
    ensures d.NoneArg? ==> r == Failure(ValueError)
    ensures d.OtherArg? || (d.StrArg? && |d.s| != 1) ==> r == Failure(TypeError)
    ensures d.StrArg? && |d.s| == 1 ==>
              (r.Success? <==> d.s[0] in Lowercase()) &&
              (r.Failure? ==> r.error == ValueError) &&
              (r.Success? ==> -23 <= r.value < 3 && Lowercase()[r.value + 23] == d.s[0])
  {
    match d
    case NoneArg => Failure(ValueError)
    case IntArg(i) => Success(i)
    case StrArg(s) =>
      if |s| == 1 then
        match IndexOf(Lowercase(), s[0])
        case None => Failure(ValueError)
        case Some(k) => Success(k - 23)
      else Failure(TypeError)
    case OtherArg => Failure(TypeError)
  }

  /** The letters the documentation names are the first three axes. */
  lemma XyzAreFirstAxes()
    ensures ParseDirection(StrArg("x")) == Success(0)
    ensures ParseDirection(StrArg("y")) == Success(1)
    ensures ParseDirection(StrArg("z")) == Success(2)
  {
    LowercaseIndex('x');
    LowercaseIndex('y');
    LowercaseIndex('z');
  }

  /** A letter and its axis number select the same axis. */
  lemma LetterAndNumberAgree(c: char)
    requires 'a' <= c <= 'z'
    ensures ParseDirection(StrArg([c])) == ParseDirection(IntArg(c as int - 'a' as int - 23))
  {
    LowercaseIndex(c);
    var s := [c];
    assert |s| == 1 && s[0] == c;
    assert IndexOf(Lowercase(), s[0]) == Some(c as int - 'a' as int);
  }

  /** A positioner parameter after `AttocubeParameter.__init__`: the
      controller it talks to and its axis number. */
  datatype AxisParameter = AxisParameter(positioner: nat, direction: int)

  /** `AttocubeParameter.__init__`: the direction is checked first, by the
      same chain of cases as `_parse_direction_arg` (the source repeats it
      inline), then a missing positioner raises
      ValueError. */
  function NewAxisParameter(positioner: Option<nat>, direction: Arg): (r: Result<AxisParameter, ArgError>)
    ensures ParseDirection(direction).Failure? ==> r == Failure(ParseDirection(direction).error)
    ensures ParseDirection(direction).Success? && positioner.None? ==> r == Failure(ValueError)
    ensures r.Success? <==> ParseDirection(direction).Success? && positioner.Some?
    ensures r.Success? ==> r.value.direction == ParseDirection(direction).value &&
                           r.value.positioner == positioner.value
  {
    var d := ParseDirection(direction);
    if d.Failure? then Failure(d.error)
    else if positioner.None? then Failure(ValueError)
    else Success(AxisParameter(positioner.value, d.value))
  }

  /** The `mode` argument of `set_raw`. For an argument of another type
      only whether it compares equal to 0 matters. */
  datatype Mode = ModeInt(n: int) | ModeStr(s: string) | ModeOther(equalsZero: bool)

  /** The mode `set_raw` passes on: 0 for an absolute target, 1 for a
      relative one. A value of another type equal to 0 is passed on
      unchanged, and stands here for 0. */
  function NormaliseMode(m: Mode): (r: Result<int, ArgError>)
    ensures r.Success? ==> r.value == 0 || r.value == 1
    ensures m.ModeInt? ==> (r.Success? <==> m.n == 0 || m.n == 1) &&
                           (r.Success? ==> r.value == m.n) &&
                           (r.Failure? ==> r.error == ValueError)
    ensures m.ModeStr? ==> (r.Success? <==> m.s == "relative" || m.s == "absolute") &&
                           (r.Success? ==> (r.value == 1 <==> m.s == "relative")) &&
                           (r.Failure? ==> r.error == ValueError)
    ensures m.ModeOther? ==> (r.Success? <==> m.equalsZero) &&
                             (r.Success? ==> r.value == 0) &&
                             (r.Failure? ==> r.error == TypeError)
  {
    var isZero := match m
      case ModeInt(n) => n == 0
      case ModeStr(_) => false
      case ModeOther(z) => z;
    if isZero then Success(0)
    else match m
      case ModeStr(s) =>
        if s == "relative" then Success(1)
        else if s == "absolute" then Success(0)
        else Failure(ValueError)
      case ModeInt(n) =>
        if n == 1 then Success(1) else Failure(ValueError)
      case ModeOther(_) => Failure(TypeError)
  }

  /** A call `set_raw` makes on the positioner controller. */
  datatype Call =
    | SetTargetPosition(axis: int, target: real)
    | StartAutoMove(axis: int, enable: int, relative: int)

  /** `AttocubePositionParameter.set_raw(value, mode)`: the controller calls
      it makes, in order, or the error it raises before making any. */
  function SetRaw(p: AxisParameter, value: real, mode: Mode): (r: Result<seq<Call>, ArgError>)
    ensures r.Failure? <==> NormaliseMode(mode).Failure?
    ensures r.Failure? ==> r.error == NormaliseMode(mode).error
    ensures r.Success? ==> (|r.value| == 2 &&
              r.value[0] == SetTargetPosition(p.direction, value) &&
              r.value[1].StartAutoMove? && r.value[1].axis == p.direction &&
              r.value[1].enable == 1 && r.value[1].relative == NormaliseMode(mode).value)
  {
    match NormaliseMode(mode)
    case Failure(e) => Failure(e)
    case Success(m) =>
      Success([SetTargetPosition(p.direction, value), StartAutoMove(p.direction, 1, m)])
  }

  /** A relative move is requested exactly by the string "relative" or the
      number 1. */
  lemma RelativeMoves(p: AxisParameter, value: real, mode: Mode)
    requires SetRaw(p, value, mode).Success?
    ensures SetRaw(p, value, mode).value[1].relative == 1 <==>
              mode == ModeStr("relative") || mode == ModeInt(1)
  {
  }
}
