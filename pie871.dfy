/** The PI E-871 piezo controller driver: the choice of PI devices among the
    USB device lines, the servo-mode guard of the closed-loop target
    position, and the decision order of `ref`. */
module PiE871 {
  import opened Util

  newtype byte = b: int | 0 <= b < 256

  /** White space as `bytes.split()` sees it: space, \t, \n, \v, \f, \r. */
  predicate IsSpace(b: byte) {
    b == 32 || 9 <= b <= 13
  }

  /** Length of the word at the start of s: the bytes up to the first
      white space. */
  function WordLength(s: seq<byte>): (n: nat)
    ensures n <= |s|
    ensures forall i :: 0 <= i < n ==> !IsSpace(s[i])
    ensures n < |s| ==> IsSpace(s[n])
    decreases |s|
  {
    if s == [] || IsSpace(s[0]) then 0 else 1 + WordLength(s[1..])
  }

  /** `line.split()`: the maximal runs of non-white-space bytes, in order. */
  function Tokens(s: seq<byte>): seq<seq<byte>>
    decreases |s|
  {
    if s == [] then []
    else if IsSpace(s[0]) then Tokens(s[1..])
    else
      var n := WordLength(s);
      [s[..n]] + Tokens(s[n..])
  }

  /** The words are non-empty and free of white space, and there are none
      exactly when the line is all white space. */
  lemma {:induction false} TokensShape(s: seq<byte>)
    ensures forall k :: 0 <= k < |Tokens(s)| ==>
              |Tokens(s)[k]| > 0 && forall i :: 0 <= i < |Tokens(s)[k]| ==> !IsSpace(Tokens(s)[k][i])
    ensures Tokens(s) == [] <==> forall i :: 0 <= i < |s| ==> IsSpace(s[i])
    decreases |s|
  {
    if s == [] {
    } else if IsSpace(s[0]) {
      TokensShape(s[1..]);
      assert forall i :: 0 < i < |s| ==> s[i] == s[1..][i - 1];
    } else {
      var n := WordLength(s);
      var rest := Tokens(s[n..]);
      TokensShape(s[n..]);
      assert Tokens(s) == [s[..n]] + rest;
      forall k | 0 <= k < |Tokens(s)|
        ensures |Tokens(s)[k]| > 0 && forall i :: 0 <= i < |Tokens(s)[k]| ==> !IsSpace(Tokens(s)[k][i])
      {
        if k > 0 {
          assert Tokens(s)[k] == rest[k - 1];
        }
      }
    }
  }

  /** b'PI' */
  const PI: seq<byte> := [80, 73]

  /** A device line names a PI controller: its first token is b'PI'. */
  predicate IsPiLine(line: seq<byte>)
    requires Tokens(line) != []
  {
    Tokens(line)[0] == PI
  }

  /** The serial number a line ends with: its last token. */
  function LastToken(line: seq<byte>): seq<byte>
    requires Tokens(line) != []
  {
    var t := Tokens(line);
    t[|t| - 1]
  }

  /** Every line has a first token; `split()[0]` raises IndexError on a
      blank line. */
  predicate AllNonBlank(lines: seq<seq<byte>>) {
    forall i :: 0 <= i < |lines| ==> Tokens(lines[i]) != []
  }

  /** What `list_devices` keeps of the lines: the last token of each PI
      line, in line order. */
  function PiDevices(lines: seq<seq<byte>>): (r: seq<seq<byte>>)
    requires AllNonBlank(lines)
    decreases |lines|
  {
    if lines == [] then []
    else
      var last := lines[|lines| - 1];
      PiDevices(lines[..|lines| - 1]) + (if IsPiLine(last) then [LastToken(last)] else [])
  }

  /** At most one device per line. */
  lemma {:induction false} PiDevicesShorter(lines: seq<seq<byte>>)
    requires AllNonBlank(lines)
    ensures |PiDevices(lines)| <= |lines|
    decreases |lines|
  {
    if lines != [] {
      PiDevicesShorter(lines[..|lines| - 1]);
    }
  }

  /** A device is listed exactly when some PI line ends with it. */
  lemma {:induction false} PiDevicesExactly(lines: seq<seq<byte>>, d: seq<byte>)
    requires AllNonBlank(lines)
    ensures d in PiDevices(lines) <==>
              exists i :: 0 <= i < |lines| && IsPiLine(lines[i]) && LastToken(lines[i]) == d
    decreases |lines|
  {
    if lines != [] {
      var init, last := lines[..|lines| - 1], lines[|lines| - 1];
      assert forall i :: 0 <= i < |init| ==> init[i] == lines[i];
      PiDevicesExactly(init, d);
      var tail := if IsPiLine(last) then [LastToken(last)] else [];
      assert PiDevices(lines) == PiDevices(init) + tail;
      assert d in PiDevices(lines) <==> d in PiDevices(init) || d in tail;
      if d in PiDevices(lines) {
        if d in PiDevices(init) {
          var i :| 0 <= i < |init| && IsPiLine(init[i]) && LastToken(init[i]) == d;
          assert lines[i] == init[i];
        } else {
          assert IsPiLine(last) && LastToken(last) == d;
        }
      } else {
        forall i | 0 <= i < |lines| && IsPiLine(lines[i]) ensures LastToken(lines[i]) != d {
          if i < |init| {
            assert lines[i] == init[i];
          }
        }
      }
    }
  }

  datatype PiError = IndexError | ModeError

  /** `PIE871.list_devices`: the serial numbers of the PI controllers among
      the lines `list_usb_devices` reports, or IndexError for a blank
      line. */
  method ListDevices(lines: seq<seq<byte>>) returns (r: Result<seq<seq<byte>>, PiError>)
    ensures r.Success? <==> AllNonBlank(lines)
    ensures r.Success? ==> r.value == PiDevices(lines)
    ensures r.Failure? ==> r.error == IndexError
  {
    var devices: seq<seq<byte>> := [];
    var i := 0;
    while i < |lines|
      invariant 0 <= i <= |lines|
      invariant AllNonBlank(lines[..i])
      invariant devices == PiDevices(lines[..i])
    {
      var tokens := Tokens(lines[i]);
      if tokens == [] {
        return Failure(IndexError);
      }
      if tokens[0] == PI {
        devices := devices + [tokens[|tokens| - 1]];
      }
      assert lines[..i + 1][..i] == lines[..i];
      i := i + 1;
    }
    assert lines[..i] == lines;
    return Success(devices);
  }

  /** What a query of the controller library returns: the flag it asked
      for, or an error text when the library call failed. */
  datatype Reply = Flag(on: bool) | ErrorText(text: string)

  /** Python truth of a reply; an error text is a non-empty string. */
  predicate Truthy(r: Reply) {
    match r
    case Flag(b) => b
    case ErrorText(t) => |t| > 0
  }

  /** The controller calls the driver makes, with the axis identifier. */
  datatype Call =
    | QSVO(axis: string) | QMOV(axis: string) | MOV(axis: string, target: real)
    | QFRF(axis: string) | QRON(axis: string) | RON(axis: string, mode: int)
    | POS(axis: string, position: real)

  /** The calls a driver method made and what it returned or raised. */
  datatype Outcome<T> = Outcome(calls: seq<Call>, result: Result<T, PiError>)

  /** `get_cl_tar_pos`: queries the servo mode; only in closed-loop mode
      is the target read with qMOV, otherwise it raises. `target` is what
      qMOV would answer. */
  function GetClTarPos(axis: string, servo: Reply, target: real): (o: Outcome<real>)
    ensures |o.calls| >= 1 && o.calls[0] == QSVO(axis)
    ensures o.result.Success? <==> Truthy(servo)
    ensures QMOV(axis) in o.calls <==> Truthy(servo)
    ensures o.result.Success? ==> o.result.value == target
    ensures o.result.Failure? ==> o.result.error == ModeError
  {
    if Truthy(servo) then Outcome([QSVO(axis), QMOV(axis)], Success(target))
    else Outcome([QSVO(axis)], Failure(ModeError))
  }

  /** `set_cl_tar_pos`: as `get_cl_tar_pos`, but moves to the value. */
  function SetClTarPos(axis: string, servo: Reply, value: real): (o: Outcome<()>)
    ensures |o.calls| >= 1 && o.calls[0] == QSVO(axis)
    ensures o.result.Success? <==> Truthy(servo)
    ensures Truthy(servo) ==> o.calls[|o.calls| - 1] == MOV(axis, value)
    ensures (exists k :: 0 <= k < |o.calls| && o.calls[k].MOV?) <==> Truthy(servo)
    ensures forall k :: 0 <= k < |o.calls| && o.calls[k].MOV? ==> o.calls[k] == MOV(axis, value)
    ensures o.result.Failure? ==> o.result.error == ModeError
  {
    if Truthy(servo) then Outcome([QSVO(axis), MOV(axis, value)], Success(()))
    else Outcome([QSVO(axis)], Failure(ModeError))
  }

  /** A failed servo query answers with an error text, which is truthy:
      the guard then lets the move through although the mode is unknown. */
  lemma FailedQueryPassesGuard(axis: string, value: real)
    ensures SetClTarPos(axis, ErrorText("ERROR: cannot execute the qSVO function"), value).result.Success?
  {
  }

  /** The messages `ref` returns; the second carries the source's spelling. */
  const Referenced := "The given axis is referenced"
  const PositionSetAfterRon := "The given axis is referenced, the current posotion is set on the given value"
  const PositionSet := "The given axis is referenced, the current position is set on the given value"

  /** `ref(cur_pos)`: a referenced axis is left alone; otherwise reference
      mode is switched off first if it is on, and the position is set. The
      replies of qFRF and qRON are parameters. */
  function Ref(axis: string, curPos: real, referenced: Reply, refMode: Reply): (o: Outcome<string>)
    ensures o.result.Success?
    ensures |o.calls| >= 1 && o.calls[0] == QFRF(axis)
    ensures Truthy(referenced) ==> o.calls == [QFRF(axis)]
    ensures !Truthy(referenced) ==>
              |o.calls| >= 3 && o.calls[1] == QRON(axis) && o.calls[|o.calls| - 1] == POS(axis, curPos)
    ensures (RON(axis, 0) in o.calls) <==> !Truthy(referenced) && Truthy(refMode)
    ensures !Truthy(referenced) && Truthy(refMode) ==> o.calls[2] == RON(axis, 0) && |o.calls| == 4
    ensures Truthy(referenced) ==> o.result.value == Referenced
    ensures !Truthy(referenced) && Truthy(refMode) ==> o.result.value == PositionSetAfterRon
    ensures !Truthy(referenced) && !Truthy(refMode) ==>
              o.result.value == PositionSet && o.calls == [QFRF(axis), QRON(axis), POS(axis, curPos)]
  {
    if Truthy(referenced) then
      Outcome([QFRF(axis)], Success(Referenced))
    else if Truthy(refMode) then
      Outcome([QFRF(axis), QRON(axis), RON(axis, 0), POS(axis, curPos)],
              Success(PositionSetAfterRon))
    else
      Outcome([QFRF(axis), QRON(axis), POS(axis, curPos)],
              Success(PositionSet))
  }

  /** No POS call is made on an axis already referenced, and one is made on
      any other. */
  lemma PositionSetOnlyWhenUnreferenced(axis: string, curPos: real, referenced: Reply, refMode: Reply)
    ensures var o := Ref(axis, curPos, referenced, refMode);
            (exists k :: 0 <= k < |o.calls| && o.calls[k].POS?) <==> !Truthy(referenced)
  {
    var o := Ref(axis, curPos, referenced, refMode);
    if !Truthy(referenced) {
      assert o.calls[|o.calls| - 1].POS?;
    }
  }
}
