/** The return-code check of the AMC100 positioner library: every DLL call
    passes its integer status through `checkError`, which returns on success
    and raises an exception carrying a message otherwise. */
module Amc100 {
  import opened Util

  // Status codes the library names.
  const NcbOk := 0
  const NcbError := -1
  const NcbNotConnected := -2
  const NcbDriverError := -3
  const NcbNetworkError := -4
  const BadIpAddress := -5
  const ConnectionTimeout := -6
  const NoDeviceFoundErr := -7
  const NcbInvalidParam := -9
  const NcbFeatureNotAvailable := 10

  /** Each named failure code with the fixed message it raises. The
      unspecific error (-1) is not here: its message names the call. */
  const FixedMessages: map<int, string> := map[
    ConnectionTimeout := "Error: connection timeout",
    NcbNotConnected := "Error: not connected",
    NcbDriverError := "Error: driver error",
    NcbNetworkError := "Error: network error",
    BadIpAddress := "Error: invalid IP address",
    NoDeviceFoundErr := "Error: no device found",
    NcbInvalidParam := "Error: invalid parameter",
    NcbFeatureNotAvailable := "Error: feature not available"
  ]

  /** Message of the unspecific error (-1), naming the failed function and
      the text of its arguments. */
  function UnspecificMessage(func: string, args: string): string {
    "Error: unspecific in" + func + "with parameters:" + args
  }

  /** Message of a code the library does not know. */
  function UnknownMessage(func: string, args: string): string {
    "Error: unknown in" + func + "with parameters:" + args
  }

  /** `checkError(code, func, args)`: `None` when the call returns normally,
      `Some(m)` when it raises an exception with message m. `func` is the
      function's `__name__`, `args` the text `str(args)` gives. */
  function CheckError(code: int, func: string, args: string): (r: Option<string>)
    ensures r.None? <==> code == NcbOk
    ensures code == NcbError ==> r == Some(UnspecificMessage(func, args))
    ensures code in FixedMessages ==> r == Some(FixedMessages[code])
    ensures code != NcbOk && code != NcbError && code !in FixedMessages ==>
              r == Some(UnknownMessage(func, args))
    ensures r.Some? ==> |r.value| >= 7 && r.value[..7] == "Error: "
    ensures code in FixedMessages ==> r != Some(UnknownMessage(func, args))
  {
    if code == NcbOk then None
    else if code == NcbError then Some(UnspecificMessage(func, args))
    else if code == ConnectionTimeout then Some("Error: connection timeout")
    else if code == NcbNotConnected then Some("Error: not connected")
    else if code == NcbDriverError then Some("Error: driver error")
    else if code == NcbNetworkError then Some("Error: network error")
    else if code == BadIpAddress then Some("Error: invalid IP address")
    else if code == NoDeviceFoundErr then Some("Error: no device found")
    else if code == NcbInvalidParam then Some("Error: invalid parameter")
    else if code == NcbFeatureNotAvailable then Some("Error: feature not available")
    else Some(UnknownMessage(func, args))
  }

  /** Two different named failure codes raise different messages, so the
      message tells which named failure happened. */
  lemma FixedMessagesDistinct(c1: int, c2: int, func: string, args: string)
    requires c1 in FixedMessages && c2 in FixedMessages && c1 != c2
    ensures CheckError(c1, func, args) != CheckError(c2, func, args)
  {
    var m1, m2 := FixedMessages[c1], FixedMessages[c2];
    assert m1 != m2 by {
      if c1 == ConnectionTimeout || c2 == ConnectionTimeout {
        assert m1[7] != m2[7];
      }
    }
  }
}
