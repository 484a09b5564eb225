/** Set-up of the Rigol DP8xx power supplies: the installed options read
    from the `*OPT?` reply, the choice of protection ranges they imply, the
    channels created one per channel range, and the bounds of each
    channel's settable values. */
module RigolDP8xx {
  import opened Util

  /** Characters `str.strip()` removes (Python's `str.isspace`). */
  predicate IsSpace(c: char) {
    var n := c as int;
    n == 0x20 || 0x09 <= n <= 0x0d || 0x1c <= n <= 0x1f || n == 0x85 || n == 0xa0 ||
    n == 0x1680 || 0x2000 <= n <= 0x200a || n == 0x2028 || n == 0x2029 ||
    n == 0x202f || n == 0x205f || n == 0x3000
  }

  /** The number of white-space characters s starts with. */
  function LeadingSpace(s: string): (n: nat)
    ensures n <= |s|
    ensures forall k :: 0 <= k < n ==> IsSpace(s[k])
    ensures n < |s| ==> !IsSpace(s[n])
    decreases |s|
  {
    if s != [] && IsSpace(s[0]) then
      var m := LeadingSpace(s[1..]);
      assert forall k :: 1 <= k < m + 1 ==> s[k] == s[1..][k - 1];
      m + 1
    else 0
  }

  /** The number of white-space characters s ends with. */
  function TrailingSpace(s: string): (n: nat)
    ensures n <= |s|
    ensures forall k :: |s| - n <= k < |s| ==> IsSpace(s[k])
    ensures n < |s| ==> !IsSpace(s[|s| - n - 1])
    decreases |s|
  {
    if s != [] && IsSpace(s[|s| - 1]) then
      var m := TrailingSpace(s[..|s| - 1]);
      assert forall k :: |s| - 1 - m <= k < |s| - 1 ==> s[k] == s[..|s| - 1][k];
      m + 1
    else 0
  }

  /** `s.strip()`: the part of s between its leading and trailing white
      space. */
  function Strip(s: string): (r: string)
    ensures LeadingSpace(s) + |r| <= |s| && r == s[LeadingSpace(s)..LeadingSpace(s) + |r|]
    ensures forall k :: 0 <= k < LeadingSpace(s) ==> IsSpace(s[k])
    ensures forall k :: LeadingSpace(s) + |r| <= k < |s| ==> IsSpace(s[k])
    ensures r != [] ==> !IsSpace(r[0]) && !IsSpace(r[|r| - 1])
  {
    var i := LeadingSpace(s);
    var n := TrailingSpace(s[i..]);
    SpaceAround(s, i, n);
    s[i..|s| - n]
  }

  /** When the part of s after position i ends with n white-space
      characters, so does s; and when that part neither starts with white
      space nor has only n characters of it at its end, the middle neither
      starts nor ends with white space. */
  lemma SpaceAround(s: string, i: nat, n: nat)
    requires i + n <= |s|
    requires forall k :: |s[i..]| - n <= k < |s[i..]| ==> IsSpace(s[i..][k])
    requires i < |s| ==> !IsSpace(s[i])
    requires n < |s[i..]| ==> !IsSpace(s[i..][|s[i..]| - n - 1])
    ensures forall k :: |s| - n <= k < |s| ==> IsSpace(s[k])
    ensures i < |s| - n ==> !IsSpace(s[i..|s| - n][0]) && !IsSpace(s[i..|s| - n][|s| - n - i - 1])
  {
    forall k | |s| - n <= k < |s|
      ensures IsSpace(s[k])
    {
      assert s[k] == s[i..][k - i];
    }
    if i < |s| - n {
      assert s[i..|s| - n][0] == s[i];
      assert s[i..|s| - n][|s| - n - i - 1] == s[i..][|s[i..]| - n - 1];
    }
  }

  /** `s.split(',')`: the pieces between the commas, at least one. */
  function Split(s: string): (r: seq<string>)
    ensures |r| >= 1
    ensures forall k :: 0 <= k < |r| ==> ',' !in r[k]
    decreases |s|
  {
    match IndexOf(s, ',')
    case None => [s]
    case Some(i) => [s[..i]] + Split(s[i + 1..])
  }

  /** `','.join(ps)`. */
  function Join(ps: seq<string>): string
    requires |ps| >= 1
    decreases |ps|
  {
    if |ps| == 1 then ps[0] else ps[0] + "," + Join(ps[1..])
  }

  /** Joining the pieces with commas gives the string back. */
  lemma {:induction false} JoinSplit(s: string)
    ensures Join(Split(s)) == s
    decreases |s|
  {
    match IndexOf(s, ',')
    case None =>
    case Some(i) =>
      var rest := Split(s[i + 1..]);
      assert Split(s) == [s[..i]] + rest;
      assert |Split(s)| > 1 && Split(s)[0] == s[..i] && Split(s)[1..] == rest;
      JoinSplit(s[i + 1..]);
      assert s == s[..i] + "," + s[i + 1..];
  }

  /** A comma-free piece followed by a comma splits off as the first piece. */
  lemma FirstComma(p: string, t: string)
    requires ',' !in p
    ensures Split(p + "," + t) == [p] + Split(t)
  {
    var s := p + "," + t;
    forall j | 0 <= j < |p| ensures s[j] != ',' {
      assert s[j] == p[j];
    }
    IndexOfFirst(s, ',', |p|);
    assert s[..|p|] == p && s[|p| + 1..] == t;
  }

  /** Splitting comma-free pieces joined with commas gives the pieces back. */
  lemma {:induction false} SplitJoin(ps: seq<string>)
    requires |ps| >= 1 && forall k :: 0 <= k < |ps| ==> ',' !in ps[k]
    ensures Split(Join(ps)) == ps
    decreases |ps|
  {
    if |ps| > 1 {
      var tail := ps[1..];
      assert forall k :: 0 <= k < |tail| ==> tail[k] == ps[k + 1];
      SplitJoin(tail);
      var t := Join(tail);
      assert Join(ps) == ps[0] + "," + t;
      FirstComma(ps[0], t);
      assert ps == [ps[0]] + tail;
    }
  }

  /** `installed_options`: the option names in the `*OPT?` reply, with the
      "0" placeholders of empty option slots dropped, in reply order. */
  function InstalledOptions(reply: string): (r: seq<string>)
    ensures forall k :: 0 <= k < |r| ==> r[k] != "0" && ',' !in r[k]
    ensures forall p :: p in Split(Strip(reply)) && p != "0" ==> p in r
    ensures forall k :: 0 <= k < |r| ==> r[k] in Split(Strip(reply))
    ensures multiset(r) == multiset(Split(Strip(reply)))["0" := 0]
  {
    WithoutCounts(Split(Strip(reply)), "0");
    Without(Split(Strip(reply)), "0")
  }

  /** A closed interval of values a validator accepts. */
  datatype Bounds = Bounds(lo: real, hi: real)

  /** Protection ranges per channel, for a supply without and with the
      accuracy option. */
  datatype RangeSets = RangeSets(standard: seq<Bounds>, accurate: seq<Bounds>)

  const AccuracyOption := "DP8-ACCURACY"

  /** The ranges the constructor uses: the second set exactly when the
      accuracy option is installed. */
  function SelectRanges(options: seq<string>, sets: RangeSets): (r: seq<Bounds>)
    ensures AccuracyOption in options ==> r == sets.accurate
    ensures AccuracyOption !in options ==> r == sets.standard
  {
    if AccuracyOption in options then sets.accurate else sets.standard
  }

  /** A reply listing the accuracy option among its comma-separated
      entries selects the accurate ranges. */
  lemma AccuracyReplySelected(reply: string, sets: RangeSets)
    requires AccuracyOption in Split(Strip(reply))
    ensures SelectRanges(InstalledOptions(reply), sets) == sets.accurate
  {
    assert AccuracyOption != "0";
  }

  /** One output channel as the constructor creates it. */
  datatype Channel = Channel(
    name: string, number: nat,
    vmax: real, imax: real,
    ovp: Bounds, ocp: Bounds)

  /** A channel range from the model's table: maximum voltage and current. */
  datatype ChannelRange = ChannelRange(vmax: real, imax: real)

  datatype SetupError = IndexError

  /** The name of the channel with 1-based number n. */
  function ChannelName(n: nat): string {
    "ch" + NatToString(n)
  }

  /** The loop of `_RigolDP8xx.__init__`: channel k (from 0) is created as
      "ch{k+1}" with number k+1, its voltage and current maxima and its
      OVP and OCP ranges; a protection range list shorter than the channel
      list raises IndexError. */
  method BuildChannels(ranges: seq<ChannelRange>, ovp: seq<Bounds>, ocp: seq<Bounds>)
    returns (r: Result<seq<Channel>, SetupError>)
    ensures r.Success? <==> |ovp| >= |ranges| && |ocp| >= |ranges|
    ensures r.Success? ==> |r.value| == |ranges|
    ensures r.Success? ==>
              forall k :: 0 <= k < |ranges| ==>
                r.value[k] == Channel(ChannelName(k + 1), k + 1, ranges[k].vmax, ranges[k].imax, ovp[k], ocp[k])
  {
    var channels: seq<Channel> := [];
    var k := 0;
    while k < |ranges|
      invariant 0 <= k <= |ranges|
      invariant k <= |ovp| && k <= |ocp|
      invariant |channels| == k
      invariant forall j :: 0 <= j < k ==>
                  channels[j] == Channel(ChannelName(j + 1), j + 1, ranges[j].vmax, ranges[j].imax, ovp[j], ocp[j])
    {
      if k >= |ovp| || k >= |ocp| {
        return Failure(IndexError);
      }
      channels := channels + [Channel(ChannelName(k + 1), k + 1, ranges[k].vmax, ranges[k].imax, ovp[k], ocp[k])];
      k := k + 1;
    }
    return Success(channels);
  }

  /** Channel names are all different, so each names its own submodule. */
  lemma ChannelNamesDistinct(cs: seq<Channel>, k: nat, j: nat)
    requires k < j < |cs|
    requires forall i :: 0 <= i < |cs| ==> cs[i].name == ChannelName(i + 1)
    ensures cs[k].name != cs[j].name
  {
    NatToStringInjective(k + 1, j + 1);
    var a, b := NatToString(k + 1), NatToString(j + 1);
    assert ("ch" + a)[2..] == a && ("ch" + b)[2..] == b;
  }

  /** The whole constructor: options, the range choice and the channels. */
  method Setup(optReply: string, ranges: seq<ChannelRange>, ovpSets: RangeSets, ocpSets: RangeSets)
    returns (r: Result<seq<Channel>, SetupError>)
    ensures var opts := InstalledOptions(optReply);
            var ovp := SelectRanges(opts, ovpSets);
            var ocp := SelectRanges(opts, ocpSets);
            (r.Success? <==> |ovp| >= |ranges| && |ocp| >= |ranges|) &&
            (r.Success? ==> |r.value| == |ranges|) &&
            (r.Success? ==> forall k :: 0 <= k < |ranges| ==>
               r.value[k] == Channel(ChannelName(k + 1), k + 1, ranges[k].vmax, ranges[k].imax, ovp[k], ocp[k]))
  {
    var opts := InstalledOptions(optReply);
    r := BuildChannels(ranges, SelectRanges(opts, ovpSets), SelectRanges(opts, ocpSets));
  }

  function Min(a: real, b: real): real { if a <= b then a else b }
  function Max(a: real, b: real): real { if a <= b then b else a }

  /** Bounds of `set_voltage`: from 0 to the channel's maximum voltage,
      whichever sign that has. */
  function VoltageBounds(c: Channel): (b: Bounds)
    ensures b.lo <= 0.0 <= b.hi && b.lo <= c.vmax <= b.hi
    ensures (b.lo == 0.0 && b.hi == c.vmax) || (b.lo == c.vmax && b.hi == 0.0)
  {
    Bounds(Min(0.0, c.vmax), Max(0.0, c.vmax))
  }

  /** Bounds of `set_current`: from 0 to the channel's maximum current. */
  function CurrentBounds(c: Channel): (b: Bounds)
    ensures b.lo == 0.0 && b.hi == c.imax
  {
    Bounds(0.0, c.imax)
  }
}
