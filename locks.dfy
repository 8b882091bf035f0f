/// `locks.go`: setting and reading the session and permanent lock bit sets,
/// and switching the lock tally on or off.
module Locks {
  import opened GoInts
  import opened Errors
  import opened GoFmt
  import opened GoStrconv
  import opened OxtelTypes
  import opened Utils

  const EnquireSessionLocksCommand := "hSL"
  const EnquireGlobalSessionLocksCommand := "hGSL"
  const EnquirePermanentLocksCommand := "hPL"
  const EnquireOxtelLockTallyCommand := "hOLT"

  /** `prefix` then `%08x` of a signed 32-bit lock set: a negative value
    * prints as `-` and seven digits. */
  function LocksCommand(prefix: string, locks: int32): (r: string)
    ensures |r| >= |prefix| && r[..|prefix|] == prefix
    ensures ParseInt(r[|prefix|..], 16, 32) == Ok(locks as int)
    ensures locks >= 0 ==> |r| == |prefix| + 8 && HexAt(r, |prefix|, 8, locks)
  {
    LocksDigits(prefix, locks);
    prefix + SignedPadded(locks, 16, false, 8)
  }

  lemma LocksDigits(prefix: string, locks: int32)
    ensures var r := prefix + SignedPadded(locks, 16, false, 8);
      && r[|prefix|..] == SignedPadded(locks, 16, false, 8)
      && ParseInt(r[|prefix|..], 16, 32) == Ok(locks as int)
      && (locks >= 0 ==> |r| == |prefix| + 8 && HexAt(r, |prefix|, 8, locks))
  {
    var r := prefix + SignedPadded(locks, 16, false, 8);
    assert r[|prefix|..] == SignedPadded(locks, 16, false, 8);
    Pow2ThirtyTwo();
    SignedPaddedParseInt(locks, 16, false, 8, 32);
    if locks >= 0 {
      PowValues();
      HexAtConcat(prefix, locks, 8, "");
      assert prefix + Hex(locks, 8) + "" == r;
    }
  }

  /** `SetSessionLocks_AsString`: `hSL` and the lock set as eight hex digits. */
  function SetSessionLocksAsString(locks: int32): (r: string)
    ensures |r| >= 3 && r[..3] == "hSL"
    ensures ParseInt(r[3..], 16, 32) == Ok(locks as int)
    ensures locks >= 0 ==> |r| == 11 && HexAt(r, 3, 8, locks)
  {
    LocksCommand("hSL", locks)
  }

  /** `SetPermanentLocks_AsString`: `hPL` and the lock set as eight hex digits. */
  function SetPermanentLocksAsString(locks: int32): (r: string)
    ensures |r| >= 3 && r[..3] == "hPL"
    ensures ParseInt(r[3..], 16, 32) == Ok(locks as int)
    ensures locks >= 0 ==> |r| == 11 && HexAt(r, 3, 8, locks)
  {
    LocksCommand("hPL", locks)
  }

  /** The decoding `EnquireSessionLocks`, `EnquireGlobalSessionLocks` and
    * `EnquirePermanentLocks` each apply to the response body: a signed
    * 32-bit hex number whose bit 0 is the mixer and bit 8 + k layer k. */
  function DecodeLocksBody(val: string): (r: Result<LocksResponse>)
    ensures r.Ok? <==> ParseInt(val, 16, 32).Ok?
    ensures r.Err? ==> r.error == NumError
    ensures r.Ok? ==> (r.value.mixer <==> Bit(ParseInt(val, 16, 32).value, 0))
    ensures r.Ok? ==> forall k :: 0 <= k < 8 ==> (r.value.layers[k] <==> Bit(ParseInt(val, 16, 32).value, 8 + k))
  {
    var result :- ParseI32(val, 16);
    Ok(DecodeLocks(result))
  }

  /** Reading back a lock set the client wrote gives the same flags. */
  lemma LocksRoundTrip(mixer: bool, layers: LayerFlags)
    ensures DecodeLocksBody(SetSessionLocksAsString(BuildSessionLocks(mixer, layers))[3..]) == Ok(LocksResponse(mixer, layers))
    ensures DecodeLocksBody(SetPermanentLocksAsString(BuildSessionLocks(mixer, layers))[3..]) == Ok(LocksResponse(mixer, layers))
  {
    DecodeSessionLocks(mixer, layers);
  }

  /** Two bodies that agree on bit 0 and bits 8-15 decode alike. */
  lemma DecodeLocksBodyOtherBits(val: string, other: string)
    requires ParseInt(val, 16, 32).Ok? && ParseInt(other, 16, 32).Ok?
    requires Bit(ParseInt(val, 16, 32).value, 0) == Bit(ParseInt(other, 16, 32).value, 0)
    requires forall k :: 8 <= k < 16 ==> Bit(ParseInt(val, 16, 32).value, k) == Bit(ParseInt(other, 16, 32).value, k)
    ensures DecodeLocksBody(val) == DecodeLocksBody(other)
  {
    DecodeLocksOtherBits(ParseInt(val, 16, 32).value, ParseInt(other, 16, 32).value);
  }

  /** `EnableOxtelLockTally_AsString`: `hOLT1` to enable, `hOLT0` to disable. */
  function EnableOxtelLockTallyAsString(enable: bool): (r: string)
    ensures r == if enable then "hOLT1" else "hOLT0"
  {
    "hOLT" + Hex(BoolToInt(enable) as nat, 1)
  }

  /** `EnquireOxtelLockTally`: the body is a Go boolean. */
  function EnquireOxtelLockTally(val: string): (r: Result<bool>)
    ensures r.Ok? <==> val in {"1", "t", "T", "TRUE", "true", "True", "0", "f", "F", "FALSE", "false", "False"}
    ensures r.Ok? ==> (r.value <==> val in {"1", "t", "T", "TRUE", "true", "True"})
  {
    ParseBool(val)
  }

  /** The enquiry reads back the flag the enable command sent. */
  lemma LockTallyFlagRoundTrip(enable: bool)
    ensures EnquireOxtelLockTally(EnableOxtelLockTallyAsString(enable)[4..]) == Ok(enable)
  {
    var r := EnableOxtelLockTallyAsString(enable);
    assert r[4..] == if enable then "1" else "0";
  }
}
