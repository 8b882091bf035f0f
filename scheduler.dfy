/// `scheduler.go`: scheduling a command at a timecode (`i0`), deleting every
/// scheduled command (`i2`) and reading the current VITC time (`ix`).
module Scheduler {
  import opened GoInts
  import opened Errors
  import opened GoFmt
  import opened GoStrconv
  import opened OxtelTypes
  import opened Fields

  const DeleteAllScheduledCommandsCommand := "i2"
  const EnquireCurrentTimeCommand := "ix"

  /** `%02d` of each timecode part, one after the other. */
  function Timecode(hours: uint8, minutes: uint8, seconds: uint8, frames: uint64): string
  {
    Dec(hours, 2) + Dec(minutes, 2) + Dec(seconds, 2) + Dec(frames, 2)
  }

  /** Each part below 100 takes exactly two digits, so the timecode is eight
    * digits with every part at its own pair. */
  lemma TimecodeFields(hours: uint8, minutes: uint8, seconds: uint8, frames: uint64)
    requires hours < 100 && minutes < 100 && seconds < 100 && frames < 100
    ensures var t := Timecode(hours, minutes, seconds, frames);
      && |t| == 8
      && DecAt(t, 0, 2, hours) && DecAt(t, 2, 2, minutes) && DecAt(t, 4, 2, seconds) && DecAt(t, 6, 2, frames)
  {
    PowValues();
    var a := Dec(hours, 2);
    var b := Dec(minutes, 2);
    var c := Dec(seconds, 2);
    DecAtAppend("", hours, 2);
    assert "" + a == a;
    DecAtAppend(a, minutes, 2);
    DecAtExtend(a, b, 0, 2, hours);
    DecAtAppend(a + b, seconds, 2);
    DecAtExtend(a + b, c, 0, 2, hours);
    DecAtExtend(a + b, c, 2, 2, minutes);
    DecAtAppend(a + b + c, frames, 2);
    DecAtExtend(a + b + c, Dec(frames, 2), 0, 2, hours);
    DecAtExtend(a + b + c, Dec(frames, 2), 2, 2, minutes);
    DecAtExtend(a + b + c, Dec(frames, 2), 4, 2, seconds);
  }

  /** `AddScheduledCommand_AsString`: `i0`, the timecode, `;` and the
    * command to run at that time. */
  function AddScheduledCommandAsString(hours: uint8, minutes: uint8, seconds: uint8, frames: uint64, command: string): (r: string)
    ensures |r| >= 11 + |command| && r[..2] == "i0"
    ensures r[|r| - |command|..] == command && r[|r| - |command| - 1] == ';'
    ensures hours < 100 && minutes < 100 && seconds < 100 && frames < 100 ==>
              && |r| == 11 + |command| && r[10] == ';'
              && DecAt(r, 2, 2, hours) && DecAt(r, 4, 2, minutes) && DecAt(r, 6, 2, seconds) && DecAt(r, 8, 2, frames)
  {
    ScheduledFields(hours, minutes, seconds, frames, command);
    "i0" + Timecode(hours, minutes, seconds, frames) + (";" + command)
  }

  lemma ScheduledFields(hours: uint8, minutes: uint8, seconds: uint8, frames: uint64, command: string)
    ensures var r := "i0" + Timecode(hours, minutes, seconds, frames) + (";" + command);
      && |r| >= 11 + |command| && r[..2] == "i0"
      && r[|r| - |command|..] == command && r[|r| - |command| - 1] == ';'
      && (hours < 100 && minutes < 100 && seconds < 100 && frames < 100 ==>
            && |r| == 11 + |command| && r[10] == ';'
            && DecAt(r, 2, 2, hours) && DecAt(r, 4, 2, minutes) && DecAt(r, 6, 2, seconds) && DecAt(r, 8, 2, frames))
  {
    var t := Timecode(hours, minutes, seconds, frames);
    var tail := ";" + command;
    var r := "i0" + t + tail;
    TimecodeLength(hours, minutes, seconds, frames);
    ScheduledShape(t, command);
    if hours < 100 && minutes < 100 && seconds < 100 && frames < 100 {
      TimecodeFields(hours, minutes, seconds, frames);
      ShiftTimecode(t, command, hours, minutes, seconds, frames);
    }
  }

  /** The timecode's fields, two characters further on in the command. */
  lemma ShiftTimecode(t: string, command: string, hours: nat, minutes: nat, seconds: nat, frames: nat)
    requires |t| == 8
    requires DecAt(t, 0, 2, hours) && DecAt(t, 2, 2, minutes) && DecAt(t, 4, 2, seconds) && DecAt(t, 6, 2, frames)
    ensures var r := "i0" + t + (";" + command);
      && |r| == 11 + |command| && r[10] == ';'
      && DecAt(r, 2, 2, hours) && DecAt(r, 4, 2, minutes) && DecAt(r, 6, 2, seconds) && DecAt(r, 8, 2, frames)
  {
    var tail := ";" + command;
    assert |"i0"| == 2;
    DecAtWithin("i0", t, tail, 0, hours);
    DecAtWithin("i0", t, tail, 2, minutes);
    DecAtWithin("i0", t, tail, 4, seconds);
    DecAtWithin("i0", t, tail, 6, frames);
    assert ("i0" + t + tail)[10] == tail[0];
  }

  lemma TimecodeLength(hours: uint8, minutes: uint8, seconds: uint8, frames: uint64)
    ensures |Timecode(hours, minutes, seconds, frames)| >= 8
  {
    assert |Dec(hours, 2)| >= 2 && |Dec(minutes, 2)| >= 2 && |Dec(seconds, 2)| >= 2 && |Dec(frames, 2)| >= 2;
  }

  lemma ScheduledShape(t: string, command: string)
    ensures var r := "i0" + t + (";" + command);
      && |r| == 3 + |t| + |command| && r[..2] == "i0"
      && r[|r| - |command|..] == command && r[|r| - |command| - 1] == ';'
  {
    var r := "i0" + t + (";" + command);
    assert r[..2] == "i0";
    assert r[|r| - |command|..] == command;
  }

  /** A two-digit field of `t` sits `|head|` characters further on in
    * `head + t + tail`. */
  lemma DecAtWithin(head: string, t: string, tail: string, i: nat, v: nat)
    requires DecAt(t, i, 2, v)
    ensures DecAt(head + t + tail, |head| + i, 2, v)
  {
    var s := head + t + tail;
    var j := |head| + i;
    assert s[j] == t[i] && s[j + 1] == t[i + 1];
    assert s[j..j + 2] == t[i..i + 2];
  }

  /** `EnquireCurrentTime`: the field rate is the decimal digit `[0]`, then
    * hours, minutes, seconds and frames are decimal pairs. */
  function EnquireCurrentTime(val: string): (r: Result<CurrentTimeResponse>)
    ensures r.Ok? ==> && |val| >= 9
                      && DecAt(val, 0, 1, r.value.fieldRate) && DecAt(val, 1, 2, r.value.hours)
                      && DecAt(val, 3, 2, r.value.minutes) && DecAt(val, 5, 2, r.value.seconds)
                      && DecAt(val, 7, 2, r.value.frames)
    ensures |val| == 0 ==> r == Err(IndexOutOfRange)
    ensures |val| >= 9 && r.Err? ==> r.error == NumError
  {
    var rate :- DecSlice(val, 0, 1, 8);
    var hours :- DecSlice(val, 1, 3, 8);
    var minutes :- DecSlice(val, 3, 5, 8);
    var seconds :- DecSlice(val, 5, 7, 8);
    var frames :- DecSlice(val, 7, 9, 8);
    Pow2Eight();
    Ok(CurrentTimeResponse(rate, hours, minutes, seconds, frames))
  }

  /** The first `n` characters are decimal digits. */
  predicate AllDecimal(val: string, n: nat)
    requires n <= |val|
  {
    forall i :: 0 <= i < n ==> DigitValue(val[i]) < 10
  }

  /** A nine-character reply decodes exactly when its characters are all
    * decimal digits: any other character, a hex letter included, is a parse
    * error. */
  lemma CurrentTimeDigits(val: string)
    requires |val| >= 9
    ensures EnquireCurrentTime(val).Ok? <==> AllDecimal(val, 9)
    ensures !AllDecimal(val, 9) ==> EnquireCurrentTime(val) == Err(NumError)
  {
    CurrentTimeSlices(val);
    DecField(val, 0, 1);
    DecField(val, 1, 2);
    DecField(val, 3, 2);
    DecField(val, 5, 2);
    DecField(val, 7, 2);
    DecimalSlices(val);
  }

  /** A reply long enough for every field decodes exactly when each of its
    * five fields parses, and fails with the parse error otherwise. */
  lemma CurrentTimeSlices(val: string)
    requires |val| >= 9
    ensures EnquireCurrentTime(val).Ok? <==> && DecSlice(val, 0, 1, 8).Ok? && DecSlice(val, 1, 3, 8).Ok?
                                             && DecSlice(val, 3, 5, 8).Ok? && DecSlice(val, 5, 7, 8).Ok?
                                             && DecSlice(val, 7, 9, 8).Ok?
    ensures EnquireCurrentTime(val).Err? ==> EnquireCurrentTime(val) == Err(NumError)
  {
  }

  /** The nine characters are digits exactly when each field is. */
  lemma DecimalSlices(val: string)
    requires |val| >= 9
    ensures AllDecimal(val, 9) <==> && IsDigits(val[0..1], 10) && IsDigits(val[1..3], 10)
                                    && IsDigits(val[3..5], 10) && IsDigits(val[5..7], 10) && IsDigits(val[7..9], 10)
  {
    if !AllDecimal(val, 9) {
      var i :| 0 <= i < 9 && DigitValue(val[i]) >= 10;
      if i < 1 { assert val[0..1][i] == val[i]; }
      else if i < 3 { assert val[1..3][i - 1] == val[i]; }
      else if i < 5 { assert val[3..5][i - 3] == val[i]; }
      else if i < 7 { assert val[5..7][i - 5] == val[i]; }
      else { assert val[7..9][i - 7] == val[i]; }
    } else {
      assert forall i :: 0 <= i < 9 ==> DigitValue(val[i]) < 10;
    }
  }

  /** A field of one or two characters parses as an 8-bit decimal number
    * exactly when its characters are decimal digits. */
  lemma DecField(val: string, lo: nat, width: nat)
    requires 1 <= width <= 2 && lo + width <= |val|
    ensures DecSlice(val, lo, lo + width, 8).Ok? <==> IsDigits(val[lo..lo + width], 10)
  {
    var s := val[lo..lo + width];
    assert DecSlice(val, lo, lo + width, 8) == ParseUint(s, 10, 8);
    if IsDigits(s, 10) {
      ValueBound(s, 10);
      PowValues();
      Pow2Eight();
      assert Value(s, 10) < 100;
    }
  }

  /** A reply carrying a field rate digit and the timecode a scheduled
    * command was given decodes to that rate and timecode. */
  lemma CurrentTimeRoundTrip(rate: OxtelFieldRate, hours: uint8, minutes: uint8, seconds: uint8, frames: uint8, command: string)
    requires rate < 10 && hours < 100 && minutes < 100 && seconds < 100 && frames < 100
    ensures var scheduled := AddScheduledCommandAsString(hours, minutes, seconds, frames as uint64, command);
      EnquireCurrentTime(Dec(rate, 1) + scheduled[2..10]) == Ok(CurrentTimeResponse(rate, hours, minutes, seconds, frames))
  {
    var scheduled := AddScheduledCommandAsString(hours, minutes, seconds, frames as uint64, command);
    CurrentTimeOfTimecode(rate, scheduled, hours, minutes, seconds, frames);
  }

  /** The rate digit followed by the eight timecode characters of a command
    * decodes to that rate and timecode. */
  lemma CurrentTimeOfTimecode(rate: uint8, r: string, hours: uint8, minutes: uint8, seconds: uint8, frames: uint8)
    requires rate < 10 && |r| >= 10
    requires DecAt(r, 2, 2, hours) && DecAt(r, 4, 2, minutes) && DecAt(r, 6, 2, seconds) && DecAt(r, 8, 2, frames)
    ensures EnquireCurrentTime(Dec(rate, 1) + r[2..10]) == Ok(CurrentTimeResponse(rate, hours, minutes, seconds, frames))
  {
    var head := Dec(rate, 1);
    PowValues();
    DecAtAppend("", rate, 1);
    assert "" + head == head;
    DecAtExtend(head, r[2..10], 0, 1, rate);
    DecAtShift(r, head, 2, 10, 2, hours);
    DecAtShift(r, head, 2, 10, 4, minutes);
    DecAtShift(r, head, 2, 10, 6, seconds);
    DecAtShift(r, head, 2, 10, 8, frames);
    CurrentTimeOfFields(head + r[2..10], rate, hours, minutes, seconds, frames);
  }

  /** A reply whose five fields hold the given numbers decodes to them. */
  lemma CurrentTimeOfFields(val: string, rate: uint8, hours: uint8, minutes: uint8, seconds: uint8, frames: uint8)
    requires DecAt(val, 0, 1, rate) && DecAt(val, 1, 2, hours) && DecAt(val, 3, 2, minutes)
    requires DecAt(val, 5, 2, seconds) && DecAt(val, 7, 2, frames)
    ensures EnquireCurrentTime(val) == Ok(CurrentTimeResponse(rate, hours, minutes, seconds, frames))
  {
    DecSliceAt(val, 0, 1, rate);
    DecSliceAt(val, 1, 2, hours);
    DecSliceAt(val, 3, 2, minutes);
    DecSliceAt(val, 5, 2, seconds);
    DecSliceAt(val, 7, 2, frames);
  }

  /** A two-digit field of `r` inside `r[lo..hi]` moves with the slice. */
  lemma DecAtShift(r: string, head: string, lo: nat, hi: nat, i: nat, v: nat)
    requires lo <= i && i + 2 <= hi <= |r| && DecAt(r, i, 2, v)
    ensures DecAt(head + r[lo..hi], |head| + i - lo, 2, v)
  {
    var j := |head| + i - lo;
    var s := head + r[lo..hi];
    assert s[j] == r[i] && s[j + 1] == r[i + 1];
    assert s[j..j + 2] == r[i..i + 2];
  }

  lemma DecSliceAt(val: string, lo: nat, width: nat, v: uint8)
    requires DecAt(val, lo, width, v)
    ensures DecSlice(val, lo, lo + width, 8) == Ok(v as nat)
  {
    Pow2Eight();
  }
}
