/// The wire side of `oxtel.go` without the socket: how `sendCommand` escapes
/// and terminates a command, how `rxLoop` cuts the inbound byte stream into
/// frames, how `handleMessage` routes a frame to the waiting caller or
/// classifies it as one of the unsolicited tallies, and which body
/// `sendCommandExpectResponse` extracts.
module Transport {
  import opened GoInts
  import opened Errors
  import opened GoFmt
  import opened GoStrconv
  import opened GoStrings
  import opened OxtelTypes
  import opened Utils

  // ---------------------------------------------------------------------
  // Outbound: escaping and the terminator

  /** The characters the protocol reserves: the escape character, the two
    * separators and the frame terminator. */
  predicate Reserved(c: char)
  {
    c == '\\' || c == '|' || c == ';' || c == ':'
  }

  /** What the escaping does to one character: a reserved character becomes
    * a backslash and its code as two uppercase hex digits. */
  function EscapeChar(c: char): (r: string)
    ensures Reserved(c) ==> |r| == 3 && r[0] == '\\'
    ensures !Reserved(c) ==> r == [c]
  {
    if c == '\\' then "\\5C"
    else if c == '|' then "\\7C"
    else if c == ';' then "\\3B"
    else if c == ':' then "\\3A"
    else [c]
  }

  /** The per-character reading of the escaping: every character replaced by
    * its escape, in order. */
  function Escaped(cmd: string): (r: string)
  {
    if cmd == [] then [] else EscapeChar(cmd[0]) + Escaped(cmd[1..])
  }

  /** The four `strings.ReplaceAll` calls of `sendCommand`, in their order. */
  function Escape(cmd: string): string
  {
    var s1 := ReplaceAll(cmd, '\\', "\\5C");
    var s2 := ReplaceAll(s1, '|', "\\7C");
    var s3 := ReplaceAll(s2, ';', "\\3B");
    ReplaceAll(s3, ':', "\\3A")
  }

  /** The bytes `sendCommand` writes: the escaped command and the `:`
    * terminator. */
  function Frame(cmd: string): (r: string)
    ensures |r| >= 1 && r[|r| - 1] == ':'
  {
    Escape(cmd) + ":"
  }

  /** Because the backslash is replaced first, the chain of replacements is
    * the same as escaping each character on its own. */
  lemma {:induction false} EscapeIsPerCharacter(cmd: string)
    ensures Escape(cmd) == Escaped(cmd)
  {
    if cmd != [] {
      var c, rest := cmd[0], cmd[1..];
      assert cmd == [c] + rest;
      EscapeAppend([c], rest);
      EscapeIsPerCharacter(rest);
      EscapeOne(c);
    }
  }

  lemma EscapeOne(c: char)
    ensures Escape([c]) == EscapeChar(c)
  {
    ReplaceAllOne(c, '\\', "\\5C");
    var s1 := ReplaceAll([c], '\\', "\\5C");
    if c == '\\' {
      ReplaceAllAbsent(s1, '|', "\\7C");
      ReplaceAllAbsent(s1, ';', "\\3B");
      ReplaceAllAbsent(s1, ':', "\\3A");
    } else {
      ReplaceAllOne(c, '|', "\\7C");
      var s2 := ReplaceAll(s1, '|', "\\7C");
      if c == '|' {
        ReplaceAllAbsent(s2, ';', "\\3B");
        ReplaceAllAbsent(s2, ':', "\\3A");
      } else {
        ReplaceAllOne(c, ';', "\\3B");
        var s3 := ReplaceAll(s2, ';', "\\3B");
        if c == ';' {
          ReplaceAllAbsent(s3, ':', "\\3A");
        } else {
          ReplaceAllOne(c, ':', "\\3A");
        }
      }
    }
  }

  lemma EscapeAppend(a: string, b: string)
    ensures Escape(a + b) == Escape(a) + Escape(b)
  {
    ReplaceAllAppend(a, b, '\\', "\\5C");
    var a1, b1 := ReplaceAll(a, '\\', "\\5C"), ReplaceAll(b, '\\', "\\5C");
    ReplaceAllAppend(a1, b1, '|', "\\7C");
    var a2, b2 := ReplaceAll(a1, '|', "\\7C"), ReplaceAll(b1, '|', "\\7C");
    ReplaceAllAppend(a2, b2, ';', "\\3B");
    var a3, b3 := ReplaceAll(a2, ';', "\\3B"), ReplaceAll(b2, ';', "\\3B");
    ReplaceAllAppend(a3, b3, ':', "\\3A");
  }

  /** An escaped command holds no `:`, `|` or `;`, and a backslash only as
    * the start of an escape. */
  lemma {:induction false} EscapedClean(cmd: string)
    ensures ':' !in Escaped(cmd) && '|' !in Escaped(cmd) && ';' !in Escaped(cmd)
  {
    if cmd != [] {
      EscapedClean(cmd[1..]);
    }
  }

  /** The frame ends in `:` and has no other `:`, and no `|` or `;`. */
  lemma FrameShape(cmd: string)
    ensures var f := Frame(cmd);
      && f[|f| - 1] == ':' && ':' !in f[..|f| - 1] && '|' !in f && ';' !in f
  {
    EscapeIsPerCharacter(cmd);
    EscapedClean(cmd);
    var f := Frame(cmd);
    assert f[..|f| - 1] == Escaped(cmd);
  }

  /** A command without reserved characters goes out unchanged, followed by
    * the terminator. */
  lemma {:induction false} FramePlain(cmd: string)
    requires forall i :: 0 <= i < |cmd| ==> !Reserved(cmd[i])
    ensures Frame(cmd) == cmd + ":"
  {
    ReplaceAllAbsent(cmd, '\\', "\\5C");
    ReplaceAllAbsent(cmd, '|', "\\7C");
    ReplaceAllAbsent(cmd, ';', "\\3B");
    ReplaceAllAbsent(cmd, ':', "\\3A");
  }

  /** Reading an escaped text left to right: `\XX` is the character with hex
    * code XX, anything else stands for itself. */
  function Unescape(s: string): (r: Option<string>)
  {
    if s == [] then Some([])
    else if s[0] != '\\' then
      match Unescape(s[1..])
      case None => None
      case Some(rest) => Some([s[0]] + rest)
    else if |s| < 3 then None
    else
      match ParseUint(s[1..3], 16, 8)
      case Err(_) => None
      case Ok(code) =>
        match Unescape(s[3..])
        case None => None
        case Some(rest) => Some([code as char] + rest)
  }

  /** Unescaping gives back the command. */
  lemma {:induction false} UnescapeEscape(cmd: string)
    ensures Unescape(Escape(cmd)) == Some(cmd)
  {
    EscapeIsPerCharacter(cmd);
    UnescapeEscaped(cmd);
  }

  lemma {:induction false} UnescapeEscaped(cmd: string)
    ensures Unescape(Escaped(cmd)) == Some(cmd)
  {
    if cmd != [] {
      var c, rest := cmd[0], cmd[1..];
      var e := Escaped(cmd);
      assert e == EscapeChar(c) + Escaped(rest);
      UnescapeEscaped(rest);
      if Reserved(c) {
        assert e[3..] == Escaped(rest);
        assert e[1..3] == EscapeChar(c)[1..3];
        UnescapeCode(c);
      } else {
        assert e[1..] == Escaped(rest);
      }
      assert [c] + rest == cmd;
    }
  }

  lemma UnescapeCode(c: char)
    requires Reserved(c)
    ensures ParseUint(EscapeChar(c)[1..3], 16, 8) == Ok(c as int)
  {
    if c == '\\' {
      EscapeCode(c, '5', 'C');
    } else if c == '|' {
      EscapeCode(c, '7', 'C');
    } else if c == ';' {
      EscapeCode(c, '3', 'B');
    } else {
      EscapeCode(c, '3', 'A');
    }
  }

  lemma EscapeCode(c: char, hi: char, lo: char)
    requires EscapeChar(c) == ['\\', hi, lo]
    requires DigitValue(hi) < 16 && DigitValue(lo) < 16 && DigitValue(hi) * 16 + DigitValue(lo) == c as int
    ensures ParseUint(EscapeChar(c)[1..3], 16, 8) == Ok(c as int)
  {
    var code := EscapeChar(c)[1..3];
    assert code == [hi, lo];
    TwoDigitValue(code);
    Pow2Eight();
  }

  lemma TwoDigitValue(d: string)
    requires |d| == 2 && DigitValue(d[0]) < 16 && DigitValue(d[1]) < 16
    ensures IsDigits(d, 16) && Value(d, 16) == DigitValue(d[0]) * 16 + DigitValue(d[1])
  {
    assert d[..1][..0] == [];
    assert Value(d[..1], 16) == DigitValue(d[0]);
  }

  /** Escaping is injective: two commands with the same frame are equal. */
  lemma FrameInjective(a: string, b: string)
    requires Frame(a) == Frame(b)
    ensures a == b
  {
    assert Escape(a) == Frame(a)[..|Frame(a)| - 1];
    assert Escape(b) == Frame(b)[..|Frame(b)| - 1];
    UnescapeEscape(a);
    UnescapeEscape(b);
  }

  // ---------------------------------------------------------------------
  // Inbound: cutting the stream into frames

  /** A line as `ReadString(':')` returns it: ending in its `:` with no
    * other `:`. */
  predicate IsLine(line: string)
  {
    |line| >= 1 && line[|line| - 1] == ':' && ':' !in line[..|line| - 1]
  }

  function Concat(lines: seq<string>): string
  {
    if lines == [] then [] else lines[0] + Concat(lines[1..])
  }

  function FirstColon(s: string): (i: nat)
    requires ':' in s
    ensures i < |s| && s[i] == ':' && ':' !in s[..i]
  {
    if s[0] == ':' then 0
    else
      var i := FirstColon(s[1..]);
      assert s[..i + 1] == [s[0]] + s[1..][..i];
      i + 1
  }

  /** `ReadString(':')` called until the stream runs out: the complete lines,
    * and the text after the last `:`, which a read at the end of the stream
    * returns together with an error and the loop discards. */
  function SplitLines(stream: string): (r: (seq<string>, string))
    ensures Concat(r.0) + r.1 == stream
    ensures forall i :: 0 <= i < |r.0| ==> IsLine(r.0[i])
    ensures ':' !in r.1
    decreases |stream|
  {
    if ':' !in stream then ([], stream)
    else
      var i := FirstColon(stream);
      var rest := SplitLines(stream[i + 1..]);
      SplitStep(stream, i, rest.0, rest.1);
      ([stream[..i + 1]] + rest.0, rest.1)
  }

  lemma SplitStep(stream: string, i: nat, lines: seq<string>, tail: string)
    requires i < |stream| && stream[i] == ':' && ':' !in stream[..i]
    requires Concat(lines) + tail == stream[i + 1..]
    requires forall k :: 0 <= k < |lines| ==> IsLine(lines[k])
    ensures var all := [stream[..i + 1]] + lines;
      Concat(all) + tail == stream && forall k :: 0 <= k < |all| ==> IsLine(all[k])
  {
    var line := stream[..i + 1];
    var all := [line] + lines;
    assert line[..|line| - 1] == stream[..i];
    ConcatCons(line, lines);
    assert stream == line + stream[i + 1..];
    assert line + Concat(lines) + tail == line + (Concat(lines) + tail);
    forall k | 1 <= k < |all|
      ensures IsLine(all[k])
    {
      assert all[k] == lines[k - 1];
    }
  }

  lemma ConcatCons(line: string, lines: seq<string>)
    ensures Concat([line] + lines) == line + Concat(lines)
  {
    assert ([line] + lines)[1..] == lines;
  }

  /** Cutting is the inverse of concatenation: lines written one after the
    * other are read back one by one. */
  lemma {:induction false} SplitConcat(lines: seq<string>, tail: string)
    requires forall i :: 0 <= i < |lines| ==> IsLine(lines[i])
    requires ':' !in tail
    ensures SplitLines(Concat(lines) + tail) == (lines, tail)
  {
    if lines != [] {
      var line := lines[0];
      var rest := Concat(lines[1..]) + tail;
      var s := Concat(lines) + tail;
      assert s == line + rest;
      assert s[..|line| - 1] == line[..|line| - 1];
      assert s[|line| - 1] == ':';
      FirstColonAt(s, |line| - 1);
      assert s[..|line|] == line;
      assert s[|line|..] == rest;
      SplitConcat(lines[1..], tail);
      assert [line] + lines[1..] == lines;
    } else {
      assert Concat(lines) + tail == tail;
    }
  }

  lemma FirstColonAt(s: string, i: nat)
    requires i < |s| && s[i] == ':' && ':' !in s[..i]
    ensures FirstColon(s) == i
  {
  }

  /** The frames `rxLoop` hands to `handleMessage`: each line trimmed of white
    * space, the empty ones skipped. */
  function KeepFrames(lines: seq<string>): seq<string>
  {
    if lines == [] then []
    else
      var line := TrimSpace(lines[0]);
      if |line| > 0 then [line] + KeepFrames(lines[1..]) else KeepFrames(lines[1..])
  }

  function Frames(stream: string): seq<string>
  {
    KeepFrames(SplitLines(stream).0)
  }

  /** A frame starts with its first non-blank character and ends with its
    * only `:`. */
  predicate IsFrame(f: string)
  {
    IsLine(f) && !IsSpace(f[0])
  }

  /** Trimming a line keeps its final `:`, so no line is ever empty after
    * trimming and the emptiness test skips nothing: there is one frame per
    * line, and it is the line without its leading white space. */
  lemma {:induction false} KeepFramesAll(lines: seq<string>)
    requires forall i :: 0 <= i < |lines| ==> IsLine(lines[i])
    ensures |KeepFrames(lines)| == |lines|
    ensures forall i :: 0 <= i < |lines| ==>
              KeepFrames(lines)[i] == TrimLeft(lines[i]) && IsFrame(KeepFrames(lines)[i])
  {
    if lines != [] {
      var tail := lines[1..];
      assert forall i :: 0 <= i < |tail| ==> IsLine(tail[i]);
      KeepFramesAll(tail);
      TrimLine(lines[0]);
      FramesHead(lines);
      FramesCons(lines, tail, KeepFrames(tail), KeepFrames(lines));
    }
  }

  lemma FramesHead(lines: seq<string>)
    requires lines != [] && TrimSpace(lines[0]) == TrimLeft(lines[0]) && IsFrame(TrimLeft(lines[0]))
    ensures KeepFrames(lines) == [TrimLeft(lines[0])] + KeepFrames(lines[1..])
  {
  }

  /** One more line in front adds its trimmed frame in front. */
  lemma FramesCons(lines: seq<string>, tail: seq<string>, rest: seq<string>, frames: seq<string>)
    requires lines != [] && tail == lines[1..] && frames == [TrimLeft(lines[0])] + rest
    requires IsFrame(TrimLeft(lines[0]))
    requires |rest| == |tail|
    requires forall i :: 0 <= i < |tail| ==> rest[i] == TrimLeft(tail[i]) && IsFrame(rest[i])
    ensures |frames| == |lines|
    ensures forall i :: 0 <= i < |lines| ==> frames[i] == TrimLeft(lines[i]) && IsFrame(frames[i])
  {
    forall i | 1 <= i < |lines|
      ensures frames[i] == TrimLeft(lines[i]) && IsFrame(frames[i])
    {
      assert frames[i] == rest[i - 1];
      assert tail[i - 1] == lines[i];
    }
  }

  lemma TrimLine(line: string)
    requires IsLine(line)
    ensures TrimSpace(line) == TrimLeft(line) && IsFrame(TrimLeft(line))
  {
    TrimLeftLine(line);
    TrimRightColon(TrimLeft(line));
  }

  lemma TrimLeftLine(line: string)
    requires IsLine(line)
    ensures IsLine(TrimLeft(line))
  {
    TrimLeftStops(line, |line| - 1);
    SuffixLine(line, TrimLeft(line));
  }

  /** A non-empty suffix of a line is a line. */
  lemma SuffixLine(line: string, t: string)
    requires IsLine(line) && 1 <= |t| <= |line| && t == line[|line| - |t|..]
    ensures IsLine(t)
  {
    var n := |line|;
    var off := n - |t|;
    var body := line[..n - 1];
    forall k | 0 <= k < |t| - 1
      ensures t[k] != ':'
    {
      assert t[k] == body[off + k];
    }
    assert t[|t| - 1] == line[n - 1];
  }

  lemma TrimRightColon(t: string)
    requires |t| >= 1 && t[|t| - 1] == ':'
    ensures TrimRight(t) == t
  {
  }

  lemma {:induction false} TrimLeftStops(s: string, i: nat)
    requires i < |s| && !IsSpace(s[i])
    ensures |TrimLeft(s)| >= |s| - i
    decreases |s|
  {
    if IsSpace(s[0]) {
      TrimLeftStops(s[1..], i - 1);
    }
  }

  /** A peer that writes frames back to back is read frame by frame: the
    * stream of `Frame(c)` for each command is cut into exactly those frames,
    * provided no escaped command starts with white space. */
  lemma FramesOfWire(cmds: seq<string>)
    requires forall i :: 0 <= i < |cmds| ==> Escape(cmds[i]) == [] || !IsSpace(Escape(cmds[i])[0])
    ensures Frames(Concat(seq(|cmds|, i requires 0 <= i < |cmds| => Frame(cmds[i]))))
            == seq(|cmds|, i requires 0 <= i < |cmds| => Frame(cmds[i]))
  {
    var wire := seq(|cmds|, i requires 0 <= i < |cmds| => Frame(cmds[i]));
    forall i | 0 <= i < |wire|
      ensures IsLine(wire[i]) && TrimLeft(wire[i]) == wire[i]
    {
      FrameShape(cmds[i]);
    }
    FramesOfLines(wire);
  }

  /** Lines that start with no white space are read back as themselves. */
  lemma FramesOfLines(wire: seq<string>)
    requires forall i :: 0 <= i < |wire| ==> IsLine(wire[i]) && TrimLeft(wire[i]) == wire[i]
    ensures Frames(Concat(wire)) == wire
  {
    assert Concat(wire) + "" == Concat(wire);
    SplitConcat(wire, "");
    KeepFramesAll(wire);
  }

  // ---------------------------------------------------------------------
  // Routing and classification

  /** What `handleMessage` does with one frame: hand it to the caller waiting
    * for a response, publish a tally, or panic on a malformed frame. */
  datatype Routed = Response(frame: string) | Tally(event: Unsolicited) | Malformed(error: Error)

  /** Whether a frame is taken as the response to `lastCommand`: a command
    * is outstanding and the frame starts with it. */
  predicate Responds(lastCommand: string, message: string)
  {
    |lastCommand| > 0 && StartsWith(message, lastCommand)
  }

  /** The prefix test against the last command sent. A frame shorter than
    * the last command makes the slice `message[:len(lastCommand)]` panic. */
  function Route(lastCommand: string, message: string): (r: Routed)
    ensures r.Response? <==> |lastCommand| > 0 && |lastCommand| <= |message| && message[..|lastCommand|] == lastCommand
    ensures r.Response? <==> Responds(lastCommand, message)
    ensures r.Response? ==> r.frame == message
    ensures |lastCommand| == 0 ==> r == Classified(message)
  {
    if |lastCommand| > 0 && |message| < |lastCommand| then Malformed(IndexOutOfRange)
    else if |lastCommand| > 0 && message[..|lastCommand|] == lastCommand then Response(message)
    else Classified(message)
  }

  function Classified(message: string): (r: Routed)
    ensures !r.Response?
  {
    match Classify(message)
    case Ok(event) => Tally(event)
    case Err(e) => Malformed(e)
  }

  /** Whether `message` starts with `prefix`, compared the way Go compares
    * `message[:len(prefix)]`. */
  predicate StartsWith(message: string, prefix: string)
  {
    |prefix| <= |message| && message[..|prefix|] == prefix
  }

  /** The literal prefix of each tally shape. */
  function TallyPrefix(event: Unsolicited): string
  {
    match event
    case UnsolicitedMessage(_) => ""
    case KeyerPositionTally(_, _, _) => "3"
    case ImageLoadTally(_, _, _) => "Y9"
    case ImagePreloadTally(_, _, _) => "YA"
    case MediaTally(_, _, _, _) => "YB"
    case PlayStateTally(_, _, _) => "YS"
    case VideoTally(_, _, _, _, _, _, _, _) => "Y6"
    case AudioProfileTally(_, _, _) => "jAY"
    case LockTally(_, _, _) => "hOLY"
    case ExternalIOSourceChangedTally(_, _, _, _, _, _) => "hXSY"
    case ExternalIODynamicConfigChangedTally(_, _, _, _, _) => "hXDCY"
  }

  const TallyPrefixes: seq<string> := ["3", "Y9", "YA", "YB", "YS", "Y6", "jAY", "hOLY", "hXSY", "hXDCY"]

  /** `p` and `q` cannot both start one frame. */
  predicate Apart(p: string, q: string)
  {
    !StartsWith(p, q) && !StartsWith(q, p)
  }

  lemma TallyPrefixesApart(i: nat, j: nat)
    requires i < j < |TallyPrefixes|
    ensures Apart(TallyPrefixes[i], TallyPrefixes[j])
  {
    var p, q := TallyPrefixes[i], TallyPrefixes[j];
    assert p[0] != q[0] || p[1] != q[1] || p[2] != q[2];
  }

  /** No tally prefix is a prefix of another, so at most one branch of the
    * classifier can match a frame. */
  lemma PrefixesExclusive(message: string, i: nat, j: nat)
    requires i < |TallyPrefixes| && j < |TallyPrefixes| && i != j
    ensures !(StartsWith(message, TallyPrefixes[i]) && StartsWith(message, TallyPrefixes[j]))
  {
    var p, q := TallyPrefixes[i], TallyPrefixes[j];
    if i < j {
      TallyPrefixesApart(i, j);
    } else {
      TallyPrefixesApart(j, i);
    }
  }

  /** `handleMessage` past the routing test. The frame's last character (its
    * `:`) is dropped for the tallies' `Raw`; each tally decoder panics on a
    * missing or unparsable field. A frame with no tally prefix is passed on
    * whole, but only once the classifier has compared five characters:
    * shorter unknown frames make one of the prefix slices panic. */
  function Classify(message: string): (r: Result<Unsolicited>)
    ensures r.Ok? && !r.value.UnsolicitedMessage? ==>
              |message| >= 1 && r.value.raw == message[..|message| - 1] && StartsWith(message, TallyPrefix(r.value))
    ensures r.Ok? && r.value.UnsolicitedMessage? ==>
              r.value.raw == message && |message| >= 5
              && forall i :: 0 <= i < |TallyPrefixes| ==> !StartsWith(message, TallyPrefixes[i])
    ensures |message| >= 5 && (forall i :: 0 <= i < |TallyPrefixes| ==> !StartsWith(message, TallyPrefixes[i]))
            ==> r == Ok(UnsolicitedMessage(message))
  {
    if message == [] then Err(IndexOutOfRange)
    else
      var clean := message[..|message| - 1];
      assert |TallyPrefixes| == 10;
      if message[0] == '3' then
        assert message[..1] == "3";
        assert StartsWith(message, TallyPrefixes[0]);
        DecodeKeyerPosition(clean)
      else if |message| < 2 then Err(IndexOutOfRange)
      else if message[..2] == "Y9" then
        assert StartsWith(message, TallyPrefixes[1]);
        DecodeImageTally(clean, false)
      else if message[..2] == "YA" then
        assert StartsWith(message, TallyPrefixes[2]);
        DecodeImageTally(clean, true)
      else if message[..2] == "YB" then
        assert StartsWith(message, TallyPrefixes[3]);
        DecodeMediaTally(clean)
      else if message[..2] == "YS" then
        assert StartsWith(message, TallyPrefixes[4]);
        DecodePlayStateTally(clean)
      else if message[..2] == "Y6" then
        assert StartsWith(message, TallyPrefixes[5]);
        DecodeVideoTally(clean)
      else ClassifyLonger(message)
  }

  /** The rest of `Classify`, for frames whose first two characters match
    * none of the shorter tally prefixes. */
  function ClassifyLonger(message: string): (r: Result<Unsolicited>)
    requires |message| >= 2 && message[0] != '3'
    requires message[..2] != "Y9" && message[..2] != "YA" && message[..2] != "YB"
    requires message[..2] != "YS" && message[..2] != "Y6"
    ensures r.Ok? && !r.value.UnsolicitedMessage? ==>
              r.value.raw == message[..|message| - 1] && StartsWith(message, TallyPrefix(r.value))
    ensures r.Ok? && r.value.UnsolicitedMessage? ==>
              r.value.raw == message && |message| >= 5
              && forall i :: 0 <= i < |TallyPrefixes| ==> !StartsWith(message, TallyPrefixes[i])
    ensures |message| >= 5 && (forall i :: 0 <= i < |TallyPrefixes| ==> !StartsWith(message, TallyPrefixes[i]))
            ==> r == Ok(UnsolicitedMessage(message))
  {
      var clean := message[..|message| - 1];
      assert |TallyPrefixes| == 10;
      if |message| < 3 then Err(IndexOutOfRange)
      else if message[..3] == "jAY" then
        assert StartsWith(message, TallyPrefixes[6]);
        DecodeAudioProfileTally(clean)
      else if |message| < 4 then Err(IndexOutOfRange)
      else if message[..4] == "hOLY" then
        assert StartsWith(message, TallyPrefixes[7]);
        DecodeLockTally(clean)
      else if message[..4] == "hXSY" then
        assert StartsWith(message, TallyPrefixes[8]);
        DecodeExternalIOSourceTally(clean)
      else if |message| < 5 then Err(IndexOutOfRange)
      else if message[..5] == "hXDCY" then
        assert StartsWith(message, TallyPrefixes[9]);
        DecodeDynamicConfigTally(clean)
      else
        NoTallyPrefix(message);
        Ok(UnsolicitedMessage(message))
  }

  /** A frame of five characters or more that failed every prefix test of
    * `Classify` starts with none of the tally prefixes. */
  lemma NoTallyPrefix(message: string)
    requires |message| >= 5 && message[0] != '3'
    requires message[..2] != "Y9" && message[..2] != "YA" && message[..2] != "YB"
    requires message[..2] != "YS" && message[..2] != "Y6" && message[..3] != "jAY"
    requires message[..4] != "hOLY" && message[..4] != "hXSY" && message[..5] != "hXDCY"
    ensures forall i :: 0 <= i < |TallyPrefixes| ==> !StartsWith(message, TallyPrefixes[i])
  {
    assert message[..1] != "3" by {
      assert message[..1][0] == message[0];
    }
  }

  /** `clean[i]` alone parses in `base` as `v`, the `string(data[i])`
    * conversions of the decoders. */
  predicate DigitAt(clean: string, i: nat, base: nat, v: nat)
  {
    2 <= base <= 16 && i < |clean| && ParseUint([clean[i]], base, 8) == Ok(v)
  }

  predicate HasDigitAt(clean: string, i: nat, base: nat)
  {
    2 <= base <= 16 && i < |clean| && ParseUint([clean[i]], base, 8).Ok?
  }

  /** `clean[i:i+2]` parses in hex as the 8-bit value `v`. */
  predicate PairAt(clean: string, i: nat, v: nat)
  {
    i + 2 <= |clean| && ParseUint(clean[i..i + 2], 16, 8) == Ok(v)
  }

  predicate HasPairAt(clean: string, i: nat)
  {
    i + 2 <= |clean| && ParseUint(clean[i..i + 2], 16, 8).Ok?
  }

  /** `clean[i]` alone is a `ParseBool` flag with value `b`. */
  predicate FlagAt(clean: string, i: nat, b: bool)
  {
    i < |clean| && ParseBool([clean[i]]) == Ok(b)
  }

  predicate HasFlagAt(clean: string, i: nat)
  {
    i < |clean| && ParseBool([clean[i]]).Ok?
  }

  function DecodeKeyerPosition(clean: string): (r: Result<Unsolicited>)
    ensures r.Ok? <==> HasDigitAt(clean, 1, 16) && HasDigitAt(clean, 3, 10)
    ensures r.Ok? ==> r.value.KeyerPositionTally? && r.value.raw == clean
                      && DigitAt(clean, 1, 16, r.value.layer) && DigitAt(clean, 3, 10, r.value.direction)
  {
    var data :- From(clean, 1);
    var layerText :- CharAt(data, 0);
    assert layerText == [clean[1]];
    var layer :- ParseU8(layerText, 16);
    var directionText :- CharAt(data, 2);
    assert directionText == [clean[3]];
    var direction :- ParseU8(directionText, 10);
    Ok(KeyerPositionTally(clean, layer, direction))
  }

  /** `Y9` (image loaded) and `YA` (image preloaded) share one layout: a hex
    * layer digit, then the template name. */
  function DecodeImageTally(clean: string, preload: bool): (r: Result<Unsolicited>)
    ensures r.Ok? <==> HasDigitAt(clean, 2, 16)
    ensures r.Ok? ==> (if preload then r.value.ImagePreloadTally? else r.value.ImageLoadTally?) && r.value.raw == clean
    ensures r.Ok? ==> (r.value.ImagePreloadTally? || r.value.ImageLoadTally?)
                      && DigitAt(clean, 2, 16, r.value.layer) && r.value.template == clean[3..]
  {
    var data :- From(clean, 2);
    var layerText :- CharAt(data, 0);
    assert layerText == [clean[2]];
    var layer :- ParseU8(layerText, 16);
    var filename := data[1..];
    Ok(if preload then ImagePreloadTally(clean, layer, filename) else ImageLoadTally(clean, layer, filename))
  }

  function DecodeMediaTally(clean: string): (r: Result<Unsolicited>)
    ensures r.Ok? <==> && HasFlagAt(clean, 2) && HasFlagAt(clean, 3) && HasFlagAt(clean, 4) && HasFlagAt(clean, 5)
                       && HasFlagAt(clean, 6) && HasFlagAt(clean, 7) && HasDigitAt(clean, 8, 16)
    ensures r.Ok? ==> r.value.MediaTally? && r.value.raw == clean
    ensures r.Ok? ==> r.value.MediaTally?
                      && FlagAt(clean, 2, r.value.mediaType.unused1) && FlagAt(clean, 3, r.value.mediaType.unused2)
                      && FlagAt(clean, 4, r.value.mediaType.unused3) && FlagAt(clean, 5, r.value.mediaType.unused4)
                      && FlagAt(clean, 6, r.value.mediaType.unused5) && FlagAt(clean, 7, r.value.mediaType.images)
                      && DigitAt(clean, 8, 16, r.value.action) && r.value.filename == clean[9..]
  {
    var data :- From(clean, 2);
    var t1 :- CharAt(data, 0);
    assert t1 == [clean[2]];
    var u1 :- ParseBool(t1);
    var t2 :- CharAt(data, 1);
    assert t2 == [clean[3]];
    var u2 :- ParseBool(t2);
    var t3 :- CharAt(data, 2);
    assert t3 == [clean[4]];
    var u3 :- ParseBool(t3);
    var t4 :- CharAt(data, 3);
    assert t4 == [clean[5]];
    var u4 :- ParseBool(t4);
    var t5 :- CharAt(data, 4);
    assert t5 == [clean[6]];
    var u5 :- ParseBool(t5);
    var t6 :- CharAt(data, 5);
    assert t6 == [clean[7]];
    var images :- ParseBool(t6);
    var actionText :- CharAt(data, 6);
    assert actionText == [clean[8]];
    var action :- ParseU8(actionText, 16);
    var filename := data[7..];
    Ok(MediaTally(clean, MediaTallies(u1, u2, u3, u4, u5, images), action, filename))
  }

  function DecodePlayStateTally(clean: string): (r: Result<Unsolicited>)
    ensures r.Ok? <==> HasDigitAt(clean, 2, 16) && HasDigitAt(clean, 3, 16)
    ensures r.Ok? ==> r.value.PlayStateTally? && r.value.raw == clean
                      && DigitAt(clean, 2, 16, r.value.layer) && DigitAt(clean, 3, 16, r.value.state)
  {
    var data :- From(clean, 2);
    var layerText :- CharAt(data, 0);
    assert layerText == [clean[2]];
    var layer :- ParseU8(layerText, 16);
    var stateText :- CharAt(data, 1);
    assert stateText == [clean[3]];
    var state :- ParseU8(stateText, 16);
    Ok(PlayStateTally(clean, layer, state))
  }

  function DecodeVideoTally(clean: string): (r: Result<Unsolicited>)
    ensures r.Ok? <==> && HasDigitAt(clean, 2, 16) && HasDigitAt(clean, 3, 16) && HasDigitAt(clean, 4, 16)
                       && HasDigitAt(clean, 5, 16) && HasDigitAt(clean, 6, 16) && HasPairAt(clean, 7) && HasPairAt(clean, 9)
    ensures r.Ok? ==> r.value.VideoTally? && r.value.raw == clean
                      && DigitAt(clean, 2, 16, r.value.mixerInput) && DigitAt(clean, 3, 16, r.value.layer0)
                      && DigitAt(clean, 4, 16, r.value.layer1) && DigitAt(clean, 5, 16, r.value.mixerASource)
                      && DigitAt(clean, 6, 16, r.value.mixerBSource)
                      && PairAt(clean, 7, r.value.unused1) && PairAt(clean, 9, r.value.unused2)
  {
    var data :- From(clean, 2);
    var t0 :- CharAt(data, 0);
    assert t0 == [clean[2]];
    var abmix :- ParseU8(t0, 16);
    var t1 :- CharAt(data, 1);
    assert t1 == [clean[3]];
    var layer0 :- ParseU8(t1, 16);
    var t2 :- CharAt(data, 2);
    assert t2 == [clean[4]];
    var layer1 :- ParseU8(t2, 16);
    var t3 :- CharAt(data, 3);
    assert t3 == [clean[5]];
    var mixerA :- ParseU8(t3, 16);
    var t4 :- CharAt(data, 4);
    assert t4 == [clean[6]];
    var mixerB :- ParseU8(t4, 16);
    var t5 :- Slice(data, 5, 7);
    assert t5 == clean[7..9];
    var u1 :- ParseU8(t5, 16);
    var t6 :- Slice(data, 7, 9);
    assert t6 == clean[9..11];
    var u2 :- ParseU8(t6, 16);
    Ok(VideoTally(clean, abmix, layer0, layer1, mixerA, mixerB, u1, u2))
  }

  function DecodeAudioProfileTally(clean: string): (r: Result<Unsolicited>)
    ensures r.Ok? <==> HasDigitAt(clean, 3, 16) && HasPairAt(clean, 4)
    ensures r.Ok? ==> r.value.AudioProfileTally? && r.value.raw == clean
                      && DigitAt(clean, 3, 16, r.value.source) && PairAt(clean, 4, r.value.profile)
  {
    var data :- From(clean, 3);
    var sourceText :- CharAt(data, 0);
    assert sourceText == [clean[3]];
    var source :- ParseU8(sourceText, 16);
    var profileText :- Slice(data, 1, 3);
    assert profileText == clean[4..6];
    var profile :- ParseU8(profileText, 16);
    Ok(AudioProfileTally(clean, source, profile))
  }

  /** `hOLY`: session locks in hex `[0:8]`, permanent locks in hex `[8:16]`,
    * each read as an unsigned 32-bit value and decoded bit by bit. */
  function DecodeLockTally(clean: string): (r: Result<Unsolicited>)
    ensures r.Ok? <==> |clean| >= 20 && ParseUint(clean[4..12], 16, 32).Ok? && ParseUint(clean[12..20], 16, 32).Ok?
    ensures r.Ok? ==> r == Ok(LockTally(clean, DecodeLocks(ParseUint(clean[4..12], 16, 32).value),
                                        DecodeLocks(ParseUint(clean[12..20], 16, 32).value)))
  {
    if |clean| < 4 then Err(IndexOutOfRange)
    else
      var data := clean[4..];
      if |data| < 8 then Err(IndexOutOfRange)
      else
        assert data[..8] == clean[4..12];
        match ParseUint(data[..8], 16, 32)
        case Err(e) => Err(e)
        case Ok(session) =>
          if |data| < 16 then Err(IndexOutOfRange)
          else
            assert data[8..16] == clean[12..20];
            match ParseUint(data[8..16], 16, 32)
            case Err(e) => Err(e)
            case Ok(permanent) => Ok(LockTally(clean, DecodeLocks(session), DecodeLocks(permanent)))
  }

  function DecodeExternalIOSourceTally(clean: string): (r: Result<Unsolicited>)
    ensures r.Ok? <==> HasPairAt(clean, 4) && HasPairAt(clean, 6) && HasPairAt(clean, 8) && HasPairAt(clean, 10) && HasPairAt(clean, 12)
    ensures r.Ok? ==> r.value.ExternalIOSourceChangedTally? && r.value.raw == clean
                      && PairAt(clean, 4, r.value.ioDirection) && PairAt(clean, 6, r.value.ioId)
                      && PairAt(clean, 8, r.value.ioType) && PairAt(clean, 10, r.value.configurationId)
                      && PairAt(clean, 12, r.value.state)
  {
    var data :- From(clean, 4);
    var t0 :- Slice(data, 0, 2);
    assert t0 == clean[4..6];
    var direction :- ParseU8(t0, 16);
    var t1 :- Slice(data, 2, 4);
    assert t1 == clean[6..8];
    var ioId :- ParseU8(t1, 16);
    var t2 :- Slice(data, 4, 6);
    assert t2 == clean[8..10];
    var ioType :- ParseU8(t2, 16);
    var t3 :- Slice(data, 6, 8);
    assert t3 == clean[10..12];
    var configId :- ParseU8(t3, 16);
    var t4 :- Slice(data, 8, 10);
    assert t4 == clean[12..14];
    var state :- ParseU8(t4, 16);
    Ok(ExternalIOSourceChangedTally(clean, direction, ioId, ioType, configId, state))
  }

  /** The network fields of an `hXDCY` tally, taken from the comma-separated
    * parts of the data by IO type. */
  function TallyNetwork(ioType: OxtelExternalIOType, parts: seq<string>): (r: Result<NetworkSettings>)
    ensures r.Ok? ==> (r.value.localInterface.Some? <==> ioType != OXTEL_EXT_IO_TYPE_SDI)
    ensures r.Ok? ==> (r.value.ipAddress.Some? <==> ioType == OXTEL_EXT_IO_TYPE_2022_6 || ioType == OXTEL_EXT_IO_TYPE_2022_6_2022_7)
    ensures r.Ok? ==> (r.value.port.Some? <==> r.value.ipAddress.Some?)
    ensures r.Ok? ==> (r.value.ipAddress2.Some? <==> ioType == OXTEL_EXT_IO_TYPE_2022_6_2022_7)
    ensures r.Ok? ==> (r.value.port2.Some? <==> r.value.ipAddress2.Some?)
    ensures r.Ok? ==> (r.value.sdpFileName.Some? <==> ioType == OXTEL_EXT_IO_TYPE_2110)
    ensures r.Ok? && r.value.localInterface.Some? ==> 1 < |parts| && r.value.localInterface.value == parts[1]
    ensures r.Ok? && r.value.ipAddress.Some? ==>
              && 3 < |parts| && r.value.ipAddress.value == parts[2]
              && ParseUint(parts[3], 10, 32) == Ok(r.value.port.value as nat)
    ensures r.Ok? && r.value.ipAddress2.Some? ==>
              && 5 < |parts| && r.value.ipAddress2.value == parts[4]
              && ParseUint(parts[5], 10, 32) == Ok(r.value.port2.value as nat)
    ensures r.Ok? && r.value.sdpFileName.Some? ==> 2 < |parts| && r.value.sdpFileName.value == parts[2]
  {
    var localInterface :- if ioType != OXTEL_EXT_IO_TYPE_SDI then OptionalPart(parts, 1) else Ok(None);
    var ip: (Option<string>, Option<uint32>) :-
      if ioType == OXTEL_EXT_IO_TYPE_2022_6 || ioType == OXTEL_EXT_IO_TYPE_2022_6_2022_7 then AddressAndPort(parts, 2)
      else Ok((None, None));
    var ip2: (Option<string>, Option<uint32>) :-
      if ioType == OXTEL_EXT_IO_TYPE_2022_6_2022_7 then AddressAndPort(parts, 4) else Ok((None, None));
    var sdp :- if ioType == OXTEL_EXT_IO_TYPE_2110 then OptionalPart(parts, 2) else Ok(None);
    Ok(NetworkSettings(localInterface, ip.0, ip.1, ip2.0, ip2.1, sdp))
  }

  /** `&parts[i]`. */
  function OptionalPart(parts: seq<string>, i: nat): (r: Result<Option<string>>)
    ensures r.Ok? ==> i < |parts| && r.value == Some(parts[i])
  {
    var p :- Part(parts, i);
    Ok(Some(p))
  }

  /** `&parts[i]` and the decimal 32-bit port in `parts[i + 1]`. */
  function AddressAndPort(parts: seq<string>, i: nat): (r: Result<(Option<string>, Option<uint32>)>)
    ensures r.Ok? ==> i + 1 < |parts| && r.value.0 == Some(parts[i]) && r.value.1.Some?
    ensures r.Ok? ==> ParseUint(parts[i + 1], 10, 32) == Ok(r.value.1.value as nat)
  {
    var address :- Part(parts, i);
    var portText :- Part(parts, i + 1);
    var port :- ParseU32(portText, 10);
    Ok((Some(address), Some(port)))
  }

  function DecodeDynamicConfigTally(clean: string): (r: Result<Unsolicited>)
    ensures r.Ok? <==> HasPairAt(clean, 5) && HasPairAt(clean, 7) && HasPairAt(clean, 9)
                       && TallyNetwork(ParseUint(clean[9..11], 16, 8).value, Split(clean[5..], ',')).Ok?
    ensures r.Ok? ==> r.value.ExternalIODynamicConfigChangedTally? && r.value.raw == clean
                      && PairAt(clean, 5, r.value.ioDirection) && PairAt(clean, 7, r.value.ioId)
                      && PairAt(clean, 9, r.value.ioType)
                      && Ok(r.value.network) == TallyNetwork(r.value.ioType, Split(clean[5..], ','))
  {
    var data :- From(clean, 5);
    var t0 :- Slice(data, 0, 2);
    assert t0 == clean[5..7];
    var direction :- ParseU8(t0, 16);
    var t1 :- Slice(data, 2, 4);
    assert t1 == clean[7..9];
    var ioId :- ParseU8(t1, 16);
    var t2 :- Slice(data, 4, 6);
    assert t2 == clean[9..11];
    var ioType :- ParseU8(t2, 16);
    var network :- TallyNetwork(ioType, Split(data, ','));
    Ok(ExternalIODynamicConfigChangedTally(clean, direction, ioId, ioType, network))
  }

  /** A frame starting with `hOLY` goes to the lock-tally decoder. */
  lemma ClassifyLock(message: string)
    requires StartsWith(message, "hOLY")
    ensures Classify(message) == DecodeLockTally(message[..|message| - 1])
  {
    assert message[..2] == "hO" && message[..3] == "hOL" && message[..4] == "hOLY";
    assert "hO"[0] != "Y9"[0] && "hO" != "Y9" && "hO" != "YA" && "hO" != "YB" && "hO" != "YS" && "hO" != "Y6";
    assert Classify(message) == ClassifyLonger(message);
    assert "hOL"[0] != "jAY"[0] && "hOL" != "jAY";
  }

  /** The lock tally the device sends for the session and permanent lock
    * values `BuildSessionLocks` builds decodes to exactly those flags. */
  lemma LockTallyRoundTrip(session: LocksResponse, permanent: LocksResponse)
    ensures var s := BuildSessionLocks(session.mixer, session.layers);
            var p := BuildSessionLocks(permanent.mixer, permanent.layers);
            var message := "hOLY" + Hex(s, 8) + Hex(p, 8) + ":";
            Classify(message) == Ok(LockTally(message[..|message| - 1], session, permanent))
  {
    var s := BuildSessionLocks(session.mixer, session.layers);
    var p := BuildSessionLocks(permanent.mixer, permanent.layers);
    var message := "hOLY" + Hex(s, 8) + Hex(p, 8) + ":";
    var clean := message[..|message| - 1];
    assert clean == "hOLY" + Hex(s, 8) + Hex(p, 8);
    LockFields(s, p);
    assert message[..4] == "hOLY";
    ClassifyLock(message);
    DecodeSessionLocks(session.mixer, session.layers);
    DecodeSessionLocks(permanent.mixer, permanent.layers);
  }

  lemma LockFields(s: int32, p: int32)
    requires 0 <= s < 0x1_0000 && 0 <= p < 0x1_0000
    ensures var clean := "hOLY" + Hex(s, 8) + Hex(p, 8);
      |clean| == 20 && ParseUint(clean[4..12], 16, 32) == Ok(s) && ParseUint(clean[12..20], 16, 32) == Ok(p)
  {
    var clean := "hOLY" + Hex(s, 8) + Hex(p, 8);
    Pow2ThirtyTwo();
    assert Pow(16, 8) == 0x1_0000_0000 by { Pow16(8); }
    HexLength(s, 8);
    HexLength(p, 8);
    assert clean[4..12] == Hex(s, 8);
    assert clean[12..20] == Hex(p, 8);
    HexParse(s, 8, 32);
    HexParse(p, 8, 32);
  }

  // ---------------------------------------------------------------------
  // Waiting for a response

  /** The body `sendCommandExpectResponse` takes from the response frame:
    * the frame without the command prefix and without its last character.
    * A frame that is the bare command makes the slice panic. */
  function Body(cmd: string, frame: string): (r: Result<string>)
    requires StartsWith(frame, cmd)
    ensures r.Ok? <==> |cmd| < |frame|
    ensures r.Ok? ==> cmd + r.value + [frame[|frame| - 1]] == frame
  {
    if |frame| - 1 < |cmd| then Err(IndexOutOfRange)
    else
      assert frame == frame[..|cmd|] + frame[|cmd|..|frame| - 1] + [frame[|frame| - 1]];
      Ok(frame[|cmd|..|frame| - 1])
  }

  /** The outcome for a caller that has sent `cmd` and is waiting while the
    * frames `inbound` arrive before the five-second timeout: every frame is
    * routed with `lastCommand == cmd`, and the first one routed as a
    * response gives the body. */
  function AwaitResponse(cmd: string, inbound: seq<string>): Result<string>
  {
    if inbound == [] then Err(TimeoutError)
    else if Responds(cmd, inbound[0]) then Body(cmd, inbound[0])
    else AwaitResponse(cmd, inbound[1..])
  }

  /** The index of the first frame routed as a response, if any. */
  function FirstResponse(cmd: string, inbound: seq<string>): (n: nat)
    ensures n <= |inbound|
    ensures forall j :: 0 <= j < n ==> !Responds(cmd, inbound[j])
    ensures n < |inbound| ==> Responds(cmd, inbound[n])
  {
    if inbound == [] then 0
    else if Responds(cmd, inbound[0]) then 0
    else
      var n := FirstResponse(cmd, inbound[1..]);
      assert forall j :: 1 <= j < n + 1 ==> inbound[j] == inbound[1..][j - 1];
      n + 1
  }

  /** The outcome is the body of the first frame that starts with the
    * command, and a timeout exactly when no frame does. */
  lemma {:induction false} AwaitResponseFirst(cmd: string, inbound: seq<string>)
    ensures var n := FirstResponse(cmd, inbound);
      && (n == |inbound| ==> AwaitResponse(cmd, inbound) == Err(TimeoutError))
      && (n < |inbound| ==> StartsWith(inbound[n], cmd) && AwaitResponse(cmd, inbound) == Body(cmd, inbound[n]))
  {
    if inbound != [] && !Responds(cmd, inbound[0]) {
      AwaitResponseFirst(cmd, inbound[1..]);
    }
  }

  /** With an empty command nothing is ever routed as a response, and the
    * wait always ends in a timeout. */
  lemma {:induction false} AwaitEmptyCommand(inbound: seq<string>)
    ensures AwaitResponse("", inbound) == Err(TimeoutError)
  {
    if inbound != [] {
      AwaitEmptyCommand(inbound[1..]);
    }
  }

  /** `lastCommand` is never cleared, so once a command has been sent every
    * later frame that starts with it goes to the response path, even an
    * unsolicited tally that starts the same way: after `EnquireVideoTallies`
    * (command `Y6`) no `Y6` video tally is classified any more. */
  lemma StickyLastCommand(lastCommand: string, message: string)
    requires |lastCommand| > 0 && StartsWith(message, lastCommand)
    ensures Route(lastCommand, message) == Response(message)
  {
  }

  lemma VideoTallyCaptured(message: string)
    requires StartsWith(message, "Y6")
    ensures Route("Y6", message).Response?
    ensures !Route("", message).Response?
  {
  }
}
