/// `template_file_management.go`: the file enquiries (`R3` to `R6`, `RA`),
/// their decoders, and the media tallies (`YB`).
module TemplateFileManagement {
  import opened GoInts
  import opened Errors
  import opened GoFmt
  import opened GoStrconv
  import opened GoStrings
  import opened OxtelTypes
  import opened Utils
  import opened Fields

  const EnquireMediaTalliesCommand := "YB"

  /** The folder alias a file query uses when none is given. */
  const DefaultFolder := "$VIDEO"

  // ---------------------------------------------------------------------
  // File information

  /** `EnquireFileInfo_AsString`: `R3` and the file name. */
  function EnquireFileInfoAsString(fileName: string): (r: string)
    ensures |r| == 2 + |fileName| && r[..2] == "R3" && r[2..] == fileName
  {
    "R3" + fileName
  }

  /** `EnquireFileInfo`: whether the file exists is the boolean `[0]`, and its
    * name the rest of the body. */
  function EnquireFileInfo(val: string): (r: Result<FileInfoResponse>)
    ensures r.Ok? <==> |val| >= 1 && ParseBool([val[0]]).Ok?
    ensures r.Ok? ==> r.value == FileInfoResponse(ParseBool([val[0]]).value, val[1..])
    ensures r.Err? ==> r.error == if |val| == 0 then IndexOutOfRange else NumError
  {
    var found :- BoolAt(val, 0);
    Ok(FileInfoResponse(found, val[1..]))
  }

  /** A reply of a flag digit and a name reports that flag and that name. */
  lemma FileInfoRoundTrip(found: bool, fileName: string)
    ensures EnquireFileInfo(BoolDigit(found) + fileName) == Ok(FileInfoResponse(found, fileName))
  {
    var val := BoolDigit(found) + fileName;
    assert [val[0]] == BoolDigit(found);
    assert val[1..] == fileName;
  }

  // ---------------------------------------------------------------------
  // Folder enumeration

  /** The folder a query names: the one given, or `$VIDEO`. */
  function FolderOrDefault(folderName: Option<string>): (r: string)
    ensures folderName.None? ==> r == DefaultFolder
    ensures folderName.Some? ==> r == folderName.value
  {
    if folderName.Some? then folderName.value else DefaultFolder
  }

  /** `QueryFirstFile_AsString`: `R4` and the folder, `$VIDEO` when none is
    * given. */
  function QueryFirstFileAsString(folderName: Option<string>): (r: string)
    ensures folderName.None? ==> r == "R4$VIDEO"
    ensures folderName.Some? ==> |r| == 2 + |folderName.value| && r[..2] == "R4" && r[2..] == folderName.value
  {
    "R4" + FolderOrDefault(folderName)
  }

  /** `QuerySubsequentFile_AsString`: `R5` and the folder, `$VIDEO` when none
    * is given. */
  function QuerySubsequentFileAsString(folderName: Option<string>): (r: string)
    ensures folderName.None? ==> r == "R5$VIDEO"
    ensures folderName.Some? ==> |r| == 2 + |folderName.value| && r[..2] == "R5" && r[2..] == folderName.value
  {
    "R5" + FolderOrDefault(folderName)
  }

  /** The decoding `QueryFirstFile` and `QuerySubsequentFile` both apply: the
    * end-of-directory flag is the boolean `[0]`, `[1]` is skipped, and the
    * name is `[2:]`, so a body of one valid flag is a panic. */
  function DecodeFileQuery(val: string): (r: Result<FileQueryResponse>)
    ensures r.Ok? <==> |val| >= 2 && ParseBool([val[0]]).Ok?
    ensures r.Ok? ==> r.value == FileQueryResponse(ParseBool([val[0]]).value, val[2..])
    ensures |val| == 1 && ParseBool([val[0]]).Ok? ==> r == Err(IndexOutOfRange)
  {
    var eod :- BoolAt(val, 0);
    var name :- From(val, 2);
    Ok(FileQueryResponse(eod, name))
  }

  /** A reply of a flag digit, any separator and a name reports that flag and
    * that name. */
  lemma FileQueryRoundTrip(endOfDir: bool, separator: char, fileName: string)
    ensures DecodeFileQuery(BoolDigit(endOfDir) + [separator] + fileName) == Ok(FileQueryResponse(endOfDir, fileName))
  {
    var val := BoolDigit(endOfDir) + [separator] + fileName;
    assert [val[0]] == BoolDigit(endOfDir);
    assert val[2..] == fileName;
  }

  // ---------------------------------------------------------------------
  // Extended file information

  /** `EnquireExtendedFileInformation_AsString`: `R6` and the file name. */
  function EnquireExtendedFileInformationAsString(fileName: string): (r: string)
    ensures |r| == 2 + |fileName| && r[..2] == "R6" && r[2..] == fileName
  {
    "R6" + fileName
  }

  /** `strconv.ParseInt(val[lo:hi], 16, 64)`: a sign is allowed. */
  function SignedHexSlice(val: string, lo: nat, hi: nat): (r: Result<int64>)
    ensures r.Ok? <==> lo <= hi <= |val| && ParseInt(val[lo..hi], 16, 64).Ok?
    ensures r.Ok? ==> r.value as int == ParseInt(val[lo..hi], 16, 64).value
    ensures !(lo <= hi <= |val|) ==> r == Err(IndexOutOfRange)
    ensures lo <= hi <= |val| && r.Err? ==> r.error == NumError
  {
    var s :- Slice(val, lo, hi);
    var v :- ParseInt(s, 16, 64);
    Pow2SixtyFour();
    Ok(v)
  }

  /** `intToBool(strconv.Atoi(string(val[0])))`: only a decimal `0` or `1`
    * is a flag; another decimal digit is an `intToBool` error. */
  function ExistsFlag(val: string): (r: Result<bool>)
    ensures r.Ok? <==> |val| >= 1 && (val[0] == '0' || val[0] == '1')
    ensures r.Ok? ==> (r.value <==> val[0] == '1')
    ensures |val| >= 1 && '2' <= val[0] <= '9' ==> r == Err(BaseError)
    ensures |val| >= 1 && DigitValue(val[0]) >= 10 ==> r == Err(NumError)
    ensures |val| == 0 ==> r == Err(IndexOutOfRange)
  {
    FlagDigit(val);
    var flag :- CharAt(val, 0);
    var boolVal :- Atoi(flag);
    IntToBool(boolVal)
  }

  /** Where the twelve numeric fields of an extended-information reply sit:
    * x and y position, width, height, clip, gain and transparency as
    * 3-digit fields over `[1:22]`, then image type `[22:24]`, frame count
    * `[24:28]`, animation mode `[28]`, load time `[29:31]` and associated
    * audio `[31]`. */
  const ExtendedSpans: seq<(nat, nat)> :=
    [(1, 4), (4, 7), (7, 10), (10, 13), (13, 16), (16, 19), (19, 22), (22, 24), (24, 28), (28, 29), (29, 31), (31, 32)]

  /** The signed hex fields at `spans`, read in order: the first that is
    * missing or malformed decides the error. */
  function SignedHexFields(val: string, spans: seq<(nat, nat)>): Result<seq<int64>>
  {
    Collect(seq(|spans|, i requires 0 <= i < |spans| => SignedHexSlice(val, spans[i].0, spans[i].1)))
  }

  /** The values of a run of reads, or the error of the first that failed. */
  function Collect(parsed: seq<Result<int64>>): (r: Result<seq<int64>>)
    ensures r.Ok? ==> |r.value| == |parsed|
  {
    if parsed == [] then Ok([])
    else
      var init :- Collect(parsed[..|parsed| - 1]);
      var last :- parsed[|parsed| - 1];
      Ok(init + [last])
  }

  /** A run of parsed succeeds exactly when every read does, and then holds
    * their values in order. */
  lemma {:induction false} CollectAll(parsed: seq<Result<int64>>)
    ensures Collect(parsed).Ok? <==> forall i :: 0 <= i < |parsed| ==> parsed[i].Ok?
    ensures Collect(parsed).Ok? ==> forall i :: 0 <= i < |parsed| ==> parsed[i] == Ok(Collect(parsed).value[i])
  {
    if parsed != [] {
      var n := |parsed| - 1;
      var init := parsed[..n];
      CollectAll(init);
      assert forall i :: 0 <= i < n ==> init[i] == parsed[i];
    }
  }

  /** The fields read succeed exactly when every span holds a number, and
    * then they are those numbers, in order. */
  lemma SignedHexFieldsAll(val: string, spans: seq<(nat, nat)>)
    ensures SignedHexFields(val, spans).Ok? <==> forall i :: 0 <= i < |spans| ==> SignedHexSlice(val, spans[i].0, spans[i].1).Ok?
    ensures SignedHexFields(val, spans).Ok? ==> |SignedHexFields(val, spans).value| == |spans|
    ensures SignedHexFields(val, spans).Ok? ==>
              forall i :: 0 <= i < |spans| ==> SignedHexSlice(val, spans[i].0, spans[i].1) == Ok(SignedHexFields(val, spans).value[i])
  {
    var parsed := seq(|spans|, i requires 0 <= i < |spans| => SignedHexSlice(val, spans[i].0, spans[i].1));
    assert SignedHexFields(val, spans) == Collect(parsed);
    assert forall i :: 0 <= i < |spans| ==> parsed[i] == SignedHexSlice(val, spans[i].0, spans[i].1);
    CollectAll(parsed);
  }

  /** `EnquireExtendedFileInformation`: `[0]` is the decimal 0 or 1 of
    * `intToBool`; then the numeric fields, each signed hex, at the
    * `ExtendedSpans`; the name is `[32:]`. */
  function EnquireExtendedFileInformation(val: string): (r: Result<ExtendedFileInfoResponse>)
    ensures r.Ok? ==> |val| >= 32 && ExistsFlag(val) == Ok(r.value.fileExists)
    ensures r.Ok? ==> && SignedHexSlice(val, 1, 4) == Ok(r.value.xPosition)
                      && SignedHexSlice(val, 4, 7) == Ok(r.value.yPosition)
                      && SignedHexSlice(val, 7, 10) == Ok(r.value.width)
                      && SignedHexSlice(val, 10, 13) == Ok(r.value.height)
                      && SignedHexSlice(val, 13, 16) == Ok(r.value.clip)
                      && SignedHexSlice(val, 16, 19) == Ok(r.value.gain)
                      && SignedHexSlice(val, 19, 22) == Ok(r.value.transparency)
                      && SignedHexSlice(val, 22, 24) == Ok(r.value.imageType)
                      && SignedHexSlice(val, 24, 28) == Ok(r.value.frames)
                      && SignedHexSlice(val, 28, 29) == Ok(r.value.animationMode)
                      && SignedHexSlice(val, 29, 31) == Ok(r.value.loadTime)
                      && SignedHexSlice(val, 31, 32) == Ok(r.value.associatedAudio)
    ensures r.Ok? ==> r.value.filename == val[32..]
    ensures |val| >= 1 && '2' <= val[0] <= '9' ==> r == Err(BaseError)
    ensures |val| >= 1 && DigitValue(val[0]) >= 10 ==> r == Err(NumError)
    ensures |val| == 0 ==> r == Err(IndexOutOfRange)
  {
    var found :- ExistsFlag(val);
    var n :- SignedHexFields(val, ExtendedSpans);
    SignedHexFieldsAll(val, ExtendedSpans);
    assert SignedHexSlice(val, 31, 32).Ok? by { assert ExtendedSpans[11] == (31, 32); }
    ExtendedResponse(val, found, n)
  }

  /** The response built from the flag and the twelve numbers, in order. */
  function ExtendedResponse(val: string, found: bool, n: seq<int64>): (r: Result<ExtendedFileInfoResponse>)
    requires |n| == 12 && |val| >= 32
    requires forall i :: 0 <= i < 12 ==> SignedHexSlice(val, ExtendedSpans[i].0, ExtendedSpans[i].1) == Ok(n[i])
    ensures r.Ok? && r.value.fileExists == found && r.value.filename == val[32..]
    ensures && SignedHexSlice(val, 1, 4) == Ok(r.value.xPosition)
            && SignedHexSlice(val, 4, 7) == Ok(r.value.yPosition)
            && SignedHexSlice(val, 7, 10) == Ok(r.value.width)
            && SignedHexSlice(val, 10, 13) == Ok(r.value.height)
            && SignedHexSlice(val, 13, 16) == Ok(r.value.clip)
            && SignedHexSlice(val, 16, 19) == Ok(r.value.gain)
            && SignedHexSlice(val, 19, 22) == Ok(r.value.transparency)
            && SignedHexSlice(val, 22, 24) == Ok(r.value.imageType)
            && SignedHexSlice(val, 24, 28) == Ok(r.value.frames)
            && SignedHexSlice(val, 28, 29) == Ok(r.value.animationMode)
            && SignedHexSlice(val, 29, 31) == Ok(r.value.loadTime)
            && SignedHexSlice(val, 31, 32) == Ok(r.value.associatedAudio)
  {
    Ok(ExtendedFileInfoResponse(found, n[0], n[1], n[2], n[3], n[4], n[5], n[6], n[7], n[8], n[9], n[10], n[11], val[32..]))
  }

  /** A one-character decimal field is its digit; a sign alone is no number. */
  lemma DecimalDigitAtoi(c: char)
    ensures Atoi([c]).Ok? <==> DigitValue(c) < 10
    ensures Atoi([c]).Ok? ==> Atoi([c]).value == DigitValue(c)
  {
    ParseIntDigit(c, 10, 64);
  }

  /** A hex field is read the same by the signed parse: its first character
    * is a digit, not a sign. */
  lemma HexAtParseInt(val: string, i: nat, width: nat, v: nat)
    requires HexAt(val, i, width, v) && width <= 15
    ensures ParseInt(val[i..i + width], 16, 64) == Ok(v)
  {
    HexAtBound(val, i, width, v);
    Pow16(width);
    Pow2Monotone(4 * width, 63);
    ParseIntUnsigned(val[i..i + width], 16, 64, v);
  }

  /** What `Atoi(string(val[0]))` makes of the first character. */
  lemma FlagDigit(val: string)
    ensures |val| >= 1 ==> (Atoi([val[0]]).Ok? <==> DigitValue(val[0]) < 10)
    ensures |val| >= 1 && Atoi([val[0]]).Ok? ==> Atoi([val[0]]).value == DigitValue(val[0])
  {
    if |val| >= 1 {
      DecimalDigitAtoi(val[0]);
    }
  }

  /** A `width`-digit hex field at `lo` is what the signed slice reads. */
  lemma SignedHexField(val: string, lo: nat, width: nat, v: int64)
    requires 1 <= width <= 4 && v >= 0 && HexAt(val, lo, width, v as nat)
    ensures SignedHexSlice(val, lo, lo + width) == Ok(v)
  {
    HexAtParseInt(val, lo, width, v as nat);
  }

  /** How many characters each of the `ExtendedSpans` covers. */
  const ExtendedWidths: seq<nat> := [3, 3, 3, 3, 3, 3, 3, 2, 4, 1, 2, 1]

  /** The twelve numbers of an extended-information reply, in span order. */
  function ExtendedValues(e: ExtendedFileInfoResponse): (r: seq<int64>)
    ensures |r| == 12
  {
    [e.xPosition, e.yPosition, e.width, e.height, e.clip, e.gain, e.transparency,
     e.imageType, e.frames, e.animationMode, e.loadTime, e.associatedAudio]
  }

  /** Every number of `e` is non-negative and written in hex, padded to the
    * width of its span, at the start of that span. */
  predicate ExtendedFields(val: string, e: ExtendedFileInfoResponse)
  {
    forall i :: 0 <= i < 12 ==>
      ExtendedValues(e)[i] >= 0 && HexAt(val, ExtendedSpans[i].0, ExtendedWidths[i], ExtendedValues(e)[i] as nat)
  }

  /** Every body with the flag digit, the hex fields and the name in place
    * decodes to them. */
  lemma ExtendedFileInfoFields(val: string, e: ExtendedFileInfoResponse)
    requires |val| >= 32 && val[0] == (if e.fileExists then '1' else '0')
    requires ExtendedFields(val, e)
    requires val[32..] == e.filename
    ensures EnquireExtendedFileInformation(val) == Ok(e)
  {
    ExtendedNumbers(val, e);
    assert ExistsFlag(val) == Ok(e.fileExists);
  }

  /** The numeric fields of such a body read back as the numbers of `e`. */
  lemma ExtendedNumbers(val: string, e: ExtendedFileInfoResponse)
    requires ExtendedFields(val, e)
    ensures SignedHexFields(val, ExtendedSpans) == Ok(ExtendedValues(e))
  {
    ExtendedSpansHold(val, e);
    SignedHexFieldsAll(val, ExtendedSpans);
    var n := SignedHexFields(val, ExtendedSpans);
    assert n.Ok?;
    assert n.value == ExtendedValues(e);
  }

  /** Each numeric field of `e` sits at its span. */
  lemma ExtendedSpansHold(val: string, e: ExtendedFileInfoResponse)
    requires ExtendedFields(val, e)
    ensures forall i :: 0 <= i < 12 ==> SignedHexSlice(val, ExtendedSpans[i].0, ExtendedSpans[i].1) == Ok(ExtendedValues(e)[i])
  {
    forall i | 0 <= i < 12 ensures SignedHexSlice(val, ExtendedSpans[i].0, ExtendedSpans[i].1) == Ok(ExtendedValues(e)[i]) {
      var lo := ExtendedSpans[i].0;
      assert 1 <= ExtendedWidths[i] <= 4 && ExtendedSpans[i].1 == lo + ExtendedWidths[i];
      SignedHexField(val, lo, ExtendedWidths[i], ExtendedValues(e)[i]);
    }
  }

  // ---------------------------------------------------------------------
  // Template validation

  /** `ValidateTemplate_AsString`: `RA` and the file name. */
  function ValidateTemplateAsString(fileName: string): (r: string)
    ensures |r| == 2 + |fileName| && r[..2] == "RA" && r[2..] == fileName
  {
    "RA" + fileName
  }

  /** `ValidateTemplate`: split on `|`; the name is the first part, whether
    * it exists the first character of the second, and the missing-asset
    * count the next four characters as signed 16-bit hex. */
  function ValidateTemplate(val: string): (r: Result<ValidateTemplateResponse>)
    ensures var data := Split(val, '|');
      r.Ok? ==> && |data| >= 2 && |data[1]| >= 5 && r.value.filename == data[0]
                && ParseBool([data[1][0]]) == Ok(r.value.fileExists)
                && ParseInt(data[1][1..5], 16, 16) == Ok(r.value.missingAssets as int)
    ensures var data := Split(val, '|');
      r.Ok? <==> && |data| >= 2 && |data[1]| >= 5 && ParseBool([data[1][0]]).Ok?
                 && ParseInt(data[1][1..5], 16, 16).Ok?
    ensures |Split(val, '|')| < 2 ==> r == Err(IndexOutOfRange)
  {
    var data := Split(val, '|');
    var second :- Part(data, 1);
    var found :- BoolAt(second, 0);
    var digits :- Slice(second, 1, 5);
    var missingAssets :- ParseI16(digits, 16);
    Ok(ValidateTemplateResponse(data[0], found, missingAssets))
  }

  /** A reply of the name, `|`, the flag digit and the count in four hex
    * digits reports them, for a name without `|`. */
  lemma ValidateTemplateRoundTrip(fileName: string, found: bool, missingAssets: int16)
    requires '|' !in fileName && missingAssets >= 0
    ensures ValidateTemplate(fileName + "|" + BoolDigit(found) + Hex(missingAssets as nat, 4))
            == Ok(ValidateTemplateResponse(fileName, found, missingAssets))
  {
    var second := BoolDigit(found) + Hex(missingAssets as nat, 4);
    var val := fileName + "|" + second;
    CountField(found, missingAssets);
    ValidateSplit(fileName, second);
    assert val == fileName + "|" + BoolDigit(found) + Hex(missingAssets as nat, 4);
  }

  /** The reply splits into the name and the flag-and-count field. */
  lemma ValidateSplit(fileName: string, second: string)
    requires '|' !in fileName && '|' !in second
    ensures Split(fileName + "|" + second, '|') == [fileName, second]
  {
    SplitJoin([fileName, second], '|');
    assert Join([fileName, second], '|') == fileName + "|" + second;
  }

  /** The flag and count read back from the second field. */
  lemma CountField(found: bool, missingAssets: int16)
    requires missingAssets >= 0
    ensures var second := BoolDigit(found) + Hex(missingAssets as nat, 4);
      && '|' !in second && |second| == 5 && ParseBool([second[0]]) == Ok(found)
      && ParseInt(second[1..5], 16, 16) == Ok(missingAssets as int)
  {
    var flag := BoolDigit(found);
    var count := Hex(missingAssets as nat, 4);
    var second := flag + count;
    CountDigits(missingAssets);
    assert [second[0]] == flag;
    assert second[1..5] == count;
  }

  /** The count's four hex digits, which hold no `|` and read back as the
    * signed 16-bit count. */
  lemma CountDigits(missingAssets: int16)
    requires missingAssets >= 0
    ensures var count := Hex(missingAssets as nat, 4);
      && '|' !in count && |count| == 4 && ParseInt(count, 16, 16) == Ok(missingAssets as int)
  {
    PowValues();
    Pow2Sixteen();
    HexLength(missingAssets as nat, 4);
    NumeralFree(missingAssets as nat, 16, 4, '|');
    PaddedParseInt(missingAssets as nat, 16, false, 4, 16);
  }

  // ---------------------------------------------------------------------
  // Media tallies

  /** `EnableMediaTallies_AsString` as written: `YB` and `%x` of the flag
    * string, which prints each character's code as two hex digits (`30`
    * for `0`, `31` for `1`). */
  function EnableMediaTalliesAsWritten(data: MediaTallies): (r: string)
    ensures |r| == 14 && r[..2] == "YB" && r[2..] == HexOfBytes(BuildMediaTallies(data))
  {
    HexOfBytesLength(BuildMediaTallies(data));
    "YB" + HexOfBytes(BuildMediaTallies(data))
  }

  lemma {:induction false} HexOfBytesLength(s: string)
    requires forall i :: 0 <= i < |s| ==> s[i] as int < 256
    ensures |HexOfBytes(s)| == 2 * |s|
  {
    if s != [] {
      PowValues();
      HexLength(s[0] as int, 2);
      HexOfBytesLength(s[1..]);
    }
  }

  /** `EnableMediaTallies_AsString` with the flags sent as the enquiry
    * reports them: `YB` and one `1`/`0` per flag. */
  function EnableMediaTalliesAsString(data: MediaTallies): (r: string)
    ensures |r| == 8 && r[..2] == "YB" && r[2..] == BuildMediaTallies(data)
  {
    "YB" + BuildMediaTallies(data)
  }

  /** `EnquireMediaTallies`: six booleans in `[0]` to `[5]`, read in order:
    * the five unused flags, then images. */
  function EnquireMediaTallies(val: string): (r: Result<MediaTallies>)
    ensures r.Ok? <==> |val| >= 6 && forall i :: 0 <= i < 6 ==> ParseBool([val[i]]).Ok?
    ensures r.Ok? ==> forall i :: 0 <= i < 6 ==> ParseBool([val[i]]) == Ok(MediaTallyFlags(r.value)[i])
  {
    var flags :- BoolsAt(val, 6);
    Ok(MediaTallies(flags[0], flags[1], flags[2], flags[3], flags[4], flags[5]))
  }

  /** The corrected enable command's flags read back as the tallies set. */
  lemma MediaTalliesRoundTrip(data: MediaTallies)
    ensures EnquireMediaTallies(EnableMediaTalliesAsString(data)[2..]) == Ok(data)
  {
    var val := BuildMediaTallies(data);
    assert EnableMediaTalliesAsString(data)[2..] == val;
    FlagsReadBack(val, MediaTallyFlags(data));
    var f := MediaTallyFlags(data);
    assert EnquireMediaTallies(val) == Ok(MediaTallies(f[0], f[1], f[2], f[3], f[4], f[5]));
  }

  /** One `1`/`0` per flag reads back as those flags. */
  lemma FlagsReadBack(val: string, flags: seq<bool>)
    requires |val| == |flags| && forall i :: 0 <= i < |val| ==> val[i] in "01" && (val[i] == '1' <==> flags[i])
    ensures BoolsAt(val, |val|) == Ok(flags)
  {
    forall i | 0 <= i < |val| ensures ParseBool([val[i]]) == Ok(flags[i]) {
      assert val[i] == '0' || val[i] == '1';
    }
    var b := BoolsAt(val, |val|);
    assert b.Ok?;
    assert forall i :: 0 <= i < |val| ==> b.value[i] == flags[i];
    assert b.value == flags;
  }

  /** The command as written does not carry the flags in the layout the
    * device reports them: its body starts with `3`, which is no boolean, so
    * reading it back as tallies fails for every setting. */
  lemma MediaTalliesHexFinding(data: MediaTallies)
    ensures EnableMediaTalliesAsWritten(data)[2] == '3'
    ensures EnquireMediaTallies(EnableMediaTalliesAsWritten(data)[2..]) == Err(NumError)
  {
    WrittenStartsWithThree(data);
    var val := EnableMediaTalliesAsWritten(data)[2..];
    assert |val| == 12 && val[0] == '3';
    TalliesBadFirst(val);
  }

  lemma WrittenStartsWithThree(data: MediaTallies)
    ensures EnableMediaTalliesAsWritten(data)[2] == '3'
  {
    var mask := BuildMediaTallies(data);
    FlagCharHex(mask[0]);
    assert HexOfBytes(mask) == Hex(mask[0] as int, 2) + HexOfBytes(mask[1..]);
    assert EnableMediaTalliesAsWritten(data) == "YB" + HexOfBytes(mask);
  }

  /** A reply whose first flag is no boolean is a parse error. */
  lemma TalliesBadFirst(val: string)
    requires |val| >= 6 && val[0] == '3'
    ensures EnquireMediaTallies(val) == Err(NumError)
  {
    assert ParseBool([val[0]]).Err?;
  }

  /** `%02x` of the code of `0` or `1` starts with `3`. */
  lemma FlagCharHex(c: char)
    requires c in "01"
    ensures |Hex(c as int, 2)| >= 1 && Hex(c as int, 2)[0] == '3'
  {
    assert c as int == 48 || c as int == 49;
    assert Numeral(48 / 16, 16, false) == "3";
    assert Numeral(48, 16, false) == "30" && Numeral(49, 16, false) == "31";
  }
}
