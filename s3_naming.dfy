/**
 * The naming rules of the S3 helper.  An upload without an explicit object
 * name is stored as `<name before the last dot>_<timestamp>.<extension>`,
 * the timestamp being the local time as `YYYYMMDDHHMMSS`; a download without
 * a local name is saved under the object's name.  The bucket and transfer
 * calls themselves are not part of this model, and the clock is a parameter.
 */
module S3Naming {
  import opened Exceptions
  import opened PyStr

  /** The fields of `datetime.now()` that the timestamp shows. */
  datatype DateTime = DateTime(year: nat, month: nat, day: nat, hour: nat, minute: nat, second: nat)

  /** A moment `datetime` can hold, with a four-digit year. */
  predicate ValidDateTime(t: DateTime) {
    && 1000 <= t.year <= 9999 && 1 <= t.month <= 12 && 1 <= t.day <= 31
    && t.hour < 24 && t.minute < 60 && t.second < 60
  }

  /** `strftime("%Y%m%d%H%M%S")` */
  function Timestamp(t: DateTime): string
    requires ValidDateTime(t)
  {
    ZeroPad(t.year, 4) + ZeroPad(t.month, 2) + ZeroPad(t.day, 2)
    + ZeroPad(t.hour, 2) + ZeroPad(t.minute, 2) + ZeroPad(t.second, 2)
  }

  /** The timestamp is fourteen digits, so it holds neither a dot nor an underscore. */
  lemma TimestampShape(t: DateTime)
    requires ValidDateTime(t)
    ensures |Timestamp(t)| == 14
    ensures forall i :: 0 <= i < 14 ==> IsDigit(Timestamp(t)[i])
  {
    assert Pow10(2) == 100 && Pow10(4) == 10000;
    ZeroPadShape(t.year, 4);
    ZeroPadShape(t.month, 2);
    ZeroPadShape(t.day, 2);
    ZeroPadShape(t.hour, 2);
    ZeroPadShape(t.minute, 2);
    ZeroPadShape(t.second, 2);
  }

  /** `f"{name.rsplit('.', 1)[0]}_{stamp}.{name.rsplit('.', 1)[1]}"`; a name without a dot raises `IndexError`. */
  function StampedName(fileName: string, stamp: string): Result<string> {
    var parts := RSplitOnce(fileName, '.');
    if |parts| < 2 then Err(IndexOutOfRange)
    else Ok(parts[0] + "_" + stamp + "." + parts[1])
  }

  /** The default object name, stamped with the time of the upload. */
  function DefaultObjectName(fileName: string, t: DateTime): Result<string>
    requires ValidDateTime(t)
  {
    StampedName(fileName, Timestamp(t))
  }

  /** `upload_file`'s object name: the one supplied, used unchanged, or the default. */
  function UploadObjectName(fileName: string, objectName: Option<string>, t: DateTime): Result<string>
    requires ValidDateTime(t)
  {
    if objectName.Some? then Ok(objectName.value) else DefaultObjectName(fileName, t)
  }

  /** `download_file`'s local name: the one supplied, or the object's own name. */
  function DownloadFileName(objectName: string, fileName: Option<string>): string {
    if fileName.Some? then fileName.value else objectName
  }

  /**
   * Every name with a dot is `base + "." + ext` for exactly one dot-free
   * `ext`; the stamp goes in before that last dot, so the extension and
   * everything before the dot (earlier dots included) are kept.  Without a
   * dot there is no name.
   */
  lemma StampedNameRoundTrip(base: string, ext: string, stamp: string)
    requires '.' !in ext
    ensures StampedName(base + "." + ext, stamp) == Ok(base + "_" + stamp + "." + ext)
    ensures LastToken(base + "_" + stamp + "." + ext, '.') == ext
  {
    var fileName := base + "." + ext;
    assert fileName == base + ['.'] + ext;
    RFindAfter(base, ext, '.');
    assert fileName[..|base|] == base && fileName[|base| + 1..] == ext;
    RSplitOnceAt(fileName, '.');
    var n := base + "_" + stamp + "." + ext;
    assert n == (base + "_" + stamp) + ['.'] + ext;
    RFindAfter(base + "_" + stamp, ext, '.');
    LastTokenAfterLastSep(n, '.');
  }

  /** The pieces of a stamped name, by position. */
  lemma StampedPieces(base: string, stamp: string, ext: string)
    ensures var n := base + "_" + stamp + "." + ext;
      && |n| == |base| + |stamp| + |ext| + 2
      && n[..|base|] == base
      && n[|base|..|base| + |stamp| + 1] == "_" + stamp
      && n[|base| + |stamp| + 1..] == "." + ext
  {
    var n := base + "_" + stamp + "." + ext;
    assert n == base + ("_" + stamp) + ("." + ext);
  }

  /** A name without a dot has no default name: `rsplit` gives one piece and indexing the second raises. */
  lemma NoDotNoName(fileName: string, stamp: string)
    requires '.' !in fileName
    ensures StampedName(fileName, stamp) == Err(IndexOutOfRange)
  {
  }

  /** A name with a dot splits at its last dot into a prefix and a dot-free extension. */
  lemma {:induction false} SplitAtLastDot(fileName: string)
    requires '.' in fileName
    ensures var k := RFind(fileName, '.');
      fileName == fileName[..k] + "." + fileName[k + 1..] && '.' !in fileName[k + 1..]
  {
    var k := RFind(fileName, '.');
    assert fileName == fileName[..k] + [fileName[k]] + fileName[k + 1..];
  }

  /**
   * The default name of `base.ext` is `base_YYYYMMDDHHMMSS.ext`: fifteen
   * characters go in before the last dot, and the extension stays the last
   * token.
   */
  lemma DefaultNameRoundTrip(base: string, ext: string, t: DateTime)
    requires ValidDateTime(t) && '.' !in ext
    ensures var n := DefaultObjectName(base + "." + ext, t);
      && n.Ok? && |n.value| == |base| + |ext| + 16
      && n.value[..|base|] == base
      && n.value[|base|..|base| + 15] == "_" + Timestamp(t)
      && n.value[|base| + 15..] == "." + ext
      && LastToken(n.value, '.') == ext
  {
    var stamp := Timestamp(t);
    TimestampShape(t);
    StampedNameRoundTrip(base, ext, stamp);
    StampedPieces(base, stamp, ext);
  }

  /** A supplied object name is used as it is, whatever the file name; without one the stamped default applies. */
  lemma SuppliedObjectNameWins(fileName: string, objectName: string, t: DateTime)
    requires ValidDateTime(t)
    ensures UploadObjectName(fileName, Some(objectName), t) == Ok(objectName)
    ensures UploadObjectName(fileName, None, t) == DefaultObjectName(fileName, t)
  {
  }

  /** A supplied local file name is used as it is; without one the object's name is used. */
  lemma SuppliedFileNameWins(objectName: string, localName: string)
    ensures DownloadFileName(objectName, Some(localName)) == localName
    ensures DownloadFileName(objectName, None) == objectName
  {
  }

  /** A one-digit field pads to a zero and its digit. */
  lemma PadOneDigit(d: nat)
    requires d < 10
    ensures ZeroPad(d, 2) == ['0', DigitChar(d)]
  {
    assert NatToString(d) == [DigitChar(d)];
    assert Zeros(1) == "0";
  }

  /** The year 2024 needs no padding. */
  lemma Year2024()
    ensures ZeroPad(2024, 4) == "2024"
  {
    assert NatToString(2) == "2";
    assert NatToString(20) == "20";
    assert NatToString(202) == "202";
    assert NatToString(2024) == "2024";
  }

  /** `%Y%m%d%H%M%S` of 2024-01-05 09:03:07. */
  lemma TimestampExample()
    ensures Timestamp(DateTime(2024, 1, 5, 9, 3, 7)) == "20240105090307"
  {
    Year2024();
    PadOneDigit(1);
    PadOneDigit(5);
    PadOneDigit(9);
    PadOneDigit(3);
    PadOneDigit(7);
    assert DigitChar(1) == '1' && DigitChar(5) == '5' && DigitChar(9) == '9';
    assert DigitChar(3) == '3' && DigitChar(7) == '7';
  }

  /** `best.pt` splits at its one dot. */
  lemma BestPtPieces()
    ensures RSplitOnce("best.pt", '.') == ["best", "pt"]
  {
    assert RFind("best.pt", '.') == 4;
    RSplitOnceAt("best.pt", '.');
    assert "best.pt"[..4] == "best" && "best.pt"[5..] == "pt";
  }

  /** `best.pt` stamped with `20240105090307`. */
  lemma StampedExample()
    ensures StampedName("best.pt", "20240105090307") == Ok("best_20240105090307.pt")
  {
    BestPtPieces();
    assert "best" + "_" + "20240105090307" + "." + "pt" == "best_20240105090307.pt";
  }

  /** A named example: `best.pt` uploaded at 2024-01-05 09:03:07. */
  lemma DefaultNameExample()
    ensures DefaultObjectName("best.pt", DateTime(2024, 1, 5, 9, 3, 7)) == Ok("best_20240105090307.pt")
  {
    var t := DateTime(2024, 1, 5, 9, 3, 7);
    TimestampExample();
    assert DefaultObjectName("best.pt", t) == StampedName("best.pt", "20240105090307");
    StampedExample();
  }
}
