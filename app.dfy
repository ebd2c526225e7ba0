/**
 * The upload filter of the web front end: a file name is accepted when it
 * has a dot and the text after its last dot, lower-cased, is one of the
 * image extensions.
 */
module App {
  import opened PyStr

  const AllowedExtensions: set<string> := {"png", "jpg", "jpeg", "gif"}

  /** `allowed_images(filename)` */
  predicate AllowedImages(filename: string) {
    '.' in filename && Lower(LastToken(filename, '.')) in AllowedExtensions
  }

  /** The extension is exactly the text after the last dot. */
  lemma AllowedExactly(filename: string)
    ensures AllowedImages(filename) <==>
      '.' in filename && Lower(filename[RFind(filename, '.') + 1..]) in AllowedExtensions
  {
    LastTokenAfterLastSep(filename, '.');
  }

  /** Only the final extension counts: `base.ext` is accepted exactly when `ext` is an image extension. */
  lemma AllowedByLastExtension(base: string, ext: string)
    requires '.' !in ext
    ensures AllowedImages(base + "." + ext) <==> Lower(ext) in AllowedExtensions
  {
    var f := base + "." + ext;
    assert f == base + ['.'] + ext;
    RFindAfter(base, ext, '.');
    AllowedExactly(f);
    assert f[|base| + 1..] == ext;
  }

  /** Lower-casing keeps dots where they are. */
  lemma {:induction false} RFindLower(s: string)
    ensures RFind(Lower(s), '.') == RFind(s, '.')
    decreases |s|
  {
    if |s| > 0 {
      var init := s[..|s| - 1];
      assert Lower(s)[..|s| - 1] == Lower(init);
      assert LowerChar(s[|s| - 1]) == '.' <==> s[|s| - 1] == '.';
      RFindLower(init);
    }
  }

  lemma LowerSuffix(s: string, k: nat)
    requires k <= |s|
    ensures Lower(s)[k..] == Lower(s[k..])
  {
  }

  /** The check ignores case: a name and its lower-cased form are accepted alike. */
  lemma CaseInsensitive(filename: string)
    ensures AllowedImages(Lower(filename)) <==> AllowedImages(filename)
  {
    var k := RFind(filename, '.');
    RFindLower(filename);
    AllowedExactly(filename);
    AllowedExactly(Lower(filename));
    assert ('.' in Lower(filename)) <==> ('.' in filename);
    if k >= 0 {
      var e := filename[k + 1..];
      LowerSuffix(filename, k + 1);
      LowerIdempotent(e);
      assert Lower(Lower(filename)[k + 1..]) == Lower(e);
    }
  }

  /** Upper and mixed case extensions are accepted, and so is an image name with an earlier dot. */
  lemma AcceptedExamples()
    ensures AllowedImages("A.PNG") && AllowedImages("b.JpEg") && AllowedImages("x.exe.jpg")
  {
    assert Lower("PNG") == "png";
    AllowedByLastExtension("A", "PNG");
    assert "A" + "." + "PNG" == "A.PNG";
    assert Lower("JpEg") == "jpeg";
    AllowedByLastExtension("b", "JpEg");
    assert "b" + "." + "JpEg" == "b.JpEg";
    assert Lower("jpg") == "jpg";
    AllowedByLastExtension("x.exe", "jpg");
    assert "x.exe" + "." + "jpg" == "x.exe.jpg";
  }

  /** An image extension followed by another one is rejected: only the last extension counts. */
  lemma RejectedDoubleExtension()
    ensures !AllowedImages("x.png.exe")
  {
    assert Lower("exe") == "exe";
    AllowedByLastExtension("x.png", "exe");
    assert "x.png" + "." + "exe" == "x.png.exe";
  }

  /** A trailing dot leaves an empty extension, which is rejected. */
  lemma RejectedTrailingDot()
    ensures !AllowedImages("a.")
  {
    AllowedByLastExtension("a", "");
    assert "a" + "." + "" == "a.";
  }

  /** A name without a dot is rejected, even when it spells an extension. */
  lemma RejectedNoDot()
    ensures !AllowedImages("png")
  {
    assert '.' !in "png";
  }
}
