/** The upload filter: a file name is accepted when the text after its
    last dot, lower-cased, is one of the image extensions. */
module ImageProcessing {
  import opened Wrappers
  import opened Text

  const AllowedExtensions: set<string> := {"png", "jpg", "jpeg", "bmp"}

  /** `i` is the index of the last `'.'` in `f`. */
  ghost predicate IsLastDot(f: string, i: int)
  {
    0 <= i < |f| && f[i] == '.' && forall j :: i < j < |f| ==> f[j] != '.'
  }

  /** `'.' in filename and filename.rsplit('.', 1)[1].lower() in allowed_extensions` */
  function AllowedFile(filename: string): bool
  {
    match LastIndexOf(filename, '.')
    case None => false
    case Some(i) => ToLowerAscii(filename[i + 1..]) in AllowedExtensions
  }

  /** A name is accepted exactly when it has a last dot and the text after
      it, lower-cased, is an image extension. */
  lemma AllowedFileMeaning(filename: string)
    ensures AllowedFile(filename) <==>
      exists i :: IsLastDot(filename, i) && ToLowerAscii(filename[i + 1..]) in AllowedExtensions
  {
    match LastIndexOf(filename, '.')
    case None =>
      forall j | 0 <= j < |filename| ensures !IsLastDot(filename, j) {
        assert filename[j] != '.';
      }
    case Some(i) =>
      assert IsLastDot(filename, i);
      if !AllowedFile(filename) {
        forall j | IsLastDot(filename, j)
          ensures ToLowerAscii(filename[j + 1..]) !in AllowedExtensions
        {
          LastDotUnique(filename, i, j);
        }
      }
  }

  /** A name without a dot is rejected. */
  lemma RejectsDotless(filename: string)
    requires '.' !in filename
    ensures !AllowedFile(filename)
  {
    forall j | 0 <= j < |filename| ensures filename[j] != '.' {
      assert filename[j] in filename;
    }
  }

  lemma LastDotUnique(f: string, i: int, j: int)
    requires IsLastDot(f, i) && IsLastDot(f, j)
    ensures i == j
  {
  }

  /** Only the text after the last dot decides: `stem + "." + ext` with a
      dot-free `ext` is accepted exactly when `ext`, lower-cased, is allowed. */
  lemma OnlyLastDotMatters(stem: string, ext: string)
    requires '.' !in ext
    ensures AllowedFile(stem + "." + ext) <==> ToLowerAscii(ext) in AllowedExtensions
  {
    var f := stem + "." + ext;
    AllowedFileMeaning(f);
    assert IsLastDot(f, |stem|);
    assert f[|stem| + 1..] == ext;
    forall i | IsLastDot(f, i) ensures i == |stem| {
      LastDotUnique(f, i, |stem|);
    }
  }

  /** Names that lower-case alike have their dots in the same places. */
  lemma LowerAlikeSameDots(f: string, g: string)
    requires ToLowerAscii(f) == ToLowerAscii(g)
    ensures |f| == |g|
    ensures forall j :: 0 <= j < |f| ==> (f[j] == '.' <==> g[j] == '.')
  {
    forall j | 0 <= j < |f| ensures f[j] == '.' <==> g[j] == '.' {
      LowerKeepsDot(f[j]);
      LowerKeepsDot(g[j]);
      assert ToLowerAscii(f)[j] == ToLowerAscii(g)[j];
    }
  }

  lemma SameDotsSameLastDot(f: string, g: string)
    requires |f| == |g|
    requires forall j :: 0 <= j < |f| ==> (f[j] == '.' <==> g[j] == '.')
    ensures LastIndexOf(f, '.') == LastIndexOf(g, '.')
  {
  }

  /** Letter case does not matter: two names that lower-case alike are
      accepted or rejected alike. */
  lemma CaseInsensitive(f: string, g: string)
    requires ToLowerAscii(f) == ToLowerAscii(g)
    ensures AllowedFile(f) == AllowedFile(g)
  {
    LowerAlikeSameDots(f, g);
    SameDotsSameLastDot(f, g);
    match LastIndexOf(f, '.')
    case None =>
    case Some(i) =>
      LowerSuffix(f, i + 1);
      LowerSuffix(g, i + 1);
  }

  /** A name without upper-case letters is its own lower-case form. */
  lemma NoUpperUnchanged(s: string)
    requires forall i :: 0 <= i < |s| ==> !('A' <= s[i] <= 'Z')
    ensures ToLowerAscii(s) == s
  {
  }

  lemma RejectsNameWithoutDot()
    ensures !AllowedFile("scan")
  {
    RejectsDotless("scan");
  }

  lemma RejectsInnerImageExtension()
    ensures !AllowedFile("x.png.exe")
  {
    NoUpperUnchanged("exe");
    assert ToLowerAscii("exe") !in AllowedExtensions;
    OnlyLastDotMatters("x.png", "exe");
    assert "x.png" + "." + "exe" == "x.png.exe";
  }

  lemma AcceptsLastImageExtension()
    ensures AllowedFile("x.exe.png")
  {
    OnlyLastDotMatters("x.exe", "png");
    assert "x.exe" + "." + "png" == "x.exe.png";
    NoUpperUnchanged("png");
  }

  lemma AcceptsUpperCase()
    ensures AllowedFile("SCAN.JPEG")
  {
    OnlyLastDotMatters("SCAN", "JPEG");
    assert "SCAN" + "." + "JPEG" == "SCAN.JPEG";
    var lower := ToLowerAscii("JPEG");
    assert lower[0] == 'j' && lower[1] == 'p' && lower[2] == 'e' && lower[3] == 'g';
    assert lower == "jpeg";
  }

  lemma RejectsEmptyExtension()
    ensures !AllowedFile("scan.")
  {
    OnlyLastDotMatters("scan", "");
    assert "scan" + "." + "" == "scan.";
  }

  lemma AcceptsEmptyStem()
    ensures AllowedFile(".png")
  {
    OnlyLastDotMatters("", "png");
    assert "" + "." + "png" == ".png";
    NoUpperUnchanged("png");
  }
}
