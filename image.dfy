/**
 * The upload rules of helpers/imageHelper.js (the inline copies at the top of
 * routes/campgrounds.js are textually the same): which original file names
 * the filter accepts, and the name an accepted file is stored under.
 */
module Image {
  import opened Text

  const OnlyImagesMessage := "Only image files are allowed!"

  /** The alternatives of `/\.(jpg|jpeg|png|gif)$/`, each with its dot. */
  const Extensions: seq<string> := [".jpg", ".jpeg", ".png", ".gif"]

  /** `s` ends with `suffix` ignoring case (`suffix` is lower-case). */
  predicate EndsWithIgnoringCase(s: string, suffix: string)
  {
    |suffix| <= |s| && Lower(s[|s| - |suffix|..]) == suffix
  }

  /** The outcome the filter reports to multer: accept, or an error with `false`. */
  datatype Verdict = Accept | Reject(message: string)

  /** imageFilter: the regex test on `originalname`. */
  function ImageFilter(originalName: string): (v: Verdict)
    ensures v.Reject? ==> v.message == OnlyImagesMessage
  {
    if || EndsWithIgnoringCase(originalName, ".jpg")
       || EndsWithIgnoringCase(originalName, ".jpeg")
       || EndsWithIgnoringCase(originalName, ".png")
       || EndsWithIgnoringCase(originalName, ".gif")
    then Accept
    else Reject(OnlyImagesMessage)
  }

  /** Reference definition: some final segment of the name is, ignoring case, an image extension. */
  ghost predicate HasImageExtension(name: string)
  {
    exists k | 0 <= k <= |name| :: Lower(name[k..]) in Extensions
  }

  lemma EndsWithWitness(name: string, e: string)
    requires e in Extensions && EndsWithIgnoringCase(name, e)
    ensures HasImageExtension(name)
  {
    var k := |name| - |e|;
    assert Lower(name[k..]) == e;
  }

  /** The filter accepts a name exactly when it carries an image extension at its very end. */
  lemma ImageFilterAcceptsIff(name: string)
    ensures ImageFilter(name) == Accept <==> HasImageExtension(name)
  {
    if EndsWithIgnoringCase(name, ".jpg") { EndsWithWitness(name, ".jpg"); }
    if EndsWithIgnoringCase(name, ".jpeg") { EndsWithWitness(name, ".jpeg"); }
    if EndsWithIgnoringCase(name, ".png") { EndsWithWitness(name, ".png"); }
    if EndsWithIgnoringCase(name, ".gif") { EndsWithWitness(name, ".gif"); }
    if HasImageExtension(name) {
      var k :| 0 <= k <= |name| && Lower(name[k..]) in Extensions;
      var e := Lower(name[k..]);
      assert |e| == |name| - k;
      assert EndsWithIgnoringCase(name, e);
    }
  }

  /** Text before a suffix at least as long as the extension does not affect the comparison. */
  lemma EndsWithAppend(prefix: string, name: string, e: string)
    requires |e| <= |name|
    ensures EndsWithIgnoringCase(prefix + name, e) == EndsWithIgnoringCase(name, e)
  {
    var s := prefix + name;
    assert s[|s| - |e|..] == name[|name| - |e|..];
  }

  /** Only the final suffix matters: whatever precedes the last five characters is irrelevant. */
  lemma ImageFilterSuffix(prefix: string, name: string)
    requires |name| >= 5
    ensures ImageFilter(prefix + name) == ImageFilter(name)
  {
    EndsWithAppend(prefix, name, ".jpg");
    EndsWithAppend(prefix, name, ".jpeg");
    EndsWithAppend(prefix, name, ".png");
    EndsWithAppend(prefix, name, ".gif");
  }

  lemma EndsWithLastChar(name: string, e: string)
    requires |e| > 0 && EndsWithIgnoringCase(name, e)
    ensures LowerChar(name[|name| - 1]) == e[|e| - 1]
  {
    var t := name[|name| - |e|..];
    assert Lower(t)[|e| - 1] == e[|e| - 1];
    assert t[|e| - 1] == name[|name| - 1];
  }

  /** An accepted name ends, ignoring case, in `g` or `f`. */
  lemma AcceptedLastChar(name: string)
    requires ImageFilter(name) == Accept
    ensures |name| > 0 && LowerChar(name[|name| - 1]) in {'g', 'f'}
  {
    if EndsWithIgnoringCase(name, ".jpg") { EndsWithLastChar(name, ".jpg"); }
    else if EndsWithIgnoringCase(name, ".jpeg") { EndsWithLastChar(name, ".jpeg"); }
    else if EndsWithIgnoringCase(name, ".png") { EndsWithLastChar(name, ".png"); }
    else { EndsWithLastChar(name, ".gif"); }
  }

  /** `a.png.exe` is rejected although it contains `.png`; `a.exe.png` is accepted. */
  lemma ImageFilterExamples()
    ensures ImageFilter("a.png.exe") == Reject(OnlyImagesMessage)
    ensures ImageFilter("a.exe.png") == Accept
  {
    if ImageFilter("a.png.exe") == Accept {
      AcceptedLastChar("a.png.exe");
      assert false;
    }
    var t := "a.exe.png"[5..];
    assert t == ".png";
    assert Lower(t) == ".png";
  }

  /** Decimal rendering of a non-negative integer, as `Date.now() + ""` produces it. */
  function Decimal(n: nat): (r: string)
    ensures |r| > 0
    ensures forall i | 0 <= i < |r| :: IsDigit(r[i])
  {
    var d := [('0' as int + n % 10) as char];
    if n < 10 then d else Decimal(n / 10) + d
  }

  /** Reads a string of decimal digits back as a number. */
  function ParseDecimal(s: string): nat
    requires forall i | 0 <= i < |s| :: IsDigit(s[i])
  {
    if s == [] then 0
    else
      var last := s[|s| - 1];
      assert IsDigit(last);
      10 * ParseDecimal(s[..|s| - 1]) + (last as int - '0' as int)
  }

  lemma {:induction false} DecimalRoundTrip(n: nat)
    ensures ParseDecimal(Decimal(n)) == n
  {
    if n >= 10 {
      DecimalRoundTrip(n / 10);
      var s := Decimal(n);
      assert s[..|s| - 1] == Decimal(n / 10);
    }
  }

  /** multer's `filename`: the current time in milliseconds followed by the original name. */
  function StoredFilename(now: nat, originalName: string): (r: string)
    ensures |r| > |originalName|
    ensures r[|r| - |originalName|..] == originalName
    ensures var stamp := r[..|r| - |originalName|];
      (forall i | 0 <= i < |stamp| :: IsDigit(stamp[i])) && ParseDecimal(stamp) == now
  {
    var stamp := Decimal(now);
    DecimalRoundTrip(now);
    assert (stamp + originalName)[..|stamp|] == stamp;
    stamp + originalName
  }

  /** A decimal stamp in front of a name changes no extension comparison. */
  lemma StampKeepsEnding(stamp: string, name: string, e: string)
    requires forall i | 0 <= i < |stamp| :: IsDigit(stamp[i])
    requires |e| > 0 && e[0] == '.'
    ensures EndsWithIgnoringCase(stamp + name, e) == EndsWithIgnoringCase(name, e)
  {
    var s := stamp + name;
    if |e| <= |name| {
      EndsWithAppend(stamp, name, e);
    } else if |e| <= |s| {
      var k := |s| - |e|;
      assert k < |stamp| && s[k] == stamp[k];
      assert Lower(s[k..])[0] == LowerChar(s[k]);
    }
  }

  /**
   * The timestamp prefix never changes the filter's verdict: a stored name is
   * an image name exactly when the original name is.
   */
  lemma StoredFilenameKeepsVerdict(now: nat, name: string)
    ensures ImageFilter(StoredFilename(now, name)) == ImageFilter(name)
  {
    var stamp := Decimal(now);
    assert StoredFilename(now, name) == stamp + name;
    StampKeepsEnding(stamp, name, ".jpg");
    StampKeepsEnding(stamp, name, ".jpeg");
    StampKeepsEnding(stamp, name, ".png");
    StampKeepsEnding(stamp, name, ".gif");
  }
}
