/** The upload gate in front of the product image routes: the file filter
    over the declared MIME type and the original name's extension, and the
    size limit. */
module UploadFilter {
  import opened Text
  import opened Paths

  /** The four tokens of the image-type pattern `jpeg|jpg|png|webp`. */
  const ImageTokens: seq<string> := ["jpeg", "jpg", "png", "webp"]

  /** The unanchored, case-sensitive pattern test: some token occurs
      anywhere in the text. */
  predicate MatchesImageType(text: string) {
    exists k | 0 <= k < |ImageTokens| :: Contains(text, ImageTokens[k])
  }

  const MsgOnlyImages: string := "Only image files are allowed!"

  datatype Decision = Accept | Reject(message: string)

  /** fileFilter: the file passes when its MIME type matches the pattern as
      given and its extension matches once lower-cased; otherwise it is
      refused with one fixed message. */
  function FileFilter(mimetype: string, originalname: string): (r: Decision)
    ensures r == Accept <==> MatchesImageType(mimetype) && MatchesImageType(Lower(Extname(originalname)))
    ensures r != Accept ==> r == Reject(MsgOnlyImages)
  {
    if MatchesImageType(mimetype) && MatchesImageType(Lower(Extname(originalname))) then Accept
    else Reject(MsgOnlyImages)
  }

  /** The 5 MB per-file limit, in bytes. */
  const MaxFileSize: nat := 5 * 1024 * 1024

  predicate OverSizeLimit(size: nat) {
    size > MaxFileSize
  }

  /** The limit is exactly 5242880 bytes: that size is allowed, one more
      byte is not. */
  lemma SizeLimitBoundary()
    ensures !OverSizeLimit(5242880) && OverSizeLimit(5242881)
  {
  }

  /** The test is a substring test: a text matching the pattern still
      matches with anything added before or after it. */
  lemma MatchIsUnanchored(text: string, before: string, after: string)
    requires MatchesImageType(text)
    ensures MatchesImageType(before + text + after)
  {
    var k :| 0 <= k < |ImageTokens| && Contains(text, ImageTokens[k]);
    ContainsExtend(text, ImageTokens[k], before);
    ContainsExtend(before + text, ImageTokens[k], after);
  }

  lemma ContainsAtStart(s: string, t: string)
    requires |t| <= |s| && s[..|t|] == t
    ensures Contains(s, t)
  {
    assert OccursAt(s, t, 0);
  }

  /** A text without lower-case letters contains no text that starts with
      one. */
  lemma NoLowerCaseToken(s: string, t: string)
    requires |t| > 0 && 'a' <= t[0] <= 'z'
    requires forall i :: 0 <= i < |s| ==> !('a' <= s[i] <= 'z')
    ensures !Contains(s, t)
  {
    forall i | 0 <= i <= |s| - |t|
      ensures !OccursAt(s, t, i)
    {
      assert s[i..i + |t|][0] == s[i];
    }
  }

  lemma JpgMatches()
    ensures MatchesImageType(".jpg")
  {
    ContainsAtStart("jpg", "jpg");
    ContainsExtend("jpg", "jpg", ".");
    assert "." + "jpg" == ".jpg";
    assert Contains(".jpg", ImageTokens[1]);
  }

  lemma JpegMimeMatches()
    ensures MatchesImageType("image/jpeg")
  {
    ContainsAtStart("jpeg", "jpeg");
    ContainsExtend("jpeg", "jpeg", "image/");
    assert "image/" + "jpeg" == "image/jpeg";
    assert Contains("image/jpeg", ImageTokens[0]);
  }

  /** The extension is lower-cased before the test, so an upper-case image
      extension passes. */
  lemma UpperCaseExtensionAccepted()
    ensures FileFilter("image/jpeg", "photo.JPG") == Accept
  {
    UpperCaseExtension();
    assert Lower(".JPG") == ".jpg";
    JpgMatches();
    JpegMimeMatches();
  }

  /** A text without lower-case letters matches none of the tokens. */
  lemma NoLowerCaseNoMatch(s: string)
    requires forall i :: 0 <= i < |s| ==> !('a' <= s[i] <= 'z')
    ensures !MatchesImageType(s)
  {
    NoLowerCaseToken(s, "jpeg");
    NoLowerCaseToken(s, "jpg");
    NoLowerCaseToken(s, "png");
    NoLowerCaseToken(s, "webp");
  }

  /** The MIME type is tested as sent, so an upper-case one is refused. */
  lemma UpperCaseMimeTypeRefused(originalname: string)
    ensures FileFilter("IMAGE/JPEG", originalname) == Reject(MsgOnlyImages)
  {
    NoLowerCaseNoMatch("IMAGE/JPEG");
  }

  /** A file whose extension is not an image type is refused whatever its
      MIME type claims. */
  lemma ExtensionRequired(mimetype: string, originalname: string)
    requires Extname(originalname) == ""
    ensures FileFilter(mimetype, originalname) == Reject(MsgOnlyImages)
  {
    assert Lower("") == "";
    forall k | 0 <= k < |ImageTokens|
      ensures !Contains("", ImageTokens[k])
    {
    }
  }
}
