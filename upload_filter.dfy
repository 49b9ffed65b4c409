/** The file filter of the image upload middleware: a file passes when either its
    MIME type or its name's extension, compared case-insensitively, is one of the
    JPEG/PNG spellings. */
module UploadFilter {
  import opened FileNames

  /** The outcome handed to multer's callback. */
  datatype Decision = Accept | Reject(message: string)

  /** `toLowerCase` on the letters A-Z; other characters are kept. */
  function ToLower(s: string): (r: string)
    ensures |r| == |s|
    ensures forall k :: 0 <= k < |s| ==> r[k] == (if 'A' <= s[k] <= 'Z' then s[k] - 'A' + 'a' else s[k])
  {
    if s == [] then [] else [if 'A' <= s[0] <= 'Z' then s[0] - 'A' + 'a' else s[0]] + ToLower(s[1..])
  }

  /** Lower-casing twice is lower-casing once. */
  lemma ToLowerIdempotent(s: string)
    ensures ToLower(ToLower(s)) == ToLower(s)
  {
    var once := ToLower(s);
    assert forall k :: 0 <= k < |once| ==> !('A' <= once[k] <= 'Z');
  }

  /** A string without capitals is its own lower case. */
  lemma ToLowerNoCapitals(s: string)
    requires forall k :: 0 <= k < |s| ==> !('A' <= s[k] <= 'Z')
    ensures ToLower(s) == s
  {
  }

  const ValidTypes: seq<string> := ["image/jpeg", "image/png", "image/jpg"]
  const ValidExtensions: seq<string> := [".jpg", ".jpeg", ".png"]
  const RejectMessage: string := "Only JPEG, JPG, or PNG files are allowed"

  /** `fileFilter`: accept when the lower-cased MIME type or the lower-cased
      extension is valid, otherwise refuse with the fixed message. */
  function FileFilter(mimetype: string, originalname: string): (d: Decision)
    ensures d.Accept? <==> ToLower(mimetype) in ValidTypes || ToLower(ExtName(originalname)) in ValidExtensions
    ensures d.Reject? ==> d.message == RejectMessage
  {
    if ToLower(mimetype) in ValidTypes || ToLower(ExtName(originalname)) in ValidExtensions then Accept
    else Reject(RejectMessage)
  }

  /** The decision ignores letter case: a lower-cased MIME type is judged the same. */
  lemma FileFilterIgnoresCase(mimetype: string, originalname: string)
    ensures FileFilter(ToLower(mimetype), originalname) == FileFilter(mimetype, originalname)
  {
    ToLowerIdempotent(mimetype);
  }

  /** A file whose name ends in an accepted extension is stored under a name with
      that same extension. */
  lemma AcceptedByNameStoredWithExtension(mimetype: string, originalname: string, now: nat, random: nat)
    requires ToLower(ExtName(originalname)) in ValidExtensions
    ensures FileFilter(mimetype, originalname).Accept?
    ensures ToLower(ExtName(StoredFilename(now, random, originalname))) in ValidExtensions
  {
    StoredFilenameKeepsExtension(now, random, originalname);
  }
}
