/** The file filter of the second upload middleware: the exact MIME type alone
    decides, with no case folding and no look at the file name. */
module MulterFilter {
  import opened Common
  import FileNames
  import UploadFilter

  const ValidTypes: seq<string> := ["image/jpeg", "image/png"]
  const RejectMessage: string := "Only JPEG or PNG files are allowed"

  /** `fileFilter`: accept exactly the MIME types image/jpeg and image/png. */
  function FileFilter(mimetype: string, originalname: string): (d: UploadFilter.Decision)
    ensures d.Accept? <==> mimetype == "image/jpeg" || mimetype == "image/png"
    ensures d.Reject? ==> d.message == RejectMessage
  {
    if mimetype in ValidTypes then UploadFilter.Accept else UploadFilter.Reject(RejectMessage)
  }

  /** The file name plays no part in the decision. */
  lemma FileFilterIgnoresName(mimetype: string, name1: string, name2: string)
    ensures FileFilter(mimetype, name1) == FileFilter(mimetype, name2)
  {
  }

  /** Every file this filter accepts, the other upload filter accepts too. */
  lemma AcceptedByUploadFilter(mimetype: string, originalname: string)
    requires FileFilter(mimetype, originalname).Accept?
    ensures UploadFilter.FileFilter(mimetype, originalname).Accept?
  {
    assert forall k :: 0 <= k < |mimetype| ==> 'a' <= mimetype[k] <= 'z' || mimetype[k] == '/';
    UploadFilter.ToLowerNoCapitals(mimetype);
  }

  /** The converse fails: "image/jpg" passes the other filter and is refused here. */
  lemma JpgTypeOnlyUploadFilter(originalname: string)
    ensures UploadFilter.FileFilter("image/jpg", originalname).Accept?
    ensures FileFilter("image/jpg", originalname).Reject?
  {
    JpgIsLowerCase();
    assert "image/jpg"[6] != "image/png"[6];
  }

  lemma JpgIsLowerCase()
    ensures UploadFilter.ToLower("image/jpg") == "image/jpg"
  {
    var t := "image/jpg";
    assert forall k :: 0 <= k < |t| ==> !('A' <= t[k] <= 'Z');
    UploadFilter.ToLowerNoCapitals(t);
  }

  /** Neither accepted MIME type holds a capital letter. */
  lemma ValidTypesLowerCase()
    ensures forall t, j :: t in ValidTypes && 0 <= j < |t| ==> !('A' <= t[j] <= 'Z')
  {
    var jpeg, png := "image/jpeg", "image/png";
    assert forall j :: 0 <= j < |jpeg| ==> !('A' <= jpeg[j] <= 'Z');
    assert forall j :: 0 <= j < |png| ==> !('A' <= png[j] <= 'Z');
  }

  /** The converse fails: a MIME type with a capital letter that lower-cases to
      image/jpeg or image/png ("IMAGE/PNG", say) passes the other filter and is
      refused here. */
  lemma CapitalTypeOnlyUploadFilter(mimetype: string, originalname: string)
    requires exists k :: 0 <= k < |mimetype| && 'A' <= mimetype[k] <= 'Z'
    requires UploadFilter.ToLower(mimetype) in ValidTypes
    ensures UploadFilter.FileFilter(mimetype, originalname).Accept?
    ensures FileFilter(mimetype, originalname).Reject?
  {
    CapitalTypeRefused(mimetype, originalname);
    LowerValidTypeAccepted(mimetype, originalname);
  }

  lemma CapitalTypeRefused(mimetype: string, originalname: string)
    requires exists k :: 0 <= k < |mimetype| && 'A' <= mimetype[k] <= 'Z'
    ensures FileFilter(mimetype, originalname).Reject?
  {
    ValidTypesLowerCase();
    assert mimetype !in ValidTypes;
  }

  lemma LowerValidTypeAccepted(mimetype: string, originalname: string)
    requires UploadFilter.ToLower(mimetype) in ValidTypes
    ensures UploadFilter.FileFilter(mimetype, originalname).Accept?
  {
    ValidTypesAreUploadTypes();
  }

  /** Every MIME type this filter accepts is one the other filter lists too. */
  lemma ValidTypesAreUploadTypes()
    ensures forall t :: t in ValidTypes ==> t in UploadFilter.ValidTypes
  {
    assert ValidTypes[0] == UploadFilter.ValidTypes[0] && ValidTypes[1] == UploadFilter.ValidTypes[1];
  }

  /** The converse fails: a file named <stem>.png passes the other filter whatever
      its MIME type, and is refused here unless the type is exactly right. */
  lemma PngNameOnlyUploadFilter(mimetype: string, stem: string)
    requires mimetype != "image/jpeg" && mimetype != "image/png"
    requires stem != [] && forall k :: 0 <= k < |stem| ==> stem[k] != '/' && stem[k] != '.'
    ensures UploadFilter.FileFilter(mimetype, stem + ".png").Accept?
    ensures FileFilter(mimetype, stem + ".png").Reject?
  {
    PngExtension();
    FileNames.ExtNameAfterPlainName(stem, ".png");
  }

  /** ".png" has the shape of an extension, is lower case and is a valid one. */
  lemma PngExtension()
    ensures ".png"[0] == '.' && forall k :: 1 <= k < |".png"| ==> ".png"[k] != '.' && ".png"[k] != '/'
    ensures ".png"[0] != '/'
    ensures UploadFilter.ToLower(".png") in UploadFilter.ValidExtensions
  {
    var ext := ".png";
    assert forall k :: 0 <= k < |ext| ==> !('A' <= ext[k] <= 'Z');
    UploadFilter.ToLowerNoCapitals(ext);
  }
}
