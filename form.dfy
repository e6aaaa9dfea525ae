/**
 * The ticket form as the page reads it: its text fields, the optional
 * screenshot file, the required-field check made on submission and the
 * size and type check made when a screenshot is chosen.
 */
module Form {
  import opened Wrappers
  import opened JsText

  /** A chosen file: its size in bytes, its MIME type and what `FileReader` reads from it as a data URL. */
  datatype File = File(size: nat, mimeType: string, dataUrl: string)

  /**
   * `new FormData(form)`: the text entries by field name (a missing name is
   * what `formData.get` answers `null` for), and the screenshot entry.
   */
  datatype FormData = FormData(text: map<string, string>, screenshot: Option<File>)

  /** The fields `validateForm` requires, in the order it checks them. */
  const RequiredFields: seq<string> := ["title", "description"]

  const MissingFieldsMessage: string := "الرجاء ملء جميع الحقول المطلوبة"

  /** A field is filled when it is present and holds a character that `trim` keeps. */
  ghost predicate Filled(form: FormData, field: string) {
    field in form.text && !AllTrimmable(form.text[field])
  }

  /** What a submission needs: a filled title and a filled description. */
  ghost predicate FormValid(form: FormData) {
    Filled(form, "title") && Filled(form, "description")
  }

  /**
   * `validateForm`: walks the required fields in order and stops at the
   * first one that is missing, empty or blank after trimming, showing one
   * error message. `errors` lists the messages shown.
   */
  method ValidateForm(form: FormData) returns (ok: bool, errors: seq<string>)
    ensures ok <==> FormValid(form)
    ensures errors == if ok then [] else [MissingFieldsMessage]
  {
    for i := 0 to |RequiredFields|
      invariant forall k :: 0 <= k < i ==> Filled(form, RequiredFields[k])
    {
      var field := RequiredFields[i];
      if field !in form.text || form.text[field] == "" || Trim(form.text[field]) == "" {
        return false, [MissingFieldsMessage];
      }
    }
    assert RequiredFields[0] == "title" && RequiredFields[1] == "description";
    return true, [];
  }

  /** `submitTicket` attaches the screenshot entry when it is a file with at least one byte. */
  predicate HasAttachment(form: FormData): (b: bool)
    ensures b <==> form.screenshot.Some? && form.screenshot.value.size > 0
    ensures form.screenshot.Some? && !b ==> form.screenshot.value.size == 0
  {
    form.screenshot.Some? && form.screenshot.value.size > 0
  }

  /** The size limit of `handleImageUpload`: 10 MiB. */
  const MaxImageBytes: nat := 10 * 1024 * 1024

  const TooLargeMessage: string := "حجم الملف كبير جداً. الحد الأقصى 10MB"
  const NotAnImageMessage: string := "يرجى اختيار ملف صورة صحيح"

  /** What choosing a screenshot leads to: nothing, one of two errors, or a preview of the file. */
  datatype UploadOutcome = NoFile | TooLarge | NotAnImage | Preview(dataUrl: string)

  /**
   * `handleImageUpload`'s checks on the first chosen file: the size is
   * checked first, then the MIME type prefix `image/`.
   */
  function CheckImageUpload(file: Option<File>): (r: UploadOutcome)
    ensures r == NoFile <==> file.None?
    ensures r == TooLarge <==> file.Some? && file.value.size > MaxImageBytes
    ensures r == NotAnImage <==>
              file.Some? && file.value.size <= MaxImageBytes && !StartsWith(file.value.mimeType, "image/")
    ensures r.Preview? <==>
              file.Some? && file.value.size <= MaxImageBytes && StartsWith(file.value.mimeType, "image/")
    ensures r.Preview? ==> r.dataUrl == file.value.dataUrl
  {
    match file
    case None => NoFile
    case Some(f) =>
      if f.size > 10 * 1024 * 1024 then TooLarge
      else if !StartsWith(f.mimeType, "image/") then NotAnImage
      else Preview(f.dataUrl)
  }

  /** The error messages a check outcome shows: at most one. */
  function UploadErrors(r: UploadOutcome): (errors: seq<string>)
    ensures |errors| <= 1
    ensures errors == [] <==> r.NoFile? || r.Preview?
    ensures r == TooLarge ==> errors == [TooLargeMessage]
    ensures r == NotAnImage ==> errors == [NotAnImageMessage]
  {
    match r
    case TooLarge => [TooLargeMessage]
    case NotAnImage => [NotAnImageMessage]
    case _ => []
  }

  /** A 15 MiB image is refused a preview, with the size message, whatever its type. */
  lemma OversizedImageRejected(mimeType: string, dataUrl: string)
    ensures CheckImageUpload(Some(File(15 * 1024 * 1024, mimeType, dataUrl))) == TooLarge
    ensures UploadErrors(CheckImageUpload(Some(File(15 * 1024 * 1024, mimeType, dataUrl)))) == [TooLargeMessage]
  {
  }
}
