/**
 * The logo upload control bound to the form: the 2 MB size gate, the
 * completion of the file read, and logo removal.
 */
module LogoUpload {
  import opened Schemas
  import opened MainForm

  /** The largest accepted file: 2 * 1024 * 1024 bytes. */
  const MaxLogoBytes: nat := 2 * 1024 * 1024

  const TooLargeAlert := "Ukuran file terlalu besar! Maksimal 2MB."

  /** What a file change leads to. */
  datatype FileChange = NoFile | TooLarge(alert: string) | ReadStarted

  /** The gate: no file, a file over the limit (strictly greater), or a read. */
  function SizeGate(file: Option<FileInfo>): (r: FileChange)
    ensures r == NoFile <==> file.None?
    ensures r.TooLarge? <==> file.Some? && file.value.size > MaxLogoBytes
    ensures r.TooLarge? ==> r.alert == TooLargeAlert
    ensures r == ReadStarted <==> file.Some? && file.value.size <= MaxLogoBytes
  {
    if file.None? then NoFile
    else if file.value.size > MaxLogoBytes then TooLarge(TooLargeAlert)
    else ReadStarted
  }

  /** The upload control.  `inputValue` is the hidden file input's value;
      `None` when the input is not mounted (a null ref). */
  class LogoUploader {
    var inputValue: Option<string>

    constructor (mounted: bool)
      ensures inputValue == if mounted then Some("") else None
    {
      inputValue := if mounted then Some("") else None;
    }

    /** `handleFileChange`: the form is not touched; an accepted file only
        starts the read, whose result arrives in `OnLoadEnd`. */
    method HandleFileChange(file: Option<FileInfo>) returns (outcome: FileChange)
      ensures outcome == SizeGate(file)
    {
      outcome := SizeGate(file);
    }

    /** `reader.onloadend`: the form's logo becomes the read result. */
    method OnLoadEnd(form: InvoiceForm, result: string)
      modifies form
      ensures form.values == old(form.values).(senderDetails := old(form.values).senderDetails.(logo := Some(result)))
    {
      form.values := form.values.(senderDetails := form.values.senderDetails.(logo := Some(result)));
    }

    /** `removeLogo`: the logo becomes the empty string (not undefined) and a
        mounted file input is cleared. */
    method RemoveLogo(form: InvoiceForm)
      modifies this, form
      ensures form.values == old(form.values).(senderDetails := old(form.values).senderDetails.(logo := Some("")))
      ensures inputValue == if old(inputValue).Some? then Some("") else None
    {
      form.values := form.values.(senderDetails := form.values.senderDetails.(logo := Some("")));
      if inputValue.Some? {
        inputValue := Some("");
      }
    }
  }

  /** The limit is inclusive: exactly 2 MB passes, one byte more is rejected. */
  lemma GateBoundary()
    ensures SizeGate(Some(FileInfo(2097152))) == ReadStarted
    ensures SizeGate(Some(FileInfo(2097153))) == TooLarge(TooLargeAlert)
  {
  }
}
