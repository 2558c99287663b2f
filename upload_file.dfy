/** Uploading a file (netlify/functions/upload-file.ts): check presence, size and
    type in that order, then store the bytes under a time-stamped id. */
module UploadFile {
  import opened Types
  import opened Strings
  import opened Http
  import Blobs

  /** The `file` entry of the form: its name, MIME type and bytes. */
  datatype FormFile = FormFile(name: string, mimeType: string, content: seq<bv8>)

  const MaxUploadBytes: nat := 10 * 1024 * 1024

  /** PDF, DOCX and DOC. */
  const AllowedTypes: seq<string> := [
    "application/pdf",
    "application/vnd.openxmlformats-officedocument.wordprocessingml.document",
    "application/msword"]

  /** The first check a file fails, as its error message, or `None` when it
      passes all three. */
  function UploadError(file: Option<FormFile>): (r: Option<string>)
    ensures r.None? <==> file.Some? && |file.value.content| <= MaxUploadBytes && file.value.mimeType in AllowedTypes
    ensures file.None? ==> r == Some("No file provided")
    ensures file.Some? && |file.value.content| > MaxUploadBytes ==> r == Some("File too large (max 10MB)")
    ensures file.Some? && |file.value.content| <= MaxUploadBytes && file.value.mimeType !in AllowedTypes ==>
              r == Some("Invalid file type. Only PDF and DOCX allowed")
  {
    if file.None? then Some("No file provided")
    else if |file.value.content| > MaxUploadBytes then Some("File too large (max 10MB)")
    else if file.value.mimeType !in AllowedTypes then Some("Invalid file type. Only PDF and DOCX allowed")
    else None
  }

  /** `${Date.now()}-${file.name}`. */
  function FileId(nowMs: nat, name: string): (r: string)
    ensures var d := |DecimalString(nowMs)|;
            && |r| == d + 1 + |name|
            && AllDigits(r[..d]) && r[d] == '-' && r[d + 1..] == name
  {
    DecimalString(nowMs) + "-" + name
  }

  /** `/api/download-file?id=${fileId}`. */
  function DownloadUrl(fileId: string): (r: string)
    ensures IsPrefixOf("/api/download-file?id=", r) && r[|"/api/download-file?id="|..] == fileId
  {
    "/api/download-file?id=" + fileId
  }

  /** The position of the first '-' in `s`, or |s|. */
  function DashAt(s: string): (k: nat)
    ensures k <= |s| && (k < |s| ==> s[k] == '-')
    ensures forall i :: 0 <= i < k ==> s[i] != '-'
  {
    if s == [] || s[0] == '-' then 0 else 1 + DashAt(s[1..])
  }

  /** Splits a file id at its first '-' into the upload time and the file name. */
  function ParseFileId(fileId: string): Option<(nat, string)> {
    var k := DashAt(fileId);
    if k < |fileId| && AllDigits(fileId[..k]) then Some((ParseDecimal(fileId[..k]), fileId[k + 1..]))
    else None
  }

  /** A file id gives back the time and name it was made from, whatever the name
      contains; so ids of uploads at different times, or of different names,
      differ. */
  lemma {:induction false} FileIdRoundTrip(nowMs: nat, name: string)
    ensures ParseFileId(FileId(nowMs, name)) == Some((nowMs, name))
  {
    var d := DecimalString(nowMs);
    var id := FileId(nowMs, name);
    forall i | 0 <= i < |d| ensures id[i] != '-' {
      assert id[i] == d[i] && IsDigit(d[i]);
    }
    assert id[|d|] == '-';
    assert DashAt(id) == |d|;
    assert id[..|d|] == d;
    assert id[|d| + 1..] == name;
    ParseDecimalString(nowMs);
  }

  /** The handler. `file` is `None` when the form has no file; `form` is `false`
      when the form data does not parse (the 500 reply); `nowMs` is
      `Date.now()`, `uploadedAt` the ISO time kept in the metadata. Only a file
      that passes every check is stored. */
  method Upload(store: Blobs.UploadStore, req: Request, form: bool, file: Option<FormFile>,
                nowMs: nat, uploadedAt: string)
    returns (resp: Response)
    modifies store
    ensures req.verb != "POST" ==> resp == TextReply(405, "Method not allowed") && unchanged(store)
    ensures req.verb == "POST" && !form ==> resp == JsonReply(500, ServerError) && unchanged(store)
    ensures req.verb == "POST" && form && UploadError(file).Some? ==>
              resp == JsonReply(400, ErrorBody(UploadError(file).value)) && unchanged(store)
    ensures req.verb == "POST" && form && UploadError(file).None? ==>
              var f := file.value;
              var id := FileId(nowMs, f.name);
              && store.files == old(store.files)[id := StoredFile(f.content, f.name, f.mimeType,
                                                                  DecimalString(|f.content|), uploadedAt)]
              && resp == JsonReply(200, Uploaded(id, f.name, DownloadUrl(id)))
  {
    if req.verb != "POST" {
      return TextReply(405, "Method not allowed");
    }
    if !form {
      return JsonReply(500, ServerError);
    }
    var error := UploadError(file);
    if error.Some? {
      return JsonReply(400, ErrorBody(error.value));
    }
    var f := file.value;
    var fileId := FileId(nowMs, f.name);
    store.files := store.files[fileId := StoredFile(f.content, f.name, f.mimeType, DecimalString(|f.content|), uploadedAt)];
    resp := JsonReply(200, Uploaded(fileId, f.name, DownloadUrl(fileId)));
  }
}
