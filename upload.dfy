/**
 * The upload server action of src/app/actions/upload.ts: the form's `file` entry becomes a
 * `data:` URL holding the file's bytes in base 64, which the dashboard stores in place of a file URL.
 */
module Upload {
  import opened Wrappers
  import opened Text
  import opened Base64

  /** A browser `File`: its declared media type and its bytes. */
  datatype File = File(mimeType: string, bytes: seq<Byte>)

  /** What `formData.get('file')` yields: nothing, a text field, or a file. */
  datatype FormEntry = Missing | TextField(text: string) | FileField(file: File)

  datatype UploadError =
    | NoFileUploaded   // the action's own `Error('No file uploaded')`
    | NotAFile         // a non-empty text field: reading it as a file throws

  datatype Uploaded = Uploaded(url: string, status: string)

  /** `` `data:${mimeType};base64,${base64String}` `` */
  function DataUrl(mimeType: string, payload: string): string
  {
    "data:" + mimeType + ";base64," + payload
  }

  /** `uploadFile(formData)` given the form's `file` entry. */
  function UploadFile(entry: FormEntry): (r: Result<Uploaded, UploadError>)
    ensures r.Err? <==> !entry.FileField?
    ensures r.Err? ==> (r.error == NoFileUploaded <==> entry.Missing? || entry.text == "")
    ensures r.Ok? ==> r.value.status == "success"
    ensures r.Ok? ==> StartsWith(r.value.url, "data:" + entry.file.mimeType + ";base64,")
    ensures r.Ok? ==> r.value.url == DataUrl(entry.file.mimeType, Encode(entry.file.bytes))
  {
    match entry
    case Missing => Err(NoFileUploaded)
    case TextField(t) => if t == "" then Err(NoFileUploaded) else Err(NotAFile)
    case FileField(f) =>
      var url := DataUrl(f.mimeType, Encode(f.bytes));
      assert url[..|"data:" + f.mimeType + ";base64,"|] == "data:" + f.mimeType + ";base64,";
      Ok(Uploaded(url, "success"))
  }

  /**
   * When the media type holds no comma, the URL's first comma ends its header, the header names the
   * media type, and the text after that comma decodes to exactly the file's bytes.
   */
  lemma DataUrlRoundTrip(f: File)
    requires forall i :: 0 <= i < |f.mimeType| ==> f.mimeType[i] != ','
    ensures UploadFile(FileField(f)).Ok?
    ensures var url, k := UploadFile(FileField(f)).value.url, |f.mimeType| + 12;
      && IndexOf(url, ",") == Some(k)
      && url[..k] == "data:" + f.mimeType + ";base64"
      && Decode(url[k + 1..]) == Some(f.bytes)
  {
    var head := "data:" + f.mimeType + ";base64";
    var url := head + "," + Encode(f.bytes);
    var k := |head|;
    assert url == DataUrl(f.mimeType, Encode(f.bytes));
    assert url[..k] == head;
    assert url[k + 1..] == Encode(f.bytes);
    assert OccursAt(url, ",", k) by {
      assert url[k..k + 1] == [url[k]];
    }
    forall j | 0 <= j < k ensures !OccursAt(url, ",", j) {
      assert url[j..j + 1] == [head[j]];
      if 5 <= j < 5 + |f.mimeType| {
        assert head[j] == f.mimeType[j - 5];
      }
    }
    IndexOfIs(url, ",", k);
    DecodeEncode(f.bytes);
  }
}
