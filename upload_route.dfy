/** `POST /api/upload` (app/api/upload/route.ts): takes the rendered card as
    a data URL, keeps the part after its first comma, and stores it as a new
    JPEG object in the `cards` bucket. The storage service's answers are
    inputs. */
module UploadRoute {

  import opened Wrappers
  import opened JsStrings
  import Storage

  /** The parsed JSON body: its `image` field (`None` for every falsy value),
      or the error the parse or the destructuring threw. */
  datatype UploadBody = Unparseable(message: string) | Json(image: Option<string>)

  datatype UploadResponse =
    | Uploaded(message: string, imageUrl: string, filename: string)
    | UploadRejected(status: nat, message: string, error: string)

  /** The response together with the storage write made on the way, if any. */
  datatype UploadOutcome = UploadOutcome(response: UploadResponse, write: Option<Storage.UploadRequest>)

  /** `image.split(',')[1]`, absent when the string has no comma. */
  function Payload(image: string): Option<string>
  {
    At(Split(image, ','), 1)
  }

  /** The payload is present exactly when the image holds a comma, and it is
      then the text after the first comma up to the next comma or the end. */
  lemma PayloadAfterFirstComma(image: string)
    ensures Payload(image).Some? <==> ',' in image
    ensures ',' in image ==>
      var i := |Split(image, ',')[0]|;
      var p := Payload(image).value;
      && i < |image| && image[i] == ',' && ',' !in image[..i]
      && var tail := image[i + 1..];
      && |p| <= |tail| && p == tail[..|p|] && ',' !in p
      && (|p| < |tail| ==> tail[|p|] == ',')
  {
    JoinSplit(image, ',');
    if ',' in image {
      SplitTail(image, ',');
      SplitFirst(image, ',');
      var i := |Split(image, ',')[0]|;
      SplitFirst(image[i + 1..], ',');
    }
  }

  /** A data URL `header,payload` whose header and payload hold no comma
      yields exactly its payload. */
  lemma DataUrlPayload(header: string, payload: string)
    requires ',' !in header && ',' !in payload
    ensures Payload(header + "," + payload) == Some(payload)
  {
    assert Join([header, payload], ',') == header + "," + payload;
    SplitJoin([header, payload], ',');
  }

  /** `card-${Date.now()}-${random}.jpg`. */
  function CardFilename(stamp: string, suffix: string): (name: string)
    ensures |name| >= 10 && name[..5] == "card-" && name[|name| - 4..] == ".jpg"
  {
    "card-" + stamp + "-" + suffix + ".jpg"
  }

  /** `POST`. The time stamp, the random suffix, the storage error and the
      public-URL function are inputs. */
  function Post(body: UploadBody, stamp: string, suffix: string,
                uploadError: Option<string>, publicUrl: string -> string): (out: UploadOutcome)
    ensures body.Unparseable? ==> out == UploadOutcome(UploadRejected(500, "服务器错误", body.message), None)
    ensures body.Json? && (body.image.None? || body.image.value == "") ==>
              out == UploadOutcome(UploadRejected(400, "缺少图片数据", "MISSING_IMAGE_DATA"), None)
    ensures body.Json? && body.image.Some? && body.image.value != "" &&
            (Payload(body.image.value).None? || Payload(body.image.value).value == "") ==>
              out == UploadOutcome(UploadRejected(400, "图片格式无效", "INVALID_IMAGE_FORMAT"), None)
    // a write happens exactly for a data URL with a non-empty payload, always as a new JPEG object
    ensures out.write.Some? <==>
              body.Json? && body.image.Some? && Payload(body.image.value).Some? && Payload(body.image.value).value != ""
    ensures out.write.Some? ==>
              out.write.value == Storage.UploadRequest(Storage.Bucket, CardFilename(stamp, suffix), "image/jpeg", false)
    ensures out.response.Uploaded? <==> out.write.Some? && uploadError.None?
    ensures out.write.Some? && uploadError.Some? ==> out.response == UploadRejected(500, "上传失败", uploadError.value)
    ensures out.response.Uploaded? ==>
              && out.response.filename == CardFilename(stamp, suffix)
              && out.response.imageUrl == publicUrl(out.response.filename)
  {
    match body
    case Unparseable(m) => UploadOutcome(UploadRejected(500, "服务器错误", m), None)
    case Json(image) =>
      if image.None? || image.value == "" then
        UploadOutcome(UploadRejected(400, "缺少图片数据", "MISSING_IMAGE_DATA"), None)
      else
        var base64Data := Payload(image.value);
        if base64Data.None? || base64Data.value == "" then
          UploadOutcome(UploadRejected(400, "图片格式无效", "INVALID_IMAGE_FORMAT"), None)
        else
          var filename := CardFilename(stamp, suffix);
          var write := Some(Storage.UploadRequest(Storage.Bucket, filename, "image/jpeg", false));
          if uploadError.Some? then UploadOutcome(UploadRejected(500, "上传失败", uploadError.value), write)
          else UploadOutcome(Uploaded("图片上传成功", publicUrl(filename), filename), write)
  }
}
