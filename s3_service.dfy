/** The image store: a base64 data URL is split into its header and payload,
    the header picks the file extension and content type, and the decoded bytes
    are put under a fresh key whose public URL is returned. Decoding, the
    fresh id and the put request are parameters. */
module S3Service {
  import opened Wrappers
  import opened Text

  type byte = bv8

  /** The configured service: the bucket, and the region the storage client
      reports (None when it has none). */
  datatype S3Service = S3Service(bucket: string, region: Option<string>)

  /** Building the service fails when the bucket variable is unset or empty. */
  function NewS3Service(bucketVariable: Option<string>, region: Option<string>): (r: Result<S3Service, string>)
    ensures r.Err? <==> bucketVariable == None || bucketVariable == Some("")
    ensures r.Ok? ==> r.value.bucket == bucketVariable.value && r.value.region == region
  {
    if bucketVariable.None? || bucketVariable.value == "" then Err("S3_BUCKET_NAME environment variable not set.")
    else Ok(S3Service(bucketVariable.value, region))
  }

  /** A data URL split at its first comma into header and payload; without a
      comma there is no header and the whole text is the payload. */
  function SplitDataUrl(data: string): (r: (Option<string>, string))
    ensures ',' in data ==> r.0.Some? && ',' !in r.0.value && r.0.value + "," + r.1 == data
    ensures ',' !in data ==> r == (None, data)
  {
    if ',' in data then
      var k := FirstIndex(data, ',');
      assert data[..k] + "," + data[k + 1..] == data by {
        assert data == data[..k] + [data[k]] + data[k + 1..];
      }
      (Some(data[..k]), data[k + 1..])
    else (None, data)
  }

  /** Python's truthiness of an optional string: None and "" are both false. */
  predicate Present(header: Option<string>)
  {
    header.Some? && header.value != ""
  }

  /** A set header that holds `mime` somewhere: Python's `mime in header`. */
  predicate Mentions(header: Option<string>, mime: string)
  {
    Present(header) && Contains(header.value, mime)
  }

  function GetExtension(header: Option<string>): string
  {
    if !Present(header) then ".jpg"
    else if Mentions(header, "image/jpeg") then ".jpg"
    else if Mentions(header, "image/png") then ".png"
    else if Mentions(header, "image/gif") then ".gif"
    else ".jpg"
  }

  function GetContentType(header: Option<string>): string
  {
    if !Present(header) then "image/jpeg"
    else if Mentions(header, "image/jpeg") then "image/jpeg"
    else if Mentions(header, "image/png") then "image/png"
    else if Mentions(header, "image/gif") then "image/gif"
    else "image/jpeg"
  }

  /** The extension a file of a content type is stored with. */
  function ExtensionFor(contentType: string): string
  {
    if contentType == "image/png" then ".png"
    else if contentType == "image/gif" then ".gif"
    else ".jpg"
  }

  /** Python's `str()` of an optional string inside an f-string. */
  function PyStr(o: Option<string>): string
  {
    if o.Some? then o.value else "None"
  }

  function ObjectKey(prefix: string, objectId: string, extension: string): string
  {
    prefix + objectId + extension
  }

  function ObjectUrl(service: S3Service, key: string): string
  {
    "https://" + service.bucket + ".s3." + PyStr(service.region) + ".amazonaws.com/" + key
  }

  /** The put the service issues. */
  datatype PutRequest = PutRequest(bucket: string, key: string, body: seq<byte>, acl: string, contentType: string)

  /** The default key prefix. */
  const ImagePrefix := "maritime-images/"

  /** Upload a data URL. `decode` is base64 decoding (None when the payload is
      not valid base64), `objectId` the fresh id, and `put` says whether the
      store accepted the request. Every failure comes back as None. */
  function UploadBase64Image(service: S3Service, data: string, prefix: string, objectId: string,
                             decode: string -> Option<seq<byte>>, put: PutRequest -> bool): (r: Option<string>)
  {
    var (header, encoded) := SplitDataUrl(data);
    var bytes := decode(encoded);
    if bytes.None? then None
    else
      var key := ObjectKey(prefix, objectId, GetExtension(header));
      if !put(PutRequest(service.bucket, key, bytes.value, "public-read", GetContentType(header))) then None
      else Some(ObjectUrl(service, key))
  }

  /** The only extensions are .jpg, .png and .gif. */
  lemma ExtensionIsKnown(header: Option<string>)
    ensures GetExtension(header) in {".jpg", ".png", ".gif"}
    ensures GetContentType(header) in {"image/jpeg", "image/png", "image/gif"}
  {
  }

  /** The extension always matches the content type sent with the object. */
  lemma ExtensionAgreesWithContentType(header: Option<string>)
    ensures GetExtension(header) == ExtensionFor(GetContentType(header))
    ensures GetExtension(header) == ".png" <==> GetContentType(header) == "image/png"
    ensures GetExtension(header) == ".gif" <==> GetContentType(header) == "image/gif"
    ensures GetExtension(header) == ".jpg" <==> GetContentType(header) == "image/jpeg"
  {
  }

  /** Which header gives which type: no header means JPEG; the tests run jpeg,
      png, gif in that order, so a JPEG mention wins; anything else is JPEG. */
  lemma HeaderClassification(header: Option<string>)
    ensures !Present(header) ==> GetExtension(header) == ".jpg" && GetContentType(header) == "image/jpeg"
    ensures Mentions(header, "image/jpeg") ==> GetContentType(header) == "image/jpeg"
    ensures !Mentions(header, "image/jpeg") && Mentions(header, "image/png") ==> GetContentType(header) == "image/png"
    ensures (!Mentions(header, "image/jpeg") && !Mentions(header, "image/png") && Mentions(header, "image/gif"))
      ==> GetContentType(header) == "image/gif"
    ensures (Present(header) && !Mentions(header, "image/jpeg") && !Mentions(header, "image/png")
             && !Mentions(header, "image/gif"))
      ==> GetContentType(header) == "image/jpeg"
  {
  }

  /** Splitting a header free of commas, a comma and a payload gives back
      that header and that payload, whatever commas the payload holds. */
  lemma SplitDataUrlInverse(header: string, payload: string)
    requires ',' !in header
    ensures SplitDataUrl(header + "," + payload) == (Some(header), payload)
  {
    var data := header + "," + payload;
    assert data[|header|] == ',';
    FirstIndexAfterFree(header, ',', payload);
    assert data[..|header|] == header;
    assert data[|header| + 1..] == payload;
  }

  /** An upload succeeds exactly when the payload decodes and the store accepts
      the put of those bytes under prefix + id + extension with the matching
      content type; the URL names the bucket, the region and that key. */
  lemma UploadOutcome(service: S3Service, data: string, prefix: string, objectId: string,
                      decode: string -> Option<seq<byte>>, put: PutRequest -> bool)
    ensures var (header, encoded) := SplitDataUrl(data);
      var key := ObjectKey(prefix, objectId, GetExtension(header));
      var r := UploadBase64Image(service, data, prefix, objectId, decode, put);
      var request := PutRequest(service.bucket, key, decode(encoded).GetOr([]), "public-read", GetContentType(header));
      && (r.Some? <==> (decode(encoded).Some? && put(request)))
      && (r.Some? ==> (r.value == ObjectUrl(service, key)
                       && StartsWith(r.value, "https://" + service.bucket + ".s3.")
                       && EndsWith(r.value, GetExtension(header))))
  {
    var (header, encoded) := SplitDataUrl(data);
    var key := ObjectKey(prefix, objectId, GetExtension(header));
    var url := ObjectUrl(service, key);
    var front := "https://" + service.bucket + ".s3.";
    assert url == front + (PyStr(service.region) + ".amazonaws.com/" + key);
    assert url[..|front|] == front;
    var ext := GetExtension(header);
    assert url == ("https://" + service.bucket + ".s3." + PyStr(service.region) + ".amazonaws.com/" + prefix + objectId) + ext;
    assert url[|url| - |ext|..] == ext;
  }
}
