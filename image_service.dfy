/** `ImageService.process`: choosing the output format and encoder, naming the stored
    object and reporting the result. Decoding and encoding images and signing URLs are
    outside the model and arrive as functions. */
module Images {
  import opened Wrappers
  import opened Text
  import opened Web
  import opened Storage
  import opened Db

  const JPEG: string := "jpeg"
  const JPG: string := "jpg"
  const PNG: string := "png"
  const WEBP: string := "webp"
  const COMPRESS: string := "compress"

  /** The encoder call `process` adds to the pipeline. */
  datatype Encoder =
    | Jpeg(quality: int, mozjpeg: bool)
    | Png(compressionLevel: int, palette: bool)
    | Webp(quality: int)

  datatype Resize = Resize(width: Option<int>, height: Option<int>)
  datatype Watermark = Watermark(file: Option<UploadedFile>, text: Option<string>, position: string)

  /** The options the dashboard passes for one file. */
  datatype ProcessInput = ProcessInput(
    file: UploadedFile,
    processType: string,
    targetFormat: Option<string>,
    userId: Id,
    quality: int,
    resize: Option<Resize>,
    stripMetadata: bool,
    upscale: bool,
    watermark: Option<Watermark>)

  datatype ProcessOutput = ProcessOutput(
    fileName: string,
    publicUrl: string,
    downloadUrl: string,
    originalSize: nat,
    newSize: nat,
    format: string)

  /** The image libraries, the object store's failures and the URL signer, which the
      model does not look inside. `detect` is the format found in the image's metadata;
      `encode` is the encoded image, or the message encoding throws; `putError(key)` is the
      message the upload of `key` throws, if it does; `presign(key, asAttachment)` is a
      signed URL, or the message signing throws. */
  datatype Codec = Codec(
    detect: seq<byte> -> Option<string>,
    encode: (Option<Encoder>, seq<byte>) -> Result<seq<byte>, string>,
    putError: string -> Option<string>,
    presign: (string, bool) -> Result<string, string>)

  /** The output format: for `compress` the detected format (`jpg` if none), whatever the
      target; otherwise the target (`jpeg` if none). */
  function OutputFormat(processType: string, targetFormat: Option<string>, detected: Option<string>): (r: string)
    ensures r != ""
    ensures processType == COMPRESS ==> (Truthy(detected) && r == detected.value) || (!Truthy(detected) && r == JPG)
    ensures processType != COMPRESS ==> (Truthy(targetFormat) && r == targetFormat.value) || (!Truthy(targetFormat) && r == JPEG)
  {
    if processType == COMPRESS then
      if Truthy(detected) then detected.value else JPG
    else
      if Truthy(targetFormat) then targetFormat.value else JPEG
  }

  /** With `compress` the requested target format plays no part. */
  lemma CompressIgnoresTarget(t1: Option<string>, t2: Option<string>, detected: Option<string>)
    ensures OutputFormat(COMPRESS, t1, detected) == OutputFormat(COMPRESS, t2, detected)
  {
  }

  /** The encoder settings, a function of the output format alone: quality 60 with mozjpeg
      for `jpg`/`jpeg`, level 8 with a palette for `png`, quality 60 for `webp`, and no
      encoder call for any other format. */
  function EncoderFor(format: string): (e: Option<Encoder>)
    ensures e.Some? <==> format in {JPG, JPEG, PNG, WEBP}
    ensures format == JPG || format == JPEG ==> e == Some(Jpeg(60, true))
    ensures format == PNG ==> e == Some(Png(8, true))
    ensures format == WEBP ==> e == Some(Webp(60))
  {
    if format == JPG || format == JPEG then Some(Jpeg(60, true))
    else if format == PNG then Some(Png(8, true))
    else if format == WEBP then Some(Webp(60))
    else None
  }

  /** The object key `users/<userId>/<timestamp>.<format>`. */
  function StorageKey(userId: Id, timestamp: nat, format: string): string {
    "users/" + NatToString(userId) + "/" + NatToString(timestamp) + "." + format
  }

  /** The key lies under the user's own prefix, and when the format holds no dot the text
      after the key's last dot is the format. */
  lemma StorageKeyShape(userId: Id, timestamp: nat, format: string)
    ensures StartsWith(StorageKey(userId, timestamp, format), "users/" + NatToString(userId) + "/")
    ensures '.' !in format ==> AfterLast(StorageKey(userId, timestamp, format), '.') == format
  {
    var p := "users/" + NatToString(userId) + "/";
    var k := StorageKey(userId, timestamp, format);
    assert k[..|p|] == p;
    if '.' !in format {
      AfterLastOfSuffix(p + NatToString(timestamp), '.', format);
    }
  }

  function ContentType(format: string): (t: string)
    ensures StartsWith(t, "image/") && t[|"image/"|..] == format
  {
    "image/" + format
  }

  /** What one `process` call leaves behind: the object it uploaded, if the upload
      happened and succeeded, and the result record or the message `process` throws. */
  datatype Effect = Effect(stored: Option<(string, StoredObject)>, result: Result<ProcessOutput, string>)

  /** What one `process` call does. It encodes, uploads and signs two URLs (the public one
      first), and throws the message of the first of these steps that throws; `OutcomeSteps`
      states this step by step. */
  function Outcome(input: ProcessInput, codec: Codec, timestamp: nat): (r: Effect)
    ensures r.result.Success? ==> r.stored.Some? && r.result.value.originalSize == input.file.Size()
  {
    var format := OutputFormat(input.processType, input.targetFormat, codec.detect(input.file.bytes));
    match codec.encode(EncoderFor(format), input.file.bytes)
    case Failure(e) => Effect(None, Failure(e))
    case Success(body) =>
      var key := StorageKey(input.userId, timestamp, format);
      if codec.putError(key).Some? then Effect(None, Failure(codec.putError(key).value))
      else
        var stored := Some((key, StoredObject(body, ContentType(format))));
        match codec.presign(key, false)
        case Failure(e) => Effect(stored, Failure(e))
        case Success(publicUrl) =>
          match codec.presign(key, true)
          case Failure(e) => Effect(stored, Failure(e))
          case Success(downloadUrl) =>
            Effect(stored, Success(ProcessOutput(key, publicUrl, downloadUrl, input.file.Size(), |body|, format)))
  }

  /** The object is stored exactly when encoding and the upload succeed; the call succeeds
      exactly when every step does, and then reports the stored object; a failure carries
      the message of the step that threw first. */
  lemma OutcomeSteps(input: ProcessInput, codec: Codec, timestamp: nat)
    ensures
      var r := Outcome(input, codec, timestamp);
      var format := OutputFormat(input.processType, input.targetFormat, codec.detect(input.file.bytes));
      var encoded := codec.encode(EncoderFor(format), input.file.bytes);
      var key := StorageKey(input.userId, timestamp, format);
      // the object is stored exactly when encoding and the upload succeed
      && (r.stored.Some? <==> encoded.Success? && codec.putError(key).None?)
      && (r.stored.Some? ==> r.stored.value == (key, StoredObject(encoded.value, ContentType(format))))
      // the call succeeds exactly when every step does, and then reports the stored object
      && (r.result.Success? <==>
           encoded.Success? && codec.putError(key).None? && codec.presign(key, false).Success?
           && codec.presign(key, true).Success?)
      && (r.result.Success? ==>
           var out := r.result.value;
           && r.stored.Some?
           && out.format == format
           && out.fileName == key
           && out.originalSize == input.file.Size()
           && out.newSize == |r.stored.value.1.body|
           && out.publicUrl == codec.presign(key, false).value
           && out.downloadUrl == codec.presign(key, true).value)
      // a failure carries the message of the step that threw first
      && (encoded.Failure? ==> r.result == Failure(encoded.error))
      && (encoded.Success? && codec.putError(key).Some? ==> r.result == Failure(codec.putError(key).value))
      && (r.stored.Some? && codec.presign(key, false).Failure? ==>
           r.result == Failure(codec.presign(key, false).error))
      && (r.stored.Some? && codec.presign(key, false).Success? && codec.presign(key, true).Failure? ==>
           r.result == Failure(codec.presign(key, true).error))
  {
  }

  /** Quality, resizing, metadata stripping, upscaling and watermarking are never read:
      two inputs that agree on the file, the process type, the target format and the user
      produce the same result. */
  lemma OnlyFourOptionsMatter(a: ProcessInput, b: ProcessInput, codec: Codec, timestamp: nat)
    requires a.file == b.file && a.processType == b.processType
    requires a.targetFormat == b.targetFormat && a.userId == b.userId
    ensures Outcome(a, codec, timestamp) == Outcome(b, codec, timestamp)
  {
  }

  /** `ImageService`, uploading into `store`. */
  class ImageService {
    const store: ObjectStore

    constructor (store: ObjectStore)
      ensures this.store == store
    {
      this.store := store;
    }

    /** `process`: the effect `Outcome` describes, on the object store. */
    method Process(input: ProcessInput, codec: Codec, timestamp: nat) returns (r: Result<ProcessOutput, string>)
      modifies store
      ensures r == Outcome(input, codec, timestamp).result
      ensures Outcome(input, codec, timestamp).stored.None? ==> store.objects == old(store.objects)
      ensures Outcome(input, codec, timestamp).stored.Some? ==>
        var (key, obj) := Outcome(input, codec, timestamp).stored.value;
        store.objects == old(store.objects)[key := obj]
    {
      var originalSize := input.file.Size();
      var outputFormat := if Truthy(input.targetFormat) then input.targetFormat.value else JPEG;
      if input.processType == COMPRESS {
        var detected := codec.detect(input.file.bytes);
        outputFormat := if Truthy(detected) then detected.value else JPG;
      }
      var encoder := EncoderFor(outputFormat);
      var encoded := codec.encode(encoder, input.file.bytes);
      if encoded.Failure? {
        return Failure(encoded.error);
      }
      var body := encoded.value;
      var fileName := StorageKey(input.userId, timestamp, outputFormat);
      var thrown := store.Put(fileName, body, ContentType(outputFormat), codec.putError(fileName));
      if thrown.Some? {
        return Failure(thrown.value);
      }
      var publicUrl := codec.presign(fileName, false);
      if publicUrl.Failure? {
        return Failure(publicUrl.error);
      }
      var downloadUrl := codec.presign(fileName, true);
      if downloadUrl.Failure? {
        return Failure(downloadUrl.error);
      }
      r := Success(ProcessOutput(fileName, publicUrl.value, downloadUrl.value, originalSize, |body|, outputFormat));
    }
  }
}
