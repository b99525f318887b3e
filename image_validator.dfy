/**
 * Upload validation for images (src/utils/image_validator.py): dimension
 * bounds, format allow-list, byte-size limit, the optional face check, and
 * the two entry points that start from raw bytes or from base64 text.
 *
 * A decoded image is an abstract record of its size and format. Decoding
 * (PIL), base64 and the OpenCV face detector are passed in as functions.
 */
module ImageValidator {
  import opened Wrappers
  import opened Text

  type Bytes = seq<bv8>

  /** What the validators read of a PIL image. */
  datatype Image = Image(width: nat, height: nat, format: Option<string>)

  /** An image handed to the services: base64 text (possibly a data URL) or an opened image. */
  datatype ImageInput = Encoded(text: string) | Opened(image: Image)

  /** `ImageValidationError`, one constructor per raise site. */
  datatype ImageError =
    | TooSmall(width: nat, height: nat, minDimension: int)
    | TooLarge(width: nat, height: nat, maxDimension: int)
    | UnknownFormat
    | UnsupportedFormat(format: string)
    | FileTooLarge(sizeBytes: int, maxSizeMb: int)
    | NoFace
    | InvalidImageFile
    | InvalidBase64

  const DefaultMaxSizeMb: int := 10
  const DefaultMaxDimension: int := 4096
  const DefaultMinDimension: int := 100
  const AllowedFormats: set<string> := {"JPEG", "PNG", "JPG", "WEBP"}

  /** `str(e)` for each error; the listing of the allowed formats is left out. */
  function Message(e: ImageError): string {
    match e
    case TooSmall(w, h, m) =>
      "Image too small: " + IntToString(w) + "x" + IntToString(h) + ". Minimum dimension: " + IntToString(m) + "px"
    case TooLarge(w, h, m) =>
      "Image too large: " + IntToString(w) + "x" + IntToString(h) + ". Maximum dimension: " + IntToString(m) + "px"
    case UnknownFormat => "Unable to determine image format"
    case UnsupportedFormat(f) => "Unsupported image format: " + f + ". Allowed formats: "
    case FileTooLarge(b, m) =>
      "File too large: " + FormatFixed(b as real / 1048576.0, 2) + "MB. Maximum: " + IntToString(m) + "MB"
    case NoFace => "No face detected in the image. Please upload an image with a visible face."
    case InvalidImageFile => "Invalid image file: "
    case InvalidBase64 => "Invalid base64 encoding: "
  }

  /**
   * `validate_image_size`: both bounds are inclusive, and the "too small"
   * test comes first.
   */
  function ValidateSize(image: Image, maxDimension: int, minDimension: int): (r: Result<(nat, nat), ImageError>)
    ensures r.Success? <==>
      minDimension <= image.width <= maxDimension && minDimension <= image.height <= maxDimension
    ensures r.Success? ==> r.value == (image.width, image.height)
    ensures image.width < minDimension || image.height < minDimension ==>
      r == Failure(TooSmall(image.width, image.height, minDimension))
    ensures (image.width >= minDimension && image.height >= minDimension
      && (image.width > maxDimension || image.height > maxDimension)) ==>
      r == Failure(TooLarge(image.width, image.height, maxDimension))
  {
    if image.width < minDimension || image.height < minDimension then
      Failure(TooSmall(image.width, image.height, minDimension))
    else if image.width > maxDimension || image.height > maxDimension then
      Failure(TooLarge(image.width, image.height, maxDimension))
    else
      Success((image.width, image.height))
  }

  /**
   * `validate_image_format`: an unknown format is an error; otherwise the
   * upper-cased name must be allowed, and the name is returned as PIL gave it.
   */
  function ValidateFormat(image: Image, allowed: set<string>): (r: Result<string, ImageError>)
    ensures image.format.None? ==> r == Failure(UnknownFormat)
    ensures image.format.Some? ==>
      (r.Success? <==> Upper(image.format.value) in allowed)
    ensures r.Success? ==> image.format == Some(r.value)
    ensures r.Failure? && image.format.Some? ==> r.error == UnsupportedFormat(image.format.value)
  {
    match image.format
    case None => Failure(UnknownFormat)
    case Some(f) => if Upper(f) in allowed then Success(f) else Failure(UnsupportedFormat(f))
  }

  /** `validate_file_size`: `None` when it passes. */
  function ValidateFileSize(sizeBytes: int, maxSizeMb: int): (problem: Option<ImageError>)
    ensures problem.Some? <==> sizeBytes > maxSizeMb * 1024 * 1024
    ensures problem.Some? ==> problem.value == FileTooLarge(sizeBytes, maxSizeMb)
  {
    if sizeBytes > maxSizeMb * 1024 * 1024 then Some(FileTooLarge(sizeBytes, maxSizeMb)) else None
  }

  /** What the OpenCV detector did with an image. */
  datatype Detection =
    | OpenCvMissing
    | CascadeMissing
    | DetectorFailed
    | Faces(count: nat)

  /**
   * `detect_face_opencv`: a face is reported unless the detector ran and
   * found none.
   */
  function DetectFace(outcome: Detection): (found: bool)
    ensures !found <==> outcome == Faces(0)
  {
    match outcome
    case OpenCvMissing => true
    case CascadeMissing => true
    case DetectorFailed => true
    case Faces(n) => n > 0
  }

  /** The result dict of `validate_image`; `faceDetected` is the optional key. */
  datatype Report = Report(valid: bool, width: nat, height: nat, format: string, faceDetected: Option<bool>)

  /**
   * `validate_image`: format, then dimensions, then the byte size when it
   * is given, then the face when it is required.
   */
  function ValidateImage(
    image: Image, requireFace: bool, maxDimension: int, minDimension: int,
    allowed: set<string>, fileSizeBytes: Option<int>, maxSizeMb: int,
    detector: Image -> Detection): (r: Result<Report, ImageError>)
    ensures ValidateFormat(image, allowed).Failure? ==> r == Failure(ValidateFormat(image, allowed).error)
    ensures ValidateFormat(image, allowed).Success? && ValidateSize(image, maxDimension, minDimension).Failure? ==>
      r == Failure(ValidateSize(image, maxDimension, minDimension).error)
    ensures r.Success? <==>
      && ValidateFormat(image, allowed).Success?
      && ValidateSize(image, maxDimension, minDimension).Success?
      && (fileSizeBytes.Some? ==> ValidateFileSize(fileSizeBytes.value, maxSizeMb).None?)
      && (requireFace ==> DetectFace(detector(image)))
    ensures (r.Failure? && ValidateFormat(image, allowed).Success?
      && ValidateSize(image, maxDimension, minDimension).Success?
      && (fileSizeBytes.Some? ==> ValidateFileSize(fileSizeBytes.value, maxSizeMb).None?)) ==>
      r == Failure(NoFace)
    ensures r.Success? ==>
      && r.value.valid
      && r.value.width == image.width && r.value.height == image.height
      && Some(r.value.format) == image.format
      && (r.value.faceDetected.Some? <==> requireFace)
      && (requireFace ==> r.value.faceDetected == Some(true))
  {
    match ValidateFormat(image, allowed)
    case Failure(e) => Failure(e)
    case Success(formatName) =>
      match ValidateSize(image, maxDimension, minDimension)
      case Failure(e) => Failure(e)
      case Success(size) =>
        var sizeProblem := if fileSizeBytes.Some? then ValidateFileSize(fileSizeBytes.value, maxSizeMb) else None;
        if sizeProblem.Some? then Failure(sizeProblem.value)
        else if requireFace && !DetectFace(detector(image)) then Failure(NoFace)
        else Success(Report(true, size.0, size.1, formatName, if requireFace then Some(true) else None))
  }

  /**
   * `validate_image_from_bytes`: the raw length is checked before the bytes
   * are opened, and the same length is checked again inside `validate_image`.
   */
  function ValidateImageFromBytes(
    bytes: Bytes, requireFace: bool, maxDimension: int, minDimension: int,
    allowed: set<string>, maxSizeMb: int,
    open: Bytes -> Option<Image>, detector: Image -> Detection): (r: Result<(Image, Report), ImageError>)
    ensures |bytes| > maxSizeMb * 1024 * 1024 ==> r == Failure(FileTooLarge(|bytes|, maxSizeMb))
    ensures |bytes| <= maxSizeMb * 1024 * 1024 && open(bytes).None? ==> r == Failure(InvalidImageFile)
    ensures r.Success? <==>
      && |bytes| <= maxSizeMb * 1024 * 1024
      && open(bytes).Some?
      && ValidateImage(open(bytes).value, requireFace, maxDimension, minDimension,
           allowed, Some(|bytes|), maxSizeMb, detector).Success?
    ensures r.Success? ==> r.value.0 == open(bytes).value
  {
    match ValidateFileSize(|bytes|, maxSizeMb)
    case Some(e) => Failure(e)
    case None =>
      match open(bytes)
      case None => Failure(InvalidImageFile)
      case Some(image) =>
        match ValidateImage(image, requireFace, maxDimension, minDimension, allowed, Some(|bytes|), maxSizeMb, detector)
        case Failure(e) => Failure(e)
        case Success(report) => Success((image, report))
  }

  /**
   * How `validate_image_from_base64` can end: with a validation error, or
   * with the `IndexError` of a "data:" text that has no comma, which is not
   * a validation error.
   */
  datatype Base64Failure = Rejected(error: ImageError) | MalformedDataUrl

  /**
   * The base64 payload of a text: after the first comma for a data URL
   * (the `data:[<mediatype>][;base64],<data>` syntax of section 3 of
   * RFC 2397), the whole text otherwise.
   */
  function Payload(text: string): (r: Option<string>)
    ensures !StartsWith(text, "data:") ==> r == Some(text)
    ensures StartsWith(text, "data:") ==> (r.None? <==> ',' !in text)
    ensures StartsWith(text, "data:") && r.Some? ==>
      exists k :: 0 <= k < |text| && text[k] == ',' && ',' !in text[..k] && r.value == text[k + 1..]
  {
    if !StartsWith(text, "data:") then Some(text)
    else
      match IndexOf(text, ',')
      case None => None
      case Some(k) => Some(text[k + 1..])
  }

  /** `validate_image_from_base64`. */
  function ValidateImageFromBase64(
    text: string, requireFace: bool, maxDimension: int, minDimension: int,
    allowed: set<string>, maxSizeMb: int,
    b64decode: string -> Option<Bytes>, open: Bytes -> Option<Image>,
    detector: Image -> Detection): (r: Result<(Image, Report), Base64Failure>)
    ensures Payload(text).None? ==> r == Failure(MalformedDataUrl)
    ensures Payload(text).Some? && b64decode(Payload(text).value).None? ==> r == Failure(Rejected(InvalidBase64))
    ensures Payload(text).Some? && b64decode(Payload(text).value).Some? ==>
      var bytes := b64decode(Payload(text).value).value;
      var inner := ValidateImageFromBytes(bytes, requireFace, maxDimension, minDimension, allowed, maxSizeMb, open, detector);
      r == if inner.Success? then Success(inner.value) else Failure(Rejected(inner.error))
  {
    match Payload(text)
    case None => Failure(MalformedDataUrl)
    case Some(payload) =>
      match b64decode(payload)
      case None => Failure(Rejected(InvalidBase64))
      case Some(bytes) =>
        match ValidateImageFromBytes(bytes, requireFace, maxDimension, minDimension, allowed, maxSizeMb, open, detector)
        case Failure(e) => Failure(Rejected(e))
        case Success(v) => Success(v)
  }

  /** A data URL's media type and encoding never reach the decoder. */
  lemma DataUrlPayload(header: string, payload: string)
    requires ',' !in header
    ensures Payload("data:" + header + "," + payload) == Some(payload)
  {
    var text := "data:" + header + "," + payload;
    assert StartsWith(text, "data:") by { assert text[..5] == "data:"; }
    var k := 5 + |header|;
    assert text[k] == ',';
    assert text[..k] == "data:" + header;
    assert ',' !in "data:";
    assert text[k + 1..] == payload;
  }

  /** Turn an input into an image, decoding text with the given decoder. */
  function Prepare(input: ImageInput, decode: string -> Option<Image>): (r: Option<Image>)
    ensures input.Opened? ==> r == Some(input.image)
    ensures input.Encoded? ==> r == decode(input.text)
  {
    match input
    case Encoded(text) => decode(text)
    case Opened(image) => Some(image)
  }
}
