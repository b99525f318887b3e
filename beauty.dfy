/**
 * Makeup and hair advice (src/api/beauty.py): the colour type to advise
 * for, the cleaning of the model's reply, the result built from the reply
 * with its per-key defaults, and the HTTP status each failure maps to.
 *
 * The Gemini calls are parameters: `analyse` answers the colour-analysis
 * prompt for an image, `advise` answers the advice prompt for an image and
 * the prompt's variable parts, `parse` stands for `json.loads`.
 */
module Beauty {
  import opened Wrappers
  import opened Text
  import opened Verdicts
  import opened ImageValidator
  import opened Stylist

  const NoRecommendations: string := "No recommendations provided"

  /** `data.get(key, default)`: the default stands in only for a missing key; a present null is kept. */
  function Get(data: map<string, Json>, key: string, default: Json): Json {
    if key in data then data[key] else default
  }

  /** The makeup result dict. */
  datatype Makeup = Makeup(
    personalColorType: string,
    lipstickColors: Json,
    eyeshadowColors: Json,
    blushColors: Json,
    foundationTone: Json,
    recommendations: Json)

  /** The hair result dict. */
  datatype Hair = Hair(
    personalColorType: string,
    recommendedColors: Json,
    recommendedStyles: Json,
    recommendations: Json)

  function MakeupFrom(colorType: string, data: map<string, Json>): Makeup {
    Makeup(colorType,
      Get(data, "lipstick_colors", JArray([])),
      Get(data, "eyeshadow_colors", JArray([])),
      Get(data, "blush_colors", JArray([])),
      Get(data, "foundation_tone", JString("Natural")),
      Get(data, "recommendations", JString(NoRecommendations)))
  }

  function HairFrom(colorType: string, data: map<string, Json>): Hair {
    Hair(colorType,
      Get(data, "recommended_colors", JArray([])),
      Get(data, "recommended_styles", JArray([])),
      Get(data, "recommendations", JString(NoRecommendations)))
  }

  /**
   * Each makeup key present in the reply is copied as it is, null
   * included; each absent key takes its default ([] for the three colour
   * lists, "Natural" for the foundation, the placeholder sentence for the
   * recommendations). Unlike the colour analysis, a present null is not
   * replaced.
   */
  lemma MakeupDefaults(colorType: string, data: map<string, Json>)
    ensures var m := MakeupFrom(colorType, data);
      && m.personalColorType == colorType
      && (("lipstick_colors" in data ==> m.lipstickColors == data["lipstick_colors"])
          && ("lipstick_colors" !in data ==> m.lipstickColors == JArray([])))
      && (("eyeshadow_colors" in data ==> m.eyeshadowColors == data["eyeshadow_colors"])
          && ("eyeshadow_colors" !in data ==> m.eyeshadowColors == JArray([])))
      && (("blush_colors" in data ==> m.blushColors == data["blush_colors"])
          && ("blush_colors" !in data ==> m.blushColors == JArray([])))
      && (("foundation_tone" in data ==> m.foundationTone == data["foundation_tone"])
          && ("foundation_tone" !in data ==> m.foundationTone == JString("Natural")))
      && (("recommendations" in data ==> m.recommendations == data["recommendations"])
          && ("recommendations" !in data ==> m.recommendations == JString(NoRecommendations)))
    ensures "foundation_tone" in data && data["foundation_tone"] == JNull ==>
      MakeupFrom(colorType, data).foundationTone == JNull
  {
  }

  /** The same for the three hair keys. */
  lemma HairDefaults(colorType: string, data: map<string, Json>)
    ensures var h := HairFrom(colorType, data);
      && h.personalColorType == colorType
      && (("recommended_colors" in data ==> h.recommendedColors == data["recommended_colors"])
          && ("recommended_colors" !in data ==> h.recommendedColors == JArray([])))
      && (("recommended_styles" in data ==> h.recommendedStyles == data["recommended_styles"])
          && ("recommended_styles" !in data ==> h.recommendedStyles == JArray([])))
      && (("recommendations" in data ==> h.recommendations == data["recommendations"])
          && ("recommendations" !in data ==> h.recommendations == JString(NoRecommendations)))
  {
  }

  // ---------------------------------------------------------------------
  // The two advice functions

  /** How `get_makeup_recommendations` and `get_hair_recommendations` fail. */
  datatype AdviceError =
    | ImageUndecodable
      // `base64_to_image` raised, before the `try`
    | AnalysisFailed(cause: SeasonError)
      // `get_your_color_season` raised, before the `try`
    | AdviceNotJson(excerpt: string)
      // "JSON decode error: ...", with `response_text[:200]`
    | ParsingFailed
      // any other error in the `try`: no reply text, or a reply that is not an object

  /** `not personal_color_type`: None and the empty string both count as not given. */
  predicate Given(colorType: Option<string>) {
    colorType.Some? && colorType.value != ""
  }

  /** The colour type to advise for: the caller's when given, otherwise a fresh analysis of the image. */
  function ColorTypeFor(given: Option<string>, image: Image, analyse: Image -> Option<string>,
                        parse: string -> Option<Json>): Result<string, AdviceError> {
    if Given(given) then Success(given.value)
    else
      match SeasonOf(analyse(image), parse)
      case Failure(e) => Failure(AnalysisFailed(e))
      case Success(v) => Success(v.personalColorType)
  }

  /** The advice reply cleaned and parsed: the object whose keys `data.get` reads. */
  function ReplyData(text: Option<string>, parse: string -> Option<Json>): Result<map<string, Json>, AdviceError> {
    match text
    case None => Failure(ParsingFailed)
    case Some(t) =>
      var cleaned := Cleaned(t);
      match parse(cleaned)
      case None => Failure(AdviceNotJson(Prefix(cleaned, 200)))
      case Some(data) => if data.JObject? then Success(data.fields) else Failure(ParsingFailed)
  }

  /**
   * A reply fenced as "```json" is read as the object inside the fence; a
   * reply that is not JSON fails with at most 200 characters of the
   * cleaned text.
   */
  lemma ReplyDataFenced(body: string, parse: string -> Option<Json>)
    requires IsTrimmed(body)
    ensures parse(body).Some? && parse(body).value.JObject? ==>
      ReplyData(Some("```json\n" + body + "\n```"), parse) == Success(parse(body).value.fields)
    ensures parse(body).None? ==>
      ReplyData(Some("```json\n" + body + "\n```"), parse) == Failure(AdviceNotJson(Prefix(body, 200)))
  {
    CleanedJsonFence(body);
  }

  /** `get_makeup_recommendations`. */
  function MakeupAdvice(input: ImageInput, given: Option<string>, decode: string -> Option<Image>,
                        analyse: Image -> Option<string>, advise: (Image, string) -> Option<string>,
                        parse: string -> Option<Json>): Result<Makeup, AdviceError> {
    match Prepare(input, decode)
    case None => Failure(ImageUndecodable)
    case Some(image) =>
      match ColorTypeFor(given, image, analyse, parse)
      case Failure(e) => Failure(e)
      case Success(colorType) =>
        MakeupReply(image, colorType, advise, parse)
  }

  /** The part of `get_makeup_recommendations` after the colour type is known. */
  function MakeupReply(image: Image, colorType: string, advise: (Image, string) -> Option<string>,
                       parse: string -> Option<Json>): Result<Makeup, AdviceError> {
    match ReplyData(advise(image, colorType), parse)
    case Failure(e) => Failure(e)
    case Success(data) => Success(MakeupFrom(colorType, data))
  }

  /** The hair prompt's line about the current colour. */
  function HairInfo(current: Option<string>): string {
    if Given(current) then "Current hair color: " + current.value else "Current hair color: not specified"
  }

  /** The hair line names the given colour, or says that none was given. */
  lemma HairInfoNames(current: Option<string>)
    ensures Given(current) ==>
      (StartsWith(HairInfo(current), "Current hair color: ")
       && HairInfo(current)[|"Current hair color: "|..] == current.value)
    ensures !Given(current) ==> HairInfo(current) == "Current hair color: not specified"
  {
  }

  /** `get_hair_recommendations`; the advice prompt receives the colour type and the hair line. */
  function HairAdvice(input: ImageInput, given: Option<string>, current: Option<string>,
                      decode: string -> Option<Image>, analyse: Image -> Option<string>,
                      advise: (Image, string, string) -> Option<string>,
                      parse: string -> Option<Json>): Result<Hair, AdviceError> {
    match Prepare(input, decode)
    case None => Failure(ImageUndecodable)
    case Some(image) =>
      match ColorTypeFor(given, image, analyse, parse)
      case Failure(e) => Failure(e)
      case Success(colorType) =>
        match ReplyData(advise(image, colorType, HairInfo(current)), parse)
        case Failure(e) => Failure(e)
        case Success(data) => Success(HairFrom(colorType, data))
  }

  /** `get_makeup_recommendations`, step by step. */
  method GetMakeupRecommendations(input: ImageInput, given: Option<string>, decode: string -> Option<Image>,
                                  analyse: Image -> Option<string>, advise: (Image, string) -> Option<string>,
                                  parse: string -> Option<Json>)
      returns (r: Result<Makeup, AdviceError>)
    ensures r == MakeupAdvice(input, given, decode, analyse, advise, parse)
  {
    var image :- PrepareOr(input, decode);
    var colorType :- ColorTypeOr(given, image, decode, analyse, parse);
    var data :- ReadReply(advise(image, colorType), parse);
    r := Success(MakeupFrom(colorType, data));
  }

  /** `get_hair_recommendations`, step by step. */
  method GetHairRecommendations(input: ImageInput, given: Option<string>, current: Option<string>,
                                decode: string -> Option<Image>, analyse: Image -> Option<string>,
                                advise: (Image, string, string) -> Option<string>, parse: string -> Option<Json>)
      returns (r: Result<Hair, AdviceError>)
    ensures r == HairAdvice(input, given, current, decode, analyse, advise, parse)
  {
    var image :- PrepareOr(input, decode);
    var colorType :- ColorTypeOr(given, image, decode, analyse, parse);
    var hairInfo := HairInfo(current);
    var data :- ReadReply(advise(image, colorType, hairInfo), parse);
    r := Success(HairFrom(colorType, data));
  }

  /** The colour type to advise for: the given one, or the one the analysis of the image finds. */
  method ColorTypeOr(given: Option<string>, image: Image, decode: string -> Option<Image>,
                     analyse: Image -> Option<string>, parse: string -> Option<Json>)
      returns (r: Result<string, AdviceError>)
    ensures r == ColorTypeFor(given, image, analyse, parse)
  {
    if Given(given) {
      return Success(given.value);
    }
    var analysis := GetColorSeason(Opened(image), decode, analyse, parse);
    if analysis.Failure? {
      return Failure(AnalysisFailed(analysis.error));
    }
    r := Success(analysis.value.personalColorType);
  }

  /** The advice reply cleaned and parsed, failing as the source does when it is missing or not an object. */
  method ReadReply(text: Option<string>, parse: string -> Option<Json>) returns (r: Result<map<string, Json>, AdviceError>)
    ensures r == ReplyData(text, parse)
  {
    if text.None? {
      return Failure(ParsingFailed);
    }
    var cleaned := CleanReply(text.value);
    var parsed := parse(cleaned);
    if parsed.None? {
      return Failure(AdviceNotJson(Prefix(cleaned, 200)));
    }
    if !parsed.value.JObject? {
      return Failure(ParsingFailed);
    }
    r := Success(parsed.value.fields);
  }

  /** Turning the input into an image, failing as `base64_to_image` does. */
  method PrepareOr(input: ImageInput, decode: string -> Option<Image>) returns (r: Result<Image, AdviceError>)
    ensures Prepare(input, decode).None? ==> r == Failure(ImageUndecodable)
    ensures Prepare(input, decode).Some? ==> r == Success(Prepare(input, decode).value)
  {
    match input {
      case Encoded(s) =>
        var decoded := decode(s);
        if decoded.None? {
          return Failure(ImageUndecodable);
        }
        r := Success(decoded.value);
      case Opened(img) =>
        r := Success(img);
    }
  }

  /**
   * A given colour type is used as it is and the image is not analysed:
   * the result does not depend on the analysis at all. Without one, the
   * result carries the analysed colour type, and a failed analysis fails
   * the request.
   */
  lemma MakeupColorType(input: ImageInput, given: Option<string>, decode: string -> Option<Image>,
                        analyse: Image -> Option<string>, other: Image -> Option<string>,
                        advise: (Image, string) -> Option<string>, parse: string -> Option<Json>)
    ensures Given(given) ==>
      MakeupAdvice(input, given, decode, analyse, advise, parse) == MakeupAdvice(input, given, decode, other, advise, parse)
    ensures Given(given) && MakeupAdvice(input, given, decode, analyse, advise, parse).Success? ==>
      MakeupAdvice(input, given, decode, analyse, advise, parse).value.personalColorType == given.value
    ensures !Given(given) && Prepare(input, decode).Some? ==>
      var analysis := SeasonOf(analyse(Prepare(input, decode).value), parse);
      var r := MakeupAdvice(input, given, decode, analyse, advise, parse);
      && (analysis.Failure? ==> r == Failure(AnalysisFailed(analysis.error)))
      && (r.Success? ==> analysis.Success? && r.value.personalColorType == analysis.value.personalColorType)
  {
    if Prepare(input, decode).Some? {
      var image := Prepare(input, decode).value;
      var ct := ColorTypeFor(given, image, analyse, parse);
      if ct.Success? {
        MakeupReplyType(image, ct.value, advise, parse);
      }
    }
  }

  /** A makeup result carries the colour type it was asked for. */
  lemma MakeupReplyType(image: Image, colorType: string, advise: (Image, string) -> Option<string>,
                        parse: string -> Option<Json>)
    ensures MakeupReply(image, colorType, advise, parse).Success? ==>
      MakeupReply(image, colorType, advise, parse).value.personalColorType == colorType
  {
  }

  // ---------------------------------------------------------------------
  // The two endpoints

  /** `str(e)` of an advice failure; the wording of exceptions raised by libraries is not modelled. */
  function AdviceMessage(e: AdviceError, kind: string): string {
    match e
    case ImageUndecodable => ""
    case AnalysisFailed(cause) => MessageHead(cause)
    case AdviceNotJson(excerpt) => "JSON decode error: . Response text: " + excerpt
    case ParsingFailed => "Error parsing " + kind + " recommendations: "
  }

  /** `str(e)` of the IndexError raised by a "data:" text without a comma. */
  const IndexErrorMessage: string := "list index out of range"

  /**
   * An endpoint's outcome: the image is validated from base64 with a face
   * required, at most 4096 and at least 100 pixels a side; a validation
   * error is a 400 with its message, and every other failure a 500 whose
   * detail names the kind of advice.
   */
  function Endpoint<T>(text: string, kind: string, b64decode: string -> Option<Bytes>, open: Bytes -> Option<Image>,
                       detector: Image -> Detection, advice: Image -> Result<T, AdviceError>): Result<T, HttpError> {
    match ValidateImageFromBase64(text, true, 4096, 100, AllowedFormats, DefaultMaxSizeMb, b64decode, open, detector)
    case Failure(Rejected(e)) => Failure(HttpError(400, Message(e)))
    case Failure(MalformedDataUrl) => Failure(HttpError(500, "Error getting " + kind + " recommendations: " + IndexErrorMessage))
    case Success((image, _)) =>
      match advice(image)
      case Failure(e) => Failure(HttpError(500, "Error getting " + kind + " recommendations: " + AdviceMessage(e, kind)))
      case Success(v) => Success(v)
  }

  /** `get_makeup_recommendations_endpoint`. */
  function MakeupEndpoint(text: string, given: Option<string>, b64decode: string -> Option<Bytes>,
                          open: Bytes -> Option<Image>, detector: Image -> Detection, decode: string -> Option<Image>,
                          analyse: Image -> Option<string>, advise: (Image, string) -> Option<string>,
                          parse: string -> Option<Json>): Result<Makeup, HttpError> {
    Endpoint(text, "makeup", b64decode, open, detector,
      image => MakeupAdvice(Opened(image), given, decode, analyse, advise, parse))
  }

  /** `get_hair_recommendations_endpoint`. */
  function HairEndpoint(text: string, given: Option<string>, current: Option<string>,
                        b64decode: string -> Option<Bytes>, open: Bytes -> Option<Image>,
                        detector: Image -> Detection, decode: string -> Option<Image>,
                        analyse: Image -> Option<string>, advise: (Image, string, string) -> Option<string>,
                        parse: string -> Option<Json>): Result<Hair, HttpError> {
    Endpoint(text, "hair", b64decode, open, detector,
      image => HairAdvice(Opened(image), given, current, decode, analyse, advise, parse))
  }

  /**
   * An endpoint answers 400 exactly when image validation rejects the
   * upload, with the validation message as detail, and 500 for every
   * other failure, with a detail naming the kind of advice; an upload that
   * passes validation has passed the face check.
   */
  lemma EndpointStatus<T>(text: string, kind: string, b64decode: string -> Option<Bytes>, open: Bytes -> Option<Image>,
                          detector: Image -> Detection, advice: Image -> Result<T, AdviceError>)
    ensures var v := ValidateImageFromBase64(text, true, 4096, 100, AllowedFormats, DefaultMaxSizeMb, b64decode, open, detector);
      var r := Endpoint(text, kind, b64decode, open, detector, advice);
      && (r.Failure? ==> r.error.status == 400 || r.error.status == 500)
      && (r.Failure? && r.error.status == 400 <==> v.Failure? && v.error.Rejected?)
      && (v.Failure? && v.error.Rejected? ==> r.error.detail == Message(v.error.error))
      && (r.Failure? && r.error.status == 500 ==> StartsWith(r.error.detail, "Error getting " + kind + " recommendations: "))
      && (r.Success? ==>
            (v.Success? && v.value.1.faceDetected == Some(true)
             && 100 <= v.value.0.width <= 4096 && 100 <= v.value.0.height <= 4096))
  {
    var v := ValidateImageFromBase64(text, true, 4096, 100, AllowedFormats, DefaultMaxSizeMb, b64decode, open, detector);
    var head := "Error getting " + kind + " recommendations: ";
    forall tail: string ensures StartsWith(head + tail, head) {
      assert (head + tail)[..|head|] == head;
    }
    if v.Success? {
      var bytes := b64decode(Payload(text).value).value;
      assert open(bytes).Some?;
      var image := open(bytes).value;
      assert ValidateImage(image, true, 4096, 100, AllowedFormats, Some(|bytes|), DefaultMaxSizeMb, detector).Success?;
    }
  }
}
