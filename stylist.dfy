/**
 * The single-model stylist service (src/services/stylist.py): the reply
 * cleaning, defaulting and validation of `get_your_color_season`, and the
 * part selection of `get_outfit_on`.
 *
 * The Gemini calls are parameters: `reply` gives the text of the answer
 * for an image (or nothing, when the answer has no text), `parse` stands
 * for `json.loads`.
 */
module Stylist {
  import opened Wrappers
  import opened Text
  import opened Verdicts
  import opened ImageValidator

  /** `s[:n]`: the first n characters, or all of them when there are fewer. */
  function Prefix(s: string, n: nat): (r: string)
    ensures |r| <= n && |r| <= |s| && r == s[..|r|]
    ensures |s| <= n ==> r == s
    ensures |s| >= n ==> |r| == n
  {
    if |s| <= n then s else s[..n]
  }

  /** How `get_your_color_season` can fail. */
  datatype SeasonError =
    | UndecodableImage
      // `base64_to_image` raised; this happens before the `try`
    | NoReplyText
      // `response.text` was None: `.strip()` fails inside the `try`, and the
      // handler then reads the unbound `response_text`, so an
      // UnboundLocalError escapes instead of a ValueError
    | JsonDecodeError(excerpt: string)
      // the cleaned text is not JSON; the message carries `response_text[:200]`
    | ValidationError(problem: Invalid, excerpt: string)
      // the record could not be built; the message carries `response_text[:500]`

  /** How the ValueError messages begin; the decoder's own wording is not modelled. */
  function MessageHead(e: SeasonError): string {
    match e
    case UndecodableImage => ""
    case NoReplyText => ""
    case JsonDecodeError(_) => "JSON decode error: "
    case ValidationError(_, _) => "Validation error: "
  }

  /** The reply after `strip()`, the three fence drops and a second `strip()`. */
  function Cleaned(reply: string): string {
    Unfenced(Trim(reply))
  }

  /** The reassignments of `response_text`, one step at a time. */
  method CleanReply(reply: string) returns (text: string)
    ensures text == Cleaned(reply)
    ensures IsTrimmed(text)
  {
    text := Trim(reply);
    text := StripFences(text);
  }

  /** A trimmed body wrapped in a "```json" fence comes back as the body. */
  lemma CleanedJsonFence(body: string)
    requires IsTrimmed(body)
    ensures Cleaned("```json\n" + body + "\n```") == body
  {
    WrappedIsTrimmed(body);
    UnfencedJsonFence(body);
  }

  lemma WrappedIsTrimmed(body: string)
    ensures Trim("```json\n" + body + "\n```") == "```json\n" + body + "\n```"
  {
    var wrapped := "```json\n" + body + "\n```";
    assert wrapped[0] == '`' && wrapped[|wrapped| - 1] == '`';
    TrimOfTrimmed(wrapped);
  }

  /** A trimmed body with no fence at either end comes back unchanged. */
  lemma CleanedPlain(body: string)
    requires IsTrimmed(body)
    requires !StartsWith(body, Fence) && !EndsWith(body, Fence)
    ensures Cleaned(body) == body
  {
    TrimOfTrimmed(body);
    UnfencedPlain(body);
  }

  /** What becomes of the cleaned reply text, given what `json.loads` made of it. */
  function Interpret(cleaned: string, parsed: Option<Json>): Result<Verdict, SeasonError> {
    match parsed
    case None => Failure(JsonDecodeError(Prefix(cleaned, 200)))
    case Some(data) =>
      match Normalised(data)
      case Failure(problem) => Failure(ValidationError(problem, Prefix(cleaned, 500)))
      case Success(v) => Success(v)
  }

  /** The analysis of one image, from the text of the model's answer. */
  function SeasonOf(text: Option<string>, parse: string -> Option<Json>): Result<Verdict, SeasonError> {
    match text
    case None => Failure(NoReplyText)
    case Some(t) => Interpret(Cleaned(t), parse(Cleaned(t)))
  }

  /** `get_your_color_season`: text input is decoded first, an opened image is used as it is. */
  function ColorSeason(input: ImageInput, decode: string -> Option<Image>,
                       reply: Image -> Option<string>, parse: string -> Option<Json>): Result<Verdict, SeasonError> {
    match Prepare(input, decode)
    case None => Failure(UndecodableImage)
    case Some(image) => SeasonOf(reply(image), parse)
  }

  /** `get_your_color_season`, step by step. */
  method GetColorSeason(input: ImageInput, decode: string -> Option<Image>,
                        reply: Image -> Option<string>, parse: string -> Option<Json>)
      returns (r: Result<Verdict, SeasonError>)
    ensures r == ColorSeason(input, decode, reply, parse)
  {
    var image: Image;
    match input {
      case Encoded(s) =>
        var decoded := decode(s);
        if decoded.None? {
          return Failure(UndecodableImage);
        }
        image := decoded.value;
      case Opened(img) =>
        image := img;
    }
    var text := reply(image);
    if text.None? {
      return Failure(NoReplyText);
    }
    var cleaned := CleanReply(text.value);
    var parsed := parse(cleaned);
    if parsed.None? {
      return Failure(JsonDecodeError(Prefix(cleaned, 200)));
    }
    var outcome := Normalise(parsed.value);
    if outcome.Failure? {
      return Failure(ValidationError(outcome.error, Prefix(cleaned, 500)));
    }
    r := Success(outcome.value);
  }

  /** Text that is not JSON fails with at most 200 characters of the cleaned text. */
  lemma NotJsonOutcome(cleaned: string)
    ensures var r := Interpret(cleaned, None);
      && r == Failure(JsonDecodeError(Prefix(cleaned, 200)))
      && |r.error.excerpt| <= 200 && r.error.excerpt == cleaned[..|r.error.excerpt|]
      && MessageHead(r.error) == "JSON decode error: "
  {
  }

  /**
   * A parsed object missing the colour type or the confidence fails
   * validation; the analysis succeeds exactly when the two required fields
   * are well formed and the four optional ones are text or null, and then
   * yields the two required fields and, for the optional ones, the parsed
   * text or the default.
   */
  lemma ObjectOutcome(cleaned: string, data: map<string, Json>)
    ensures var r := Interpret(cleaned, Some(JObject(data)));
      && (("personal_color_type" !in data || "confidence" !in data) ==>
            r.Failure? && r.error.ValidationError? && MessageHead(r.error) == "Validation error: ")
      && (r.Success? <==>
            IsText(data, "personal_color_type") && "confidence" in data && data["confidence"].JNumber?
            && (forall k :: k in DefaultKeys && k in data ==> data[k].JNull? || data[k].JString?))
      && (r.Success? ==>
            && r.value.personalColorType == data["personal_color_type"].s
            && r.value.confidence == data["confidence"].n
            && r.value.undertone == TextOr(data, "undertone", "unknown")
            && r.value.season == TextOr(data, "season", "unknown")
            && r.value.subtype == TextOr(data, "subtype", "unknown")
            && r.value.reasoning == TextOr(data, "reasoning", ""))
  {
    DefaultedValidates(data);
    if "personal_color_type" !in data || "confidence" !in data {
      RequiredHaveNoDefault(data);
    }
  }

  // ---------------------------------------------------------------------
  // Try-on

  /** One part of the image model's answer. */
  datatype Part = Part(text: Option<string>, inlineData: Option<Bytes>)

  /** A part that `get_outfit_on` returns: no text, but inline data. */
  predicate IsImagePart(p: Part) {
    p.text.None? && p.inlineData.Some?
  }

  /**
   * The loop of `get_outfit_on`: parts with text are printed and skipped,
   * even when they carry data; the first part without text that carries
   * data is the answer. Its bytes are handed to PIL, which is not modelled.
   */
  method OutfitOn(parts: seq<Part>) returns (found: Option<Bytes>)
    ensures found.None? <==> forall i :: 0 <= i < |parts| ==> !IsImagePart(parts[i])
    ensures found.Some? ==> exists i :: (0 <= i < |parts| && IsImagePart(parts[i])
      && found.value == parts[i].inlineData.value
      && (forall j :: 0 <= j < i ==> !IsImagePart(parts[j])))
  {
    var i := 0;
    while i < |parts|
      invariant 0 <= i <= |parts|
      invariant forall j :: 0 <= j < i ==> !IsImagePart(parts[j])
    {
      var part := parts[i];
      if part.text.None? && part.inlineData.Some? {
        return Some(part.inlineData.value);
      }
      i := i + 1;
    }
    return None;
  }
}
