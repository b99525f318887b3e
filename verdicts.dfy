/**
 * The colour-analysis verdict record (src/models.py) and the shared steps
 * that turn a model's raw reply into one: code-fence stripping, the four
 * field defaults, and the record's field validation.
 *
 * `json.loads` is not modelled; a parsed reply is a `Json` value handed in
 * by the caller.
 */
module Verdicts {
  import opened Wrappers
  import opened Text

  /** A parsed JSON value. Objects are keyed maps; key order plays no part below. */
  datatype Json =
    | JNull
    | JBool(b: bool)
    | JNumber(n: real)
    | JString(s: string)
    | JArray(items: seq<Json>)
    | JObject(fields: map<string, Json>)

  /** `AnalyzeColorSeasonResponseModel`. */
  datatype Verdict = Verdict(
    personalColorType: string,
    confidence: real,
    undertone: string,
    season: string,
    subtype: string,
    reasoning: string)

  /** Why the record could not be built from a parsed object. */
  datatype Invalid = Missing(field: string) | WrongType(field: string)

  // ---------------------------------------------------------------------
  // Code fences

  const JsonFence: string := "```json"
  const Fence: string := "```"

  /**
   * Drop a leading "```json", then a leading "```", then a trailing "```",
   * then strip whitespace.
   */
  function Unfenced(s: string): (r: string)
    ensures IsTrimmed(r)
  {
    var a := if StartsWith(s, JsonFence) then s[7..] else s;
    var b := if StartsWith(a, Fence) then a[3..] else a;
    var c := if EndsWith(b, Fence) then b[..|b| - 3] else b;
    Trim(c)
  }

  /** The fence-stripping steps, one reassignment at a time. */
  method StripFences(text: string) returns (cleaned: string)
    ensures cleaned == Unfenced(text)
    ensures IsTrimmed(cleaned)
  {
    cleaned := text;
    if StartsWith(cleaned, JsonFence) {
      cleaned := cleaned[7..];
    }
    if StartsWith(cleaned, Fence) {
      cleaned := cleaned[3..];
    }
    if EndsWith(cleaned, Fence) {
      cleaned := cleaned[..|cleaned| - 3];
    }
    cleaned := Trim(cleaned);
  }

  /** A trimmed body inside a "```json" fence comes back as exactly the body. */
  lemma UnfencedJsonFence(body: string)
    requires IsTrimmed(body)
    ensures Unfenced("```json\n" + body + "\n```") == body
  {
    var s := "```json\n" + body + "\n```";
    assert StartsWith(s, JsonFence) by { assert s[..7] == JsonFence; }
    var a := s[7..];
    assert a == "\n" + body + "\n```";
    assert !StartsWith(a, Fence) by { assert a[0] == '\n'; }
    assert EndsWith(a, Fence) by { assert a[|a| - 3..] == Fence; }
    var c := a[..|a| - 3];
    assert c == "\n" + body + "\n";
    TrimSurrounded("\n", body, "\n");
  }

  /** The same for a bare "```" fence. */
  lemma UnfencedBareFence(body: string)
    requires IsTrimmed(body)
    ensures Unfenced("```\n" + body + "\n```") == body
  {
    var s := "```\n" + body + "\n```";
    assert !StartsWith(s, JsonFence) by { assert s[3] == '\n'; }
    assert StartsWith(s, Fence) by { assert s[..3] == Fence; }
    var b := s[3..];
    assert b == "\n" + body + "\n```";
    assert EndsWith(b, Fence) by { assert b[|b| - 3..] == Fence; }
    var c := b[..|b| - 3];
    assert c == "\n" + body + "\n";
    TrimSurrounded("\n", body, "\n");
  }

  /** A trimmed reply with no fence at either end passes through unchanged. */
  lemma UnfencedPlain(body: string)
    requires IsTrimmed(body)
    requires !StartsWith(body, Fence) && !EndsWith(body, Fence)
    ensures Unfenced(body) == body
  {
    JsonFenceIsFence(body);
    TrimOfTrimmed(body);
  }

  lemma JsonFenceIsFence(s: string)
    ensures StartsWith(s, JsonFence) ==> StartsWith(s, Fence)
  {
    if StartsWith(s, JsonFence) {
      assert s[..3] == JsonFence[..3];
    }
  }

  // ---------------------------------------------------------------------
  // Defaults for the four optional fields

  /** The defaults table, in its declared order. */
  const Defaults: seq<(string, Json)> := [
    ("undertone", JString("unknown")),
    ("season", JString("unknown")),
    ("subtype", JString("unknown")),
    ("reasoning", JString(""))
  ]

  const DefaultKeys: set<string> := {"undertone", "season", "subtype", "reasoning"}

  /** `key not in data or data[key] is None` */
  predicate NeedsDefault(data: map<string, Json>, key: string) {
    key !in data || data[key] == JNull
  }

  /**
   * The object after defaulting: each of the four keys that is missing or
   * null takes its default; every other key, and every present non-null
   * value, is untouched.
   */
  function Defaulted(data: map<string, Json>): (r: map<string, Json>)
    ensures r.Keys == data.Keys + DefaultKeys
  {
    DefaultedOn(data, DefaultKeys)
  }

  /** The object once the keys of `ks` have been defaulted. */
  function DefaultedOn(data: map<string, Json>, ks: set<string>): (r: map<string, Json>)
    ensures r.Keys == data.Keys + ks
  {
    map k | k in data.Keys + ks :: if k in ks && NeedsDefault(data, k) then DefaultValue(k) else data[k]
  }

  /** Defaulting one more key writes its default when it is missing or null, and changes nothing else. */
  lemma DefaultedOnStep(data: map<string, Json>, ks: set<string>, key: string)
    requires key !in ks
    ensures var out := DefaultedOn(data, ks);
      DefaultedOn(data, ks + {key})
      == if key !in out || out[key] == JNull then out[key := DefaultValue(key)] else out
  {
    var out := DefaultedOn(data, ks);
    assert key in data ==> out[key] == data[key];
  }

  /**
   * Defaulting keeps every present non-null value and every key without a
   * default, sets each missing or null key to its own default, and leaves
   * none of the four keys null.
   */
  lemma DefaultedSpec(data: map<string, Json>)
    ensures var r := Defaulted(data);
      && (forall k :: k in data && !NeedsDefault(data, k) ==> r[k] == data[k])
      && (forall k :: k in data && k !in DefaultKeys ==> r[k] == data[k])
      && (forall i :: 0 <= i < |Defaults| && NeedsDefault(data, Defaults[i].0) ==> r[Defaults[i].0] == Defaults[i].1)
      && (forall k :: k in DefaultKeys ==> r[k] != JNull)
  {
  }

  function DefaultValue(k: string): Json {
    if k == "reasoning" then JString("") else JString("unknown")
  }

  /** The keys of the first i defaults. */
  function KeysBefore(i: nat): set<string>
    requires i <= |Defaults|
  {
    set j | 0 <= j < i :: Defaults[j].0
  }

  /** The object once the first i defaults have been applied. */
  function PartlyDefaulted(data: map<string, Json>, i: nat): map<string, Json>
    requires i <= |Defaults|
  {
    DefaultedOn(data, KeysBefore(i))
  }

  /** The next default names a key not met before and carries that key's default value. */
  lemma NextDefault(i: nat)
    requires i < |Defaults|
    ensures Defaults[i].0 !in KeysBefore(i) && Defaults[i].1 == DefaultValue(Defaults[i].0)
  {
    var key := Defaults[i].0;
    forall j | 0 <= j < i
      ensures Defaults[j].0 != key
    {
      assert i <= 3;
    }
    assert i <= 3;
  }

  /** One turn of the defaults loop applies the next default. */
  lemma DefaultStep(data: map<string, Json>, i: nat)
    requires i < |Defaults|
    ensures var out := PartlyDefaulted(data, i);
      var key, value := Defaults[i].0, Defaults[i].1;
      PartlyDefaulted(data, i + 1) == if key !in out || out[key] == JNull then out[key := value] else out
  {
    NextDefault(i);
    assert KeysBefore(i + 1) == KeysBefore(i) + {Defaults[i].0};
    DefaultedOnStep(data, KeysBefore(i), Defaults[i].0);
  }

  /** The defaults loop, writing into the parsed object one key at a time. */
  method FillDefaults(data: map<string, Json>) returns (out: map<string, Json>)
    ensures out == Defaulted(data)
  {
    out := data;
    assert PartlyDefaulted(data, 0) == data;
    var i := 0;
    while i < |Defaults|
      invariant 0 <= i <= |Defaults|
      invariant out == PartlyDefaulted(data, i)
    {
      DefaultStep(data, i);
      var key, value := Defaults[i].0, Defaults[i].1;
      if key !in out || out[key] == JNull {
        out := out[key := value];
      }
      i := i + 1;
    }
    assert KeysBefore(|Defaults|) == DefaultKeys by {
      assert Defaults[0].0 == "undertone" && Defaults[1].0 == "season";
      assert Defaults[2].0 == "subtype" && Defaults[3].0 == "reasoning";
    }
  }

  // ---------------------------------------------------------------------
  // Field validation

  predicate IsText(data: map<string, Json>, k: string) {
    k in data && data[k].JString?
  }

  /** A field with a default: absent takes the default, present must be a string. */
  predicate OptionalText(data: map<string, Json>, k: string) {
    k !in data || data[k].JString?
  }

  function TextOr(data: map<string, Json>, k: string, default: string): string {
    if k in data && data[k].JString? then data[k].s else default
  }

  /**
   * `AnalyzeColorSeasonResponseModel.model_validate(data)`:
   * `personal_color_type` and `confidence` are required, the other four
   * default to "unknown", "unknown", "unknown" and "" when absent, while a
   * present field of the wrong kind (null included) is an error.
   * Keys outside the record are ignored.
   */
  function Validate(data: map<string, Json>): (r: Result<Verdict, Invalid>)
    ensures r.Success? <==>
      IsText(data, "personal_color_type") && "confidence" in data && data["confidence"].JNumber?
      && OptionalText(data, "undertone") && OptionalText(data, "season")
      && OptionalText(data, "subtype") && OptionalText(data, "reasoning")
    ensures "personal_color_type" !in data ==> r == Failure(Missing("personal_color_type"))
    ensures IsText(data, "personal_color_type") && "confidence" !in data ==> r == Failure(Missing("confidence"))
    ensures r.Success? ==>
      && r.value.personalColorType == data["personal_color_type"].s
      && r.value.confidence == data["confidence"].n
      && r.value.undertone == TextOr(data, "undertone", "unknown")
      && r.value.season == TextOr(data, "season", "unknown")
      && r.value.subtype == TextOr(data, "subtype", "unknown")
      && r.value.reasoning == TextOr(data, "reasoning", "")
  {
    if "personal_color_type" !in data then Failure(Missing("personal_color_type"))
    else if !data["personal_color_type"].JString? then Failure(WrongType("personal_color_type"))
    else if "confidence" !in data then Failure(Missing("confidence"))
    else if !data["confidence"].JNumber? then Failure(WrongType("confidence"))
    else if !OptionalText(data, "undertone") then Failure(WrongType("undertone"))
    else if !OptionalText(data, "season") then Failure(WrongType("season"))
    else if !OptionalText(data, "subtype") then Failure(WrongType("subtype"))
    else if !OptionalText(data, "reasoning") then Failure(WrongType("reasoning"))
    else Success(Verdict(
      data["personal_color_type"].s,
      data["confidence"].n,
      TextOr(data, "undertone", "unknown"),
      TextOr(data, "season", "unknown"),
      TextOr(data, "subtype", "unknown"),
      TextOr(data, "reasoning", "")))
  }

  /**
   * After defaulting, the object validates exactly when the two required
   * fields are well formed and the four optional ones are strings or null;
   * a present non-null optional value is carried over as it was.
   */
  lemma {:induction false} DefaultedValidates(data: map<string, Json>)
    ensures Validate(Defaulted(data)).Success? <==>
      IsText(data, "personal_color_type") && "confidence" in data && data["confidence"].JNumber?
      && (forall k :: k in DefaultKeys && k in data ==> data[k].JNull? || data[k].JString?)
    ensures Validate(Defaulted(data)).Success? ==>
      var v := Validate(Defaulted(data)).value;
      && v.personalColorType == data["personal_color_type"].s
      && v.confidence == data["confidence"].n
      && v.undertone == TextOr(data, "undertone", "unknown")
      && v.season == TextOr(data, "season", "unknown")
      && v.subtype == TextOr(data, "subtype", "unknown")
      && v.reasoning == TextOr(data, "reasoning", "")
  {
    var d := Defaulted(data);
    DefaultedSpec(data);
    assert "personal_color_type" !in DefaultKeys && "confidence" !in DefaultKeys;
    forall k | k in DefaultKeys
      ensures OptionalText(d, k) <==> (k in data ==> data[k].JNull? || data[k].JString?)
      ensures d[k].JString? ==> d[k].s == TextOr(data, k, if k == "reasoning" then "" else "unknown")
    {
      if k in data && data[k].JNull? {
        assert NeedsDefault(data, k);
      }
    }
  }

  /** The colour type and the confidence have no default: without either, validation fails. */
  lemma RequiredHaveNoDefault(data: map<string, Json>)
    requires "personal_color_type" !in data || "confidence" !in data
    ensures Validate(Defaulted(data)).Failure?
  {
    var d := Defaulted(data);
    assert "personal_color_type" !in DefaultKeys && "confidence" !in DefaultKeys;
    assert "personal_color_type" !in d || "confidence" !in d;
  }

  /** The parsed reply, defaulted and validated; a reply that is not an object fails. */
  function Normalised(parsed: Json): Result<Verdict, Invalid> {
    if parsed.JObject? then Validate(Defaulted(parsed.fields))
    else Failure(WrongType("root"))
  }

  /**
   * The defaulting loop followed by validation, as each analyser runs them
   * on a parsed reply. A top-level value that is not an object fails, as
   * `data[key] = ...` does on a list, a string or a number.
   */
  method Normalise(parsed: Json) returns (r: Result<Verdict, Invalid>)
    ensures r == Normalised(parsed)
  {
    if !parsed.JObject? {
      return Failure(WrongType("root"));
    }
    var data := FillDefaults(parsed.fields);
    r := Validate(data);
  }
}
