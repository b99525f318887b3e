/**
 * The user profile endpoints (src/api/user_info.py): the data-URL prefix
 * normaliser, the create-or-update merge of the supplied fields into the
 * stored profile, deletion, and the completeness report.
 *
 * The profile table is a map from user id to profile object; the session's
 * commit and refresh are not modelled, and the clock is a parameter.
 */
module UserInfo {
  import opened Wrappers
  import opened Text

  /** What every data URL of an image begins with. */
  const ImagePrefix := "data:image/"

  /** The prefix given to a bare base64 payload. */
  const DefaultPrefix := "data:image/jpeg;base64,"

  /**
   * `normalize_base64_image`: the result always is a data URL of an image
   * that ends with the input; it is the input itself exactly when the input
   * already was such a data URL, and otherwise the JPEG prefix comes first.
   */
  function NormalizeBase64Image(base64Image: string): (r: string)
    ensures StartsWith(r, ImagePrefix)
    ensures EndsWith(r, base64Image)
    ensures r == base64Image <==> StartsWith(base64Image, ImagePrefix)
    ensures r != base64Image ==> StartsWith(r, DefaultPrefix)
  {
    if StartsWith(base64Image, ImagePrefix) then base64Image else DefaultPrefix + base64Image
  }

  /** Normalising twice is normalising once. */
  lemma NormalizeIdempotent(s: string)
    ensures NormalizeBase64Image(NormalizeBase64Image(s)) == NormalizeBase64Image(s)
  {
  }

  // ---------------------------------------------------------------------
  // Profile fields

  /** A stored field value: the profile columns hold text or numbers. */
  datatype Value = Str(s: string) | Num(n: real)

  /** Python truthiness of a value, as `if profile_dict.get(...)` uses it. */
  predicate Truthy(v: Value) {
    match v
    case Str(s) => s != ""
    case Num(n) => n != 0.0
  }

  /** The twelve profile fields, in their declared order. */
  const Fields: seq<string> := [
    "height", "weight", "chest_size", "waist_size", "hip_size",
    "shoe_size", "clothing_size", "age", "gender", "preferred_style",
    "body_image", "face_image"
  ]

  /** `model_dump(exclude_none=True)`: the fields the request supplies with a value. */
  function Supplied(request: map<string, Option<Value>>): map<string, Value> {
    map k | k in request && request[k].Some? :: request[k].value
  }

  /** An image value after `if profile_dict.get(key)`: non-empty text is normalised. */
  function NormalizedValue(v: Value): Value {
    if v.Str? && Truthy(v) then Str(NormalizeBase64Image(v.s)) else v
  }

  /** One image field of the dictionary normalised when it is present. */
  function NormalizedImage(d: map<string, Value>, key: string): map<string, Value> {
    if key in d then d[key := NormalizedValue(d[key])] else d
  }

  /** `profile_dict`: the supplied fields with both images normalised. */
  function ProfileDict(request: map<string, Option<Value>>): map<string, Value> {
    NormalizedImage(NormalizedImage(Supplied(request), "body_image"), "face_image")
  }

  /**
   * The dictionary holds exactly the fields given a value; a field other
   * than the two images keeps the value given, and a non-empty image text
   * becomes its normalised data URL while an empty one is kept as it is.
   */
  lemma ProfileDictSpec(request: map<string, Option<Value>>)
    ensures var d := ProfileDict(request);
      && (forall k :: k in d <==> k in request && request[k].Some?)
      && (forall k :: k in d && k != "body_image" && k != "face_image" ==> d[k] == request[k].value)
      && (forall k :: k in d && (k == "body_image" || k == "face_image") ==> d[k] == NormalizedValue(request[k].value))
  {
    var s := Supplied(request);
    var b := NormalizedImage(s, "body_image");
    assert forall k :: k in b <==> k in s;
    assert forall k :: k in b && k != "body_image" ==> b[k] == s[k];
  }

  /** `UserProfile`: one row of the profile table; unset fields are absent from `attrs`. */
  class UserProfile {
    const userId: int
    var attrs: map<string, Value>
    var updatedAt: Option<real>

    /** `UserProfile(user_id=..., **profile_dict)`. */
    constructor(userId: int, attrs: map<string, Value>)
      ensures this.userId == userId && this.attrs == attrs && updatedAt == None
    {
      this.userId := userId;
      this.attrs := attrs;
      updatedAt := None;
    }

    /**
     * The `setattr` loop: every field of the dictionary is written, every
     * other field keeps its value.
     */
    method Merge(d: map<string, Value>)
      modifies this
      ensures attrs == old(attrs) + d
      ensures updatedAt == old(updatedAt)
    {
      var pending := d.Keys;
      while pending != {}
        invariant pending <= d.Keys
        invariant attrs.Keys == old(attrs).Keys + (d.Keys - pending)
        invariant forall k :: k in attrs ==>
          attrs[k] == (if k in d && k !in pending then d[k] else old(attrs)[k])
        invariant updatedAt == old(updatedAt)
        decreases pending
      {
        var key :| key in pending;
        attrs := attrs[key := d[key]];
        pending := pending - {key};
      }
    }
  }

  /**
   * After a merge a field the request gave a value carries the new value,
   * and any other field, whether the request left it out or gave it None,
   * keeps the stored value.
   */
  lemma MergedFields(stored: map<string, Value>, request: map<string, Option<Value>>, k: string)
    ensures var merged := stored + ProfileDict(request);
      && (k in request && request[k].Some? ==> k in merged && merged[k] == ProfileDict(request)[k])
      && (!(k in request && request[k].Some?) ==> (k in merged <==> k in stored) && (k in stored ==> merged[k] == stored[k]))
  {
    ProfileDictSpec(request);
  }

  /** The report of `get_profile_completeness`. */
  datatype CompletenessReport =
    CompletenessReport(completeness: real, totalFields: nat, filledFields: nat, missingFields: seq<string>)

  /** The fields of `fs` set in the profile. */
  function Filled(fs: seq<string>, attrs: map<string, Value>): nat {
    if fs == [] then 0 else (if fs[0] in attrs then 1 else 0) + Filled(fs[1..], attrs)
  }

  /** The fields of `fs` not set in the profile, in the order of `fs`. */
  function Missing(fs: seq<string>, attrs: map<string, Value>): seq<string> {
    if fs == [] then [] else (if fs[0] in attrs then [] else [fs[0]]) + Missing(fs[1..], attrs)
  }

  /**
   * Every field is either filled or missing: the counts add up, the
   * missing fields are exactly the unset ones, and they come in the order
   * of `fs` (each occurs as a strictly later field than the previous one).
   */
  lemma {:induction false} FilledAndMissing(fs: seq<string>, attrs: map<string, Value>)
    ensures Filled(fs, attrs) + |Missing(fs, attrs)| == |fs|
    ensures forall f :: f in Missing(fs, attrs) <==> f in fs && f !in attrs
    ensures InOrder(Missing(fs, attrs), fs)
  {
    if fs != [] {
      FilledAndMissing(fs[1..], attrs);
      var rest := Missing(fs[1..], attrs);
      assert fs == [fs[0]] + fs[1..];
      if fs[0] !in attrs {
        InOrderCons(fs[0], rest, fs[1..]);
      } else {
        assert Missing(fs, attrs) == rest;
        InOrderDrop(fs[0], rest, fs[1..]);
      }
    } else {
      assert Positions([], [], fs);
    }
  }

  /** `sub` is a subsequence of `s`: the elements of `s` at strictly increasing positions. */
  ghost predicate InOrder(sub: seq<string>, s: seq<string>) {
    exists pos: seq<nat> :: Positions(pos, sub, s)
  }

  ghost predicate Positions(pos: seq<nat>, sub: seq<string>, s: seq<string>) {
    && |pos| == |sub|
    && (forall i :: 0 <= i < |pos| ==> pos[i] < |s| && s[pos[i]] == sub[i])
    && (forall i, j :: 0 <= i < j < |pos| ==> pos[i] < pos[j])
  }

  lemma InOrderCons(x: string, sub: seq<string>, s: seq<string>)
    requires InOrder(sub, s)
    ensures InOrder([x] + sub, [x] + s)
  {
    var pos :| Positions(pos, sub, s);
    var shifted := [0] + seq(|pos|, i requires 0 <= i < |pos| => pos[i] + 1);
    assert Positions(shifted, [x] + sub, [x] + s);
  }

  lemma InOrderDrop(x: string, sub: seq<string>, s: seq<string>)
    requires InOrder(sub, s)
    ensures InOrder(sub, [x] + s)
  {
    var pos :| Positions(pos, sub, s);
    var shifted := seq(|pos|, i requires 0 <= i < |pos| => pos[i] + 1);
    assert Positions(shifted, sub, [x] + s);
  }

  /** `round(filled / total * 100, 2)`. */
  function Percent(filled: nat, total: nat): real
    requires total > 0
  {
    RoundHalfEven(filled as real / total as real * 100.0 * 100.0) as real / 100.0
  }

  /** The rounded percentage is within half a hundredth of the exact one. */
  lemma PercentSpec(filled: nat, total: nat)
    requires 0 < total
    ensures var p := Percent(filled, total);
      var exact := filled as real * 100.0 / total as real;
      exact - 0.005 <= p <= exact + 0.005
  {
    var exact := filled as real * 100.0 / total as real;
    var n := RoundHalfEven(filled as real / total as real * 100.0 * 100.0);
    assert filled as real / total as real * 100.0 * 100.0 == exact * 100.0;
  }

  /** The report for the stored profile, or for no profile at all. */
  function CompletenessOf(profile: Option<map<string, Value>>): CompletenessReport {
    match profile
    case None => CompletenessReport(0.0, 12, 0, Fields)
    case Some(attrs) =>
      var filled := Filled(Fields, attrs);
      CompletenessReport(Percent(filled, |Fields|), |Fields|, filled, Missing(Fields, attrs))
  }

  /**
   * The report counts twelve fields, every one of them filled or missing;
   * the missing ones are the unset fields in declared order; the
   * percentage is the filled share rounded to two decimals. Without a
   * profile nothing is filled and every field is missing.
   */
  lemma CompletenessSpec(profile: Option<map<string, Value>>)
    ensures var r := CompletenessOf(profile);
      && r.totalFields == 12
      && r.filledFields + |r.missingFields| == r.totalFields
      && (forall f :: f in r.missingFields <==> f in Fields && (profile.None? || f !in profile.value))
      && InOrder(r.missingFields, Fields)
      && r.filledFields as real * 100.0 / 12.0 - 0.005 <= r.completeness <= r.filledFields as real * 100.0 / 12.0 + 0.005
      && (profile.None? ==> r.filledFields == 0 && r.missingFields == Fields && r.completeness == 0.0)
  {
    match profile {
      case None =>
        var pos := seq(12, i requires 0 <= i < 12 => i);
        assert Positions(pos, Fields, Fields);
      case Some(attrs) =>
        FilledAndMissing(Fields, attrs);
        CompletenessPercent(attrs);
    }
  }

  /** The percentage of a stored profile is its filled share of the twelve fields. */
  lemma CompletenessPercent(attrs: map<string, Value>)
    ensures var r := CompletenessOf(Some(attrs));
      r.filledFields as real * 100.0 / 12.0 - 0.005 <= r.completeness <= r.filledFields as real * 100.0 / 12.0 + 0.005
  {
    var filled := Filled(Fields, attrs);
    assert |Fields| == 12;
    PercentSpec(filled, 12);
    assert CompletenessOf(Some(attrs)).completeness == Percent(filled, 12);
  }

  // ---------------------------------------------------------------------
  // The endpoints over the profile table

  /** The profile table, indexed by the owner's user id. */
  class ProfileTable {
    var rows: map<int, UserProfile>

    /** Each row is filed under its own owner, so no two users share a profile object. */
    ghost predicate Valid()
      reads this, rows.Values
    {
      forall id :: id in rows ==> rows[id].userId == id
    }

    constructor()
      ensures Valid() && rows == map[]
    {
      rows := map[];
    }

    /** `get_user_profile`: the stored profile, or 404 when there is none. */
    function GetUserProfile(userId: int): (r: Result<UserProfile, HttpError>)
      reads this
      ensures r.Success? <==> userId in rows
      ensures r.Success? ==> r.value == rows[userId]
      ensures r.Failure? ==> r.error.status == 404
    {
      if userId in rows then Success(rows[userId])
      else Failure(HttpError(404, "User profile not found. Please create a profile first."))
    }

    /**
     * `create_or_update_user_profile` (and its alias, the PUT endpoint): an
     * existing profile gets the supplied fields merged in and a new
     * `updated_at`; otherwise a new profile holding just the supplied
     * fields is filed under the user. No other user's profile changes.
     */
    method CreateOrUpdate(userId: int, request: map<string, Option<Value>>, now: real) returns (profile: UserProfile)
      requires Valid()
      modifies this, rows.Values
      ensures Valid()
      ensures rows == old(rows)[userId := profile]
      ensures old(userId in rows) ==>
        && profile == old(rows[userId])
        && profile.attrs == old(rows[userId].attrs) + ProfileDict(request)
        && profile.updatedAt == Some(now)
      ensures !old(userId in rows) ==> fresh(profile) && profile.attrs == ProfileDict(request)
      ensures forall id :: id in old(rows) && id != userId ==>
        rows[id].attrs == old(rows[id].attrs) && rows[id].updatedAt == old(rows[id].updatedAt)
    {
      var d := Supplied(request);
      d := NormalizedImage(d, "body_image");
      d := NormalizedImage(d, "face_image");
      if userId in rows {
        profile := rows[userId];
        profile.Merge(d);
        profile.updatedAt := Some(now);
      } else {
        profile := new UserProfile(userId, d);
        rows := rows[userId := profile];
      }
    }

    /** `delete_user_profile`: the user's profile is removed, or 404 when there is none. */
    method DeleteUserProfile(userId: int) returns (r: Option<HttpError>)
      requires Valid()
      modifies this
      ensures Valid()
      ensures r.None? <==> old(userId in rows)
      ensures rows == old(rows) - {userId}
      ensures r.Some? ==> r.value == HttpError(404, "User profile not found")
    {
      if userId !in rows {
        return Some(HttpError(404, "User profile not found"));
      }
      rows := rows - {userId};
      r := None;
    }

    /** `get_profile_completeness` for the user. */
    function ProfileCompleteness(userId: int): (r: CompletenessReport)
      reads this, rows.Values
      ensures r == CompletenessOf(if userId in rows then Some(rows[userId].attrs) else None)
    {
      if userId in rows then CompletenessOf(Some(rows[userId].attrs)) else CompletenessOf(None)
    }
  }
}
