/**
 * The login servlet's request checks: the media type of the content type, the
 * JSON media-type test (exact types and the "+json" structured-syntax suffix of
 * section 3.1 of RFC 6839), and the shared-secret ("sesame") authentication.
 */
module Login {
  import opened Wrappers
  import opened Json

  /** `s.indexOf(c)`: the first index of `c`, or -1. */
  function IndexOf(s: string, c: char): (r: int)
    ensures -1 <= r < |s|
    ensures r == -1 <==> c !in s
    ensures r >= 0 ==> s[r] == c && c !in s[..r]
    decreases |s|
  {
    if s == [] then -1
    else if s[0] == c then 0
    else
      var r := IndexOf(s[1..], c);
      assert s == [s[0]] + s[1..];
      if r == -1 then -1
      else
        assert s[..r + 1] == [s[0]] + s[1..][..r];
        r + 1
  }

  predicate Blank(c: char) { c <= ' ' }

  function TrimStart(s: string): (r: string)
    ensures |r| <= |s| && r == s[|s| - |r|..]
    ensures r != [] ==> !Blank(r[0])
    ensures forall i :: 0 <= i < |s| - |r| ==> Blank(s[i])
    decreases |s|
  {
    if s != [] && Blank(s[0]) then TrimStart(s[1..]) else s
  }

  function TrimEnd(s: string): (r: string)
    ensures |r| <= |s| && r == s[..|r|]
    ensures r != [] ==> !Blank(r[|r| - 1])
    ensures forall i :: |r| <= i < |s| ==> Blank(s[i])
    decreases |s|
  {
    if s != [] && Blank(s[|s| - 1]) then TrimEnd(s[..|s| - 1]) else s
  }

  /** The number of blanks `trim` drops at the start. */
  function Lead(s: string): nat {
    |s| - |TrimStart(s)|
  }

  /** `trim { it <= ' ' }`: the longest middle part that neither starts nor ends with a blank. */
  function Trim(s: string): (r: string)
    ensures Lead(s) + |r| <= |s| && r == s[Lead(s)..Lead(s) + |r|]
    ensures forall k :: 0 <= k < Lead(s) ==> Blank(s[k])
    ensures forall k :: Lead(s) + |r| <= k < |s| ==> Blank(s[k])
    ensures r != [] ==> !Blank(r[0]) && !Blank(r[|r| - 1])
  {
    var t := TrimStart(s);
    var r := TrimEnd(t);
    TrimParts(s, t, r);
    r
  }

  /** A blank-free end trimmed off a blank-free start is a slice of the whole with only blanks around it. */
  lemma TrimParts(s: string, t: string, r: string)
    requires |t| <= |s| && t == s[|s| - |t|..]
    requires forall k :: 0 <= k < |s| - |t| ==> Blank(s[k])
    requires |r| <= |t| && r == t[..|r|]
    requires forall k :: |r| <= k < |t| ==> Blank(t[k])
    ensures var i := |s| - |t|;
      && 0 <= i <= i + |r| <= |s|
      && r == s[i..i + |r|]
      && (forall k :: 0 <= k < i ==> Blank(s[k]))
      && (forall k :: i + |r| <= k < |s| ==> Blank(s[k]))
  {
    var i := |s| - |t|;
    forall k | i + |r| <= k < |s| ensures Blank(s[k]) {
      assert s[k] == t[k - i];
    }
  }

  /** The media type: the whole value without a ';', else the trimmed part before the first one. */
  function MimeType(contentType: string): (m: string)
    ensures ';' !in contentType ==> m == contentType
    ensures ';' in contentType ==> m == Trim(contentType[..IndexOf(contentType, ';')]) && ';' !in m
  {
    var sep := IndexOf(contentType, ';');
    if sep == -1 then contentType
    else
      var m := Trim(contentType[..sep]);
      assert forall c :: c in m ==> c in contentType[..sep];
      m
  }

  predicate EndsWith(s: string, suffix: string) {
    |suffix| <= |s| && s[|s| - |suffix|..] == suffix
  }

  /** `isJson`: exactly "text/json" or "application/json", or any type with the "+json" suffix; case matters. */
  function IsJson(mimeType: string): (b: bool)
    ensures b <==> mimeType in {"text/json", "application/json"} || exists prefix :: mimeType == prefix + "+json"
  {
    JsonSuffix(mimeType);
    "text/json" == mimeType || "application/json" == mimeType || EndsWith(mimeType, "+json")
  }

  lemma JsonSuffix(s: string)
    ensures EndsWith(s, "+json") <==> exists prefix :: s == prefix + "+json"
  {
    if EndsWith(s, "+json") {
      assert s == s[..|s| - 5] + "+json";
    }
    if exists prefix :: s == prefix + "+json" {
      var prefix :| s == prefix + "+json";
      assert s[|s| - 5..] == "+json";
    }
  }

  lemma IsJsonSamples()
    ensures IsJson("application/json") && IsJson("text/json") && IsJson("application/ld+json")
    ensures !IsJson("Application/JSON") && !IsJson("application/json5") && !IsJson("json")
  {
    assert "application/ld+json"[14..] == "+json";
    assert "application/json5"[12..] == "json5";
  }

  /** A value with no blank at either end is its own trim. */
  lemma TrimOfUnpadded(s: string)
    requires s != [] && !Blank(s[0]) && !Blank(s[|s| - 1])
    ensures Trim(s) == s
  {
  }

  const SESAME_UNSET := "sesame wrongly configured"

  /**
   * `checkSesame`: fails when no sesame is configured; otherwise `Some(true)` when
   * the payload's "sesame" string is the configured one, and `None` when it is
   * missing or different.
   */
  function CheckSesame(payload: JsonObject, expected: Option<string>): (r: Result<Option<bool>>)
    ensures r.Err? <==> expected.None?
    ensures r.Err? ==> r.error == SESAME_UNSET
    ensures r.Ok? ==> (r.value == Some(true) <==> GetString(payload, "sesame") == expected)
    ensures r.Ok? ==> r.value.None? || r.value == Some(true)
  {
    if expected.None? then Err(SESAME_UNSET)
    else if GetString(payload, "sesame") == Some(expected.value) then Ok(Some(true))
    else Ok(None)
  }

  const NULL_CONTENT_TYPE := "null content type"
  const EXPECTING_JSON := "expecting json"
  const NULL_JSON := "null json"
  const AUTHENTICATION_FAILED := "authentication failed"

  /**
   * The checks of `doPost`, in order: the content type (absent in the request),
   * the media type, the payload (absent when the body is not a JSON object), then
   * the configured authentication. `Ok(user)` is the value stored in the session.
   * A login succeeds exactly for a JSON request whose payload carries the
   * configured sesame, under sesame authentication; a non-JSON media type is
   * refused whatever the body.
   */
  function LoginOutcome(contentType: Option<string>, payload: Option<JsonObject>, auth: Option<string>, sesame: Option<string>): (r: Result<bool>)
    ensures r.Ok? <==>
      && contentType.Some? && IsJson(MimeType(contentType.value))
      && payload.Some?
      && auth == Some("sesame") && sesame.Some?
      && GetString(payload.value, "sesame") == sesame
    ensures r.Ok? ==> r.value
    ensures contentType.None? ==> r == Err(NULL_CONTENT_TYPE)
    ensures contentType.Some? && !IsJson(MimeType(contentType.value)) ==> r == Err(EXPECTING_JSON)
    ensures contentType.Some? && IsJson(MimeType(contentType.value)) && payload.None? ==> r == Err(NULL_JSON)
    ensures contentType.Some? && IsJson(MimeType(contentType.value)) && payload.Some? && auth == Some("sesame") && sesame.None? ==>
      r == Err(SESAME_UNSET)
  {
    if contentType.None? then Err(NULL_CONTENT_TYPE)
    else if !IsJson(MimeType(contentType.value)) then Err(EXPECTING_JSON)
    else if payload.None? then Err(NULL_JSON)
    else
      var user: Option<bool> :- if auth == Some("sesame") then CheckSesame(payload.value, sesame) else Ok(None);
      if user.None? then Err(AUTHENTICATION_FAILED) else Ok(user.value)
  }
}
