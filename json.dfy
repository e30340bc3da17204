/**
 * JSON documents as the source reads and writes them through its JSON library.
 * An object is a map of optional fields; a typed getter yields `None` when the
 * field is absent or holds a value of another kind.
 */
module Json {
  import opened Wrappers

  datatype Json =
    | JNull
    | JBool(b: bool)
    | JInt(i: int)
    | JReal(x: real)
    | JString(s: string)
    | JArray(elems: seq<Json>)
    | JObject(fields: map<string, Json>)

  type JsonObject = map<string, Json>

  predicate IsNumber(v: Json) { v.JInt? || v.JReal? }

  /** `Number.toInt()`: a floating-point number is truncated toward zero. */
  function ToInt(v: Json): (n: int)
    requires IsNumber(v)
    ensures v.JInt? ==> n == v.i
    ensures v.JReal? && v.x >= 0.0 ==> 0 <= n && n as real <= v.x < n as real + 1.0
    ensures v.JReal? && v.x < 0.0 ==> n <= 0 && n as real - 1.0 < v.x <= n as real
  {
    match v
    case JInt(i) => i
    case JReal(x) => if x >= 0.0 then x.Floor else -((-x).Floor)
  }

  function GetInt(o: JsonObject, key: string): Option<int> {
    if key in o && IsNumber(o[key]) then Some(ToInt(o[key])) else None
  }

  function GetString(o: JsonObject, key: string): Option<string> {
    if key in o && o[key].JString? then Some(o[key].s) else None
  }

  function GetBool(o: JsonObject, key: string): Option<bool> {
    if key in o && o[key].JBool? then Some(o[key].b) else None
  }

  function GetDouble(o: JsonObject, key: string): Option<real> {
    if key in o && o[key].JReal? then Some(o[key].x)
    else if key in o && o[key].JInt? then Some(o[key].i as real)
    else None
  }

  function GetArray(o: JsonObject, key: string): Option<seq<Json>> {
    if key in o && o[key].JArray? then Some(o[key].elems) else None
  }

  function GetObject(o: JsonObject, key: string): Option<JsonObject> {
    if key in o && o[key].JObject? then Some(o[key].fields) else None
  }

  /** JSON array of integers, in order. */
  function IntsJson(s: seq<int>): (r: seq<Json>)
    ensures |r| == |s| && forall i :: 0 <= i < |s| ==> r[i] == JInt(s[i])
  {
    seq(|s|, i requires 0 <= i < |s| => JInt(s[i]))
  }

  // ---------------------------------------------------------------------------
  // Insertion-ordered sets of ids (Kotlin's mutableSetOf), filled from JSON arrays.

  predicate NoDup(s: seq<int>) { forall i, j :: 0 <= i < j < |s| ==> s[i] != s[j] }

  /** `LinkedHashSet.addAll` on an empty set: the elements of `s`, each once. */
  function Dedup(s: seq<int>): (r: seq<int>)
    ensures NoDup(r)
    ensures forall x :: x in r <==> x in s
    decreases |s|
  {
    if s == [] then []
    else
      var front := Dedup(s[..|s| - 1]);
      var x := s[|s| - 1];
      assert forall y :: y in s <==> y in s[..|s| - 1] || y == x;
      if x in front then front else front + [x]
  }

  lemma {:induction false} DedupOfNoDup(s: seq<int>)
    requires NoDup(s)
    ensures Dedup(s) == s
    decreases |s|
  {
    if s != [] {
      DedupOfNoDup(s[..|s| - 1]);
      assert s == s[..|s| - 1] + [s[|s| - 1]];
    }
  }

  predicate AllNumbers(arr: seq<Json>) { forall i :: 0 <= i < |arr| ==> IsNumber(arr[i]) }

  function ToInts(arr: seq<Json>): (r: seq<int>)
    requires AllNumbers(arr)
    ensures |r| == |arr| && forall i :: 0 <= i < |arr| ==> r[i] == ToInt(arr[i])
  {
    seq(|arr|, i requires 0 <= i < |arr| => ToInt(arr[i]))
  }

  /** The ids held by a JSON array, or the failure `err` if some entry is not a number. */
  function IdsOf(arr: seq<Json>, err: string): (r: Result<seq<int>>)
    ensures r.Ok? <==> AllNumbers(arr)
    ensures r.Err? ==> r.error == err
    ensures r.Ok? ==> NoDup(r.value)
  {
    if AllNumbers(arr) then Ok(Dedup(ToInts(arr))) else Err(err)
  }

  /** Every number of the array is in the set, and nothing else is. */
  lemma IdsOfElements(arr: seq<Json>, err: string)
    requires AllNumbers(arr)
    ensures forall i :: 0 <= i < |arr| ==> ToInt(arr[i]) in IdsOf(arr, err).value
    ensures forall x :: x in IdsOf(arr, err).value ==> exists i :: 0 <= i < |arr| && ToInt(arr[i]) == x
  {
    var ints := ToInts(arr);
    assert forall i :: 0 <= i < |arr| ==> ints[i] in ints;
  }

  /**
   * Adds the entries of a JSON array, one by one, to an initially empty
   * insertion-ordered set; fails with `err` at the first entry that is not a number.
   */
  method CollectIds(arr: seq<Json>, err: string) returns (r: Result<seq<int>>)
    ensures r == IdsOf(arr, err)
  {
    var ids: seq<int> := [];
    var i := 0;
    while i < |arr|
      invariant 0 <= i <= |arr|
      invariant AllNumbers(arr[..i])
      invariant ids == Dedup(ToInts(arr[..i]))
    {
      if !IsNumber(arr[i]) {
        assert !AllNumbers(arr);
        return Err(err);
      }
      var id := ToInt(arr[i]);
      assert ToInts(arr[..i + 1])[..i] == ToInts(arr[..i]);
      if id !in ids {
        ids := ids + [id];
      }
      i := i + 1;
    }
    assert arr[..i] == arr;
    r := Ok(ids);
  }
}
