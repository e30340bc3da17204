/**
 * Pairables (players, teams and the bye sentinel), the rank notation, and the
 * JSON form of players.
 */
module Pairables {
  import opened Wrappers
  import opened Text
  import opened Json

  const MIN_RANK: int := -30  // 30k
  const INT_MIN: int := -0x8000_0000
  const INT_MAX: int := 0x7fff_ffff

  predicate IsInt32(x: int) { INT_MIN <= x <= INT_MAX }

  /** Two's-complement wrap-around of a 32-bit `Int`. */
  function Wrap32(x: int): (r: int)
    ensures IsInt32(r)
    ensures IsInt32(x) ==> r == x
    ensures (r - x) % 0x1_0000_0000 == 0
  {
    (x - INT_MIN) % 0x1_0000_0000 + INT_MIN
  }

  // ---------------------------------------------------------------------------
  // Entities

  /** External rating databases; `Key` is the lower-case name used as a JSON key. */
  datatype DatabaseId = AGA | EGF | FFG

  const DatabaseIds: seq<DatabaseId> := [AGA, EGF, FFG]  // DatabaseId.values()
  const DbKeys: set<string> := {"aga", "egf", "ffg"}

  function Key(d: DatabaseId): (k: string)
    ensures k in DbKeys
  {
    match d
    case AGA => "aga"
    case EGF => "egf"
    case FFG => "ffg"
  }

  function KeyDb(k: string): (d: DatabaseId)
    requires k in DbKeys
    ensures Key(d) == k
  {
    if k == "aga" then AGA else if k == "egf" then EGF else FFG
  }

  /** What distinguishes the three kinds of pairables. A team's rating, rank,
      club and country are derived from its members in the source; here a team
      keeps the base values its constructor passes (0 and 0). */
  datatype Kind =
    | PlayerKind(firstname: string, country: string, club: string, externalIds: map<DatabaseId, string>)
    | TeamKind(playerIds: seq<int>)
    | ByeKind

  /** `skip` is the insertion-ordered set of rounds the pairable sits out. */
  datatype Pairable = Pairable(id: int, name: string, rating: int, rank: int, skip: seq<int>, kind: Kind)

  predicate IsPlayer(p: Pairable) { p.kind.PlayerKind? }

  /** The bye sentinel that makes an odd pool even. */
  const Bye: Pairable := Pairable(0, "bye", 0, INT_MIN, [], ByeKind)

  /** `Pairable.equals(Pairable)`: equality by id only. */
  function Equals(p: Pairable, q: Pairable): (b: bool)
    ensures b <==> p.id == q.id
  {
    p.id == q.id
  }

  /** Equality by id is an equivalence that ignores every field but the id. */
  lemma EqualsIsEquivalence(p: Pairable, q: Pairable, s: Pairable)
    ensures Equals(p, p)
    ensures Equals(p, q) <==> Equals(q, p)
    ensures Equals(p, q) && Equals(q, s) ==> Equals(p, s)
    ensures Equals(p, p.(name := q.name, rating := q.rating, rank := q.rank, skip := q.skip, kind := q.kind))
  {
  }

  /** Any pairable whose id is 0 is "equal" to the bye. */
  lemma ByeEqualsIdZero(p: Pairable)
    ensures Equals(Bye, p) <==> p.id == 0
    ensures Bye.rank == INT_MIN < MIN_RANK
  {
  }

  // ---------------------------------------------------------------------------
  // Rank notation

  const KELVIN_SIGN: char := '\U{212A}'

  /** The letters the case-insensitive regex class `[kd]` accepts: Kotlin turns
      IGNORE_CASE into Unicode case folding, under which the Kelvin sign folds to 'k'. */
  predicate IsRankLetter(c: char) { c == 'k' || c == 'K' || c == KELVIN_SIGN || c == 'd' || c == 'D' }

  function LowerLetter(c: char): char {
    if c == 'K' || c == KELVIN_SIGN then 'k' else if c == 'D' then 'd' else c
  }

  /** `(\d+)([kd])` matched against the entire string. */
  predicate IsRankNotation(s: string) {
    |s| >= 2 && AllDigits(s[..|s| - 1]) && IsRankLetter(s[|s| - 1])
  }

  /** `displayRank`: "Nk" for kyu ranks (rank < 0), "Nd" for dan ranks, with 32-bit `Int` arithmetic. */
  function DisplayRank(rank: int): (s: string)
    requires IsInt32(rank)
    ensures |s| >= 2
    ensures s[|s| - 1] == (if rank < 0 then 'k' else 'd')
  {
    if rank < 0 then IntToString(Wrap32(-rank)) + "k" else IntToString(Wrap32(rank + 1)) + "d"
  }

  /** The message of the `NumberFormatException` that `String.toInt` throws on a digit string beyond `Int.MAX_VALUE`. */
  function NumberFormatMessage(level: string): string {
    "For input string: \"" + level + "\""
  }

  /**
   * `parseRank`: "Nk" is kyu rank -N, "Nd" is dan rank N-1; only the ASCII 'k' and 'K'
   * escape the bound N <= 9, and a number beyond `Int.MAX_VALUE` fails in `toInt`.
   */
  function ParseRank(s: string): (r: Result<int>)
    ensures r.Ok? ==> IsRankNotation(s) && r.value <= 8
    ensures IsRankNotation(s) ==>
      (r.Ok? <==> DigitsValue(s[..|s| - 1]) <= INT_MAX && (s[|s| - 1] in {'k', 'K'} || DigitsValue(s[..|s| - 1]) <= 9))
    ensures r.Ok? && LowerLetter(s[|s| - 1]) == 'k' ==> r.value == -(DigitsValue(s[..|s| - 1]) as int)
    ensures r.Ok? && LowerLetter(s[|s| - 1]) == 'd' ==> r.value == DigitsValue(s[..|s| - 1]) - 1
    ensures r.Err? && IsRankNotation(s) && DigitsValue(s[..|s| - 1]) > INT_MAX ==> r.error == NumberFormatMessage(s[..|s| - 1])
    ensures r.Err? && !(IsRankNotation(s) && DigitsValue(s[..|s| - 1]) > INT_MAX) ==> r.error == "invalid rank: " + s
  {
    if !IsRankNotation(s) then Err("invalid rank: " + s)
    else
      var level := s[..|s| - 1];
      var letter := s[|s| - 1];
      if DigitsValue(level) > INT_MAX then Err(NumberFormatMessage(level))
      else
        var num: int := DigitsValue(level);
        if letter != 'k' && letter != 'K' && num > 9 then Err("invalid rank: " + s)
        else if LowerLetter(letter) == 'k' then Ok(-num)
        else Ok(num - 1)
  }

  /** Kyu notation has no upper bound on its number but that of `Int`. */
  lemma KyuNotation(n: nat)
    ensures ParseRank(NatToString(n) + "k") == if n <= INT_MAX then Ok(-(n as int)) else Err(NumberFormatMessage(NatToString(n)))
    ensures ParseRank(NatToString(n) + "K") == if n <= INT_MAX then Ok(-(n as int)) else Err(NumberFormatMessage(NatToString(n)))
  {
    var s := NatToString(n) + "k";
    var t := NatToString(n) + "K";
    assert s[..|s| - 1] == NatToString(n) && t[..|t| - 1] == NatToString(n);
    DigitsValueOfNatToString(n);
  }

  /** Dan notation "Nd" is rank N-1 and is refused beyond 9d. */
  lemma DanNotation(n: nat)
    ensures ParseRank(NatToString(n) + "d") ==
      if n <= 9 then Ok(n - 1)
      else if n <= INT_MAX then Err("invalid rank: " + NatToString(n) + "d")
      else Err(NumberFormatMessage(NatToString(n)))
  {
    var s := NatToString(n) + "d";
    assert s[..|s| - 1] == NatToString(n);
    DigitsValueOfNatToString(n);
  }

  /** Every rank from the bye's rank excluded up to 8 (9 dan) reads back from its notation. */
  lemma {:induction false} ParseDisplayRoundTrip(rank: int)
    requires INT_MIN < rank <= 8
    ensures ParseRank(DisplayRank(rank)) == Ok(rank)
  {
    if rank < 0 {
      KyuNotation(-rank);
    } else {
      DanNotation(rank + 1);
    }
  }

  /** Ranks of 10 dan and above are displayed but cannot be parsed back. */
  lemma {:induction false} DisplayAboveNineDanUnparseable(rank: int)
    requires 9 <= rank <= INT_MAX
    ensures ParseRank(DisplayRank(rank)).Err?
  {
    if rank < INT_MAX {
      DanNotation(rank + 1);
    } else {
      var s := DisplayRank(rank);
      assert s[0] == '-';
      assert !IsDigit(s[..|s| - 1][0]);
    }
  }

  /** The bye's rank wraps when negated and is shown as a negative kyu rank. */
  lemma ByeRankDisplay()
    ensures DisplayRank(Bye.rank) == "-" + NatToString(0x8000_0000) + "k"
    ensures ParseRank(DisplayRank(Bye.rank)).Err?
  {
    var s := DisplayRank(Bye.rank);
    assert Wrap32(-INT_MIN) == INT_MIN;
    assert !IsDigit(s[..|s| - 1][0]);
  }

  /** Parsing is not injective, and the Kelvin sign is bounded like a dan letter. */
  lemma ParseRankSamples()
    ensures ParseRank("0k") == Ok(0) && ParseRank("1d") == Ok(0)
    ensures ParseRank("5k") == Ok(-5) && ParseRank("9d") == Ok(8) && ParseRank("0d") == Ok(-1)
    ensures ParseRank("10d").Err? && ParseRank("10D").Err? && ParseRank("10K") == Ok(-10)
    ensures ParseRank("5" + [KELVIN_SIGN]) == Ok(-5) && ParseRank("10" + [KELVIN_SIGN]).Err?
    ensures ParseRank("d").Err? && ParseRank("5").Err? && ParseRank("-5k").Err? && ParseRank("5 k").Err?
  {
    assert DigitsValue("0") == 0 && DigitsValue("1") == 1 && DigitsValue("5") == 5;
    assert "10"[..1] == "1";
    assert DigitsValue("9") == 9 && DigitsValue("10") == 10;
    assert "10d"[..2] == "10" && "10D"[..2] == "10" && "10K"[..2] == "10";
    assert ("5" + [KELVIN_SIGN])[..1] == "5";
    assert ("10" + [KELVIN_SIGN])[..2] == "10";
    assert !IsDigit("-5k"[0]) && !IsDigit("5 k"[1]);
  }

  /** Upper-case dan letters, and leading zeros, which do not change the number. */
  lemma ParseRankLeadingZeros()
    ensures ParseRank("5D") == Ok(4) && ParseRank("05d") == Ok(4) && ParseRank("007k") == Ok(-7)
  {
    assert "5D"[..1] == "5" && DigitsValue("5") == 5;
    LeadingZeroValue("5");
    assert "05d"[..2] == "0" + "5";
    LeadingZeroValue("7");
    LeadingZeroValue("07");
    assert "007k"[..3] == "0" + ("0" + "7") && "07" == "0" + "7" && DigitsValue("7") == 7;
  }

  // ---------------------------------------------------------------------------
  // Player JSON, read side

  /** A field taken from the JSON, else from the default, else failing with "missing <field>". */
  function Required<T>(fromJson: Option<T>, fromDefault: Option<T>, field: string): (r: Result<T>)
    ensures r.Ok? <==> OrElse(fromJson, fromDefault).Some?
    ensures r.Ok? ==> r.value == OrElse(fromJson, fromDefault).value
    ensures r.Err? ==> r.error == "missing " + field
  {
    if fromJson.Some? then Ok(fromJson.value)
    else if fromDefault.Some? then Ok(fromDefault.value)
    else Err("missing " + field)
  }

  function Dflt<T>(default: Option<Pairable>, f: Pairable -> T): Option<T> {
    if default.Some? then Some(f(default.value)) else None
  }

  function Firstname(p: Pairable): string { if p.kind.PlayerKind? then p.kind.firstname else "" }
  function Country(p: Pairable): string { if p.kind.PlayerKind? then p.kind.country else "" }
  function Club(p: Pairable): string { if p.kind.PlayerKind? then p.kind.club else "" }

  const SKIP_ERROR := "skip entry is not a number"

  /** The rounds listed under "skip" (an absent array meaning none). */
  function SkipOf(json: JsonObject): (r: Result<seq<int>>)
    ensures GetArray(json, "skip").None? ==> r == Ok([])
    ensures GetArray(json, "skip").Some? ==> (r.Ok? <==> AllNumbers(GetArray(json, "skip").value))
    ensures r.Err? ==> r.error == SKIP_ERROR
    ensures r.Ok? ==> NoDup(r.value)
    ensures r.Ok? && GetArray(json, "skip").Some? ==>
      forall x :: x in r.value <==> exists i :: 0 <= i < |GetArray(json, "skip").value| && x == ToInt(GetArray(json, "skip").value[i])
  {
    var arr := GetArray(json, "skip");
    if arr.None? then Ok([]) else IdsOf(arr.value, SKIP_ERROR)
  }

  /** The external ids found under "aga", "egf" and "ffg". */
  function ExternalIdsOf(json: JsonObject): (r: map<DatabaseId, string>)
    ensures forall d :: d in r <==> GetString(json, Key(d)).Some?
    ensures forall d :: d in r ==> Some(r[d]) == GetString(json, Key(d))
  {
    map d | d in DatabaseIds && GetString(json, Key(d)).Some? :: GetString(json, Key(d)).value
  }

  /** The `Player(...)` constructor call of `Player.fromJson`: every field from the
      JSON, else the default, else a failure; the id else a fresh one. */
  function NewPlayer(json: JsonObject, default: Option<Pairable>, freshId: int): (r: Result<Pairable>)
    ensures r.Ok? <==> PlayerFieldsAvailable(json, default)
    ensures OrElse(GetString(json, "name"), Dflt(default, (p: Pairable) => p.name)).None? ==> r == Err("missing name")
    ensures r.Ok? ==> r.value.id == OrElse(GetInt(json, "id"), Dflt(default, (p: Pairable) => p.id)).GetOr(freshId)
    ensures r.Ok? ==> Some(r.value.name) == OrElse(GetString(json, "name"), Dflt(default, (p: Pairable) => p.name))
    ensures r.Ok? ==> Some(r.value.rating) == OrElse(GetInt(json, "rating"), Dflt(default, (p: Pairable) => p.rating))
    ensures r.Ok? ==> Some(r.value.rank) == OrElse(GetInt(json, "rank"), Dflt(default, (p: Pairable) => p.rank))
    ensures r.Ok? ==> r.value.kind.PlayerKind? && Some(r.value.kind.firstname) == OrElse(GetString(json, "firstname"), Dflt(default, Firstname))
    ensures r.Ok? ==> Some(r.value.kind.country) == OrElse(GetString(json, "country"), Dflt(default, Country))
    ensures r.Ok? ==> Some(r.value.kind.club) == OrElse(GetString(json, "club"), Dflt(default, Club))
    ensures r.Ok? ==> r.value.skip == [] && r.value.kind.externalIds == map[]
  {
    var id := OrElse(GetInt(json, "id"), Dflt(default, (p: Pairable) => p.id));
    var name :- Required(GetString(json, "name"), Dflt(default, (p: Pairable) => p.name), "name");
    var firstname :- Required(GetString(json, "firstname"), Dflt(default, Firstname), "firstname");
    var rating :- Required(GetInt(json, "rating"), Dflt(default, (p: Pairable) => p.rating), "rating");
    var rank :- Required(GetInt(json, "rank"), Dflt(default, (p: Pairable) => p.rank), "rank");
    var country :- Required(GetString(json, "country"), Dflt(default, Country), "country");
    var club :- Required(GetString(json, "club"), Dflt(default, Club), "club");
    Ok(Pairable(id.GetOr(freshId), name, rating, rank, [], PlayerKind(firstname, country, club, map[])))
  }

  /** Every required field is available, from the JSON or the default. */
  predicate PlayerFieldsAvailable(json: JsonObject, default: Option<Pairable>) {
    && OrElse(GetString(json, "name"), Dflt(default, (p: Pairable) => p.name)).Some?
    && OrElse(GetString(json, "firstname"), Dflt(default, Firstname)).Some?
    && OrElse(GetInt(json, "rating"), Dflt(default, (p: Pairable) => p.rating)).Some?
    && OrElse(GetInt(json, "rank"), Dflt(default, (p: Pairable) => p.rank)).Some?
    && OrElse(GetString(json, "country"), Dflt(default, Country)).Some?
    && OrElse(GetString(json, "club"), Dflt(default, Club)).Some?
  }

  /** Every required field is available, and the skip array (if any) holds numbers only. */
  predicate PlayerDecodable(json: JsonObject, default: Option<Pairable>) {
    PlayerFieldsAvailable(json, default) && SkipOf(json).Ok?
  }

  /** `Player.fromJson`: the player a JSON object describes, updating `default` if given. */
  function PlayerOf(json: JsonObject, default: Option<Pairable>, freshId: int): (r: Result<Pairable>)
    ensures r.Ok? <==> PlayerDecodable(json, default)
    ensures OrElse(GetString(json, "name"), Dflt(default, (p: Pairable) => p.name)).None? ==> r == Err("missing name")
    ensures r.Ok? ==> IsPlayer(r.value)
    ensures r.Ok? ==> r.value.id == OrElse(GetInt(json, "id"), Dflt(default, (p: Pairable) => p.id)).GetOr(freshId)
    ensures r.Ok? ==> Some(r.value.name) == OrElse(GetString(json, "name"), Dflt(default, (p: Pairable) => p.name))
    ensures r.Ok? ==> Some(r.value.kind.firstname) == OrElse(GetString(json, "firstname"), Dflt(default, Firstname))
    ensures r.Ok? ==> Some(r.value.rating) == OrElse(GetInt(json, "rating"), Dflt(default, (p: Pairable) => p.rating))
    ensures r.Ok? ==> Some(r.value.rank) == OrElse(GetInt(json, "rank"), Dflt(default, (p: Pairable) => p.rank))
    ensures r.Ok? ==> Some(r.value.kind.country) == OrElse(GetString(json, "country"), Dflt(default, Country))
    ensures r.Ok? ==> Some(r.value.kind.club) == OrElse(GetString(json, "club"), Dflt(default, Club))
    // skip and the external ids come from the JSON only, never from the default
    ensures r.Ok? ==> NoDup(r.value.skip)
    ensures r.Ok? ==> SkipOf(json) == Ok(r.value.skip)
    ensures r.Ok? && GetArray(json, "skip").None? ==> r.value.skip == []
    ensures r.Ok? ==> forall d :: d in r.value.kind.externalIds <==> GetString(json, Key(d)).Some?
    ensures r.Ok? ==> forall d :: d in r.value.kind.externalIds ==> r.value.kind.externalIds[d] == GetString(json, Key(d)).value
  {
    var p :- NewPlayer(json, default, freshId);
    var skip :- SkipOf(json);
    Ok(p.(skip := skip, kind := p.kind.(externalIds := ExternalIdsOf(json))))
  }

  /**
   * `Player.fromJson`, step by step: build the player, clear its skip set, add the
   * numbers of the "skip" array, then look up each external database key in turn.
   */
  method PlayerFromJson(json: JsonObject, default: Option<Pairable>, freshId: int) returns (r: Result<Pairable>)
    ensures r == PlayerOf(json, default, freshId)
  {
    var p :- NewPlayer(json, default, freshId);
    p := p.(skip := []);
    var arr := GetArray(json, "skip");
    if arr.Some? && |arr.value| > 0 {
      var ids :- CollectIds(arr.value, SKIP_ERROR);
      p := p.(skip := ids);
    }
    var ext := CollectExternalIds(json);
    r := Ok(p.(kind := p.kind.(externalIds := ext)));
  }

  /** The `DatabaseId.values().forEach` loop of `Player.fromJson`: each key present in the JSON is recorded. */
  method CollectExternalIds(json: JsonObject) returns (ext: map<DatabaseId, string>)
    ensures ext == ExternalIdsOf(json)
  {
    ext := map[];
    for i := 0 to |DatabaseIds|
      invariant ext == map d | d in DatabaseIds[..i] && GetString(json, Key(d)).Some? :: GetString(json, Key(d)).value
    {
      var d := DatabaseIds[i];
      var id := GetString(json, Key(d));
      if id.Some? {
        ext := ext[d := id.value];
      }
    }
    assert DatabaseIds[..|DatabaseIds|] == DatabaseIds;
  }

  // ---------------------------------------------------------------------------
  // JSON, write side

  const BYE_ERROR := "bye player should never be serialized"

  /** The external ids under their lower-case keys, restricted to the databases in `done`. */
  function ExternalIdsJson(ext: map<DatabaseId, string>, done: set<DatabaseId>): JsonObject {
    map k | k in DbKeys && KeyDb(k) in ext && KeyDb(k) in done :: JString(ext[KeyDb(k)])
  }

  /** The seven keys every player document has. */
  function PlayerFieldsJson(p: Pairable): JsonObject
    requires IsPlayer(p)
  {
    map["id" := JInt(p.id), "name" := JString(p.name), "firstname" := JString(p.kind.firstname),
        "rating" := JInt(p.rating), "rank" := JInt(p.rank), "country" := JString(p.kind.country),
        "club" := JString(p.kind.club)]
  }

  /** "skip" is written only when the player skips some round. */
  function SkipJson(p: Pairable): JsonObject {
    if |p.skip| > 0 then map["skip" := JArray(IntsJson(p.skip))] else map[]
  }

  /** `toJson` of the three kinds of pairables: a player, a team (id, name and member ids), the bye (refused). */
  function JsonOf(p: Pairable): (r: Result<JsonObject>)
    ensures r.Err? <==> p.kind.ByeKind?
    ensures r.Err? ==> r.error == BYE_ERROR
    ensures r.Ok? && IsPlayer(p) ==> ("skip" in r.value <==> |p.skip| > 0)
  {
    match p.kind
    case ByeKind => Err(BYE_ERROR)
    case TeamKind(ids) => Ok(map["id" := JInt(p.id), "name" := JString(p.name), "players" := JArray(IntsJson(ids))])
    case PlayerKind(_, _, _, ext) => Ok(PlayerFieldsJson(p) + SkipJson(p) + ExternalIdsJson(ext, ext.Keys))
  }

  lemma ExternalIdsJsonStep(head: JsonObject, ext: map<DatabaseId, string>, done: set<DatabaseId>, d: DatabaseId)
    requires d in ext
    ensures (head + ExternalIdsJson(ext, done))[Key(d) := JString(ext[d])] == head + ExternalIdsJson(ext, done + {d})
  {
    assert KeyDb(Key(d)) == d by { assert Key(KeyDb(Key(d))) == Key(d); }
    assert ExternalIdsJson(ext, done)[Key(d) := JString(ext[d])] == ExternalIdsJson(ext, done + {d});
  }

  lemma ExternalIdsJsonEmpty(ext: map<DatabaseId, string>)
    ensures ExternalIdsJson(ext, {}) == map[]
  {
  }

  /** `externalIds.forEach { json[key] = id }`: one key per external id, entry by entry. */
  method AddExternalIds(head: JsonObject, ext: map<DatabaseId, string>) returns (json: JsonObject)
    ensures json == head + ExternalIdsJson(ext, ext.Keys)
  {
    json := head;
    ExternalIdsJsonEmpty(ext);
    var rest := ext.Keys;
    while rest != {}
      invariant rest <= ext.Keys
      invariant json == head + ExternalIdsJson(ext, ext.Keys - rest)
      decreases rest
    {
      var d :| d in rest;
      ExternalIdsJsonStep(head, ext, ext.Keys - rest, d);
      assert ext.Keys - rest + {d} == ext.Keys - (rest - {d});
      json := json[Key(d) := JString(ext[d])];
      rest := rest - {d};
    }
    assert ext.Keys - rest == ext.Keys;
  }

  /** `toJson`: the fixed fields, then "skip" when not empty, then the external ids. */
  method ToJson(p: Pairable) returns (r: Result<JsonObject>)
    ensures r == JsonOf(p)
  {
    match p.kind
    case ByeKind =>
      r := Err(BYE_ERROR);
    case TeamKind(ids) =>
      r := Ok(map["id" := JInt(p.id), "name" := JString(p.name), "players" := JArray(IntsJson(ids))]);
    case PlayerKind(_, _, _, ext) =>
      var json := PlayerFieldsJson(p);
      if |p.skip| > 0 {
        json := json["skip" := JArray(IntsJson(p.skip))];
      }
      assert json == PlayerFieldsJson(p) + SkipJson(p);
      json := AddExternalIds(json, ext);
      r := Ok(json);
  }

  const PlayerFieldKeys: set<string> := {"id", "name", "firstname", "rating", "rank", "country", "club"}

  lemma KeySetsDisjoint()
    ensures PlayerFieldKeys !! DbKeys && "skip" !in PlayerFieldKeys && "skip" !in DbKeys
  {
  }

  /** In a player document, a key is looked up in the one part that can hold it. */
  lemma PlayerJsonParts(p: Pairable, k: string)
    requires IsPlayer(p)
    ensures JsonOf(p).Ok?
    ensures k == "skip" ==> (k in JsonOf(p).value <==> k in SkipJson(p)) && (k in SkipJson(p) ==> JsonOf(p).value[k] == SkipJson(p)[k])
    ensures k in DbKeys ==> (k in JsonOf(p).value <==> KeyDb(k) in p.kind.externalIds)
    ensures k in DbKeys && KeyDb(k) in p.kind.externalIds ==> JsonOf(p).value[k] == JString(p.kind.externalIds[KeyDb(k)])
  {
    KeySetsDisjoint();
    var ext := p.kind.externalIds;
    var e := ExternalIdsJson(ext, ext.Keys);
    assert e.Keys <= DbKeys;
    assert SkipJson(p).Keys <= {"skip"};
    assert PlayerFieldsJson(p).Keys == PlayerFieldKeys;
  }

  /** A fixed field of a player document holds what `PlayerFieldsJson` wrote for it. */
  lemma PlayerFieldLookup(p: Pairable, k: string)
    requires IsPlayer(p) && k in PlayerFieldKeys
    ensures JsonOf(p).Ok? && k in JsonOf(p).value && JsonOf(p).value[k] == PlayerFieldsJson(p)[k]
  {
    KeySetsDisjoint();
    var ext := p.kind.externalIds;
    assert ExternalIdsJson(ext, ext.Keys).Keys <= DbKeys;
    assert SkipJson(p).Keys <= {"skip"};
    assert PlayerFieldsJson(p).Keys == PlayerFieldKeys;
  }

  /** Lookups in a player document give back the player's fields. */
  lemma PlayerJsonLookups(p: Pairable)
    requires IsPlayer(p)
    ensures JsonOf(p).Ok?
    ensures GetInt(JsonOf(p).value, "id") == Some(p.id)
    ensures GetString(JsonOf(p).value, "name") == Some(p.name)
    ensures GetString(JsonOf(p).value, "firstname") == Some(p.kind.firstname)
    ensures GetInt(JsonOf(p).value, "rating") == Some(p.rating)
    ensures GetInt(JsonOf(p).value, "rank") == Some(p.rank)
    ensures GetString(JsonOf(p).value, "country") == Some(p.kind.country)
    ensures GetString(JsonOf(p).value, "club") == Some(p.kind.club)
  {
    PlayerFieldLookup(p, "id");
    PlayerFieldLookup(p, "name");
    PlayerFieldLookup(p, "firstname");
    PlayerFieldLookup(p, "rating");
    PlayerFieldLookup(p, "rank");
    PlayerFieldLookup(p, "country");
    PlayerFieldLookup(p, "club");
  }

  /** The skip array and the external ids of a player document. */
  lemma PlayerJsonExtras(p: Pairable)
    requires IsPlayer(p)
    ensures JsonOf(p).Ok?
    ensures var j := JsonOf(p).value;
      && (|p.skip| > 0 ==> GetArray(j, "skip") == Some(IntsJson(p.skip)))
      && (|p.skip| == 0 ==> GetArray(j, "skip").None?)
      && forall d :: GetString(j, Key(d)) == if d in p.kind.externalIds then Some(p.kind.externalIds[d]) else None
  {
    PlayerJsonParts(p, "skip");
    forall d ensures GetString(JsonOf(p).value, Key(d)) == if d in p.kind.externalIds then Some(p.kind.externalIds[d]) else None {
      assert KeyDb(Key(d)) == d by { assert Key(KeyDb(Key(d))) == Key(d); }
      PlayerJsonParts(p, Key(d));
    }
  }

  /** A skip set read back from the array written for it. */
  lemma SkipRoundTrip(s: seq<int>)
    requires NoDup(s)
    ensures IdsOf(IntsJson(s), SKIP_ERROR) == Ok(s)
  {
    var arr := IntsJson(s);
    assert ToInts(arr) == s;
    DedupOfNoDup(s);
  }

  /** The constructor part of `fromJson` reads back the fixed fields of a player document. */
  lemma NewPlayerOfPlayerJson(p: Pairable, default: Option<Pairable>, freshId: int)
    requires IsPlayer(p)
    ensures NewPlayer(JsonOf(p).value, default, freshId) == Ok(p.(skip := [], kind := p.kind.(externalIds := map[])))
  {
    PlayerJsonLookups(p);
  }

  /** `ExternalIdsOf` collects exactly the external ids a document holds under its database keys. */
  lemma ExternalIdsOfLookups(j: JsonObject, ext: map<DatabaseId, string>)
    requires forall d :: GetString(j, Key(d)) == if d in ext then Some(ext[d]) else None
    ensures ExternalIdsOf(j) == ext
  {
    var got := ExternalIdsOf(j);
    forall d ensures (d in got <==> d in ext) && (d in ext ==> got[d] == ext[d]) {
      assert d in DatabaseIds by { assert d == DatabaseIds[0] || d == DatabaseIds[1] || d == DatabaseIds[2]; }
    }
    assert got.Keys == ext.Keys;
  }

  lemma ExternalIdsOfPlayerJson(p: Pairable)
    requires IsPlayer(p)
    ensures ExternalIdsOf(JsonOf(p).value) == p.kind.externalIds
  {
    PlayerJsonExtras(p);
    ExternalIdsOfLookups(JsonOf(p).value, p.kind.externalIds);
  }

  /** Reading back what `toJson` writes for a player gives the player again, whatever the default. */
  lemma {:induction false} PlayerJsonRoundTrip(p: Pairable, default: Option<Pairable>, freshId: int)
    requires IsPlayer(p) && NoDup(p.skip)
    requires default.Some? ==> IsPlayer(default.value)
    ensures PlayerOf(JsonOf(p).value, default, freshId) == Ok(p)
  {
    PlayerJsonExtras(p);
    NewPlayerOfPlayerJson(p, default, freshId);
    ExternalIdsOfPlayerJson(p);
    var j := JsonOf(p).value;
    if |p.skip| > 0 {
      SkipRoundTrip(p.skip);
    }
    assert SkipOf(j) == Ok(p.skip);
  }
}
