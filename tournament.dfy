/**
 * A tournament (the API version): its configuration decoded from JSON with
 * defaults, the standings criteria, and the rounds of games it stores, one
 * map from game id to game per round, grown by pairing.
 */
module Tournaments {
  import opened Wrappers
  import opened Json
  import opened Games
  import opened Pairables
  import Solver

  // ---------------------------------------------------------------------------
  // Types

  datatype TournamentType = INDIVIDUAL | PAIRGO | RENGO2 | RENGO3 | TEAM2 | TEAM3 | TEAM4 | TEAM5 {
    /** `playersNumber`: one for an individual tournament, two to five players otherwise. */
    function PlayersNumber(): (r: int)
      ensures 1 <= r <= 5
      ensures r == 1 <==> this == INDIVIDUAL
    {
      match this
      case INDIVIDUAL => 1
      case PAIRGO => 2
      case RENGO2 => 2
      case RENGO3 => 3
      case TEAM2 => 2
      case TEAM3 => 3
      case TEAM4 => 4
      case TEAM5 => 5
    }

    /** `individual`: true by default; pair go and rengo teams are not made of individuals. */
    predicate Individual(): (b: bool)
      ensures b <==> this !in {PAIRGO, RENGO2, RENGO3}
      ensures this == INDIVIDUAL ==> b
      ensures !b ==> 2 <= PlayersNumber() <= 3
    {
      !(this == PAIRGO || this == RENGO2 || this == RENGO3)
    }
  }

  /** The `name` of an enum constant: its identifier, non-empty and already in upper case. */
  function TypeName(t: TournamentType): (r: string)
    ensures |r| > 0
    ensures Uppercase(r) == r
  {
    match t
    case INDIVIDUAL => "INDIVIDUAL"
    case PAIRGO => "PAIRGO"
    case RENGO2 => "RENGO2"
    case RENGO3 => "RENGO3"
    case TEAM2 => "TEAM2"
    case TEAM3 => "TEAM3"
    case TEAM4 => "TEAM4"
    case TEAM5 => "TEAM5"
  }

  /** `Type.valueOf(name)`: the type of that exact name. */
  function TypeValueOf(name: string): (r: Option<TournamentType>)
    ensures r.Some? ==> TypeName(r.value) == name
    ensures r.None? ==> forall t :: TypeName(t) != name
  {
    if name == "INDIVIDUAL" then Some(INDIVIDUAL)
    else if name == "PAIRGO" then Some(PAIRGO)
    else if name == "RENGO2" then Some(RENGO2)
    else if name == "RENGO3" then Some(RENGO3)
    else if name == "TEAM2" then Some(TEAM2)
    else if name == "TEAM3" then Some(TEAM3)
    else if name == "TEAM4" then Some(TEAM4)
    else if name == "TEAM5" then Some(TEAM5)
    else
      assert forall t :: TypeName(t) != name;
      None
  }

  /** Type names and `valueOf` are inverse to each other. */
  lemma TypeNameRoundTrip(t: TournamentType)
    ensures TypeValueOf(TypeName(t)) == Some(t)
  {
  }

  const DOTLESS_I: char := '\U{0131}'
  const LONG_S: char := '\U{017F}'

  /**
   * `String.uppercase()` as far as it can produce the characters of a type name:
   * ASCII letters, and the two non-ASCII letters whose capital is an ASCII letter
   * (dotless i, long s). Every other character is kept.
   */
  function UpperChar(c: char): char {
    if 'a' <= c <= 'z' then (c as int - 32) as char
    else if c == DOTLESS_I then 'I'
    else if c == LONG_S then 'S'
    else c
  }

  function Uppercase(s: string): (r: string)
    ensures |r| == |s| && forall i :: 0 <= i < |s| ==> r[i] == UpperChar(s[i])
  {
    seq(|s|, i requires 0 <= i < |s| => UpperChar(s[i]))
  }

  /** The type names are matched without regard to case, dotless i included. */
  lemma TypeNameIgnoresCase()
    ensures TypeValueOf(Uppercase("individual")) == Some(INDIVIDUAL)
    ensures TypeValueOf(Uppercase("team3")) == Some(TEAM3)
    ensures TypeValueOf(Uppercase([DOTLESS_I] + "ndividual")) == Some(INDIVIDUAL)
    ensures TypeValueOf(Uppercase("solo")) == None
  {
    assert Uppercase("individual") == "INDIVIDUAL";
    assert Uppercase("team3") == "TEAM3";
    assert Uppercase([DOTLESS_I] + "ndividual") == "INDIVIDUAL";
    assert Uppercase("solo") == "SOLO";
  }

  /** Standings criteria. */
  datatype Criterion = NBW | MMS | SOS | SOSOS | SODOS

  /** Pairing.kt is not part of this model: a pairing is known by its type and its own settings. */
  datatype PairingType = MACMAHON | OtherPairingType(name: string)
  datatype Pairing = Pairing(pairingType: PairingType, settings: JsonObject)

  /** TimeSystem.kt is not part of this model: a time system is known by its settings. */
  datatype TimeSystem = TimeSystem(settings: JsonObject)

  /** Rules.kt is not part of this model: rules are known by their name. */
  datatype Rules = Rules(name: string)
  const FRENCH: Rules := Rules("FRENCH")

  /** The decoders the tournament delegates to, which this model does not define. */
  datatype Codecs = Codecs(
    localDate: string -> Result<Date>,
    rulesValueOf: string -> Option<Rules>,
    timeSystemFromJson: JsonObject -> Result<TimeSystem>,
    pairingFromJson: JsonObject -> Result<Pairing>)

  /** A calendar date, as `java.time.LocalDate` holds it. */
  datatype Date = Date(year: int, month: int, day: int)

  datatype TournamentConfig = TournamentConfig(
    id: int,
    tournamentType: TournamentType,
    name: string,
    shortName: string,
    startDate: Date,
    endDate: Date,
    country: string,
    location: string,
    online: bool,
    komi: real,
    rules: Rules,
    gobanSize: int,
    timeSystem: TimeSystem,
    rounds: int,
    pairing: Pairing)

  /** The standings criteria: the main score (MMS for McMahon, wins otherwise), then SOS and SOSOS. */
  function Criteria(pairingType: PairingType): (r: seq<Criterion>)
    ensures |r| == 3 && r[1..] == [SOS, SOSOS]
    ensures r[0] == MMS <==> pairingType == MACMAHON
    ensures r[0] == NBW <==> pairingType != MACMAHON
  {
    [if pairingType == MACMAHON then MMS else NBW, SOS, SOSOS]
  }

  // ---------------------------------------------------------------------------
  // fromJson

  function FromDefault<T>(default: Option<TournamentConfig>, f: TournamentConfig -> T): Option<T> {
    if default.Some? then Some(f(default.value)) else None
  }

  function NoEnumConstant(enumName: string, name: string): string {
    "No enum constant " + enumName + "." + name
  }

  /** The type: a present name must be a type name (after upper-casing), an absent one falls back on the default. */
  function TypeOf(json: JsonObject, defaultType: Option<TournamentType>): (r: Result<TournamentType>)
    ensures GetString(json, "type").Some? ==>
      (r.Ok? <==> TypeValueOf(Uppercase(GetString(json, "type").value)).Some?)
    ensures GetString(json, "type").Some? && r.Ok? ==> TypeName(r.value) == Uppercase(GetString(json, "type").value)
    ensures GetString(json, "type").None? ==> r == Required(None, defaultType, "type")
  {
    match GetString(json, "type")
    case Some(s) =>
      var t := TypeValueOf(Uppercase(s));
      if t.Some? then Ok(t.value) else Err(NoEnumConstant("Tournament.Type", Uppercase(s)))
    case None => Required(None, defaultType, "type")
  }

  /** The rules: a present name must be known, an absent one falls back on the default, then on FRENCH. */
  function RulesOf(json: JsonObject, defaultRules: Option<Rules>, codecs: Codecs): (r: Result<Rules>)
    ensures GetString(json, "rules").Some? ==> (r.Ok? <==> codecs.rulesValueOf(GetString(json, "rules").value).Some?)
    ensures GetString(json, "rules").Some? && r.Ok? ==> r.value == codecs.rulesValueOf(GetString(json, "rules").value).value
    ensures GetString(json, "rules").None? ==> r == Ok(if defaultRules.Some? then defaultRules.value else FRENCH)
  {
    match GetString(json, "rules")
    case Some(s) =>
      var rules := codecs.rulesValueOf(s);
      if rules.Some? then Ok(rules.value) else Err(NoEnumConstant("Rules", s))
    case None => Ok(defaultRules.GetOr(FRENCH))
  }

  /** An object field decoded by `decode`, else the default's, else "missing <field>". */
  function DecodedOf<T>(json: JsonObject, key: string, decode: JsonObject -> Result<T>, fromDefault: Option<T>): (r: Result<T>)
    ensures GetObject(json, key).Some? ==> r == decode(GetObject(json, key).value)
    ensures GetObject(json, key).None? ==> r == Required(None, fromDefault, key)
  {
    match GetObject(json, key)
    case Some(o) => decode(o)
    case None => Required(None, fromDefault, key)
  }

  /** A date field parsed by `getLocalDate`, else the default's, else "missing <field>". */
  function DateOf(json: JsonObject, key: string, codecs: Codecs, fromDefault: Option<Date>): (r: Result<Date>)
    ensures GetString(json, key).Some? ==> r == codecs.localDate(GetString(json, key).value)
    ensures GetString(json, key).None? ==> r == Required(None, fromDefault, key)
  {
    match GetString(json, key)
    case Some(s) => codecs.localDate(s)
    case None => Required(None, fromDefault, key)
  }

  /**
   * `Tournament.fromJson`: the fields in the order the constructor call evaluates
   * them, so that the first missing one is the one reported.
   */
  function ConfigOf(json: JsonObject, default: Option<TournamentConfig>, freshId: int, codecs: Codecs): (r: Result<TournamentConfig>)
    ensures r.Ok? <==> ConfigDecodable(json, default, codecs)
  {
    var tournamentType :- TypeOf(json, FromDefault(default, (d: TournamentConfig) => d.tournamentType));
    var id := OrElse(GetInt(json, "id"), FromDefault(default, (d: TournamentConfig) => d.id)).GetOr(freshId);
    var name :- Required(GetString(json, "name"), FromDefault(default, (d: TournamentConfig) => d.name), "name");
    var shortName :- Required(GetString(json, "shortName"), FromDefault(default, (d: TournamentConfig) => d.shortName), "shortName");
    var startDate :- DateOf(json, "startDate", codecs, FromDefault(default, (d: TournamentConfig) => d.startDate));
    var endDate :- DateOf(json, "endDate", codecs, FromDefault(default, (d: TournamentConfig) => d.endDate));
    var country :- Required(GetString(json, "country"), FromDefault(default, (d: TournamentConfig) => d.country), "country");
    var location :- Required(GetString(json, "location"), FromDefault(default, (d: TournamentConfig) => d.location), "location");
    var online := OrElse(GetBool(json, "online"), FromDefault(default, (d: TournamentConfig) => d.online)).GetOr(false);
    var komi := OrElse(GetDouble(json, "komi"), FromDefault(default, (d: TournamentConfig) => d.komi)).GetOr(7.5);
    var rules :- RulesOf(json, FromDefault(default, (d: TournamentConfig) => d.rules), codecs);
    var gobanSize := OrElse(GetInt(json, "gobanSize"), FromDefault(default, (d: TournamentConfig) => d.gobanSize)).GetOr(19);
    var timeSystem :- DecodedOf(json, "timeSystem", codecs.timeSystemFromJson, FromDefault(default, (d: TournamentConfig) => d.timeSystem));
    var rounds :- Required(GetInt(json, "rounds"), FromDefault(default, (d: TournamentConfig) => d.rounds), "rounds");
    var pairing :- DecodedOf(json, "pairing", codecs.pairingFromJson, FromDefault(default, (d: TournamentConfig) => d.pairing));
    Ok(TournamentConfig(id, tournamentType, name, shortName, startDate, endDate, country, location,
                        online, komi, rules, gobanSize, timeSystem, rounds, pairing))
  }

  /** The type, every required string and the rounds are available, and the dates, rules, time system and pairing decode. */
  predicate ConfigDecodable(json: JsonObject, default: Option<TournamentConfig>, codecs: Codecs) {
    && TypeOf(json, FromDefault(default, (d: TournamentConfig) => d.tournamentType)).Ok?
    && OrElse(GetString(json, "name"), FromDefault(default, (d: TournamentConfig) => d.name)).Some?
    && OrElse(GetString(json, "shortName"), FromDefault(default, (d: TournamentConfig) => d.shortName)).Some?
    && DateOf(json, "startDate", codecs, FromDefault(default, (d: TournamentConfig) => d.startDate)).Ok?
    && DateOf(json, "endDate", codecs, FromDefault(default, (d: TournamentConfig) => d.endDate)).Ok?
    && OrElse(GetString(json, "country"), FromDefault(default, (d: TournamentConfig) => d.country)).Some?
    && OrElse(GetString(json, "location"), FromDefault(default, (d: TournamentConfig) => d.location)).Some?
    && RulesOf(json, FromDefault(default, (d: TournamentConfig) => d.rules), codecs).Ok?
    && DecodedOf(json, "timeSystem", codecs.timeSystemFromJson, FromDefault(default, (d: TournamentConfig) => d.timeSystem)).Ok?
    && OrElse(GetInt(json, "rounds"), FromDefault(default, (d: TournamentConfig) => d.rounds)).Some?
    && DecodedOf(json, "pairing", codecs.pairingFromJson, FromDefault(default, (d: TournamentConfig) => d.pairing)).Ok?
  }

  /**
   * What a decoded configuration holds: each required field from the JSON, else
   * from the default; the id else a fresh one; online, komi and goban size else
   * false, 7.5 and 19; the rules, time system and pairing as decoded.
   */
  lemma ConfigFields(json: JsonObject, default: Option<TournamentConfig>, freshId: int, codecs: Codecs)
    requires ConfigOf(json, default, freshId, codecs).Ok?
    ensures var c := ConfigOf(json, default, freshId, codecs).value;
      && c.id == OrElse(GetInt(json, "id"), FromDefault(default, (d: TournamentConfig) => d.id)).GetOr(freshId)
      && c.tournamentType == TypeOf(json, FromDefault(default, (d: TournamentConfig) => d.tournamentType)).value
      && Some(c.name) == OrElse(GetString(json, "name"), FromDefault(default, (d: TournamentConfig) => d.name))
      && Some(c.shortName) == OrElse(GetString(json, "shortName"), FromDefault(default, (d: TournamentConfig) => d.shortName))
      && c.startDate == DateOf(json, "startDate", codecs, FromDefault(default, (d: TournamentConfig) => d.startDate)).value
      && c.endDate == DateOf(json, "endDate", codecs, FromDefault(default, (d: TournamentConfig) => d.endDate)).value
      && Some(c.country) == OrElse(GetString(json, "country"), FromDefault(default, (d: TournamentConfig) => d.country))
      && Some(c.location) == OrElse(GetString(json, "location"), FromDefault(default, (d: TournamentConfig) => d.location))
      && Some(c.rounds) == OrElse(GetInt(json, "rounds"), FromDefault(default, (d: TournamentConfig) => d.rounds))
      && c.online == (if GetBool(json, "online").Some? then GetBool(json, "online").value else if default.Some? then default.value.online else false)
      && c.komi == (if GetDouble(json, "komi").Some? then GetDouble(json, "komi").value else if default.Some? then default.value.komi else 7.5)
      && c.gobanSize == (if GetInt(json, "gobanSize").Some? then GetInt(json, "gobanSize").value else if default.Some? then default.value.gobanSize else 19)
      && c.rules == RulesOf(json, FromDefault(default, (d: TournamentConfig) => d.rules), codecs).value
      && (GetString(json, "rules").None? ==> c.rules == if default.Some? then default.value.rules else FRENCH)
      && c.timeSystem == DecodedOf(json, "timeSystem", codecs.timeSystemFromJson, FromDefault(default, (d: TournamentConfig) => d.timeSystem)).value
      && c.pairing == DecodedOf(json, "pairing", codecs.pairingFromJson, FromDefault(default, (d: TournamentConfig) => d.pairing)).value
  {
  }

  /** Without a default, a JSON without a type, or with a type but without a name, is refused for that field. */
  lemma ConfigMissingFields(json: JsonObject, freshId: int, codecs: Codecs)
    ensures GetString(json, "type").None? ==> ConfigOf(json, None, freshId, codecs) == Err("missing type")
    ensures TypeOf(json, None).Ok? && GetString(json, "name").None? ==> ConfigOf(json, None, freshId, codecs) == Err("missing name")
    ensures GetString(json, "type").Some? && TypeValueOf(Uppercase(GetString(json, "type").value)).None? ==>
      ConfigOf(json, None, freshId, codecs).Err?
  {
  }

  // ---------------------------------------------------------------------------
  // Pairing and the rounds of games

  /** The pool handed to the pairing: unchanged when even, the bye appended when odd. */
  function EvenPool(pool: seq<Pairable>): (r: seq<Pairable>)
    ensures |r| % 2 == 0
    ensures |pool| % 2 == 0 ==> r == pool
    ensures |pool| % 2 != 0 ==> r == pool + [Bye]
  {
    if |pool| % 2 == 0 then pool else pool + [Bye]
  }

  /** An odd pool that already holds the bye gets it a second time, so the solver's graph would need a loop edge. */
  lemma EvenPoolRepeatsBye(pool: seq<Pairable>)
    requires |pool| % 2 != 0 && Bye in pool
    ensures Solver.HasRepeat(EvenPool(pool))
  {
    var r := EvenPool(pool);
    var i :| 0 <= i < |pool| && pool[i] == Bye;
    assert r[i] == Bye && r[|r| - 1] == Bye;
  }

  /** `associateBy { it.id }`: games keyed by id, a later game winning over an earlier one of the same id. */
  function AssociateById(newGames: seq<Game>): (r: map<int, Game>)
    ensures r.Keys == set g | g in newGames :: g.id
    ensures forall k :: k in r ==> r[k].id == k && r[k] in newGames
    decreases |newGames|
  {
    if newGames == [] then map[]
    else
      var front := newGames[..|newGames| - 1];
      var g := newGames[|newGames| - 1];
      assert newGames == front + [g];
      AssociateById(front)[g.id := g]
  }

  /** With distinct game ids, every new game is found under its own id. */
  lemma {:induction false} AssociateByIdFinds(newGames: seq<Game>, i: int)
    requires forall a, b :: 0 <= a < b < |newGames| ==> newGames[a].id != newGames[b].id
    requires 0 <= i < |newGames|
    ensures newGames[i].id in AssociateById(newGames) && AssociateById(newGames)[newGames[i].id] == newGames[i]
    decreases |newGames|
  {
    if i < |newGames| - 1 {
      AssociateByIdFinds(newGames[..|newGames| - 1], i);
    }
  }

  /** The rounds after a successful pairing of `round`: a new empty round appended when needed, then the new games merged into it. */
  function CommitRound(games: seq<map<int, Game>>, round: int, newGames: seq<Game>): (after: seq<map<int, Game>>)
    requires 1 <= round <= |games| + 1
    ensures |after| == (if |games| < round then |games| + 1 else |games|)
    ensures |after| >= round
    ensures forall r :: 0 <= r < |games| && r != round - 1 ==> after[r] == games[r]
    ensures after[round - 1].Keys == (if round <= |games| then games[round - 1].Keys else {}) + (set g | g in newGames :: g.id)
    ensures forall k :: k in after[round - 1] && k !in AssociateById(newGames) ==> round <= |games| && after[round - 1][k] == games[round - 1][k]
    ensures forall k :: k in AssociateById(newGames) ==> after[round - 1][k] == AssociateById(newGames)[k]
  {
    var grown := if |games| < round then games + [map[]] else games;
    grown[round - 1 := grown[round - 1] + AssociateById(newGames)]
  }

  /** With distinct game ids, every new game ends up in its round under its id. */
  lemma CommitRoundStoresGames(games: seq<map<int, Game>>, round: int, newGames: seq<Game>, i: int)
    requires 1 <= round <= |games| + 1
    requires forall a, b :: 0 <= a < b < |newGames| ==> newGames[a].id != newGames[b].id
    requires 0 <= i < |newGames|
    ensures newGames[i].id in CommitRound(games, round, newGames)[round - 1]
    ensures CommitRound(games, round, newGames)[round - 1][newGames[i].id] == newGames[i]
  {
    AssociateByIdFinds(newGames, i);
  }

  const PREVIOUS_ROUND_NOT_PAIRED := "previous round not paired"
  const TOO_MANY_ROUNDS := "too many rounds"
  const INVALID_ROUND := "invalid round"
  const ROUND_INDEX_OUT_OF_BOUNDS := "round index out of bounds"

  /** The pairing of the tournament, given the rounds played so far, the round and the (even) pool. */
  type Solve = (seq<map<int, Game>>, int, seq<Pairable>) -> Result<seq<Game>>

  /** The outcome of `pair`, and the rounds it leaves behind. */
  function PairOutcome(games: seq<map<int, Game>>, rounds: int, round: int, pool: seq<Pairable>, solve: Solve): (r: (Result<seq<Game>>, seq<map<int, Game>>))
    ensures r.0.Err? ==> r.1 == games
    ensures round > |games| + 1 ==> r.0 == Err(PREVIOUS_ROUND_NOT_PAIRED)
    ensures round <= |games| + 1 && round > rounds ==> r.0 == Err(TOO_MANY_ROUNDS)
    ensures round < 1 && round <= rounds ==> r.0.Err?
    ensures 1 <= round <= |games| + 1 && round <= rounds ==> r.0 == solve(games, round, EvenPool(pool))
    ensures r.0.Ok? ==> 1 <= round <= |games| + 1 && r.1 == CommitRound(games, round, r.0.value)
  {
    if round > |games| + 1 then (Err(PREVIOUS_ROUND_NOT_PAIRED), games)
    else if round > rounds then (Err(TOO_MANY_ROUNDS), games)
    else
      var result := solve(games, round, EvenPool(pool));
      if result.Err? then (result, games)
      else if round < 1 then (Err(ROUND_INDEX_OUT_OF_BOUNDS), games)
      else (result, CommitRound(games, round, result.value))
  }

  /** The outcome of `games(round)`, and the rounds it leaves behind. */
  function GamesOutcome(games: seq<map<int, Game>>, round: int): (r: (Result<map<int, Game>>, seq<map<int, Game>>))
    ensures 1 <= round <= |games| ==> r == (Ok(games[round - 1]), games)
    ensures round > |games| + 1 ==> r == (Err(INVALID_ROUND), games)
    ensures (round == |games| + 1 || round < 1) ==> r == (Ok(map[]), games + [map[]])
  {
    if 1 <= round <= |games| then (Ok(games[round - 1]), games)
    else if round > |games| + 1 then (Err(INVALID_ROUND), games)
    else (Ok(map[]), games + [map[]])
  }

  // ---------------------------------------------------------------------------
  // Teams

  const MISSING_PLAYERS := "missing players"
  const INVALID_PLAYERS := "invalid players array"

  /** `teamFromJson`: id else default else fresh, name else default else failure, then the (required) array of member ids. */
  function TeamOf(json: JsonObject, default: Option<Pairable>, freshId: int): (r: Result<Pairable>)
    ensures r.Ok? <==>
      && OrElse(GetString(json, "name"), Dflt(default, (p: Pairable) => p.name)).Some?
      && GetArray(json, "players").Some?
      && AllNumbers(GetArray(json, "players").value)
    ensures OrElse(GetString(json, "name"), Dflt(default, (p: Pairable) => p.name)).None? ==> r == Err("missing name")
    ensures OrElse(GetString(json, "name"), Dflt(default, (p: Pairable) => p.name)).Some? && GetArray(json, "players").None? ==> r == Err(MISSING_PLAYERS)
    ensures r.Err? && r.error != "missing name" && r.error != MISSING_PLAYERS ==> r.error == INVALID_PLAYERS
    ensures r.Ok? ==>
      && r.value.id == OrElse(GetInt(json, "id"), Dflt(default, (p: Pairable) => p.id)).GetOr(freshId)
      && Some(r.value.name) == OrElse(GetString(json, "name"), Dflt(default, (p: Pairable) => p.name))
      && r.value.rating == 0 && r.value.rank == 0 && r.value.skip == []
      && r.value.kind.TeamKind?
      && NoDup(r.value.kind.playerIds)
      && (forall x :: x in r.value.kind.playerIds <==> exists i :: 0 <= i < |GetArray(json, "players").value| && ToInt(GetArray(json, "players").value[i]) == x)
  {
    var id := OrElse(GetInt(json, "id"), Dflt(default, (p: Pairable) => p.id)).GetOr(freshId);
    var name :- Required(GetString(json, "name"), Dflt(default, (p: Pairable) => p.name), "name");
    var arr := GetArray(json, "players");
    if arr.None? then Err(MISSING_PLAYERS)
    else
      var ids :- IdsOf(arr.value, INVALID_PLAYERS);
      IdsOfElements(arr.value, INVALID_PLAYERS);
      Ok(Pairable(id, name, 0, 0, [], TeamKind(ids)))
  }

  /** A team written to JSON reads back as itself. */
  lemma TeamJsonRoundTrip(team: Pairable, default: Option<Pairable>, freshId: int)
    requires team.kind.TeamKind? && NoDup(team.kind.playerIds)
    requires team.rating == 0 && team.rank == 0 && team.skip == []
    ensures TeamOf(JsonOf(team).value, default, freshId) == Ok(team)
  {
    var json := JsonOf(team).value;
    var ids := team.kind.playerIds;
    assert GetArray(json, "players") == Some(IntsJson(ids));
    IntsJsonIds(ids);
    DedupOfNoDup(ids);
  }

  lemma IntsJsonIds(ids: seq<int>)
    ensures AllNumbers(IntsJson(ids)) && ToInts(IntsJson(ids)) == ids
  {
  }

  // ---------------------------------------------------------------------------
  // The tournament

  class Tournament {
    const config: TournamentConfig
    /** A tournament is one of teams unless its type has a single player per side. */
    const isTeam: bool
    const criteria: seq<Criterion>
    var pairables: map<int, Pairable>
    /** The rounds: round r's games, by id, at index r - 1. */
    var games: seq<map<int, Game>>

    constructor (config: TournamentConfig)
      ensures this.config == config
      ensures isTeam == (config.tournamentType.PlayersNumber() != 1)
      ensures criteria == Criteria(config.pairing.pairingType)
      ensures pairables == map[] && games == []
    {
      this.config := config;
      isTeam := config.tournamentType.PlayersNumber() != 1;
      criteria := Criteria(config.pairing.pairingType);
      pairables := map[];
      games := [];
    }

    /** `lastRound()`: the number of rounds stored. */
    function LastRound(): (r: nat)
      reads this
      ensures r == |games|
    {
      |games|
    }

    /**
     * `pair(round, pool)`: checks the round, pads an odd pool with the bye, asks
     * the pairing for the games and stores them in the round.
     */
    method Pair(round: int, pool: seq<Pairable>, solve: Solve) returns (r: Result<seq<Game>>)
      modifies this`games
      ensures (r, games) == PairOutcome(old(games), config.rounds, round, pool, solve)
    {
      if round > |games| + 1 {
        return Err(PREVIOUS_ROUND_NOT_PAIRED);
      }
      if round > config.rounds {
        return Err(TOO_MANY_ROUNDS);
      }
      var evenPool := if |pool| % 2 == 0 then pool else pool + [Bye];
      r := solve(games, round, evenPool);
      if r.Err? {
        return;
      }
      if round < 1 {
        return Err(ROUND_INDEX_OUT_OF_BOUNDS);
      }
      if |games| < round {
        games := games + [map[]];
      }
      games := games[round - 1 := games[round - 1] + AssociateById(r.value)];
    }

    /** `games(round)`: the games of a stored round; the next round is created empty when asked for. */
    method Games(round: int) returns (r: Result<map<int, Game>>)
      modifies this`games
      ensures (r, games) == GamesOutcome(old(games), round)
    {
      if 1 <= round <= |games| {
        return Ok(games[round - 1]);
      }
      if round > |games| + 1 {
        return Err(INVALID_ROUND);
      }
      var created: map<int, Game> := map[];
      games := games + [created];
      r := Ok(created);
    }

    /** `teamFromJson`, available in team tournaments; it leaves the tournament alone. */
    method TeamFromJson(json: JsonObject, default: Option<Pairable>, freshId: int) returns (r: Result<Pairable>)
      requires isTeam
      ensures r == TeamOf(json, default, freshId)
    {
      var id := OrElse(GetInt(json, "id"), Dflt(default, (p: Pairable) => p.id)).GetOr(freshId);
      var name :- Required(GetString(json, "name"), Dflt(default, (p: Pairable) => p.name), "name");
      var arr := GetArray(json, "players");
      if arr.None? {
        return Err(MISSING_PLAYERS);
      }
      var ids :- CollectIds(arr.value, INVALID_PLAYERS);
      r := Ok(Pairable(id, name, 0, 0, [], TeamKind(ids)));
    }
  }

  /** `Tournament.fromJson`: a new tournament of the decoded configuration, or the decoding failure. */
  method FromJson(json: JsonObject, default: Option<TournamentConfig>, freshId: int, codecs: Codecs) returns (r: Result<Tournament>)
    ensures r.Err? <==> ConfigOf(json, default, freshId, codecs).Err?
    ensures r.Err? ==> r.error == ConfigOf(json, default, freshId, codecs).error
    ensures r.Ok? ==>
      && fresh(r.value)
      && r.value.config == ConfigOf(json, default, freshId, codecs).value
      && r.value.pairables == map[] && r.value.games == []
      && r.value.isTeam == (r.value.config.tournamentType.PlayersNumber() != 1)
      && r.value.criteria == Criteria(r.value.config.pairing.pairingType)
  {
    var config :- ConfigOf(json, default, freshId, codecs);
    var t := new Tournament(config);
    r := Ok(t);
  }
}
