/**
 * The earlier tournament of the web application: a configuration without a
 * number of rounds, the same criteria, and a `pair` that checks the round and
 * pads the pool but stores nothing.
 */
module WebappTournament {
  import opened Wrappers
  import opened Json
  import opened Games
  import opened Pairables
  import opened Tournaments

  datatype LegacyConfig = LegacyConfig(
    id: int,
    tournamentType: TournamentType,
    name: string,
    shortName: string,
    startDate: Date,
    endDate: Date,
    country: string,
    location: string,
    online: bool,
    komi: real,
    rules: Rules,
    gobanSize: int,
    timeSystem: TimeSystem,
    pairing: Pairing)

  function FromLegacy<T>(default: Option<LegacyConfig>, f: LegacyConfig -> T): Option<T> {
    if default.Some? then Some(f(default.value)) else None
  }

  /** `Tournament.fromJson`, the fields in the order of the constructor call. */
  function LegacyConfigOf(json: JsonObject, default: Option<LegacyConfig>, freshId: int, codecs: Codecs): (r: Result<LegacyConfig>)
    ensures r.Ok? <==> LegacyConfigDecodable(json, default, codecs)
  {
    var id := OrElse(GetInt(json, "id"), FromLegacy(default, (d: LegacyConfig) => d.id)).GetOr(freshId);
    var tournamentType :- TypeOf(json, FromLegacy(default, (d: LegacyConfig) => d.tournamentType));
    var name :- Required(GetString(json, "name"), FromLegacy(default, (d: LegacyConfig) => d.name), "name");
    var shortName :- Required(GetString(json, "shortName"), FromLegacy(default, (d: LegacyConfig) => d.shortName), "shortName");
    var startDate :- DateOf(json, "startDate", codecs, FromLegacy(default, (d: LegacyConfig) => d.startDate));
    var endDate :- DateOf(json, "endDate", codecs, FromLegacy(default, (d: LegacyConfig) => d.endDate));
    var country :- Required(GetString(json, "country"), FromLegacy(default, (d: LegacyConfig) => d.country), "country");
    var location :- Required(GetString(json, "location"), FromLegacy(default, (d: LegacyConfig) => d.location), "location");
    var online := OrElse(GetBool(json, "online"), FromLegacy(default, (d: LegacyConfig) => d.online)).GetOr(false);
    var komi := OrElse(GetDouble(json, "komi"), FromLegacy(default, (d: LegacyConfig) => d.komi)).GetOr(7.5);
    var rules :- RulesOf(json, FromLegacy(default, (d: LegacyConfig) => d.rules), codecs);
    var gobanSize := OrElse(GetInt(json, "gobanSize"), FromLegacy(default, (d: LegacyConfig) => d.gobanSize)).GetOr(19);
    var timeSystem :- DecodedOf(json, "timeSystem", codecs.timeSystemFromJson, FromLegacy(default, (d: LegacyConfig) => d.timeSystem));
    var pairing :- DecodedOf(json, "pairing", codecs.pairingFromJson, FromLegacy(default, (d: LegacyConfig) => d.pairing));
    Ok(LegacyConfig(id, tournamentType, name, shortName, startDate, endDate, country, location,
                    online, komi, rules, gobanSize, timeSystem, pairing))
  }

  /** The type and every required string are available, and the dates, rules, time system and pairing decode. */
  predicate LegacyConfigDecodable(json: JsonObject, default: Option<LegacyConfig>, codecs: Codecs) {
    && TypeOf(json, FromLegacy(default, (d: LegacyConfig) => d.tournamentType)).Ok?
    && OrElse(GetString(json, "name"), FromLegacy(default, (d: LegacyConfig) => d.name)).Some?
    && OrElse(GetString(json, "shortName"), FromLegacy(default, (d: LegacyConfig) => d.shortName)).Some?
    && DateOf(json, "startDate", codecs, FromLegacy(default, (d: LegacyConfig) => d.startDate)).Ok?
    && DateOf(json, "endDate", codecs, FromLegacy(default, (d: LegacyConfig) => d.endDate)).Ok?
    && OrElse(GetString(json, "country"), FromLegacy(default, (d: LegacyConfig) => d.country)).Some?
    && OrElse(GetString(json, "location"), FromLegacy(default, (d: LegacyConfig) => d.location)).Some?
    && RulesOf(json, FromLegacy(default, (d: LegacyConfig) => d.rules), codecs).Ok?
    && DecodedOf(json, "timeSystem", codecs.timeSystemFromJson, FromLegacy(default, (d: LegacyConfig) => d.timeSystem)).Ok?
    && DecodedOf(json, "pairing", codecs.pairingFromJson, FromLegacy(default, (d: LegacyConfig) => d.pairing)).Ok?
  }

  /** Each required field from the JSON, else the default; the id else a fresh one; the optional ones else false, 7.5, FRENCH and 19. */
  lemma LegacyConfigFields(json: JsonObject, default: Option<LegacyConfig>, freshId: int, codecs: Codecs)
    requires LegacyConfigOf(json, default, freshId, codecs).Ok?
    ensures var c := LegacyConfigOf(json, default, freshId, codecs).value;
      && c.id == OrElse(GetInt(json, "id"), FromLegacy(default, (d: LegacyConfig) => d.id)).GetOr(freshId)
      && c.tournamentType == TypeOf(json, FromLegacy(default, (d: LegacyConfig) => d.tournamentType)).value
      && Some(c.name) == OrElse(GetString(json, "name"), FromLegacy(default, (d: LegacyConfig) => d.name))
      && Some(c.shortName) == OrElse(GetString(json, "shortName"), FromLegacy(default, (d: LegacyConfig) => d.shortName))
      && c.startDate == DateOf(json, "startDate", codecs, FromLegacy(default, (d: LegacyConfig) => d.startDate)).value
      && c.endDate == DateOf(json, "endDate", codecs, FromLegacy(default, (d: LegacyConfig) => d.endDate)).value
      && Some(c.country) == OrElse(GetString(json, "country"), FromLegacy(default, (d: LegacyConfig) => d.country))
      && Some(c.location) == OrElse(GetString(json, "location"), FromLegacy(default, (d: LegacyConfig) => d.location))
      && c.online == (if GetBool(json, "online").Some? then GetBool(json, "online").value else if default.Some? then default.value.online else false)
      && c.komi == (if GetDouble(json, "komi").Some? then GetDouble(json, "komi").value else if default.Some? then default.value.komi else 7.5)
      && c.gobanSize == (if GetInt(json, "gobanSize").Some? then GetInt(json, "gobanSize").value else if default.Some? then default.value.gobanSize else 19)
      && c.rules == RulesOf(json, FromLegacy(default, (d: LegacyConfig) => d.rules), codecs).value
      && (GetString(json, "rules").None? ==> c.rules == if default.Some? then default.value.rules else FRENCH)
      && c.timeSystem == DecodedOf(json, "timeSystem", codecs.timeSystemFromJson, FromLegacy(default, (d: LegacyConfig) => d.timeSystem)).value
      && c.pairing == DecodedOf(json, "pairing", codecs.pairingFromJson, FromLegacy(default, (d: LegacyConfig) => d.pairing)).value
  {
  }

  /** Without a default, a missing field is reported by name; the first one missing wins. */
  lemma LegacyConfigMissingFields(json: JsonObject, freshId: int, codecs: Codecs)
    ensures GetString(json, "type").None? ==> LegacyConfigOf(json, None, freshId, codecs) == Err("missing type")
    ensures TypeOf(json, None).Ok? && GetString(json, "name").None? ==> LegacyConfigOf(json, None, freshId, codecs) == Err("missing name")
    ensures TypeOf(json, None).Ok? && GetString(json, "name").Some? && GetString(json, "shortName").None? ==>
      LegacyConfigOf(json, None, freshId, codecs) == Err("missing shortName")
  {
  }

  class LegacyTournament {
    const config: LegacyConfig
    const criteria: seq<Criterion>
    var pairables: map<int, Pairable>
    var games: seq<map<int, Game>>

    constructor (config: LegacyConfig)
      ensures this.config == config && criteria == Criteria(config.pairing.pairingType)
      ensures pairables == map[] && games == []
    {
      this.config := config;
      criteria := Criteria(config.pairing.pairingType);
      pairables := map[];
      games := [];
    }

    /** `pair(round, pool)`: only the round check and the bye padding; the games are returned, not stored, and no round is too many. */
    method Pair(round: int, pool: seq<Pairable>, solve: Solve) returns (r: Result<seq<Game>>)
      ensures round > |games| + 1 ==> r == Err(PREVIOUS_ROUND_NOT_PAIRED)
      ensures round <= |games| + 1 ==> r == solve(games, round, EvenPool(pool))
    {
      if round > |games| + 1 {
        return Err(PREVIOUS_ROUND_NOT_PAIRED);
      }
      var evenPool := pool;
      if |pool| % 2 != 0 {
        evenPool := evenPool + [Bye];
      }
      r := solve(games, round, evenPool);
    }
  }

  /** `Tournament.fromJson`: a new tournament of the decoded configuration, or the decoding failure. */
  method LegacyFromJson(json: JsonObject, default: Option<LegacyConfig>, freshId: int, codecs: Codecs) returns (r: Result<LegacyTournament>)
    ensures r.Err? <==> LegacyConfigOf(json, default, freshId, codecs).Err?
    ensures r.Err? ==> r.error == LegacyConfigOf(json, default, freshId, codecs).error
    ensures r.Ok? ==>
      && fresh(r.value)
      && r.value.config == LegacyConfigOf(json, default, freshId, codecs).value
      && r.value.pairables == map[] && r.value.games == []
      && r.value.criteria == Criteria(r.value.config.pairing.pairingType)
  {
    var config :- LegacyConfigOf(json, default, freshId, codecs);
    var t := new LegacyTournament(config);
    r := Ok(t);
  }
}
