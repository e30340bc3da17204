# Pairgoth core, modelled in Dafny

Pairgoth runs go tournaments. Its core has five parts:

- the **pairables**: players, teams and the bye player. This includes their rank
  notation ("5k", "3d") and their JSON form.
- the **pairing solver**. From the game history it computes each pairable's
  statistics: score, colour balance, SOS, SOSOS, SODOS, and whether two pairables
  already played. It sorts the pool and gives each pairable its place and its
  place within its score group. It builds the complete directed graph of
  pairing weights and turns a matching of that graph into the games of the round.
- the **McMahon solver**: the McMahon base and score of a pairable, the
  pseudo-rank, the main score limits and the placement criteria.
- the **tournament**. This covers decoding its configuration from JSON
  (type, id, name, dates, rules, time system, rounds and pairing, with defaults),
  pairing a round and recording its games, the games of a round, and decoding a team.
  An older variant of the same class without a round limit (webapp) is modelled
  too.
- the **in-memory store** of tournaments and the **login servlet**'s checks
  (media type, JSON payload, sesame authentication).

Each core file becomes one module:

| module | file |
|---|---|
| `Pairables` | `pairable.dfy` |
| `Solver` | `solver.dfy` |
| `MacMahon` | `macmahon.dfy` |
| `Tournaments` | `tournament.dfy` |
| `WebappTournament` | `webapp_tournament.dfy` |
| `MemoryStore` | `memory_store.dfy` |
| `Login` | `login.dfy` |

The values they share live in small supporting modules:

- **`Wrappers`**: `Option`, `Result` and `Outcome`. Kotlin's `?:` chains become `OrElse`. A thrown error becomes an `Err`/`Fail`. It carries the source's message where the source writes one; the few JVM exceptions that have no message in the source get a message of the model's own, listed under "Left out".
- **`Json`**: the JSON objects the kson library hands the code, with its typed getters. kson is not part of this model. How its getters behave is an assumption about that library: here a string getter gives nothing for a number, and a double getter accepts an integer.
- **`Text`**: decimal strings.
- **`Games`**: the game record.

Pairables are values (a datatype). The tournament, the store and the legacy
tournament are classes whose methods update their fields. The statistics,
which the source computes once and caches lazily, are pure functions of the history.
Each of these functions is proved equal to an independent counting definition.

Collaborators the core only calls are parameters of the model:

- the matching algorithm, as a function from the edge list to the chosen edges;
- the weight and sort functions;
- the decoders for time systems, pairings and rules;
- the rounding of scores and the base solver's criteria;
- the next free id.

Where the code differs from what its documentation says, the model follows the code:

- The rank pattern is matched ignoring case in Unicode. So the Kelvin sign
  U+212A is accepted as a kyu letter. It is then bounded like a dan letter: the
  check that exempts `k`/`K` from the limit of 9 compares the letter before
  lower-casing it.
- `pair` with a round below 1 passes both round checks. It calls the pairing and
  only then fails, indexing `games[round - 1]`.
- `games(round)` with a round of 0 or below finds no games. It appends a new empty round and returns it.
- The graph loop iterates over the indices of the sorted list, but it reads the
  unsorted `pairables[i]`. So the edges follow the input order, and the
  comparator does not affect them.

## Model

| member | source | states |
|---|---|---|
| Wrappers.OrElse | api-webapp/src/main/kotlin/org/jeudego/pairgoth/model/Pairable.kt:94-100 | `a ?: b` is present iff either side is. It is the first side when that is present, and the second side otherwise |
| Text.NatToString | api-webapp/src/main/kotlin/org/jeudego/pairgoth/model/Pairable.kt:37 | the decimal form of a natural is a non-empty digit string without a leading zero |
| Text.IntToString | api-webapp/src/main/kotlin/org/jeudego/pairgoth/store/MemoryStore.kt:12 | an integer's decimal form starts with '-' exactly when it is negative. It is the natural's digits for a non-negative value, and '-' followed by the digits of the magnitude for a negative one |
| Text.DigitsValueOfNatToString | api-webapp/src/main/kotlin/org/jeudego/pairgoth/model/Pairable.kt:44 | reading back the decimal digits of n with `toInt` gives n |
| Text.LeadingZeroValue | api-webapp/src/main/kotlin/org/jeudego/pairgoth/model/Pairable.kt:44 | a leading zero does not change the value `toInt` reads |
| Json.ToInt | api-webapp/src/main/kotlin/org/jeudego/pairgoth/model/Pairable.kt:104 | `Number.toInt()` keeps an integer and truncates a real toward zero: a non-negative real to the greatest integer not above it, a negative one to the least integer not below it |
| Json.IntsJson | api-webapp/src/main/kotlin/org/jeudego/pairgoth/model/Pairable.kt:83 | `Json.Array(ids)` holds one JSON integer per id, in order |
| Json.Dedup | api-webapp/src/main/kotlin/org/jeudego/pairgoth/model/Pairable.kt:21 | adding to a mutable set keeps exactly the distinct elements, without duplicates |
| Json.DedupOfNoDup | api-webapp/src/main/kotlin/org/jeudego/pairgoth/model/Pairable.kt:104 | a list without duplicates goes into the set unchanged, in insertion order |
| Json.ToInts | api-webapp/src/main/kotlin/org/jeudego/pairgoth/model/Pairable.kt:104 | mapping `toInt` over an all-number array converts element by element |
| Json.IdsOf | api-webapp/src/main/kotlin/org/jeudego/pairgoth/model/Pairable.kt:103-104 | an id array is accepted iff every element is a number. Otherwise it fails with the caller's message. The ids are free of duplicates |
| Json.IdsOfElements | api-webapp/src/main/kotlin/org/jeudego/pairgoth/model/Tournament.kt:143-147 | the accepted id set holds exactly the converted elements of the array |
| Json.CollectIds | api-webapp/src/main/kotlin/org/jeudego/pairgoth/model/Tournament.kt:143-147 | the element-by-element loop that fills the id set gives the same result as `IdsOf` |
| Pairables.Wrap32 | api-webapp/src/main/kotlin/org/jeudego/pairgoth/model/Pairable.kt:37 | 32-bit wrap-around yields an Int congruent to the input modulo 2^32, and leaves Int values unchanged |
| Pairables.Key | api-webapp/src/main/kotlin/org/jeudego/pairgoth/model/Pairable.kt:55-60 | a database id's key is one of the lower-case keys "aga", "egf", "ffg" |
| Pairables.KeyDb | api-webapp/src/main/kotlin/org/jeudego/pairgoth/model/Pairable.kt:55-60 | each lower-case key names the database whose key it is |
| Pairables.Equals | api-webapp/src/main/kotlin/org/jeudego/pairgoth/model/Pairable.kt:23-25 | two pairables are equal iff their ids are |
| Pairables.EqualsIsEquivalence | api-webapp/src/main/kotlin/org/jeudego/pairgoth/model/Pairable.kt:23-25 | `equals` is reflexive, symmetric and transitive, and looks only at the id |
| Pairables.ByeEqualsIdZero | api-webapp/src/main/kotlin/org/jeudego/pairgoth/model/Pairable.kt:28-35 | the bye player equals exactly the pairables of id 0. Its rank Int.MIN_VALUE lies below MIN_RANK |
| Pairables.DisplayRank | api-webapp/src/main/kotlin/org/jeudego/pairgoth/model/Pairable.kt:37 | a displayed rank ends in 'k' for negative ranks and in 'd' otherwise |
| Pairables.ParseRank | api-webapp/src/main/kotlin/org/jeudego/pairgoth/model/Pairable.kt:40-51 | a rank is accepted only in digits-then-letter notation. A notation is accepted iff its number fits in an Int and either its letter is an ASCII k/K or its number is at most 9. A kyu letter gives minus the number, and a dan letter the number minus 1, leading zeros allowed. Every accepted rank is at most 8 (9d). A number beyond Int.MAX_VALUE fails with the `toInt` message, and every other refusal with "invalid rank: " and the input |
| Pairables.KyuNotation | api-webapp/src/main/kotlin/org/jeudego/pairgoth/model/Pairable.kt:42-51 | "nk" and "nK" parse to -n for every n up to Int.MAX_VALUE, with no rank bound. Beyond that they fail in `toInt` |
| Pairables.DanNotation | api-webapp/src/main/kotlin/org/jeudego/pairgoth/model/Pairable.kt:42-51 | "nd" parses to n-1 when n ≤ 9. It is refused with "invalid rank" up to Int.MAX_VALUE, and fails in `toInt` beyond |
| Pairables.ParseDisplayRoundTrip | api-webapp/src/main/kotlin/org/jeudego/pairgoth/model/Pairable.kt:37-51 | parsing the displayed rank gives back the rank, for every Int rank above Int.MIN_VALUE up to 8 (9d) |
| Pairables.DisplayAboveNineDanUnparseable | api-webapp/src/main/kotlin/org/jeudego/pairgoth/model/Pairable.kt:37-51 | a rank of 9 or more displays as 10d or above, which `parseRank` refuses |
| Pairables.ByeRankDisplay | api-webapp/src/main/kotlin/org/jeudego/pairgoth/model/Pairable.kt:28-37 | the bye rank displays as "-2147483648k" because its negation wraps around. Parsing that string fails |
| Pairables.ParseRankSamples | api-webapp/src/main/kotlin/org/jeudego/pairgoth/model/Pairable.kt:40-51 | concrete notations: 0k, 1d, 9d, 0d, 10K and the Kelvin sign accepted; 10d, 10D, missing parts, signs and spaces refused |
| Pairables.ParseRankLeadingZeros | api-webapp/src/main/kotlin/org/jeudego/pairgoth/model/Pairable.kt:40-51 | an upper-case D reads like d, and leading zeros do not change the number: "5D" and "05d" are 4, "007k" is -7 |
| Pairables.Required | api-webapp/src/main/kotlin/org/jeudego/pairgoth/model/Pairable.kt:95-100 | `json ?: default ?: badRequest("missing field")`: succeeds iff either value is present, with the first present one, else fails with "missing " and the field |
| Pairables.NewPlayer | api-webapp/src/main/kotlin/org/jeudego/pairgoth/model/Pairable.kt:93-100 | the `Player(...)` call succeeds iff every required field comes from the JSON or the default, with "missing name" first. Each field comes from the JSON, else the default, and the id falls back to a fresh one. The new player has no skip entries and no external ids |
| Pairables.SkipOf | api-webapp/src/main/kotlin/org/jeudego/pairgoth/model/Pairable.kt:102-105 | an absent skip array gives no rounds. A present one is accepted iff every entry is a number, and then gives exactly the set of those numbers, each once |
| Pairables.ExternalIdsOf | api-webapp/src/main/kotlin/org/jeudego/pairgoth/model/Pairable.kt:106-110 | a database has an external id iff the JSON holds a string under its key, and the id is that string |
| Pairables.PlayerOf | api-webapp/src/main/kotlin/org/jeudego/pairgoth/model/Pairable.kt:93-111 | `Player.fromJson` succeeds iff every required field comes from the JSON or the default and the skip array holds only numbers. Each field comes from the JSON, else the default. The id falls back to a fresh one. "missing name" is reported first. The skip set is the decoded "skip" array of the JSON (never the default's), free of duplicates. The external ids are exactly the database keys present in the JSON |
| Pairables.PlayerFromJson | api-webapp/src/main/kotlin/org/jeudego/pairgoth/model/Pairable.kt:93-111 | the step-by-step construction (clear skip, add the array, loop over the databases) gives exactly `PlayerOf` |
| Pairables.CollectExternalIds | api-webapp/src/main/kotlin/org/jeudego/pairgoth/model/Pairable.kt:106-110 | the loop over `DatabaseId.values()` records exactly the database ids whose key holds a string in the JSON |
| Pairables.JsonOf | api-webapp/src/main/kotlin/org/jeudego/pairgoth/model/Pairable.kt:29-31 | serialising fails exactly for the bye player, with its message. A player's document has "skip" iff its skip set is non-empty |
| Pairables.AddExternalIds | api-webapp/src/main/kotlin/org/jeudego/pairgoth/model/Pairable.kt:84-86 | the loop over the external ids adds exactly one key per database id to the document |
| Pairables.ToJson | api-webapp/src/main/kotlin/org/jeudego/pairgoth/model/Pairable.kt:74-87 | `Player.toJson`, built field by field, then skip, then the external ids, equals `JsonOf` |
| Pairables.ExternalIdsJsonStep | api-webapp/src/main/kotlin/org/jeudego/pairgoth/model/Pairable.kt:84-86 | one iteration of the external-id loop extends the written part by that database |
| Pairables.ExternalIdsJsonEmpty | api-webapp/src/main/kotlin/org/jeudego/pairgoth/model/Pairable.kt:84-86 | before the external-id loop runs, nothing has been written |
| Pairables.KeySetsDisjoint | api-webapp/src/main/kotlin/org/jeudego/pairgoth/model/Pairable.kt:74-86 | the fixed field keys, "skip" and the database keys are pairwise distinct, so no write of `toJson` overwrites another |
| Pairables.PlayerJsonParts | api-webapp/src/main/kotlin/org/jeudego/pairgoth/model/Pairable.kt:74-87 | each key of a player document comes from its one part: fixed fields, skip, or one external id per database the player has |
| Pairables.PlayerFieldLookup | api-webapp/src/main/kotlin/org/jeudego/pairgoth/model/Pairable.kt:74-82 | each of the seven fixed keys of a player document holds the value written for it, untouched by the later writes |
| Pairables.PlayerJsonLookups | api-webapp/src/main/kotlin/org/jeudego/pairgoth/model/Pairable.kt:74-82 | the getters read back id, name, firstname, rating, rank, country and club from a player document |
| Pairables.PlayerJsonExtras | api-webapp/src/main/kotlin/org/jeudego/pairgoth/model/Pairable.kt:83-86 | a player document has a skip array iff the skip set is non-empty. It holds the external id under a database's key iff the player has one |
| Pairables.SkipRoundTrip | api-webapp/src/main/kotlin/org/jeudego/pairgoth/model/Pairable.kt:103-104 | a skip set written as an array reads back as the same set |
| Pairables.NewPlayerOfPlayerJson | api-webapp/src/main/kotlin/org/jeudego/pairgoth/model/Pairable.kt:93-100 | the constructor part of `fromJson` recovers the fixed fields of a written player, whatever the default |
| Pairables.ExternalIdsOfLookups | api-webapp/src/main/kotlin/org/jeudego/pairgoth/model/Pairable.kt:106-110 | the database loop of `fromJson` collects exactly the ids the document holds under the database keys |
| Pairables.ExternalIdsOfPlayerJson | api-webapp/src/main/kotlin/org/jeudego/pairgoth/model/Pairable.kt:106-110 | external ids written by `toJson` read back unchanged |
| Pairables.PlayerJsonRoundTrip | api-webapp/src/main/kotlin/org/jeudego/pairgoth/model/Pairable.kt:74-111 | `fromJson(toJson(p))` is p for every player, whatever the default and fresh id |
| Solver.SumForAppend | webapp/src/main/kotlin/org/jeudego/pairgoth/pairing/Solver.kt:88-94 | a key's total over two concatenated lists of entries is the sum of its totals over each |
| Solver.TallyLookup | webapp/src/main/kotlin/org/jeudego/pairgoth/pairing/Solver.kt:88-94 | `groupingBy { first }.fold(0) { acc + second }` looked up with `?: 0` is the sum of the key's entries |
| Solver.WinEntriesSum | webapp/src/main/kotlin/org/jeudego/pairgoth/pairing/Solver.kt:98-106 | the winner entries of the history total, for an id, its number of won games |
| Solver.Score | webapp/src/main/kotlin/org/jeudego/pairgoth/pairing/Solver.kt:96-106 | `score` is the number of games the pairable won, as black with a black win or as white with a white win, and is never negative |
| Solver.ColorEntriesSum | webapp/src/main/kotlin/org/jeudego/pairgoth/pairing/Solver.kt:88-94 | the ±1 colour entries total, for an id, its games as white minus its games as black |
| Solver.ColorBalance | webapp/src/main/kotlin/org/jeudego/pairgoth/pairing/Solver.kt:86-94 | `colorBalance` is the number of games as white minus the number as black |
| Solver.Played | webapp/src/main/kotlin/org/jeudego/pairgoth/pairing/Solver.kt:76-84 | two pairables played iff some game has them as black and white in either order |
| Solver.PlayedSymmetric | webapp/src/main/kotlin/org/jeudego/pairgoth/pairing/Solver.kt:76-84 | having played is symmetric |
| Solver.SideSums | webapp/src/main/kotlin/org/jeudego/pairgoth/pairing/Solver.kt:110-142 | the per-colour entry lists total the opponents' values, and the defeated opponents' values |
| Solver.OpponentSumBounds | webapp/src/main/kotlin/org/jeudego/pairgoth/pairing/Solver.kt:133-142 | with non-negative values, the defeated opponents' sum lies between 0 and the sum over all opponents |
| Solver.ScoreMapNonNegative | webapp/src/main/kotlin/org/jeudego/pairgoth/pairing/Solver.kt:98-106 | every score in the score map is non-negative |
| Solver.SosMapNonNegative | webapp/src/main/kotlin/org/jeudego/pairgoth/pairing/Solver.kt:108-118 | every SOS in the SOS map is non-negative |
| Solver.Sos | webapp/src/main/kotlin/org/jeudego/pairgoth/pairing/Solver.kt:108-118 | SOS is the sum of the scores of all opponents over all games, one term per game, and is non-negative |
| Solver.Sosos | webapp/src/main/kotlin/org/jeudego/pairgoth/pairing/Solver.kt:120-130 | SOSOS is the sum of the opponents' SOS, one term per game, and is non-negative |
| Solver.Sodos | webapp/src/main/kotlin/org/jeudego/pairgoth/pairing/Solver.kt:132-142 | SODOS is the sum of the scores of the opponents beaten, and lies between 0 and SOS |
| Solver.EmptyHistoryStatistics | webapp/src/main/kotlin/org/jeudego/pairgoth/pairing/Solver.kt:77-142 | with no history every statistic is 0 and nobody has played anybody |
| Solver.Insert | webapp/src/main/kotlin/org/jeudego/pairgoth/pairing/Solver.kt:52-54 | one step of the stable sort adds exactly one element |
| Solver.SortWith | webapp/src/main/kotlin/org/jeudego/pairgoth/pairing/Solver.kt:52-54 | `sortedWith` returns a permutation of the pool |
| Solver.InsertSorted | webapp/src/main/kotlin/org/jeudego/pairgoth/pairing/Solver.kt:52-54 | under a comparator that keeps the `Comparator` contract, inserting into a sorted list keeps it sorted |
| Solver.InsertEquivalents | webapp/src/main/kotlin/org/jeudego/pairgoth/pairing/Solver.kt:52-54 | inserting into a sorted list puts the new element after every element that compares equal to it |
| Solver.SortWithSorted | webapp/src/main/kotlin/org/jeudego/pairgoth/pairing/Solver.kt:52-54 | under a comparator that keeps the `Comparator` contract, the sorted pool is in comparator order: no later element compares below an earlier one |
| Solver.SortWithStable | webapp/src/main/kotlin/org/jeudego/pairgoth/pairing/Solver.kt:52-54 | the sort is stable: for every pivot, the elements that compare equal to it keep their order from the input |
| Solver.DefaultSort | webapp/src/main/kotlin/org/jeudego/pairgoth/pairing/Solver.kt:22 | the default sort finds every two pairables equal |
| Solver.DefaultSortIsComparator | webapp/src/main/kotlin/org/jeudego/pairgoth/pairing/Solver.kt:22 | the default sort meets the Comparator contract |
| Solver.SortWithNeutralIsIdentity | webapp/src/main/kotlin/org/jeudego/pairgoth/pairing/Solver.kt:52-54 | the stable sort leaves the pool in its order under the default comparator, which returns 0 |
| Solver.InsertNeutral | webapp/src/main/kotlin/org/jeudego/pairgoth/pairing/Solver.kt:52-54 | under a comparator that always returns 0, inserting appends (stability) |
| Solver.SameElementsSameIds | webapp/src/main/kotlin/org/jeudego/pairgoth/pairing/Solver.kt:52-54 | a permutation has the same pairables and the same ids |
| Solver.DistinctCons | webapp/src/main/kotlin/org/jeudego/pairgoth/pairing/Solver.kt:57-62 | ids in a list are distinct iff the tail's are and the head's id is new |
| Solver.InsertKeepsDistinct | webapp/src/main/kotlin/org/jeudego/pairgoth/pairing/Solver.kt:52-54 | inserting a pairable with a new id keeps ids distinct |
| Solver.SortKeepsDistinct | webapp/src/main/kotlin/org/jeudego/pairgoth/pairing/Solver.kt:52-54 | sorting keeps the ids distinct |
| Solver.IndexMapDomain | webapp/src/main/kotlin/org/jeudego/pairgoth/pairing/Solver.kt:58-62 | `mapIndexed { Pair(id, index) }.toMap()` has the list's ids as keys, and maps each to an index holding that id |
| Solver.IndexMapOfDistinct | webapp/src/main/kotlin/org/jeudego/pairgoth/pairing/Solver.kt:58-62 | with distinct ids, each pairable's id maps to its own index |
| Solver.PlaceOfMember | webapp/src/main/kotlin/org/jeudego/pairgoth/pairing/Solver.kt:57-62 | in a list with distinct ids, a member's place is defined, in range, and is the index that holds it |
| Solver.Place | webapp/src/main/kotlin/org/jeudego/pairgoth/pairing/Solver.kt:56-62 | `place` is defined exactly on the ids of the sorted list. It is an index of that list that holds the pairable's id |
| Solver.PlaceBijectionOn | webapp/src/main/kotlin/org/jeudego/pairgoth/pairing/Solver.kt:57-62 | on a list with distinct ids holding exactly the pool's members, `place` is defined and in range on the pool, injective, and index k holds a member of place k |
| Solver.PlaceIsBijection | webapp/src/main/kotlin/org/jeudego/pairgoth/pairing/Solver.kt:56-62 | for distinct ids and whatever the comparator, `place` maps the pool one-to-one onto 0..n-1: the sorted list is as long as the pool, and index k holds the pool member whose place is k |
| Solver.DefaultPlaceIsIndex | webapp/src/main/kotlin/org/jeudego/pairgoth/pairing/Solver.kt:56-62 | with the default comparator, a pairable's place is its index in the pool |
| Solver.GroupMembers | webapp/src/main/kotlin/org/jeudego/pairgoth/pairing/Solver.kt:67-69 | a score group holds exactly the pairables of the pool with that score |
| Solver.PlaceInGroup | webapp/src/main/kotlin/org/jeudego/pairgoth/pairing/Solver.kt:64-74 | `placeInGroup` is defined exactly on the pool's ids. It is (index, size), the size is that of the group of the pairable's score, the index lies below it, and the group holds the pairable's id at that index |
| Solver.GroupHoldsId | webapp/src/main/kotlin/org/jeudego/pairgoth/pairing/Solver.kt:66-74 | the group of a pairable's score holds its id exactly when the sorted pool does |
| Solver.RowEdgesFacts | webapp/src/main/kotlin/org/jeudego/pairgoth/pairing/Solver.kt:30-35 | one row of the inner loop adds both directed edges between i and every j > i, 2(n-i-1) edges |
| Solver.GraphEdgesFacts | webapp/src/main/kotlin/org/jeudego/pairgoth/pairing/Solver.kt:29-36 | after `lo` rows the graph has lo(2n-lo-1) edges: exactly both edges between each i < lo and each later j |
| Solver.BuildEdges | webapp/src/main/kotlin/org/jeudego/pairgoth/pairing/Solver.kt:28-37 | the nested loop fails, with the simple graph's message, iff two positions of the pool hold the same pairable. Otherwise it builds the complete directed graph: n(n-1) edges, both directions for every pair of indices, no loop edge, weighted by `weight(p, q)` |
| Solver.CompleteGraph | webapp/src/main/kotlin/org/jeudego/pairgoth/pairing/Solver.kt:29-36 | on a pool without a repeated pairable the graph has n(n-1) edges, holds both directions for every i < j, only edges between two different positions, and no edge from a pairable to itself |
| Solver.Pair | webapp/src/main/kotlin/org/jeudego/pairgoth/pairing/Solver.kt:25-45 | pairing fails iff the pool is odd or holds a pairable twice: the odd pool with its message, else the loop edge the simple graph refuses. Otherwise it is one new game per chosen edge of the matching of the complete graph, source as black |
| Solver.GamesOf | webapp/src/main/kotlin/org/jeudego/pairgoth/pairing/Solver.kt:41-43 | one game per chosen edge, in order, with increasing ids drawn from the first id on. Black is the edge's source, white its target, and no game has a result yet |
| Solver.MatchedGames | webapp/src/main/kotlin/org/jeudego/pairgoth/pairing/Solver.kt:41-43 | the games of a solution are one per edge, in order, with consecutive ids: black is the edge's source and white its target, both from the pool |
| Solver.ChosenEdgesJoinPool | webapp/src/main/kotlin/org/jeudego/pairgoth/pairing/Solver.kt:37-43 | every edge a matching picks from the graph joins two different pairables of the pool |
| Solver.GraphEdgeEnds | webapp/src/main/kotlin/org/jeudego/pairgoth/pairing/Solver.kt:29-36 | every edge of the graph joins two pool members of different ids |
| MacMahon.QuotTrunc | api-webapp/src/main/kotlin/org/jeudego/pairgoth/pairing/solver/MacMahonSolver.kt:28 | Int division truncating toward zero: the remainder has the dividend's sign and is smaller than the divisor |
| MacMahon.RoundToInt | api-webapp/src/main/kotlin/org/jeudego/pairgoth/pairing/solver/MacMahonSolver.kt:37 | `roundToInt` gives the integer within half a point, halves rounded up |
| MacMahon.RoundOfInteger | api-webapp/src/main/kotlin/org/jeudego/pairgoth/pairing/solver/MacMahonSolver.kt:37 | rounding an integral value gives it back |
| MacMahon.SosBase | api-webapp/src/main/kotlin/org/jeudego/pairgoth/pairing/solver/MacMahonSolver.kt:27-28 | the first score is the McMahon base when `sosValueAbsentUseBase`, else the round score of the base plus half the rounds, truncated |
| MacMahon.MmsScore | api-webapp/src/main/kotlin/org/jeudego/pairgoth/pairing/solver/MacMahonSolver.kt:23-25 | under a monotone round score, with no negative wins or absence value, the McMahon score is at least that of the floor's base |
| MacMahon.Scores | api-webapp/src/main/kotlin/org/jeudego/pairgoth/pairing/solver/MacMahonSolver.kt:18-33 | the score map fails iff the bar is not above the floor, with that message. Otherwise it has one entry per known pairable |
| MacMahon.Mms | api-webapp/src/main/kotlin/org/jeudego/pairgoth/pairing/solver/MacMahonSolver.kt:18-44 | reading the MMS fails exactly when the bar is not above the floor, with that message. A pairable of the map has the rounded sum of its McMahon base, its wins and its absent rounds times the absence value. An id the map does not know has MMS 0 |
| MacMahon.SosBaseOfKnownPairable | api-webapp/src/main/kotlin/org/jeudego/pairgoth/pairing/solver/MacMahonSolver.kt:26-30 | a known pairable's SOS base is the McMahon base itself when absences use the base. Otherwise it is the rounded base plus round/2, truncated |
| MacMahon.MmsMonotoneInWins | api-webapp/src/main/kotlin/org/jeudego/pairgoth/pairing/solver/MacMahonSolver.kt:23-25 | with equal bases and absences and a monotone rounding, more wins never lower the MMS |
| MacMahon.MmBase | api-webapp/src/main/kotlin/org/jeudego/pairgoth/pairing/solver/MacMahonSolver.kt:43 | the McMahon base is the rank plus 30 and the correction between floor and bar. Ranks at or below the floor get the floor's base, ranks at or above the bar (every rank when the floor is above the bar) the bar's. With floor ≤ bar the base lies between theirs |
| MacMahon.MmBaseMonotone | api-webapp/src/main/kotlin/org/jeudego/pairgoth/pairing/solver/MacMahonSolver.kt:43 | a higher rank never gives a lower McMahon base |
| MacMahon.PseudoRank | api-webapp/src/main/kotlin/org/jeudego/pairgoth/pairing/solver/MacMahonSolver.kt:35-41 | without MMS the pseudo-rank is the rank. With it, it fails exactly when the MMS does, and is otherwise within half a point of MMS − 30 |
| MacMahon.PseudoRankOfUnscored | api-webapp/src/main/kotlin/org/jeudego/pairgoth/pairing/solver/MacMahonSolver.kt:35-41 | a pairable without wins, absence or correction, scored with the identity, gets back its clamped rank |
| MacMahon.MainScoreMin | api-webapp/src/main/kotlin/org/jeudego/pairgoth/pairing/solver/MacMahonSolver.kt:47 | one below the floor on the MMS scale: mmFloor - 1 + 30 |
| MacMahon.MainScoreMax | api-webapp/src/main/kotlin/org/jeudego/pairgoth/pairing/solver/MacMahonSolver.kt:48 | two above the bar plus one per earlier round on the MMS scale: mmBar + 2 + (round - 1) + 30 |
| MacMahon.MainLimits | api-webapp/src/main/kotlin/org/jeudego/pairgoth/pairing/solver/MacMahonSolver.kt:47-49 | the limits are floor − 1 − MIN_RANK and bar + 2 + (round − 1) − MIN_RANK. The lower is below the upper for a valid configuration from round 1 on |
| MacMahon.EvalCriterion | api-webapp/src/main/kotlin/org/jeudego/pairgoth/pairing/solver/MacMahonSolver.kt:50-57 | MMS is read from the score map and fails only when the floor is not below the bar. The SOS family comes from the base values, and other criteria are delegated to the base solver |
| Tournaments.TournamentType.PlayersNumber | api-webapp/src/main/kotlin/org/jeudego/pairgoth/model/Tournament.kt:28-36 | between one and five players, and one exactly for INDIVIDUAL |
| Tournaments.TournamentType.Individual | api-webapp/src/main/kotlin/org/jeudego/pairgoth/model/Tournament.kt:28-36 | `individual` is false exactly for PAIRGO, RENGO2 and RENGO3, all of which have two or three players |
| Tournaments.TypeName | api-webapp/src/main/kotlin/org/jeudego/pairgoth/model/Tournament.kt:28-36 | each constant's name is non-empty and already upper case, so upper-casing the input can match it |
| Tournaments.TypeValueOf | api-webapp/src/main/kotlin/org/jeudego/pairgoth/model/Tournament.kt:28-37 | `Type.valueOf` finds the constant whose name is the string, and fails exactly when no constant has that name |
| Tournaments.TypeNameRoundTrip | api-webapp/src/main/kotlin/org/jeudego/pairgoth/model/Tournament.kt:28-37 | every type is found again from its name |
| Tournaments.Uppercase | api-webapp/src/main/kotlin/org/jeudego/pairgoth/model/Tournament.kt:156 | `uppercase()` maps the string character by character |
| Tournaments.TypeNameIgnoresCase | api-webapp/src/main/kotlin/org/jeudego/pairgoth/model/Tournament.kt:156 | "individual", "team3" and the dotless-ı spelling are read as types, "solo" is not |
| Tournaments.TypeOf | api-webapp/src/main/kotlin/org/jeudego/pairgoth/model/Tournament.kt:156 | a given type string must upper-case to a constant's name, without falling back to the default. An absent type takes the default, else "missing type" |
| Tournaments.RulesOf | api-webapp/src/main/kotlin/org/jeudego/pairgoth/model/Tournament.kt:170 | a given rules string must name rules. An absent one takes the default, else FRENCH |
| Tournaments.DateOf | api-webapp/src/main/kotlin/org/jeudego/pairgoth/model/Tournament.kt:164-165 | a present date string is parsed by the date decoder, without fallback. An absent one takes the default, else "missing" and the key |
| Tournaments.DecodedOf | api-webapp/src/main/kotlin/org/jeudego/pairgoth/model/Tournament.kt:172-174 | a present sub-object is decoded, without fallback. An absent one takes the default, else "missing" and the key |
| Tournaments.ConfigOf | api-webapp/src/main/kotlin/org/jeudego/pairgoth/model/Tournament.kt:155-175 | the configuration decodes iff the type decodes, every required string and the rounds come from the JSON or the default, and the dates, rules, time system and pairing decode |
| Tournaments.ConfigFields | api-webapp/src/main/kotlin/org/jeudego/pairgoth/model/Tournament.kt:155-175 | a decoded configuration takes each field from the JSON, else from the default. The id falls back to a fresh one. online, komi and goban size fall back to false, 7.5 and 19. The type, dates, rules, time system and pairing are the decoded ones, and absent rules fall back to FRENCH |
| Tournaments.ConfigMissingFields | api-webapp/src/main/kotlin/org/jeudego/pairgoth/model/Tournament.kt:156-162 | without a default, a missing type is the first error, then, a type given, a missing name; an unknown type name fails |
| Tournaments.EvenPool | api-webapp/src/main/kotlin/org/jeudego/pairgoth/model/Tournament.kt:56-58 | the pool handed to the pairing is even: unchanged when even, the bye appended when odd |
| Tournaments.EvenPoolRepeatsBye | api-webapp/src/main/kotlin/org/jeudego/pairgoth/model/Tournament.kt:55-58 | an odd pool that already holds the bye gets a second bye, so the pairing graph would need a loop edge and pairing fails |
| Tournaments.AssociateById | api-webapp/src/main/kotlin/org/jeudego/pairgoth/model/Tournament.kt:61 | `associateBy { it.id }` has the games' ids as keys, each mapped to a game of that id from the list |
| Tournaments.AssociateByIdFinds | api-webapp/src/main/kotlin/org/jeudego/pairgoth/model/Tournament.kt:61 | with distinct ids, every new game is found under its own id |
| Tournaments.CommitRound | api-webapp/src/main/kotlin/org/jeudego/pairgoth/model/Tournament.kt:60-61 | recording a round adds a round only when it is the next one, merges the new games into it under their ids, keeps its other entries and leaves every other round untouched |
| Tournaments.CommitRoundStoresGames | api-webapp/src/main/kotlin/org/jeudego/pairgoth/model/Tournament.kt:60-61 | after recording, each new game is in its round under its id |
| Tournaments.PairOutcome | api-webapp/src/main/kotlin/org/jeudego/pairgoth/model/Tournament.kt:51-63 | a round past the next fails with "previous round not paired", then one past the limit with "too many rounds". A round below 1 fails after the pairing. Otherwise the result is the pairing of the even pool, recorded into its round. A failure changes no games |
| Tournaments.GamesOutcome | api-webapp/src/main/kotlin/org/jeudego/pairgoth/model/Tournament.kt:68-70 | an existing round's games are returned as they are. The next round, or one below 1, is appended empty. Any later round fails with "invalid round" |
| Tournaments.TeamOf | api-webapp/src/main/kotlin/org/jeudego/pairgoth/model/Tournament.kt:139-149 | `teamFromJson` succeeds iff a name comes from the JSON or the default and a players array of numbers is present. It fails with "missing name", then "missing players", or "invalid players array". Its members are the array's ids, without duplicates |
| Tournaments.TeamJsonRoundTrip | api-webapp/src/main/kotlin/org/jeudego/pairgoth/model/Tournament.kt:131-149 | a team written by `toJson` reads back as itself |
| Tournaments.IntsJsonIds | api-webapp/src/main/kotlin/org/jeudego/pairgoth/model/Tournament.kt:134 | an id list written as a JSON array reads back unchanged |
| Tournaments.Criteria | api-webapp/src/main/kotlin/org/jeudego/pairgoth/model/Tournament.kt:74-78 | three criteria: MMS first iff the pairing is McMahon, NBW first otherwise, then SOS and SOSOS |
| Tournaments.Tournament.constructor | api-webapp/src/main/kotlin/org/jeudego/pairgoth/model/Tournament.kt:10-79 | a new tournament has no pairables and no games. It is a team tournament iff its type has more than one player. Its criteria are MMS or NBW by pairing type, then SOS and SOSOS |
| Tournaments.Tournament.LastRound | api-webapp/src/main/kotlin/org/jeudego/pairgoth/model/Tournament.kt:71 | the number of rounds stored |
| Tournaments.Tournament.Pair | api-webapp/src/main/kotlin/org/jeudego/pairgoth/model/Tournament.kt:51-63 | `pair` returns and records exactly `PairOutcome` |
| Tournaments.Tournament.Games | api-webapp/src/main/kotlin/org/jeudego/pairgoth/model/Tournament.kt:66-71 | `games(round)` returns and records exactly `GamesOutcome` |
| Tournaments.Tournament.TeamFromJson | api-webapp/src/main/kotlin/org/jeudego/pairgoth/model/Tournament.kt:139-149 | the array loop of a team tournament's `teamFromJson` gives exactly `TeamOf` |
| Tournaments.FromJson | api-webapp/src/main/kotlin/org/jeudego/pairgoth/model/Tournament.kt:155-198 | `Tournament.fromJson` fails exactly when the configuration does, with its error. Otherwise it is a new tournament of that configuration, without pairables or games, a team tournament iff the type has several players, with the criteria of its pairing type |
| WebappTournament.LegacyConfigOf | webapp/src/main/kotlin/org/jeudego/pairgoth/model/Tournament.kt:67-82 | the webapp configuration decodes iff the type decodes, every required string comes from the JSON or the default, and the dates, rules, time system and pairing decode |
| WebappTournament.LegacyConfigFields | webapp/src/main/kotlin/org/jeudego/pairgoth/model/Tournament.kt:67-82 | the webapp configuration takes each field from the JSON, else the default, with the same fallbacks. The type, dates, rules, time system and pairing are the decoded ones. It has no rounds |
| WebappTournament.LegacyConfigMissingFields | webapp/src/main/kotlin/org/jeudego/pairgoth/model/Tournament.kt:68-71 | the webapp decoder reports a missing type, then name, then shortName, in evaluation order |
| WebappTournament.LegacyTournament.constructor | webapp/src/main/kotlin/org/jeudego/pairgoth/model/Tournament.kt:8-63 | a new webapp tournament has no pairables and no games, and its criteria follow the pairing type |
| WebappTournament.LegacyTournament.Pair | webapp/src/main/kotlin/org/jeudego/pairgoth/model/Tournament.kt:44-52 | `pair` fails only for a round past the next one. Otherwise it returns the pairing of the even pool without recording it |
| WebappTournament.LegacyFromJson | webapp/src/main/kotlin/org/jeudego/pairgoth/model/Tournament.kt:67-82 | `fromJson` fails exactly when the configuration does, with its error. Otherwise it is a new tournament of that configuration, without pairables or games, with the criteria of its pairing type |
| MemoryStore.Store.constructor | api-webapp/src/main/kotlin/org/jeudego/pairgoth/store/MemoryStore.kt:7 | a new store is empty |
| MemoryStore.Store.TournamentIds | api-webapp/src/main/kotlin/org/jeudego/pairgoth/store/MemoryStore.kt:9 | the ids are the keys of the map |
| MemoryStore.Store.GetTournament | api-webapp/src/main/kotlin/org/jeudego/pairgoth/store/MemoryStore.kt:16 | a tournament is found iff its id is stored, and it is the stored one |
| MemoryStore.Store.AddTournament | api-webapp/src/main/kotlin/org/jeudego/pairgoth/store/MemoryStore.kt:11-14 | adding fails with "tournament id #N already exists" when the id is taken, and stores the tournament otherwise. Other ids are unchanged |
| MemoryStore.Store.ReplaceTournament | api-webapp/src/main/kotlin/org/jeudego/pairgoth/store/MemoryStore.kt:18-21 | replacing fails with "not known" for an unknown id, and overwrites otherwise. The id set is unchanged, as are the other ids |
| MemoryStore.Store.DeleteTournament | api-webapp/src/main/kotlin/org/jeudego/pairgoth/store/MemoryStore.kt:23-26 | deleting fails with "not known" for an unknown id, and removes just that id otherwise |
| MemoryStore.Added | api-webapp/src/main/kotlin/org/jeudego/pairgoth/store/MemoryStore.kt:11-14 | the store after an add: succeeds iff the id is new, inserting the tournament. It is unchanged on failure |
| MemoryStore.Replaced | api-webapp/src/main/kotlin/org/jeudego/pairgoth/store/MemoryStore.kt:18-21 | the store after a replace: succeeds iff the id is known, keeping the key set. It is unchanged on failure |
| MemoryStore.Deleted | api-webapp/src/main/kotlin/org/jeudego/pairgoth/store/MemoryStore.kt:23-26 | the store after a delete: succeeds iff the id is known, removing that key. It is unchanged on failure |
| MemoryStore.AddDeleteRoundTrip | api-webapp/src/main/kotlin/org/jeudego/pairgoth/store/MemoryStore.kt:11-26 | deleting what was just added restores the store. A second add of the same id fails |
| Login.IndexOf | view-webapp/src/main/kotlin/org/jeudego/pairgoth/web/LoginServlet.kt:14 | `indexOf(';')` is −1 iff the character is absent, else the index of its first occurrence |
| Login.TrimStart | view-webapp/src/main/kotlin/org/jeudego/pairgoth/web/LoginServlet.kt:15 | trimming the start drops the longest prefix of characters ≤ ' ' |
| Login.TrimEnd | view-webapp/src/main/kotlin/org/jeudego/pairgoth/web/LoginServlet.kt:15 | trimming the end drops the longest suffix of characters ≤ ' ' |
| Login.Trim | view-webapp/src/main/kotlin/org/jeudego/pairgoth/web/LoginServlet.kt:15 | `trim { it <= ' ' }` is a slice of the string that starts and ends with a non-blank character, with only blanks dropped around it |
| Login.TrimParts | view-webapp/src/main/kotlin/org/jeudego/pairgoth/web/LoginServlet.kt:15 | trimming the start and then the end leaves a slice of the original, with only blanks dropped on each side |
| Login.TrimOfUnpadded | view-webapp/src/main/kotlin/org/jeudego/pairgoth/web/LoginServlet.kt:15 | a string without blanks at its ends is its own trim |
| Login.MimeType | view-webapp/src/main/kotlin/org/jeudego/pairgoth/web/LoginServlet.kt:14-15 | the media type is the whole content type when it has no ';'. Otherwise it is the trimmed part before the first ';', which contains no ';' |
| Login.IsJson | view-webapp/src/main/kotlin/org/jeudego/pairgoth/web/LoginServlet.kt:38 | a media type is JSON iff it is exactly "text/json" or "application/json", or ends in "+json" |
| Login.IsJsonSamples | view-webapp/src/main/kotlin/org/jeudego/pairgoth/web/LoginServlet.kt:38 | application/json, text/json and +json suffixes are JSON. The check is case-sensitive and "json5" is not JSON |
| Login.CheckSesame | view-webapp/src/main/kotlin/org/jeudego/pairgoth/web/LoginServlet.kt:32-35 | it fails iff no sesame is configured. It gives true iff the payload's "sesame" equals the configured one, else null |
| Login.LoginOutcome | view-webapp/src/main/kotlin/org/jeudego/pairgoth/web/LoginServlet.kt:11-30 | a login succeeds iff the content type is JSON, the payload present, the authentication is "sesame" and the payload carries the configured sesame. The checks fail in order: an absent content type, a non-JSON type with "expecting json", an absent payload with "null json", and a missing sesame configuration with its message |

## Left out

- The weighted perfect matching (JGraphT's Kolmogorov blossom algorithm) is a parameter. The model does not state that it covers every pairable once, or that it minimises the weight. It states only what pairing does with the edges the matching returns.
- Solver.Pair: the game ids come from a `firstGameId` parameter counted upward, because `Store.nextGameId` is a global counter.
- Solver.BuildEdges: pairables are compared as values, while the graph compares its vertices by object identity (`Pairable.equals(Pairable)` at Pairable.kt:23-25 overloads rather than overrides `equals`). The two agree whenever equal pairables in the pool are the same object, as the single bye object is. Two distinct objects with identical fields would be two vertices in the source but a repeat in the model. The message LOOPS_NOT_ALLOWED is JGraphT's wording for the refused loop edge, and JGraphT is not part of this model.
- The solver's `rand` is unused in the modelled code and is left out. The `weight` and `sort` functions of concrete solvers are parameters.
- BaseSolver (the round, the history, the pairables map, `missedRounds`, SOS-minus values, base criteria, the rounding of scores) is not part of this model. Its inputs are fields of `Base`, supplied as values or functions.
- Doubles are modelled as reals: no IEEE rounding, NaN or infinity. MacMahon.RoundToInt: no saturation at the Int range, and no NaN case.
- MacMahon.MainLimits: the Int sums in `mainScoreMin`/`mainScoreMax` are unbounded, without 32-bit wrap-around.
- Pairables.ParseRank: a number beyond Int.MAX_VALUE (whatever its length: "3000000000k" overflows, "000000000005k" does not) fails as `String.toInt` fails. Its message `For input string: "…"` is the JVM's wording, which is not among the sources.
- Pairables.SkipOf: a non-number in the skip array makes the source fail with a ClassCastException from `id as Number` (Pairable.kt:104), which has no message in the source. The model's message SKIP_ERROR is its own.
- Tournaments.PairOutcome: a round below 1 makes the source fail with an IndexOutOfBoundsException from `games[round - 1]` (Tournament.kt:61). The model's message ROUND_INDEX_OUT_OF_BOUNDS is its own.
- Login.LoginOutcome: an absent content type makes the source fail with a NullPointerException from `contentType.indexOf` (LoginServlet.kt:14). The model's message NULL_CONTENT_TYPE is its own.
- Json.ToInt: truncation of numbers beyond the Int range (`Number.toInt` on a Long or a huge double) is not modelled.
- Team members' derived rating, rank, club and country (averages over `teamPlayers`) are left out. Team.kt's `players` map is not part of this model, and a decoded team has rating and rank 0.
- Tournaments.TeamOf: the discarded `players.containsKey(id)` test has no effect in the source and is not modelled.
- Store id allocation (`Store.nextPlayerId`, `nextTournamentId`) is a `freshId` parameter.
- The date parser behind `getLocalDate`, and the decoders `TimeSystem.fromJson`, `Pairing.fromJson` and `Rules.valueOf`, are supplied collaborators (`Codecs`). Tournaments.DateOf: a malformed date string is assumed to fail with the parser's error rather than fall back on the default, since kson's `getLocalDate` is not part of this model.
- Tournaments.Uppercase covers only the mappings that can produce a type name: ASCII letters, dotless ı to I and long ſ to S. It does not model full Unicode upper-casing, such as ß becoming SS.
- Tournaments.TypeOf: the message of the exception `valueOf` throws is an approximation, because its exact text comes from the JVM.
- The mutable map that `games(round)` returns is a value in the model, so updates through that alias are not modelled.
- Tournaments.Tournament.Pair: the pairing sees the tournament only through its recorded games, the pool and the round.
- The `json["pairables"]` block of `fromJson` is empty in the source and is not modelled. Neither is `Tournament.toJson`, which no modelled operation reads back.
- `doPost`'s session attribute, the response writing and the logging are I/O and are left out. The outcome is modelled as a `Result`.
- ServerMain, RatingsHandler, TeamHandler, PlayerHandler and the standings script are outside the modelled core.
- Concurrent access to the store and to tournaments is not modelled.
