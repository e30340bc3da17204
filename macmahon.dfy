/**
 * McMahon scoring: the McMahon base of a pairable (its rank clamped between
 * the floor and the bar, shifted onto a non-negative scale), the pair of
 * scores per pairable, the pseudo-rank used by handicap, the main score
 * limits and the placement-criterion dispatch.
 *
 * The base solver (BaseSolver.kt) is not part of this model: the members of
 * it that are used here are carried, uninterpreted, in `Base`.
 */
module MacMahon {
  import opened Wrappers
  import opened Pairables

  const MMS_ZERO: real := 30.0
  const PLA_SMMS_SCORE_MAX: int := 2
  const PLA_SMMS_SCORE_MIN: int := -1

  const FLOOR_ABOVE_BAR := "MMFloor is higher than MMBar"

  /** The placement criteria this solver evaluates itself; every other one is the base solver's. */
  datatype PlacementCriterion = MMS | SOSM | SOSOSM | SOSMM1 | SOSMM2 | OtherCriterion(name: string)

  /** The base solver's members used by the McMahon solver. */
  datatype Base = Base(
    round: int,
    pool: seq<Pairable>,
    pairablesMap: map<int, Pairable>,
    roundScore: real -> real,
    nbW: Pairable -> real,
    missedRounds: (Pairable, int, set<int>) -> int,
    sos: Pairable -> real,
    sosos: Pairable -> real,
    sosm1: Pairable -> real,
    sosm2: Pairable -> real,
    baseCriterion: (Pairable, PlacementCriterion) -> real,
    mmsCorrection: real,
    mmsValueAbsent: real,
    sosValueAbsentUseBase: bool)

  datatype MacMahonSolver = MacMahonSolver(base: Base, mmFloor: int, mmBar: int)

  function Min(a: int, b: int): int { if a <= b then a else b }
  function Max(a: int, b: int): int { if a >= b then a else b }

  /** Kotlin's `/` on Int, which truncates toward zero. */
  function QuotTrunc(a: int, b: int): (r: int)
    requires b > 0
    ensures 0 <= a ==> 0 <= a - r * b < b
    ensures a < 0 ==> -b < a - r * b <= 0
  {
    if a >= 0 then a / b else -((-a) / b)
  }

  /** `Double.roundToInt()`: to the nearest integer, halves rounded up. */
  function RoundToInt(x: real): (r: int)
    ensures r as real - 0.5 <= x < r as real + 0.5
  {
    (x + 0.5).Floor
  }

  /**
   * `mmBase`: the rank clamped between the floor and the bar, moved up by 30 and
   * the correction. Ranks at or below the floor share the floor's base, ranks at or
   * above the bar (and every rank, when the floor is above the bar) share the bar's.
   */
  function MmBase(s: MacMahonSolver, p: Pairable): (r: real)
    ensures s.mmFloor <= p.rank <= s.mmBar ==> r == p.rank as real + MMS_ZERO + s.base.mmsCorrection
    ensures p.rank <= s.mmFloor <= s.mmBar ==> r == s.mmFloor as real + MMS_ZERO + s.base.mmsCorrection
    ensures p.rank >= s.mmBar || s.mmFloor > s.mmBar ==> r == s.mmBar as real + MMS_ZERO + s.base.mmsCorrection
    ensures s.mmFloor <= s.mmBar ==>
      s.mmFloor as real + MMS_ZERO + s.base.mmsCorrection <= r <= s.mmBar as real + MMS_ZERO + s.base.mmsCorrection
  {
    Min(Max(p.rank, s.mmFloor), s.mmBar) as real + MMS_ZERO + s.base.mmsCorrection
  }

  function PoolIds(s: MacMahonSolver): set<int> {
    set p | p in s.base.pool :: p.id
  }

  /** The round score never ranks a lower value above a higher one. */
  ghost predicate MonotoneRounding(s: MacMahonSolver) {
    forall x: real, y: real :: x <= y ==> s.base.roundScore(x) <= s.base.roundScore(y)
  }

  /** The first score of a pairable: its base, or the round score of base plus half the rounds. */
  function SosBase(s: MacMahonSolver, p: Pairable): (r: real)
    ensures s.base.sosValueAbsentUseBase ==> r == MmBase(s, p)
    ensures !s.base.sosValueAbsentUseBase ==> r == s.base.roundScore(MmBase(s, p) + QuotTrunc(s.base.round, 2) as real)
  {
    if s.base.sosValueAbsentUseBase then MmBase(s, p)
    else s.base.roundScore(MmBase(s, p) + QuotTrunc(s.base.round, 2) as real)
  }

  /** The McMahon score of a pairable: the round score of base, wins and valued absences. */
  function MmsScore(s: MacMahonSolver, p: Pairable): (r: real)
    ensures MonotoneRounding(s) && s.mmFloor <= s.mmBar && s.base.nbW(p) >= 0.0 && AbsenceValue(s, p) >= 0.0 ==>
      s.base.roundScore(s.mmFloor as real + MMS_ZERO + s.base.mmsCorrection) <= r
  {
    s.base.roundScore(MmBase(s, p) + s.base.nbW(p) + AbsenceValue(s, p))
  }

  /** `missedRounds(round, pairing) * mmsValueAbsent` */
  function AbsenceValue(s: MacMahonSolver, p: Pairable): real {
    Absences(s, p) as real * s.base.mmsValueAbsent
  }

  /** `pairable.missedRounds(round, pairing)`, the pairing being the ids of the pool. */
  function Absences(s: MacMahonSolver, p: Pairable): int {
    s.base.missedRounds(p, s.base.round, PoolIds(s))
  }

  /** `scores`: refused unless the bar is above the floor; one pair per entry of `pairablesMap`. */
  function Scores(s: MacMahonSolver): (r: Result<map<int, (real, real)>>)
    ensures r.Err? <==> s.mmBar <= s.mmFloor
    ensures r.Err? ==> r.error == FLOOR_ABOVE_BAR
    ensures r.Ok? ==> r.value.Keys == s.base.pairablesMap.Keys
  {
    if !(s.mmBar > s.mmFloor) then Err(FLOOR_ABOVE_BAR)
    else Ok(map id | id in s.base.pairablesMap :: (SosBase(s, s.base.pairablesMap[id]), MmsScore(s, s.base.pairablesMap[id])))
  }

  /**
   * `pairable.mms`: refused with the configuration; for a pairable of the map, the
   * round score of its base, wins and valued absences; 0 for an id the map does not know.
   */
  function Mms(s: MacMahonSolver, p: Pairable): (r: Result<real>)
    ensures r.Err? <==> s.mmBar <= s.mmFloor
    ensures r.Err? ==> r.error == FLOOR_ABOVE_BAR
    ensures r.Ok? && p.id in s.base.pairablesMap ==>
      r.value == s.base.roundScore(MmBase(s, s.base.pairablesMap[p.id]) + s.base.nbW(s.base.pairablesMap[p.id]) + AbsenceValue(s, s.base.pairablesMap[p.id]))
    ensures r.Ok? && p.id !in s.base.pairablesMap ==> r.value == 0.0
  {
    var scores :- Scores(s);
    Ok(if p.id in scores then scores[p.id].1 else 0.0)
  }

  /**
   * `pseudoRank`: without the McMahon score, the rank itself; with it, the rounded MMS
   * moved back onto the rank scale, so within a half point of MMS − 30.
   */
  function PseudoRank(s: MacMahonSolver, useMMS: bool, p: Pairable): (r: Result<int>)
    ensures !useMMS ==> r == Ok(p.rank)
    ensures useMMS ==> (r.Err? <==> s.mmBar <= s.mmFloor)
    ensures useMMS && r.Err? ==> r.error == FLOOR_ABOVE_BAR
    ensures useMMS && r.Ok? ==> (r.value - MIN_RANK) as real - 0.5 <= Mms(s, p).value < (r.value - MIN_RANK) as real + 0.5
  {
    if useMMS then
      var mms :- Mms(s, p);
      Ok(RoundToInt(mms) + MIN_RANK)
    else Ok(p.rank)
  }

  /** `mainScoreMin`: one below the floor, on the MMS scale. */
  function MainScoreMin(s: MacMahonSolver): (r: int)
    ensures r as real == (s.mmFloor - 1) as real + MMS_ZERO
  {
    s.mmFloor + PLA_SMMS_SCORE_MIN - MIN_RANK
  }

  /** `mainScoreMax`: two above the bar plus one per earlier round, on the MMS scale. */
  function MainScoreMax(s: MacMahonSolver): (r: int)
    ensures r as real == (s.mmBar + 2 + (s.base.round - 1)) as real + MMS_ZERO
  {
    s.mmBar + PLA_SMMS_SCORE_MAX + (s.base.round - 1) - MIN_RANK
  }

  /** `mainLimits`: on the MMS scale, one below the floor up to two above the bar plus a point per earlier round. */
  function MainLimits(s: MacMahonSolver): (r: (real, real))
    ensures r.0 == (s.mmFloor - 1) as real + MMS_ZERO
    ensures r.1 == (s.mmBar + 2 + (s.base.round - 1)) as real + MMS_ZERO
    ensures s.mmBar > s.mmFloor && s.base.round >= 1 ==> r.0 < r.1
  {
    (MainScoreMin(s) as real, MainScoreMax(s) as real)
  }

  /** `evalCriterion`: the McMahon criteria are evaluated here, every other one by the base solver. */
  function EvalCriterion(s: MacMahonSolver, p: Pairable, c: PlacementCriterion): (r: Result<real>)
    ensures r.Err? <==> c == MMS && s.mmBar <= s.mmFloor
    ensures c == MMS ==> r == Mms(s, p)
    ensures c == SOSM ==> r == Ok(s.base.sos(p))
    ensures c == SOSOSM ==> r == Ok(s.base.sosos(p))
    ensures c == SOSMM1 ==> r == Ok(s.base.sosm1(p))
    ensures c == SOSMM2 ==> r == Ok(s.base.sosm2(p))
    ensures c.OtherCriterion? ==> r == Ok(s.base.baseCriterion(p, c))
  {
    match c
    case MMS => Mms(s, p)
    case SOSM => Ok(s.base.sos(p))
    case SOSOSM => Ok(s.base.sosos(p))
    case SOSMM1 => Ok(s.base.sosm1(p))
    case SOSMM2 => Ok(s.base.sosm2(p))
    case OtherCriterion(_) => Ok(s.base.baseCriterion(p, c))
  }

  // ---------------------------------------------------------------------------
  // Properties

  /** The McMahon base never decreases with the rank. */
  lemma MmBaseMonotone(s: MacMahonSolver, p: Pairable, q: Pairable)
    requires p.rank <= q.rank
    ensures MmBase(s, p) <= MmBase(s, q)
  {
  }

  /** The first score is the McMahon base itself when `sosValueAbsentUseBase`, else the round score of base plus half the rounds. */
  lemma SosBaseOfKnownPairable(s: MacMahonSolver, id: int, q: Pairable)
    requires s.mmBar > s.mmFloor
    requires id in s.base.pairablesMap && s.base.pairablesMap[id] == q
    ensures Scores(s).value[id].0 == if s.base.sosValueAbsentUseBase then MmBase(s, q) else s.base.roundScore(MmBase(s, q) + QuotTrunc(s.base.round, 2) as real)
  {
  }

  /**
   * A pairable without wins, absences or correction, scored with the identity, gets
   * back its clamped rank as its pseudo-rank.
   */
  lemma PseudoRankOfUnscored(s: MacMahonSolver, p: Pairable)
    requires s.mmBar > s.mmFloor
    requires p.id in s.base.pairablesMap && s.base.pairablesMap[p.id] == p
    requires forall x :: s.base.roundScore(x) == x
    requires s.base.nbW(p) == 0.0 && s.base.mmsCorrection == 0.0 && Absences(s, p) == 0
    ensures PseudoRank(s, true, p) == Ok(Min(Max(p.rank, s.mmFloor), s.mmBar))
  {
    var c := Min(Max(p.rank, s.mmFloor), s.mmBar);
    assert Mms(s, p).value == c as real + MMS_ZERO;
    RoundOfInteger(c + 30);
  }

  lemma RoundOfInteger(n: int)
    ensures RoundToInt(n as real) == n
  {
  }

  /**
   * Among pairables of the map with the same base and the same absences, more wins
   * never give a lower MMS when the round score is monotone and absences do not
   * count negatively.
   */
  lemma MmsMonotoneInWins(s: MacMahonSolver, p: Pairable, q: Pairable)
    requires s.mmBar > s.mmFloor
    requires p.id in s.base.pairablesMap && q.id in s.base.pairablesMap
    requires s.base.pairablesMap[p.id] == p && s.base.pairablesMap[q.id] == q
    requires MonotoneRounding(s)
    requires MmBase(s, p) == MmBase(s, q)
    requires AbsenceValue(s, p) == AbsenceValue(s, q)
    requires s.base.nbW(p) <= s.base.nbW(q)
    ensures Mms(s, p).value <= Mms(s, q).value
  {
    var b := s.base;
    var absent := AbsenceValue(s, p);
    assert MmBase(s, p) + b.nbW(p) + absent <= MmBase(s, q) + b.nbW(q) + absent;
  }
}
