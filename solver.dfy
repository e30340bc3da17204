/**
 * The base pairing solver: statistics computed from the flat game history, the
 * placement of the pool, the complete weighted graph handed to the matching, and
 * the games derived from the matching.
 */
module Solver {
  import opened Wrappers
  import opened Games
  import opened Pairables

  // ---------------------------------------------------------------------------
  // `groupingBy { it.first }.fold(0) { acc, e -> acc + e.second }` and `map[id] ?: 0`

  /** Folds (key, amount) entries, in order, into per-key totals. */
  function Tally(entries: seq<(int, int)>): map<int, int>
    decreases |entries|
  {
    if entries == [] then map[]
    else
      var m := Tally(entries[..|entries| - 1]);
      var e := entries[|entries| - 1];
      m[e.0 := Lookup(m, e.0) + e.1]
  }

  /** A statistic of an id that has no entry is 0. */
  function Lookup(m: map<int, int>, k: int): int {
    if k in m then m[k] else 0
  }

  /** Reference: the total of the amounts of the entries whose key is `k`. */
  function SumFor(entries: seq<(int, int)>, k: int): int
    decreases |entries|
  {
    if entries == [] then 0
    else (if entries[0].0 == k then entries[0].1 else 0) + SumFor(entries[1..], k)
  }

  lemma {:induction false} SumForAppend(a: seq<(int, int)>, b: seq<(int, int)>, k: int)
    ensures SumFor(a + b, k) == SumFor(a, k) + SumFor(b, k)
    decreases |a|
  {
    if a == [] {
      assert a + b == b;
    } else {
      assert (a + b)[0] == a[0];
      assert (a + b)[1..] == a[1..] + b;
      SumForAppend(a[1..], b, k);
      calc {
        SumFor(a + b, k);
        (if a[0].0 == k then a[0].1 else 0) + SumFor(a[1..] + b, k);
        (if a[0].0 == k then a[0].1 else 0) + SumFor(a[1..], k) + SumFor(b, k);
      }
    }
  }

  /** The folded map holds, for every key, the total of that key's entries. */
  lemma {:induction false} TallyLookup(entries: seq<(int, int)>, k: int)
    ensures Lookup(Tally(entries), k) == SumFor(entries, k)
    decreases |entries|
  {
    if entries != [] {
      var front := entries[..|entries| - 1];
      var e := entries[|entries| - 1];
      TallyLookup(front, k);
      assert entries == front + [e];
      SumForAppend(front, [e], k);
    }
  }

  // ---------------------------------------------------------------------------
  // Score (number of wins)

  function Winner(g: Game): Option<int> {
    match g.result
    case Black => Some(g.black)
    case White => Some(g.white)
    case OtherResult => None
  }

  /** `mapNotNull { winner }`, each winner counted once (`eachCount`). */
  function WinEntries(h: seq<Game>): seq<(int, int)>
    decreases |h|
  {
    if h == [] then []
    else (if Winner(h[0]).Some? then [(Winner(h[0]).value, 1)] else []) + WinEntries(h[1..])
  }

  function ScoreMap(h: seq<Game>): map<int, int> {
    Tally(WinEntries(h))
  }

  /** `Pairable.score`: the number of games won so far; 0 without a win. */
  function Score(h: seq<Game>, id: int): (r: int)
    ensures r == Wins(h, id)
    ensures r >= 0
  {
    TallyLookup(WinEntries(h), id);
    WinEntriesSum(h, id);
    Lookup(ScoreMap(h), id)
  }

  /** Reference: the games of `h` that `id` won, as black or as white. */
  function Wins(h: seq<Game>, id: int): nat
    decreases |h|
  {
    if h == [] then 0
    else (if (h[0].result == Black && h[0].black == id) || (h[0].result == White && h[0].white == id) then 1 else 0)
         + Wins(h[1..], id)
  }

  lemma {:induction false} WinEntriesSum(h: seq<Game>, id: int)
    ensures SumFor(WinEntries(h), id) == Wins(h, id)
    decreases |h|
  {
    if h != [] {
      var head: seq<(int, int)> := if Winner(h[0]).Some? then [(Winner(h[0]).value, 1)] else [];
      SumForAppend(head, WinEntries(h[1..]), id);
      WinEntriesSum(h[1..], id);
    }
  }

  // ---------------------------------------------------------------------------
  // Color balance (games as white minus games as black)

  function ColorEntries(h: seq<Game>): seq<(int, int)>
    decreases |h|
  {
    if h == [] then [] else [(h[0].white, 1), (h[0].black, -1)] + ColorEntries(h[1..])
  }

  /** `Pairable.colorBalance`: the games played as white minus those played as black. */
  function ColorBalance(h: seq<Game>, id: int): (r: int)
    ensures r == AsWhite(h, id) - AsBlack(h, id)
  {
    TallyLookup(ColorEntries(h), id);
    ColorEntriesSum(h, id);
    Lookup(Tally(ColorEntries(h)), id)
  }

  function AsWhite(h: seq<Game>, id: int): nat
    decreases |h|
  {
    if h == [] then 0 else (if h[0].white == id then 1 else 0) + AsWhite(h[1..], id)
  }

  function AsBlack(h: seq<Game>, id: int): nat
    decreases |h|
  {
    if h == [] then 0 else (if h[0].black == id then 1 else 0) + AsBlack(h[1..], id)
  }

  lemma {:induction false} ColorEntriesSum(h: seq<Game>, id: int)
    ensures SumFor(ColorEntries(h), id) == AsWhite(h, id) - AsBlack(h, id)
    decreases |h|
  {
    if h != [] {
      SumForAppend([(h[0].white, 1), (h[0].black, -1)], ColorEntries(h[1..]), id);
      ColorEntriesSum(h[1..], id);
    }
  }

  // ---------------------------------------------------------------------------
  // Games already played

  function PairedSet(h: seq<Game>): set<(int, int)> {
    (set g | g in h :: (g.black, g.white)) + (set g | g in h :: (g.white, g.black))
  }

  /** `p.played(q)`: some game had the two as its sides, in either color. */
  function Played(h: seq<Game>, p: int, q: int): (b: bool)
    ensures b <==> exists g :: g in h && ((g.black == p && g.white == q) || (g.black == q && g.white == p))
  {
    (p, q) in PairedSet(h)
  }

  /** Having played is symmetric. */
  lemma PlayedSymmetric(h: seq<Game>, p: int, q: int)
    ensures Played(h, p, q) <==> Played(h, q, p)
  {
  }

  // ---------------------------------------------------------------------------
  // Strength of schedule: SOS, SOSOS, SODOS

  /** `history.map { (black, stat[white]) }` */
  function BlackSide(h: seq<Game>, m: map<int, int>): seq<(int, int)>
    decreases |h|
  {
    if h == [] then [] else [(h[0].black, Lookup(m, h[0].white))] + BlackSide(h[1..], m)
  }

  /** `history.map { (white, stat[black]) }` */
  function WhiteSide(h: seq<Game>, m: map<int, int>): seq<(int, int)>
    decreases |h|
  {
    if h == [] then [] else [(h[0].white, Lookup(m, h[0].black))] + WhiteSide(h[1..], m)
  }

  /** As `BlackSide`, counting the opponent only when black won. */
  function BlackWinSide(h: seq<Game>, m: map<int, int>): seq<(int, int)>
    decreases |h|
  {
    if h == [] then []
    else [(h[0].black, if h[0].result == Black then Lookup(m, h[0].white) else 0)] + BlackWinSide(h[1..], m)
  }

  /** As `WhiteSide`, counting the opponent only when white won. */
  function WhiteWinSide(h: seq<Game>, m: map<int, int>): seq<(int, int)>
    decreases |h|
  {
    if h == [] then []
    else [(h[0].white, if h[0].result == White then Lookup(m, h[0].black) else 0)] + WhiteWinSide(h[1..], m)
  }

  function SosMap(h: seq<Game>): map<int, int> {
    Tally(BlackSide(h, ScoreMap(h)) + WhiteSide(h, ScoreMap(h)))
  }

  /** `Pairable.sos`: the opponents' scores summed over the games played, one term per game. */
  function Sos(h: seq<Game>, id: int): (r: int)
    ensures r == OpponentSum(h, id, ScoreMap(h))
    ensures r >= 0
  {
    TallyLookup(BlackSide(h, ScoreMap(h)) + WhiteSide(h, ScoreMap(h)), id);
    SideSums(h, id, ScoreMap(h));
    ScoreMapNonNegative(h);
    OpponentSumBounds(h, id, ScoreMap(h));
    Lookup(SosMap(h), id)
  }

  /** `Pairable.sosos`: the opponents' SOS summed over the games played. */
  function Sosos(h: seq<Game>, id: int): (r: int)
    ensures r == OpponentSum(h, id, SosMap(h))
    ensures r >= 0
  {
    TallyLookup(BlackSide(h, SosMap(h)) + WhiteSide(h, SosMap(h)), id);
    SideSums(h, id, SosMap(h));
    SosMapNonNegative(h);
    OpponentSumBounds(h, id, SosMap(h));
    Lookup(Tally(BlackSide(h, SosMap(h)) + WhiteSide(h, SosMap(h))), id)
  }

  /** `Pairable.sodos`: the scores of the opponents beaten, so between 0 and SOS. */
  function Sodos(h: seq<Game>, id: int): (r: int)
    ensures r == DefeatedSum(h, id, ScoreMap(h))
    ensures 0 <= r <= Sos(h, id)
  {
    TallyLookup(BlackWinSide(h, ScoreMap(h)) + WhiteWinSide(h, ScoreMap(h)), id);
    SideSums(h, id, ScoreMap(h));
    ScoreMapNonNegative(h);
    OpponentSumBounds(h, id, ScoreMap(h));
    Lookup(Tally(BlackWinSide(h, ScoreMap(h)) + WhiteWinSide(h, ScoreMap(h))), id)
  }

  /** Reference: over every game `id` played, the statistic `m` of its opponent. */
  function OpponentSum(h: seq<Game>, id: int, m: map<int, int>): int
    decreases |h|
  {
    if h == [] then 0
    else (if h[0].black == id then Lookup(m, h[0].white) else 0)
         + (if h[0].white == id then Lookup(m, h[0].black) else 0)
         + OpponentSum(h[1..], id, m)
  }

  /** Reference: over every game `id` won, the statistic `m` of the defeated opponent. */
  function DefeatedSum(h: seq<Game>, id: int, m: map<int, int>): int
    decreases |h|
  {
    if h == [] then 0
    else (if h[0].black == id && h[0].result == Black then Lookup(m, h[0].white) else 0)
         + (if h[0].white == id && h[0].result == White then Lookup(m, h[0].black) else 0)
         + DefeatedSum(h[1..], id, m)
  }

  lemma {:induction false} SideSums(h: seq<Game>, id: int, m: map<int, int>)
    ensures SumFor(BlackSide(h, m) + WhiteSide(h, m), id) == OpponentSum(h, id, m)
    ensures SumFor(BlackWinSide(h, m) + WhiteWinSide(h, m), id) == DefeatedSum(h, id, m)
    decreases |h|
  {
    SumForAppend(BlackSide(h, m), WhiteSide(h, m), id);
    SumForAppend(BlackWinSide(h, m), WhiteWinSide(h, m), id);
    if h != [] {
      SideSums(h[1..], id, m);
      SumForAppend(BlackSide(h[1..], m), WhiteSide(h[1..], m), id);
      SumForAppend(BlackWinSide(h[1..], m), WhiteWinSide(h[1..], m), id);
    }
  }

  ghost predicate NonNegative(m: map<int, int>) {
    forall k :: Lookup(m, k) >= 0
  }

  lemma {:induction false} OpponentSumBounds(h: seq<Game>, id: int, m: map<int, int>)
    requires NonNegative(m)
    ensures 0 <= DefeatedSum(h, id, m) <= OpponentSum(h, id, m)
    decreases |h|
  {
    if h != [] {
      OpponentSumBounds(h[1..], id, m);
      assert Lookup(m, h[0].white) >= 0 && Lookup(m, h[0].black) >= 0;
    }
  }

  lemma ScoreMapNonNegative(h: seq<Game>)
    ensures NonNegative(ScoreMap(h))
  {
    forall k ensures Lookup(ScoreMap(h), k) >= 0 {
      assert Lookup(ScoreMap(h), k) == Score(h, k);
    }
  }

  lemma SosMapNonNegative(h: seq<Game>)
    ensures NonNegative(SosMap(h))
  {
    forall k ensures Lookup(SosMap(h), k) >= 0 {
      assert Lookup(SosMap(h), k) == Sos(h, k);
    }
  }

  /** With no history every statistic is 0 and nobody has played anybody. */
  lemma EmptyHistoryStatistics(id: int, other: int)
    ensures Score([], id) == 0 && ColorBalance([], id) == 0
    ensures Sos([], id) == 0 && Sosos([], id) == 0 && Sodos([], id) == 0
    ensures !Played([], id, other)
  {
  }

  // ---------------------------------------------------------------------------
  // Placement: the pool sorted with the solver's comparator (stable)

  predicate DistinctIds(s: seq<Pairable>) {
    forall i, j :: 0 <= i < j < |s| ==> s[i].id != s[j].id
  }

  function Ids(s: seq<Pairable>): set<int> {
    set p | p in s :: p.id
  }

  /** Places `x` after the elements that do not compare greater than it: the insertion step of a stable sort. */
  function Insert(x: Pairable, s: seq<Pairable>, cmp: (Pairable, Pairable) -> int): (r: seq<Pairable>)
    ensures multiset(r) == multiset(s) + multiset{x}
    decreases |s|
  {
    if s == [] then [x]
    else if cmp(s[0], x) > 0 then [x] + s
    else
      assert s == [s[0]] + s[1..];
      [s[0]] + Insert(x, s[1..], cmp)
  }

  /** `pairables.sortedWith(::sort)`, a stable sort. */
  function SortWith(s: seq<Pairable>, cmp: (Pairable, Pairable) -> int): (r: seq<Pairable>)
    ensures multiset(r) == multiset(s)
    decreases |s|
  {
    if s == [] then []
    else
      assert s == s[..|s| - 1] + [s[|s| - 1]];
      Insert(s[|s| - 1], SortWith(s[..|s| - 1], cmp), cmp)
  }

  /** The default `sort` compares every two pairables as equal. */
  function DefaultSort(p: Pairable, q: Pairable): (r: int)
    ensures r == 0
  {
    0
  }

  /** The default sort meets the `Comparator` contract, so the sorting lemmas apply to it. */
  lemma DefaultSortIsComparator()
    ensures IsComparator(DefaultSort)
  {
  }

  /** With a comparator that finds everything equal, the stable sort keeps the order. */
  lemma {:induction false} SortWithNeutralIsIdentity(s: seq<Pairable>, cmp: (Pairable, Pairable) -> int)
    requires forall p, q :: cmp(p, q) == 0
    ensures SortWith(s, cmp) == s
    decreases |s|
  {
    if s != [] {
      SortWithNeutralIsIdentity(s[..|s| - 1], cmp);
      InsertNeutral(s[|s| - 1], s[..|s| - 1], cmp);
      assert s == s[..|s| - 1] + [s[|s| - 1]];
    }
  }

  lemma {:induction false} InsertNeutral(x: Pairable, s: seq<Pairable>, cmp: (Pairable, Pairable) -> int)
    requires forall p, q :: cmp(p, q) == 0
    ensures Insert(x, s, cmp) == s + [x]
    decreases |s|
  {
    if s != [] {
      InsertNeutral(x, s[1..], cmp);
      assert s == [s[0]] + s[1..];
    }
  }

  lemma SameElementsSameIds(a: seq<Pairable>, b: seq<Pairable>)
    requires multiset(a) == multiset(b)
    ensures Ids(a) == Ids(b)
    ensures forall p :: p in a <==> p in b
  {
    assert forall p :: p in a <==> p in multiset(a);
    assert forall p :: p in b <==> p in multiset(b);
  }

  lemma DistinctCons(a: Pairable, t: seq<Pairable>)
    ensures DistinctIds([a] + t) <==> DistinctIds(t) && a.id !in Ids(t)
  {
    var s := [a] + t;
    if DistinctIds(s) {
      assert DistinctIds(t) by {
        forall i, j | 0 <= i < j < |t| ensures t[i].id != t[j].id { assert t[i] == s[i + 1] && t[j] == s[j + 1]; }
      }
      forall q | q in t ensures q.id != a.id {
        var j :| 0 <= j < |t| && t[j] == q;
        assert s[0] == a && s[j + 1] == q;
      }
    }
    if DistinctIds(t) && a.id !in Ids(t) {
      forall i, j | 0 <= i < j < |s| ensures s[i].id != s[j].id {
        if i == 0 { assert s[j] in t; } else { assert s[i] == t[i - 1] && s[j] == t[j - 1]; }
      }
    }
  }

  lemma {:induction false} InsertKeepsDistinct(x: Pairable, s: seq<Pairable>, cmp: (Pairable, Pairable) -> int)
    requires DistinctIds(s) && x.id !in Ids(s)
    ensures DistinctIds(Insert(x, s, cmp))
    decreases |s|
  {
    if s == [] {
    } else if cmp(s[0], x) > 0 {
      DistinctCons(x, s);
    } else {
      assert s == [s[0]] + s[1..];
      DistinctCons(s[0], s[1..]);
      assert Ids(s[1..]) <= Ids(s);
      InsertKeepsDistinct(x, s[1..], cmp);
      var rest := Insert(x, s[1..], cmp);
      SameElementsSameIds(rest, s[1..] + [x]);
      assert Ids(s[1..] + [x]) == Ids(s[1..]) + {x.id};
      DistinctCons(s[0], rest);
    }
  }

  /** Sorting a pool with distinct ids gives a pool with distinct ids. */
  lemma {:induction false} SortKeepsDistinct(s: seq<Pairable>, cmp: (Pairable, Pairable) -> int)
    requires DistinctIds(s)
    ensures DistinctIds(SortWith(s, cmp))
    decreases |s|
  {
    if s != [] {
      var front := s[..|s| - 1];
      SortKeepsDistinct(front, cmp);
      SameElementsSameIds(SortWith(front, cmp), front);
      assert s[|s| - 1].id !in Ids(front);
      InsertKeepsDistinct(s[|s| - 1], SortWith(front, cmp), cmp);
    }
  }

  /** The contract of a Kotlin `Comparator`: opposite signs when the arguments swap, and transitive. */
  ghost predicate IsComparator(cmp: (Pairable, Pairable) -> int) {
    && (forall p, q :: cmp(p, q) < 0 <==> cmp(q, p) > 0)
    && (forall p, q, o :: cmp(p, q) <= 0 && cmp(q, o) <= 0 ==> cmp(p, o) <= 0)
  }

  ghost predicate Sorted(s: seq<Pairable>, cmp: (Pairable, Pairable) -> int) {
    forall i, j :: 0 <= i < j < |s| ==> cmp(s[i], s[j]) <= 0
  }

  /** The elements of `s` that compare equal to `pivot`, in their order in `s`. */
  function Equivalents(s: seq<Pairable>, cmp: (Pairable, Pairable) -> int, pivot: Pairable): seq<Pairable>
    decreases |s|
  {
    if s == [] then [] else (if cmp(s[0], pivot) == 0 then [s[0]] else []) + Equivalents(s[1..], cmp, pivot)
  }

  lemma {:induction false} EquivalentsAppend(a: seq<Pairable>, b: seq<Pairable>, cmp: (Pairable, Pairable) -> int, pivot: Pairable)
    ensures Equivalents(a + b, cmp, pivot) == Equivalents(a, cmp, pivot) + Equivalents(b, cmp, pivot)
    decreases |a|
  {
    if a == [] {
      assert a + b == b;
    } else {
      assert (a + b)[0] == a[0] && (a + b)[1..] == a[1..] + b;
      EquivalentsAppend(a[1..], b, cmp, pivot);
    }
  }

  lemma {:induction false} NoEquivalents(s: seq<Pairable>, cmp: (Pairable, Pairable) -> int, pivot: Pairable)
    requires forall k :: 0 <= k < |s| ==> cmp(s[k], pivot) != 0
    ensures Equivalents(s, cmp, pivot) == []
    decreases |s|
  {
    if s != [] {
      NoEquivalents(s[1..], cmp, pivot);
    }
  }

  /** Inserting into a sorted sequence keeps it sorted. */
  lemma {:induction false} InsertSorted(x: Pairable, s: seq<Pairable>, cmp: (Pairable, Pairable) -> int)
    requires IsComparator(cmp) && Sorted(s, cmp)
    ensures Sorted(Insert(x, s, cmp), cmp)
    decreases |s|
  {
    if s == [] {
    } else if cmp(s[0], x) > 0 {
      forall k | 0 <= k < |s| ensures cmp(x, s[k]) <= 0 {
        assert k == 0 || cmp(s[0], s[k]) <= 0;
      }
      ConsSorted(x, s, cmp);
    } else {
      InsertSorted(x, s[1..], cmp);
      var rest := Insert(x, s[1..], cmp);
      forall k | 0 <= k < |rest| ensures cmp(s[0], rest[k]) <= 0 {
        assert rest[k] in multiset(rest);
        assert rest[k] == x || rest[k] in s[1..];
      }
      ConsSorted(s[0], rest, cmp);
    }
  }

  lemma ConsSorted(y: Pairable, s: seq<Pairable>, cmp: (Pairable, Pairable) -> int)
    requires Sorted(s, cmp) && forall k :: 0 <= k < |s| ==> cmp(y, s[k]) <= 0
    ensures Sorted([y] + s, cmp)
  {
    var r := [y] + s;
    forall i, j | 0 <= i < j < |r| ensures cmp(r[i], r[j]) <= 0 {
      assert r[j] == s[j - 1];
      assert i == 0 || r[i] == s[i - 1];
    }
  }

  /** Nothing in a sorted sequence that starts above `x` is equivalent to `x`. */
  lemma AboveHasNoEquivalents(x: Pairable, s: seq<Pairable>, cmp: (Pairable, Pairable) -> int, pivot: Pairable)
    requires IsComparator(cmp) && Sorted(s, cmp)
    requires s != [] && cmp(s[0], x) > 0 && cmp(x, pivot) == 0
    ensures Equivalents(s, cmp, pivot) == []
  {
    forall k | 0 <= k < |s| ensures cmp(s[k], pivot) != 0 {
      assert k == 0 || cmp(s[0], s[k]) <= 0;
      assert cmp(x, s[k]) < 0;
    }
    NoEquivalents(s, cmp, pivot);
  }

  /** Inserting into a sorted sequence puts `x` after every element equivalent to it. */
  lemma {:induction false} InsertEquivalents(x: Pairable, s: seq<Pairable>, cmp: (Pairable, Pairable) -> int, pivot: Pairable)
    requires IsComparator(cmp) && Sorted(s, cmp)
    ensures Equivalents(Insert(x, s, cmp), cmp, pivot) == Equivalents(s, cmp, pivot) + Equivalents([x], cmp, pivot)
    decreases |s|
  {
    if s == [] {
      assert Insert(x, s, cmp) == [x];
    } else if cmp(s[0], x) > 0 {
      assert Insert(x, s, cmp) == [x] + s;
      FrontEquivalents(x, s, cmp, pivot);
    } else {
      var rest := Insert(x, s[1..], cmp);
      assert Insert(x, s, cmp) == [s[0]] + rest;
      SortedTail(s, cmp);
      InsertEquivalents(x, s[1..], cmp, pivot);
      ConsEquivalents(s[0], s[1..], rest, x, cmp, pivot);
      assert s == [s[0]] + s[1..];
    }
  }

  lemma FrontEquivalents(x: Pairable, s: seq<Pairable>, cmp: (Pairable, Pairable) -> int, pivot: Pairable)
    requires IsComparator(cmp) && Sorted(s, cmp)
    requires s != [] && cmp(s[0], x) > 0
    ensures Equivalents([x] + s, cmp, pivot) == Equivalents(s, cmp, pivot) + Equivalents([x], cmp, pivot)
  {
    EquivalentsAppend([x], s, cmp, pivot);
    if cmp(x, pivot) == 0 {
      AboveHasNoEquivalents(x, s, cmp, pivot);
    } else {
      assert [x][1..] == [];
    }
  }

  lemma ConsEquivalents(y: Pairable, t: seq<Pairable>, u: seq<Pairable>, x: Pairable, cmp: (Pairable, Pairable) -> int, pivot: Pairable)
    requires Equivalents(u, cmp, pivot) == Equivalents(t, cmp, pivot) + Equivalents([x], cmp, pivot)
    ensures Equivalents([y] + u, cmp, pivot) == Equivalents([y] + t, cmp, pivot) + Equivalents([x], cmp, pivot)
  {
    EquivalentsAppend([y], t, cmp, pivot);
    EquivalentsAppend([y], u, cmp, pivot);
  }

  lemma SortedTail(s: seq<Pairable>, cmp: (Pairable, Pairable) -> int)
    requires Sorted(s, cmp) && s != []
    ensures Sorted(s[1..], cmp)
  {
    forall i, j | 0 <= i < j < |s| - 1 ensures cmp(s[1..][i], s[1..][j]) <= 0 {
      assert s[1..][i] == s[i + 1] && s[1..][j] == s[j + 1];
    }
  }

  /** With a comparator that keeps its contract, the result is in comparator order ... */
  lemma {:induction false} SortWithSorted(s: seq<Pairable>, cmp: (Pairable, Pairable) -> int)
    requires IsComparator(cmp)
    ensures Sorted(SortWith(s, cmp), cmp)
    decreases |s|
  {
    if s != [] {
      SortWithSorted(s[..|s| - 1], cmp);
      InsertSorted(s[|s| - 1], SortWith(s[..|s| - 1], cmp), cmp);
    }
  }

  /** ... and the sort is stable: elements that compare equal keep their order. */
  lemma {:induction false} SortWithStable(s: seq<Pairable>, cmp: (Pairable, Pairable) -> int, pivot: Pairable)
    requires IsComparator(cmp)
    ensures Equivalents(SortWith(s, cmp), cmp, pivot) == Equivalents(s, cmp, pivot)
    decreases |s|
  {
    if s != [] {
      var front := s[..|s| - 1];
      SortWithStable(front, cmp, pivot);
      SortWithSorted(front, cmp);
      InsertEquivalents(s[|s| - 1], SortWith(front, cmp), cmp, pivot);
      assert s == front + [s[|s| - 1]];
      EquivalentsAppend(front, [s[|s| - 1]], cmp, pivot);
    }
  }

  /** `mapIndexed { i, p -> p.id to i }.toMap()`: a later index wins for a repeated id. */
  function IndexMap(s: seq<Pairable>): map<int, int>
    decreases |s|
  {
    if s == [] then map[] else IndexMap(s[..|s| - 1])[s[|s| - 1].id := |s| - 1]
  }

  lemma {:induction false} IndexMapDomain(s: seq<Pairable>)
    ensures IndexMap(s).Keys == Ids(s)
    ensures forall k :: k in IndexMap(s) ==> 0 <= IndexMap(s)[k] < |s| && s[IndexMap(s)[k]].id == k
    decreases |s|
  {
    if s != [] {
      IndexMapDomain(s[..|s| - 1]);
      assert s == s[..|s| - 1] + [s[|s| - 1]];
      assert Ids(s) == Ids(s[..|s| - 1]) + {s[|s| - 1].id};
    }
  }

  lemma {:induction false} IndexMapOfDistinct(s: seq<Pairable>, i: int)
    requires DistinctIds(s) && 0 <= i < |s|
    ensures s[i].id in IndexMap(s) && IndexMap(s)[s[i].id] == i
    decreases |s|
  {
    if i < |s| - 1 {
      IndexMapOfDistinct(s[..|s| - 1], i);
    }
  }

  /** `Pairable.place`: an index of the sorted pool holding the pairable's id;
      `None` stands for the `!!` failure on an id outside the pool. */
  function Place(sorted: seq<Pairable>, p: Pairable): (r: Option<int>)
    ensures r.Some? <==> p.id in Ids(sorted)
    ensures r.Some? ==> 0 <= r.value < |sorted| && sorted[r.value].id == p.id
  {
    IndexMapDomain(sorted);
    var m := IndexMap(sorted);
    if p.id in m then Some(m[p.id]) else None
  }

  /** In a list with distinct ids, a member's place is the index that holds it. */
  lemma PlaceOfMember(sorted: seq<Pairable>, p: Pairable)
    requires DistinctIds(sorted) && p in sorted
    ensures Place(sorted, p).Some? && 0 <= Place(sorted, p).value < |sorted| && sorted[Place(sorted, p).value] == p
  {
    var i :| 0 <= i < |sorted| && sorted[i] == p;
    IndexMapOfDistinct(sorted, i);
  }

  /** Places in a list with distinct ids that holds the pool's members, as many as the pool has. */
  lemma PlaceBijectionOn(sorted: seq<Pairable>, pool: seq<Pairable>)
    requires DistinctIds(sorted) && |sorted| == |pool|
    requires forall p :: p in pool <==> p in sorted
    ensures forall p :: p in pool ==> Place(sorted, p).Some? && 0 <= Place(sorted, p).value < |pool|
    ensures forall p, q :: p in pool && q in pool && Place(sorted, p) == Place(sorted, q) ==> p == q
    ensures forall k :: 0 <= k < |pool| ==> sorted[k] in pool && Place(sorted, sorted[k]) == Some(k)
  {
    forall p | p in pool ensures Place(sorted, p).Some? && 0 <= Place(sorted, p).value < |pool| {
      PlaceOfMember(sorted, p);
    }
    forall p, q | p in pool && q in pool && Place(sorted, p) == Place(sorted, q) ensures p == q {
      PlaceOfMember(sorted, p);
      PlaceOfMember(sorted, q);
    }
    forall k | 0 <= k < |pool| ensures sorted[k] in pool && Place(sorted, sorted[k]) == Some(k) {
      IndexMapOfDistinct(sorted, k);
    }
  }

  /** For a pool with distinct ids, `place` maps the pool one-to-one onto 0..n-1, whatever the comparator. */
  lemma PlaceIsBijection(pool: seq<Pairable>, cmp: (Pairable, Pairable) -> int)
    requires DistinctIds(pool)
    ensures forall p :: p in pool ==> Place(SortWith(pool, cmp), p).Some? && 0 <= Place(SortWith(pool, cmp), p).value < |pool|
    ensures forall p, q :: p in pool && q in pool && Place(SortWith(pool, cmp), p) == Place(SortWith(pool, cmp), q) ==> p == q
    ensures |SortWith(pool, cmp)| == |pool|
    ensures forall k :: 0 <= k < |pool| ==> SortWith(pool, cmp)[k] in pool && Place(SortWith(pool, cmp), SortWith(pool, cmp)[k]) == Some(k)
  {
    var sorted := SortWith(pool, cmp);
    SortKeepsDistinct(pool, cmp);
    SameElementsSameIds(sorted, pool);
    assert |sorted| == |pool| by { assert |multiset(sorted)| == |multiset(pool)|; }
    PlaceBijectionOn(sorted, pool);
  }

  /** With the default comparator, a pairable's place is its index in the pool. */
  lemma DefaultPlaceIsIndex(pool: seq<Pairable>, i: int)
    requires DistinctIds(pool) && 0 <= i < |pool|
    ensures Place(SortWith(pool, DefaultSort), pool[i]) == Some(i)
  {
    SortWithNeutralIsIdentity(pool, DefaultSort);
    IndexMapOfDistinct(pool, i);
  }

  /** `groupBy { it.score }[score]`: the pairables of that score, in sorted order. */
  function Group(h: seq<Game>, s: seq<Pairable>, score: int): seq<Pairable>
    decreases |s|
  {
    if s == [] then []
    else (if Score(h, s[0].id) == score then [s[0]] else []) + Group(h, s[1..], score)
  }

  lemma {:induction false} GroupMembers(h: seq<Game>, s: seq<Pairable>, score: int)
    ensures forall q :: q in Group(h, s, score) <==> q in s && Score(h, q.id) == score
    decreases |s|
  {
    if s != [] {
      GroupMembers(h, s[1..], score);
      assert s == [s[0]] + s[1..];
    }
  }

  /** `Pairable.placeInGroup`: the index among the pairables of equal score, and their number. */
  function PlaceInGroup(h: seq<Game>, sorted: seq<Pairable>, p: Pairable): (r: Option<(int, int)>)
    ensures r.Some? <==> p.id in Ids(sorted)
    ensures r.Some? ==> 0 <= r.value.0 < r.value.1 == |Group(h, sorted, Score(h, p.id))|
    ensures r.Some? ==> Group(h, sorted, Score(h, p.id))[r.value.0].id == p.id
  {
    var g := Group(h, sorted, Score(h, p.id));
    IndexMapDomain(g);
    GroupHoldsId(h, sorted, p);
    var m := IndexMap(g);
    if p.id in m then Some((m[p.id], |g|)) else None
  }

  /** The group of a pairable's score holds its id exactly when the pool does. */
  lemma GroupHoldsId(h: seq<Game>, sorted: seq<Pairable>, p: Pairable)
    ensures p.id in Ids(sorted) <==> p.id in Ids(Group(h, sorted, Score(h, p.id)))
  {
    GroupMembers(h, sorted, Score(h, p.id));
    if p.id in Ids(sorted) {
      var q :| q in sorted && q.id == p.id;
      assert q in Group(h, sorted, Score(h, p.id));
    }
  }

  // ---------------------------------------------------------------------------
  // The weighted graph and the games of a matching

  datatype Edge = Edge(source: Pairable, target: Pairable, weight: real)

  /** The edge from `pool[a]` to `pool[b]`, weighted by `weight(pool[a], pool[b])`. */
  function EdgeAt(pool: seq<Pairable>, weight: (Pairable, Pairable) -> real, a: int, b: int): Edge
    requires 0 <= a < |pool| && 0 <= b < |pool|
  {
    Edge(pool[a], pool[b], weight(pool[a], pool[b]))
  }

  /** The edges the inner loop adds for row `i`, up to (excluding) column `hi`. */
  function RowEdges(pool: seq<Pairable>, weight: (Pairable, Pairable) -> real, i: int, hi: int): seq<Edge>
    requires 0 <= i < |pool| && hi <= |pool|
    decreases hi
  {
    if hi <= i + 1 then []
    else RowEdges(pool, weight, i, hi - 1) + [EdgeAt(pool, weight, i, hi - 1), EdgeAt(pool, weight, hi - 1, i)]
  }

  /** The edges of the rows before `lo`. */
  function GraphEdges(pool: seq<Pairable>, weight: (Pairable, Pairable) -> real, lo: int): seq<Edge>
    requires 0 <= lo <= |pool|
    decreases lo
  {
    if lo == 0 then [] else GraphEdges(pool, weight, lo - 1) + RowEdges(pool, weight, lo - 1, |pool|)
  }

  lemma {:induction false} RowEdgesFacts(pool: seq<Pairable>, weight: (Pairable, Pairable) -> real, i: int, hi: int)
    requires 0 <= i < |pool| && hi <= |pool|
    ensures |RowEdges(pool, weight, i, hi)| == if hi <= i + 1 then 0 else 2 * (hi - i - 1)
    ensures forall e :: e in RowEdges(pool, weight, i, hi) <==>
      exists j :: i < j < hi && (e == EdgeAt(pool, weight, i, j) || e == EdgeAt(pool, weight, j, i))
    decreases hi
  {
    if hi > i + 1 {
      RowEdgesFacts(pool, weight, i, hi - 1);
      var prev := RowEdges(pool, weight, i, hi - 1);
      var last := [EdgeAt(pool, weight, i, hi - 1), EdgeAt(pool, weight, hi - 1, i)];
      assert RowEdges(pool, weight, i, hi) == prev + last;
      forall e ensures e in RowEdges(pool, weight, i, hi) <==>
        exists j :: i < j < hi && (e == EdgeAt(pool, weight, i, j) || e == EdgeAt(pool, weight, j, i))
      {
        if e in prev {
          var j :| i < j < hi - 1 && (e == EdgeAt(pool, weight, i, j) || e == EdgeAt(pool, weight, j, i));
          assert i < j < hi;
        } else if e in last {
          assert i < hi - 1 < hi;
        }
      }
    }
  }

  lemma {:induction false} GraphEdgesFacts(pool: seq<Pairable>, weight: (Pairable, Pairable) -> real, lo: int)
    requires 0 <= lo <= |pool|
    ensures |GraphEdges(pool, weight, lo)| == lo * (2 * |pool| - lo - 1)
    ensures forall e :: e in GraphEdges(pool, weight, lo) <==>
      exists i, j :: 0 <= i < lo && i < j < |pool| && (e == EdgeAt(pool, weight, i, j) || e == EdgeAt(pool, weight, j, i))
    decreases lo
  {
    if lo > 0 {
      var n := |pool|;
      GraphEdgesFacts(pool, weight, lo - 1);
      RowEdgesFacts(pool, weight, lo - 1, n);
      assert (lo - 1) * (2 * n - (lo - 1) - 1) + 2 * (n - lo) == lo * (2 * n - lo - 1);
    }
  }

  /** Two positions of the pool hold the same pairable, so the graph would need a loop edge. */
  predicate HasRepeat(pool: seq<Pairable>) {
    exists i, j :: 0 <= i < j < |pool| && pool[i] == pool[j]
  }

  /** What a simple directed graph says when asked for an edge from a vertex to itself. */
  const LOOPS_NOT_ALLOWED := "loops not allowed"

  /**
   * The nested loop of `pair()`: for every two indices i < j, the edge p -> q
   * weighted `weight(p, q)` and the edge q -> p weighted `weight(q, p)`. The
   * simple graph refuses the first edge whose two ends are the same pairable.
   */
  method BuildEdges(pool: seq<Pairable>, weight: (Pairable, Pairable) -> real) returns (r: Result<seq<Edge>>)
    ensures r.Err? <==> HasRepeat(pool)
    ensures r.Err? ==> r.error == LOOPS_NOT_ALLOWED
    ensures r.Ok? ==> r.value == GraphEdges(pool, weight, |pool|)
    ensures r.Ok? ==> |r.value| == |pool| * (|pool| - 1)
    ensures r.Ok? ==> forall i, j :: 0 <= i < j < |pool| ==> EdgeAt(pool, weight, i, j) in r.value && EdgeAt(pool, weight, j, i) in r.value
    ensures r.Ok? ==> forall e :: e in r.value ==> exists i, j :: 0 <= i < |pool| && 0 <= j < |pool| && i != j && e == EdgeAt(pool, weight, i, j)
    ensures r.Ok? ==> forall e :: e in r.value ==> e.source != e.target
  {
    var n := |pool|;
    var edges := [];
    for i := 0 to n
      invariant edges == GraphEdges(pool, weight, i)
      invariant forall a, b :: 0 <= a < i && a < b < n ==> pool[a] != pool[b]
    {
      for j := i + 1 to n
        invariant edges == GraphEdges(pool, weight, i) + RowEdges(pool, weight, i, j)
        invariant forall b :: i < b < j ==> pool[i] != pool[b]
      {
        var p := pool[i];
        var q := pool[j];
        if p == q {
          return Err(LOOPS_NOT_ALLOWED);
        }
        edges := edges + [Edge(p, q, weight(p, q))];
        edges := edges + [Edge(q, p, weight(q, p))];
      }
    }
    CompleteGraph(pool, weight);
    r := Ok(edges);
  }

  /** The complete graph on a pool without repeats: every ordered pair of positions, and no loop edge. */
  lemma CompleteGraph(pool: seq<Pairable>, weight: (Pairable, Pairable) -> real)
    requires !HasRepeat(pool)
    ensures |GraphEdges(pool, weight, |pool|)| == |pool| * (|pool| - 1)
    ensures forall i, j :: 0 <= i < j < |pool| ==>
      EdgeAt(pool, weight, i, j) in GraphEdges(pool, weight, |pool|) && EdgeAt(pool, weight, j, i) in GraphEdges(pool, weight, |pool|)
    ensures forall e :: e in GraphEdges(pool, weight, |pool|) ==>
      exists i, j :: 0 <= i < |pool| && 0 <= j < |pool| && i != j && e == EdgeAt(pool, weight, i, j)
    ensures forall e :: e in GraphEdges(pool, weight, |pool|) ==> e.source != e.target
  {
    var n := |pool|;
    var edges := GraphEdges(pool, weight, n);
    GraphEdgesFacts(pool, weight, n);
    forall i, j | 0 <= i < j < n ensures EdgeAt(pool, weight, i, j) in edges && EdgeAt(pool, weight, j, i) in edges {
    }
    forall e | e in edges ensures e.source != e.target {
      var i, j :| 0 <= i < n && i < j < n && (e == EdgeAt(pool, weight, i, j) || e == EdgeAt(pool, weight, j, i));
      assert pool[i] != pool[j];
    }
  }

  /** `solution.map { Game(nextGameId, source.id, target.id) }`, game ids drawn in order from `firstGameId`. */
  function GamesOf(solution: seq<Edge>, firstGameId: int): (r: seq<Game>)
    ensures |r| == |solution|
    ensures forall a, b :: 0 <= a < b < |r| ==> r[a].id < r[b].id
    ensures forall k :: 0 <= k < |r| ==> firstGameId <= r[k].id < firstGameId + |r|
    ensures forall k :: 0 <= k < |r| ==> r[k].black == solution[k].source.id && r[k].white == solution[k].target.id
    ensures forall k :: 0 <= k < |r| ==> r[k].result == OtherResult
  {
    seq(|solution|, k requires 0 <= k < |solution| => Game(firstGameId + k, solution[k].source.id, solution[k].target.id, OtherResult))
  }

  const ODD_POOL := "expecting an even number of pairables"

  /**
   * `pair()`: refuses an odd pool, builds the complete graph (which fails on a
   * pairable present twice), asks the matching for its solution, and turns each
   * chosen edge into a game.
   */
  method Pair(pool: seq<Pairable>, weight: (Pairable, Pairable) -> real, matching: seq<Edge> -> seq<Edge>, firstGameId: int)
    returns (r: Result<seq<Game>>)
    ensures r.Err? <==> |pool| % 2 != 0 || HasRepeat(pool)
    ensures r.Err? ==> r.error == if |pool| % 2 != 0 then ODD_POOL else LOOPS_NOT_ALLOWED
    ensures r.Ok? ==> r.value == GamesOf(matching(GraphEdges(pool, weight, |pool|)), firstGameId)
  {
    if |pool| % 2 != 0 {
      return Err(ODD_POOL);
    }
    var edges := BuildEdges(pool, weight);
    if edges.Err? {
      return Err(edges.error);
    }
    var solution := matching(edges.value);
    r := Ok(GamesOf(solution, firstGameId));
  }

  /** The matching returns only edges it was given. */
  predicate ChoosesAmong(solution: seq<Edge>, edges: seq<Edge>) {
    forall e :: e in solution ==> e in edges
  }

  /**
   * Games from a matching whose edges join pool members: one per chosen edge, black the
   * edge's source and white its target, two different members of the pool,
   * fresh consecutive ids and no result yet.
   */
  lemma MatchedGames(pool: seq<Pairable>, solution: seq<Edge>, firstGameId: int)
    requires forall e :: e in solution ==> JoinsPool(pool, e)
    ensures |GamesOf(solution, firstGameId)| == |solution|
    ensures forall k :: 0 <= k < |solution| ==> MatchedGame(pool, solution[k], GamesOf(solution, firstGameId)[k], firstGameId + k)
  {
    forall k | 0 <= k < |solution|
      ensures MatchedGame(pool, solution[k], GamesOf(solution, firstGameId)[k], firstGameId + k)
    {
      assert solution[k] in solution;
    }
  }

  /** Game `g` is the game of edge `e`, numbered `id`, between two different pool members. */
  predicate MatchedGame(pool: seq<Pairable>, e: Edge, g: Game, id: int) {
    && g.id == id
    && g.black == e.source.id
    && g.white == e.target.id
    && g.result == OtherResult
    && g.black in Ids(pool) && g.white in Ids(pool)
    && g.black != g.white
  }

  /** Edge `e` joins two members of the pool with different ids. */
  predicate JoinsPool(pool: seq<Pairable>, e: Edge) {
    e.source in pool && e.target in pool && e.source.id != e.target.id
  }

  /** A matching that chooses among the built edges chooses edges joining two different pool members. */
  lemma ChosenEdgesJoinPool(pool: seq<Pairable>, weight: (Pairable, Pairable) -> real, solution: seq<Edge>)
    requires DistinctIds(pool)
    requires ChoosesAmong(solution, GraphEdges(pool, weight, |pool|))
    ensures forall e :: e in solution ==> JoinsPool(pool, e)
  {
    forall e | e in solution ensures JoinsPool(pool, e) {
      GraphEdgeEnds(pool, weight, e);
    }
  }

  /** Every edge of the built graph joins two different members of the pool. */
  lemma GraphEdgeEnds(pool: seq<Pairable>, weight: (Pairable, Pairable) -> real, e: Edge)
    requires DistinctIds(pool)
    requires e in GraphEdges(pool, weight, |pool|)
    ensures e.source in pool && e.target in pool && e.source.id != e.target.id
  {
    GraphEdgesFacts(pool, weight, |pool|);
    var i, j :| 0 <= i < |pool| && i < j < |pool| && (e == EdgeAt(pool, weight, i, j) || e == EdgeAt(pool, weight, j, i));
    assert pool[i] in pool && pool[j] in pool;
  }
}
