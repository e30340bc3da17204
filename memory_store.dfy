/** The in-memory store of tournaments, keyed by tournament id. */
module MemoryStore {
  import opened Wrappers
  import opened Text
  import opened Tournaments

  function AlreadyExists(id: int): string {
    "tournament id #" + IntToString(id) + " already exists"
  }

  function NotKnown(id: int): string {
    "tournament id #" + IntToString(id) + " not known"
  }

  class Store {
    var tournaments: map<int, Tournament>

    constructor ()
      ensures tournaments == map[]
    {
      tournaments := map[];
    }

    /** `getTournamentsIDs()` */
    function TournamentIds(): (ids: set<int>)
      reads this
      ensures ids == tournaments.Keys
    {
      tournaments.Keys
    }

    /** `getTournament(id)`: `None` for an unknown id. */
    function GetTournament(id: int): (r: Option<Tournament>)
      reads this
      ensures r.Some? <==> id in TournamentIds()
      ensures r.Some? ==> r.value == tournaments[id]
    {
      if id in tournaments then Some(tournaments[id]) else None
    }

    /** `addTournament`: refuses a known id; otherwise files the tournament under its id, nothing else changing. */
    method AddTournament(t: Tournament) returns (r: Outcome)
      modifies this
      ensures (r, tournaments) == Added(old(tournaments), t)
      ensures r != Pass ==> r == Fail(AlreadyExists(t.config.id))
      ensures r == Pass ==> GetTournament(t.config.id) == Some(t)
      ensures forall id :: id != t.config.id ==> GetTournament(id) == old(GetTournament(id))
    {
      if t.config.id in tournaments {
        return Fail(AlreadyExists(t.config.id));
      }
      tournaments := tournaments[t.config.id := t];
      r := Pass;
    }

    /** `replaceTournament`: refuses an unknown id; otherwise overwrites that entry only, the ids staying the same. */
    method ReplaceTournament(t: Tournament) returns (r: Outcome)
      modifies this
      ensures (r, tournaments) == Replaced(old(tournaments), t)
      ensures r != Pass ==> r == Fail(NotKnown(t.config.id))
      ensures TournamentIds() == old(TournamentIds())
      ensures forall id :: id != t.config.id ==> GetTournament(id) == old(GetTournament(id))
    {
      if t.config.id !in tournaments {
        return Fail(NotKnown(t.config.id));
      }
      tournaments := tournaments[t.config.id := t];
      r := Pass;
    }

    /** `deleteTournament`: refuses an unknown id; otherwise removes exactly that entry. */
    method DeleteTournament(t: Tournament) returns (r: Outcome)
      modifies this
      ensures (r, tournaments) == Deleted(old(tournaments), t)
      ensures r != Pass ==> r == Fail(NotKnown(t.config.id))
      ensures TournamentIds() == old(TournamentIds()) - {t.config.id}
      ensures forall id :: id != t.config.id ==> GetTournament(id) == old(GetTournament(id))
    {
      if t.config.id !in tournaments {
        return Fail(NotKnown(t.config.id));
      }
      tournaments := tournaments - {t.config.id};
      r := Pass;
    }
  }

  /** The store operations on the map of tournaments: the outcome and the new map. */
  function Added(m: map<int, Tournament>, t: Tournament): (r: (Outcome, map<int, Tournament>))
    ensures r.0 == Pass <==> t.config.id !in m
    ensures r.0 == Pass ==> r.1 == m[t.config.id := t]
    ensures r.0 != Pass ==> r.1 == m
  {
    if t.config.id in m then (Fail(AlreadyExists(t.config.id)), m) else (Pass, m[t.config.id := t])
  }

  function Replaced(m: map<int, Tournament>, t: Tournament): (r: (Outcome, map<int, Tournament>))
    ensures r.0 == Pass <==> t.config.id in m
    ensures r.0 == Pass ==> r.1 == m[t.config.id := t] && r.1.Keys == m.Keys
    ensures r.0 != Pass ==> r.1 == m
  {
    if t.config.id !in m then (Fail(NotKnown(t.config.id)), m) else (Pass, m[t.config.id := t])
  }

  function Deleted(m: map<int, Tournament>, t: Tournament): (r: (Outcome, map<int, Tournament>))
    ensures r.0 == Pass <==> t.config.id in m
    ensures r.0 == Pass ==> r.1 == m - {t.config.id}
    ensures r.0 != Pass ==> r.1 == m
  {
    if t.config.id !in m then (Fail(NotKnown(t.config.id)), m) else (Pass, m - {t.config.id})
  }

  /** Adding then deleting a tournament under a fresh id gives back the store as it was; adding twice fails the second time. */
  lemma AddDeleteRoundTrip(m: map<int, Tournament>, t: Tournament)
    requires t.config.id !in m
    ensures Deleted(Added(m, t).1, t) == (Pass, m)
    ensures Added(Added(m, t).1, t).0 == Fail(AlreadyExists(t.config.id))
  {
    assert m[t.config.id := t] - {t.config.id} == m;
  }
}
