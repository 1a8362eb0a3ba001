/**
 * The relational entity store of the application: the tables User, Phase,
 * Aspect, Villain, Hero and Result, their UNIQUE and FOREIGN KEY
 * constraints, the back-populated relationship lists, the directed
 * hero-versus-villain lookup and the HTML cell that renders a verdict.
 */
module Models {
  import opened Wrappers
  import opened Tables

  // ---------------------------------------------------------------------
  // Rows
  // ---------------------------------------------------------------------

  /** A user account; the password hash is produced outside the model. */
  datatype User = User(username: string, email: string, passwordHash: Option<string>)

  /** A release phase of the game. */
  datatype Phase = Phase(phasename: string)

  /** A deck-building aspect. */
  datatype Aspect = Aspect(name: string)

  /** A villain, belonging to one phase. */
  datatype Villain = Villain(name: string, phaseId: nat)

  /** A hero, belonging to one phase and defaulting to one aspect. */
  datatype Hero = Hero(name: string, phaseId: nat, aspectId: nat)

  /** The possible outcomes of a game. */
  datatype ResultTypes = WIN | LOSS

  const WinCell: string := "<td bgcolor=\"#00ff00\">W</td>"
  const LossCell: string := "<td bgcolor=\"#ff0000\">L</td>"
  const EmptyCell: string := "<td></td>"

  /**
   * One game of a hero against a villain. The verdict is `None` only on a
   * row that has not been given one; the store never holds such a row.
   */
  datatype Result = Result(heroId: nat, villainId: nat, result: Option<ResultTypes>)
  {
    /** The table cell showing this verdict: green W, red L, or an empty cell. */
    function AsCell(): (cell: string)
      ensures cell == WinCell || cell == LossCell || cell == EmptyCell
    {
      match result
      case Some(WIN) => WinCell
      case Some(LOSS) => LossCell
      case _ => EmptyCell
    }
  }

  /** The verdict a rendered cell shows, read back from the letter before `</td>`. */
  function CellVerdict(cell: string): (verdict: Option<ResultTypes>)
  {
    if |cell| >= 6 && cell[|cell| - 5..] == "</td>" then
      match cell[|cell| - 6]
      case 'W' => Some(WIN)
      case 'L' => Some(LOSS)
      case _ => None
    else None
  }

  /** Rendering loses nothing: the cell shows exactly the row's verdict, or none. */
  lemma AsCellShowsVerdict(r: Result)
    ensures CellVerdict(r.AsCell()) == r.result
  {
    match r.result
    case Some(WIN) =>
      assert WinCell[|WinCell| - 5..] == "</td>";
    case Some(LOSS) =>
      assert LossCell[|LossCell| - 5..] == "</td>";
    case None =>
      assert EmptyCell[|EmptyCell| - 5..] == "</td>";
  }

  /** Two rows render to the same cell exactly when they carry the same verdict. */
  lemma AsCellDistinguishesVerdicts(r: Result, s: Result)
    ensures r.AsCell() == s.AsCell() <==> r.result == s.result
  {
    AsCellShowsVerdict(r);
    AsCellShowsVerdict(s);
  }

  /** Why a write was refused. */
  datatype Error =
    | NotFound
    | DuplicateUsername
    | DuplicateEmail
    | DuplicateName
    | MissingPhase
    | MissingAspect
    | MissingHero
    | MissingVillain
    | MissingVerdict
    | StillReferenced

  // The columns that carry a UNIQUE index.
  function Username(u: User): (k: string) { u.username }
  function Email(u: User): (k: string) { u.email }
  function Phasename(p: Phase): (k: string) { p.phasename }
  function AspectName(a: Aspect): (k: string) { a.name }
  function VillainName(v: Villain): (k: string) { v.name }
  function HeroName(h: Hero): (k: string) { h.name }

  // The FOREIGN KEY constraints, one per referencing table.

  /** Every villain's phase exists. */
  ghost predicate VillainsResolve(villains: map<nat, Villain>, phases: map<nat, Phase>)
  {
    forall k :: k in villains ==> villains[k].phaseId in phases
  }

  /** Every hero's phase and aspect exist. */
  ghost predicate HeroesResolve(heroes: map<nat, Hero>, phases: map<nat, Phase>, aspects: map<nat, Aspect>)
  {
    forall k :: k in heroes ==> heroes[k].phaseId in phases && heroes[k].aspectId in aspects
  }

  /** Every result's hero and villain exist, and every result has a verdict (NOT NULL). */
  ghost predicate ResultsResolve(results: map<nat, Result>, heroes: map<nat, Hero>, villains: map<nat, Villain>)
  {
    forall k :: k in results ==>
      results[k].heroId in heroes && results[k].villainId in villains && results[k].result.Some?
  }

  // ---------------------------------------------------------------------
  // The store
  // ---------------------------------------------------------------------

  /**
   * The database: one table per entity, each a map from primary key to
   * row, and for each table the id the next inserted row receives.
   */
  class Store {
    var users: map<nat, User>
    var phases: map<nat, Phase>
    var aspects: map<nat, Aspect>
    var villains: map<nat, Villain>
    var heroes: map<nat, Hero>
    var results: map<nat, Result>
    var nextUserId: nat
    var nextPhaseId: nat
    var nextAspectId: nat
    var nextVillainId: nat
    var nextHeroId: nat
    var nextResultId: nat

    /** Every stored id was handed out by its table's counter. */
    ghost predicate IdsAllocated()
      reads this
    {
      && KeysInRange(users, nextUserId)
      && KeysInRange(phases, nextPhaseId)
      && KeysInRange(aspects, nextAspectId)
      && KeysInRange(villains, nextVillainId)
      && KeysInRange(heroes, nextHeroId)
      && KeysInRange(results, nextResultId)
    }

    /** The UNIQUE columns: username, email, phasename and every name. */
    ghost predicate ColumnsUnique()
      reads this
    {
      && Unique(users, Username)
      && Unique(users, Email)
      && Unique(phases, Phasename)
      && Unique(aspects, AspectName)
      && Unique(villains, VillainName)
      && Unique(heroes, HeroName)
    }

    /** The FOREIGN KEY columns resolve, and every stored Result has a verdict. */
    ghost predicate ReferencesResolve()
      reads this
    {
      && VillainsResolve(villains, phases)
      && HeroesResolve(heroes, phases, aspects)
      && ResultsResolve(results, heroes, villains)
    }

    ghost predicate Valid()
      reads this
    {
      IdsAllocated() && ColumnsUnique() && ReferencesResolve()
    }

    /** A freshly created database: every table empty, every id counter at 1. */
    constructor ()
      ensures Valid()
      ensures users == map[] && phases == map[] && aspects == map[]
      ensures villains == map[] && heroes == map[] && results == map[]
      ensures nextUserId == 1 && nextPhaseId == 1 && nextAspectId == 1
      ensures nextVillainId == 1 && nextHeroId == 1 && nextResultId == 1
    {
      users, phases, aspects := map[], map[], map[];
      villains, heroes, results := map[], map[], map[];
      nextUserId, nextPhaseId, nextAspectId := 1, 1, 1;
      nextVillainId, nextHeroId, nextResultId := 1, 1, 1;
    }

    // --- reads -----------------------------------------------------------

    /** The villain with this id, or `None` when there is none. */
    function GetVillain(id: nat): (v: Option<Villain>)
      reads this
      ensures v == None <==> id !in villains
      ensures v.Some? ==> id in villains && v.value == villains[id]
    {
      if id in villains then Some(villains[id]) else None
    }

    /** The hero with this id, or `None` when there is none. */
    function GetHero(id: nat): (h: Option<Hero>)
      reads this
      ensures h == None <==> id !in heroes
      ensures h.Some? ==> id in heroes && h.value == heroes[id]
    {
      if id in heroes then Some(heroes[id]) else None
    }

    /** Some Result row names this villain. */
    predicate VillainReferenced(id: nat)
      reads this
    {
      exists k :: k in results && results[k].villainId == id
    }

    /** Some Result row names this hero. */
    predicate HeroReferenced(id: nat)
      reads this
    {
      exists k :: k in results && results[k].heroId == id
    }

    // --- writes ----------------------------------------------------------

    /** Adds an account; the username and the email must both be new. */
    method InsertUser(username: string, email: string, passwordHash: Option<string>)
      returns (r: Outcome<nat, Error>)
      requires Valid()
      modifies this`users, this`nextUserId
      ensures Valid()
      ensures r == if Taken(old(users), Username, username) then Err(DuplicateUsername)
                   else if Taken(old(users), Email, email) then Err(DuplicateEmail)
                   else Ok(old(nextUserId))
      ensures r.Ok? ==> users == old(users)[r.value := User(username, email, passwordHash)]
                        && nextUserId == old(nextUserId) + 1
      ensures r.Err? ==> users == old(users) && nextUserId == old(nextUserId)
    {
      if Taken(users, Username, username) {
        return Err(DuplicateUsername);
      }
      if Taken(users, Email, email) {
        return Err(DuplicateEmail);
      }
      var row := User(username, email, passwordHash);
      UniqueAfterInsert(users, Username, nextUserId, row);
      UniqueAfterInsert(users, Email, nextUserId, row);
      KeysInRangeAfterInsert(users, nextUserId, row);
      r := Ok(nextUserId);
      users := users[nextUserId := row];
      nextUserId := nextUserId + 1;
    }

    /** Stores a new password hash for an account, replacing any earlier one. */
    method SetPassword(id: nat, hash: string) returns (r: Outcome<(), Error>)
      requires Valid()
      modifies this`users
      ensures Valid()
      ensures r == if id in old(users) then Ok(()) else Err(NotFound)
      ensures r.Ok? ==> users == old(users)[id := old(users)[id].(passwordHash := Some(hash))]
      ensures r.Err? ==> users == old(users)
    {
      if id !in users {
        return Err(NotFound);
      }
      var row := users[id].(passwordHash := Some(hash));
      UniqueAfterSameKeyUpdate(users, Username, id, row);
      UniqueAfterSameKeyUpdate(users, Email, id, row);
      users := users[id := row];
      r := Ok(());
    }

    /** Adds a phase; its name must be new. */
    method InsertPhase(phasename: string) returns (r: Outcome<nat, Error>)
      requires Valid()
      modifies this`phases, this`nextPhaseId
      ensures Valid()
      ensures r == if Taken(old(phases), Phasename, phasename) then Err(DuplicateName)
                   else Ok(old(nextPhaseId))
      ensures r.Ok? ==> phases == old(phases)[r.value := Phase(phasename)]
                        && nextPhaseId == old(nextPhaseId) + 1
      ensures r.Err? ==> phases == old(phases) && nextPhaseId == old(nextPhaseId)
    {
      if Taken(phases, Phasename, phasename) {
        return Err(DuplicateName);
      }
      UniqueAfterInsert(phases, Phasename, nextPhaseId, Phase(phasename));
      KeysInRangeAfterInsert(phases, nextPhaseId, Phase(phasename));
      r := Ok(nextPhaseId);
      phases := phases[nextPhaseId := Phase(phasename)];
      nextPhaseId := nextPhaseId + 1;
    }

    /** Adds an aspect; its name must be new. */
    method InsertAspect(name: string) returns (r: Outcome<nat, Error>)
      requires Valid()
      modifies this`aspects, this`nextAspectId
      ensures Valid()
      ensures r == if Taken(old(aspects), AspectName, name) then Err(DuplicateName)
                   else Ok(old(nextAspectId))
      ensures r.Ok? ==> aspects == old(aspects)[r.value := Aspect(name)]
                        && nextAspectId == old(nextAspectId) + 1
      ensures r.Err? ==> aspects == old(aspects) && nextAspectId == old(nextAspectId)
    {
      if Taken(aspects, AspectName, name) {
        return Err(DuplicateName);
      }
      UniqueAfterInsert(aspects, AspectName, nextAspectId, Aspect(name));
      KeysInRangeAfterInsert(aspects, nextAspectId, Aspect(name));
      r := Ok(nextAspectId);
      aspects := aspects[nextAspectId := Aspect(name)];
      nextAspectId := nextAspectId + 1;
    }

    /** Adds a villain; its name must be new and its phase must exist. */
    method InsertVillain(name: string, phaseId: nat) returns (r: Outcome<nat, Error>)
      requires Valid()
      modifies this`villains, this`nextVillainId
      ensures Valid()
      ensures r == if Taken(old(villains), VillainName, name) then Err(DuplicateName)
                   else if phaseId !in phases then Err(MissingPhase)
                   else Ok(old(nextVillainId))
      ensures r.Ok? ==> villains == old(villains)[r.value := Villain(name, phaseId)]
                        && nextVillainId == old(nextVillainId) + 1
      ensures r.Err? ==> villains == old(villains) && nextVillainId == old(nextVillainId)
    {
      if Taken(villains, VillainName, name) {
        return Err(DuplicateName);
      }
      if phaseId !in phases {
        return Err(MissingPhase);
      }
      UniqueAfterInsert(villains, VillainName, nextVillainId, Villain(name, phaseId));
      KeysInRangeAfterInsert(villains, nextVillainId, Villain(name, phaseId));
      r := Ok(nextVillainId);
      villains := villains[nextVillainId := Villain(name, phaseId)];
      nextVillainId := nextVillainId + 1;
    }

    /** Replaces a villain's name and phase; the id must exist, the name must be free, the phase must exist. */
    method UpdateVillain(id: nat, name: string, phaseId: nat) returns (r: Outcome<(), Error>)
      requires Valid()
      modifies this`villains
      ensures Valid()
      ensures r == if id !in old(villains) then Err(NotFound)
                   else if TakenByOther(old(villains), VillainName, name, id) then Err(DuplicateName)
                   else if phaseId !in phases then Err(MissingPhase)
                   else Ok(())
      ensures r.Ok? ==> villains == old(villains)[id := Villain(name, phaseId)]
      ensures r.Err? ==> villains == old(villains)
    {
      if id !in villains {
        return Err(NotFound);
      }
      if TakenByOther(villains, VillainName, name, id) {
        return Err(DuplicateName);
      }
      if phaseId !in phases {
        return Err(MissingPhase);
      }
      UniqueAfterUpdate(villains, VillainName, id, Villain(name, phaseId));
      villains := villains[id := Villain(name, phaseId)];
      r := Ok(());
    }

    /** Removes a villain; refused while a Result row still names it. */
    method DeleteVillain(id: nat) returns (r: Outcome<(), Error>)
      requires Valid()
      modifies this`villains
      ensures Valid()
      ensures r == if id !in old(villains) then Err(NotFound)
                   else if VillainReferenced(id) then Err(StillReferenced)
                   else Ok(())
      ensures r.Ok? ==> villains == old(villains) - {id}
      ensures r.Err? ==> villains == old(villains)
    {
      if id !in villains {
        return Err(NotFound);
      }
      if VillainReferenced(id) {
        return Err(StillReferenced);
      }
      UniqueAfterRemove(villains, VillainName, id);
      villains := villains - {id};
      r := Ok(());
    }

    /** Adds a hero; its name must be new and its phase and aspect must exist. */
    method InsertHero(name: string, phaseId: nat, aspectId: nat) returns (r: Outcome<nat, Error>)
      requires Valid()
      modifies this`heroes, this`nextHeroId
      ensures Valid()
      ensures r == if Taken(old(heroes), HeroName, name) then Err(DuplicateName)
                   else if phaseId !in phases then Err(MissingPhase)
                   else if aspectId !in aspects then Err(MissingAspect)
                   else Ok(old(nextHeroId))
      ensures r.Ok? ==> heroes == old(heroes)[r.value := Hero(name, phaseId, aspectId)]
                        && nextHeroId == old(nextHeroId) + 1
      ensures r.Err? ==> heroes == old(heroes) && nextHeroId == old(nextHeroId)
    {
      if Taken(heroes, HeroName, name) {
        return Err(DuplicateName);
      }
      if phaseId !in phases {
        return Err(MissingPhase);
      }
      if aspectId !in aspects {
        return Err(MissingAspect);
      }
      UniqueAfterInsert(heroes, HeroName, nextHeroId, Hero(name, phaseId, aspectId));
      KeysInRangeAfterInsert(heroes, nextHeroId, Hero(name, phaseId, aspectId));
      r := Ok(nextHeroId);
      heroes := heroes[nextHeroId := Hero(name, phaseId, aspectId)];
      nextHeroId := nextHeroId + 1;
    }

    /** Replaces a hero's name, phase and aspect; the id must exist, the name must be free, both references must exist. */
    method UpdateHero(id: nat, name: string, phaseId: nat, aspectId: nat) returns (r: Outcome<(), Error>)
      requires Valid()
      modifies this`heroes
      ensures Valid()
      ensures r == if id !in old(heroes) then Err(NotFound)
                   else if TakenByOther(old(heroes), HeroName, name, id) then Err(DuplicateName)
                   else if phaseId !in phases then Err(MissingPhase)
                   else if aspectId !in aspects then Err(MissingAspect)
                   else Ok(())
      ensures r.Ok? ==> heroes == old(heroes)[id := Hero(name, phaseId, aspectId)]
      ensures r.Err? ==> heroes == old(heroes)
    {
      if id !in heroes {
        return Err(NotFound);
      }
      if TakenByOther(heroes, HeroName, name, id) {
        return Err(DuplicateName);
      }
      if phaseId !in phases {
        return Err(MissingPhase);
      }
      if aspectId !in aspects {
        return Err(MissingAspect);
      }
      UniqueAfterUpdate(heroes, HeroName, id, Hero(name, phaseId, aspectId));
      heroes := heroes[id := Hero(name, phaseId, aspectId)];
      r := Ok(());
    }

    /** Removes a hero; refused while a Result row still names it. */
    method DeleteHero(id: nat) returns (r: Outcome<(), Error>)
      requires Valid()
      modifies this`heroes
      ensures Valid()
      ensures r == if id !in old(heroes) then Err(NotFound)
                   else if HeroReferenced(id) then Err(StillReferenced)
                   else Ok(())
      ensures r.Ok? ==> heroes == old(heroes) - {id}
      ensures r.Err? ==> heroes == old(heroes)
    {
      if id !in heroes {
        return Err(NotFound);
      }
      if HeroReferenced(id) {
        return Err(StillReferenced);
      }
      UniqueAfterRemove(heroes, HeroName, id);
      heroes := heroes - {id};
      r := Ok(());
    }

    /** Records a game; the verdict must be given and both the hero and the villain must exist. */
    method InsertResult(heroId: nat, villainId: nat, verdict: Option<ResultTypes>)
      returns (r: Outcome<nat, Error>)
      requires Valid()
      modifies this`results, this`nextResultId
      ensures Valid()
      ensures r == if verdict == None then Err(MissingVerdict)
                   else if heroId !in heroes then Err(MissingHero)
                   else if villainId !in villains then Err(MissingVillain)
                   else Ok(old(nextResultId))
      ensures r.Ok? ==> results == old(results)[r.value := Result(heroId, villainId, verdict)]
                        && nextResultId == old(nextResultId) + 1
      ensures r.Err? ==> results == old(results) && nextResultId == old(nextResultId)
    {
      if verdict == None {
        return Err(MissingVerdict);
      }
      if heroId !in heroes {
        return Err(MissingHero);
      }
      if villainId !in villains {
        return Err(MissingVillain);
      }
      KeysInRangeAfterInsert(results, nextResultId, Result(heroId, villainId, verdict));
      r := Ok(nextResultId);
      results := results[nextResultId := Result(heroId, villainId, verdict)];
      nextResultId := nextResultId + 1;
    }

    // --- relationships and counts ------------------------------------------

    /** `phase.villains`: the ids of the villains of this phase, ascending. */
    function PhaseVillains(phaseId: nat): (ids: seq<nat>)
      reads this
      requires Valid()
      ensures forall k :: k in ids <==> k in villains && villains[k].phaseId == phaseId
      ensures forall i, j :: 0 <= i < j < |ids| ==> ids[i] < ids[j]
    {
      var inPhase := (v: Villain) => v.phaseId == phaseId;
      KeysBelowExactly(villains, inPhase, nextVillainId);
      KeysBelow(villains, inPhase, nextVillainId)
    }

    /** `phase.villain_count()`: how many villains belong to this phase. */
    function VillainCount(phaseId: nat): (n: nat)
      reads this
      requires Valid()
      ensures n == |set k | k in villains && villains[k].phaseId == phaseId|
    {
      var ids := PhaseVillains(phaseId);
      DistinctCount(ids);
      var members := set k | k in villains && villains[k].phaseId == phaseId;
      assert Elements(ids) == members;
      |ids|
    }

    /** `phase.heroes`: the ids of the heroes of this phase, ascending. */
    function PhaseHeroes(phaseId: nat): (ids: seq<nat>)
      reads this
      requires Valid()
      ensures forall k :: k in ids <==> k in heroes && heroes[k].phaseId == phaseId
      ensures forall i, j :: 0 <= i < j < |ids| ==> ids[i] < ids[j]
    {
      var inPhase := (h: Hero) => h.phaseId == phaseId;
      KeysBelowExactly(heroes, inPhase, nextHeroId);
      KeysBelow(heroes, inPhase, nextHeroId)
    }

    /** `aspect.heroes`: the ids of the heroes defaulting to this aspect, ascending. */
    function AspectHeroes(aspectId: nat): (ids: seq<nat>)
      reads this
      requires Valid()
      ensures forall k :: k in ids <==> k in heroes && heroes[k].aspectId == aspectId
      ensures forall i, j :: 0 <= i < j < |ids| ==> ids[i] < ids[j]
    {
      var ofAspect := (h: Hero) => h.aspectId == aspectId;
      KeysBelowExactly(heroes, ofAspect, nextHeroId);
      KeysBelow(heroes, ofAspect, nextHeroId)
    }

    // --- the hero-versus-villain lookup ---------------------------------------

    /** A Result row records a game of this hero against this villain. */
    predicate Records(k: nat, heroId: nat, villainId: nat)
      reads this
    {
      k in results && results[k].heroId == heroId && results[k].villainId == villainId
    }

    /**
     * `hero.result_vs_villain(villain)`: the id of the first Result row
     * naming this hero as hero and this villain as villain, or `None`.
     */
    function ResultVsVillain(heroId: nat, villainId: nat): (found: Option<nat>)
      reads this
      requires Valid()
      ensures found == None <==> forall k :: !Records(k, heroId, villainId)
      ensures found.Some? ==> Records(found.value, heroId, villainId)
      ensures found.Some? ==> forall k :: Records(k, heroId, villainId) ==> found.value <= k
    {
      var pair := (r: Result) => r.heroId == heroId && r.villainId == villainId;
      KeysBelowExactly(results, pair, nextResultId);
      var ks := KeysBelow(results, pair, nextResultId);
      assert forall k :: Records(k, heroId, villainId) <==> k in ks;
      if ks == [] then None else Some(ks[0])
    }

    /** `hero.result_as_cell(villain)`: the cell for the recorded game, or an empty cell. */
    function ResultAsCell(heroId: nat, villainId: nat): (cell: string)
      reads this
      requires Valid()
      ensures cell == WinCell || cell == LossCell || cell == EmptyCell
      ensures cell == EmptyCell <==> ResultVsVillain(heroId, villainId) == None
      ensures ResultVsVillain(heroId, villainId).Some? ==>
                cell == results[ResultVsVillain(heroId, villainId).value].AsCell()
      ensures CellVerdict(cell) == match ResultVsVillain(heroId, villainId)
                                   case None => None
                                   case Some(k) => results[k].result
    {
      match ResultVsVillain(heroId, villainId)
      case None => EmptyCell
      case Some(k) =>
        AsCellShowsVerdict(results[k]);
        results[k].AsCell()
    }
  }
}
