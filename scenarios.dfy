/**
 * The create, show, update and delete behaviour the functional tests
 * observe, replayed against the store on a fresh database. Each method
 * states what the corresponding test asserts about what is read back.
 */
module Scenarios {
  import opened Wrappers
  import opened Models

  /** Creating villain "Bob" in a new database gives id 1, and showing id 1 yields "Bob". */
  method CreateVillainThenShow() returns (id: Outcome<nat, Error>, shown: Option<Villain>)
    ensures id == Ok(1)
    ensures shown == Some(Villain("Bob", 1))
  {
    var db := new Store();
    var phase := db.InsertPhase("Phase 1");
    id := db.InsertVillain("Bob", phase.value);
    shown := db.GetVillain(id.value);
  }

  /** Creating hero "Safety Queen" in a new database gives id 1, and showing id 1 yields her. */
  method CreateHeroThenShow() returns (id: Outcome<nat, Error>, shown: Option<Hero>)
    ensures id == Ok(1)
    ensures shown == Some(Hero("Safety Queen", 1, 1))
  {
    var db := new Store();
    var phase := db.InsertPhase("Phase 1");
    var aspect := db.InsertAspect("Aggression");
    id := db.InsertHero("Safety Queen", phase.value, aspect.value);
    shown := db.GetHero(id.value);
  }

  /** Renaming villain 1 changes the name shown for id 1. */
  method UpdateVillainThenShow() returns (updated: Outcome<(), Error>, shown: Option<Villain>)
    ensures updated == Ok(())
    ensures shown == Some(Villain("Bigger Badder Bob", 1))
  {
    var db := new Store();
    var phase := db.InsertPhase("Phase 1");
    var id := db.InsertVillain("Big Bad Bob", phase.value);
    updated := db.UpdateVillain(id.value, "Bigger Badder Bob", phase.value);
    shown := db.GetVillain(id.value);
  }

  /** Updating villain 2 when only villain 1 exists is refused as not found and changes nothing. */
  method UpdateAbsentVillain() returns (updated: Outcome<(), Error>, shown: Option<Villain>)
    ensures updated == Err(NotFound)
    ensures shown == Some(Villain("Big Bad Bob", 1))
  {
    var db := new Store();
    var phase := db.InsertPhase("Phase 1");
    var id := db.InsertVillain("Big Bad Bob", phase.value);
    updated := db.UpdateVillain(id.value + 1, "Bigger Badder Bob", phase.value);
    shown := db.GetVillain(id.value);
  }

  /** After deleting villain 1, showing id 1 finds nothing, and a second delete is refused. */
  method DeleteVillainThenShow() returns (deleted: Outcome<(), Error>, shown: Option<Villain>, again: Outcome<(), Error>)
    ensures deleted == Ok(())
    ensures shown == None
    ensures again == Err(NotFound)
  {
    var db := new Store();
    var phase := db.InsertPhase("Phase 1");
    var id := db.InsertVillain("Big Bad Bob", phase.value);
    deleted := db.DeleteVillain(id.value);
    shown := db.GetVillain(id.value);
    again := db.DeleteVillain(id.value);
  }

  /** A second villain with a name already in use is refused, and only the first is stored. */
  method DuplicateVillainName() returns (second: Outcome<nat, Error>, shown: Option<Villain>)
    ensures second == Err(DuplicateName)
    ensures shown == None
  {
    var db := new Store();
    var phase := db.InsertPhase("Phase 1");
    var first := db.InsertVillain("Bob", phase.value);
    assert VillainName(db.villains[1]) == "Bob";
    second := db.InsertVillain("Bob", phase.value);
    shown := db.GetVillain(2);
  }

  /** A hero whose aspect does not exist is refused, and no hero row is stored. */
  method HeroWithMissingAspect() returns (created: Outcome<nat, Error>, shown: Option<Hero>)
    ensures created == Err(MissingAspect)
    ensures shown == None
  {
    var db := new Store();
    var phase := db.InsertPhase("Phase 1");
    created := db.InsertHero("Widow", phase.value, 99);
    shown := db.GetHero(1);
  }

  /** A database holding phase 1, aspect 1 and hero 1 "Cap", and no villains or results yet. */
  method WithHero() returns (db: Store)
    ensures fresh(db) && db.Valid()
    ensures db.phases.Keys == {1} && db.aspects.Keys == {1}
    ensures db.heroes == map[1 := Hero("Cap", 1, 1)]
    ensures db.villains == map[] && db.nextVillainId == 1
    ensures db.results == map[] && db.nextResultId == 1
  {
    db := new Store();
    var phase := db.InsertPhase("Phase 1");
    var aspect := db.InsertAspect("Leadership");
    var cap := db.InsertHero("Cap", phase.value, aspect.value);
  }

  /**
   * A database with hero 1 "Cap", villains 1 "Ebony Maw" and 2 "Thanos",
   * and one recorded win of Cap against Thanos.
   */
  method Seeded() returns (db: Store)
    ensures fresh(db) && db.Valid()
    ensures db.heroes == map[1 := Hero("Cap", 1, 1)]
    ensures db.villains == map[1 := Villain("Ebony Maw", 1), 2 := Villain("Thanos", 1)]
    ensures db.results == map[1 := Result(1, 2, Some(WIN))]
  {
    db := WithHero();
    var ebony := db.InsertVillain("Ebony Maw", 1);
    assert db.villains == map[1 := Villain("Ebony Maw", 1)];
    assert !Tables.Taken(db.villains, VillainName, "Thanos");
    var thanos := db.InsertVillain("Thanos", 1);
    var recorded := db.InsertResult(1, 2, Some(WIN));
  }

  /**
   * With a win recorded for hero 1 against villain 2, the lookup for that
   * pair renders a win, and the lookup with the roles swapped finds nothing.
   */
  method LookupIsDirected() returns (forward: string, swapped: string)
    ensures forward == WinCell
    ensures swapped == EmptyCell
  {
    var db := Seeded();
    assert db.Records(1, 1, 2);
    forward := db.ResultAsCell(1, 2);
    swapped := db.ResultAsCell(2, 1);
  }

  /** A villain that a Result row names cannot be deleted; one that no row names can. */
  method DeleteReferencedVillain() returns (referenced: Outcome<(), Error>, unreferenced: Outcome<(), Error>)
    ensures referenced == Err(StillReferenced)
    ensures unreferenced == Ok(())
  {
    var db := Seeded();
    assert db.Records(1, 1, 2);
    referenced := db.DeleteVillain(2);
    unreferenced := db.DeleteVillain(1);
  }
}
