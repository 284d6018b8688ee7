/**
 * The `purge_database` command: every row of every table is deleted, in one
 * transaction, so that the same resource files can be imported again.
 */
module PurgeDatabase {
  import opened Wrappers
  import opened Models
  import opened Store
  import opened Json
  import opened Importers

  /**
   * `Command.handle`. Citizens go first: with them gone, nothing refers to
   * an eye colour or an address any more, so neither protected delete is
   * refused and the transaction always commits. The id sequences are not
   * reset.
   */
  method Handle(db: Database)
    requires db.Valid()
    modifies db
    ensures db.Valid()
    ensures db.Contents() == EmptyTables
    ensures db.nextEyeColorId == old(db.nextEyeColorId) && db.nextFoodId == old(db.nextFoodId)
    ensures db.nextTagId == old(db.nextTagId) && db.nextAddressId == old(db.nextAddressId)
  {
    db.DeleteAllCitizens();
    UnprotectedWithoutCitizens(db.Contents());
    var v := db.DeleteAllEyeColors();
    assert v.None?;
    db.DeleteAllFoods();
    db.DeleteAllTags();
    db.DeleteAllCompanies();
    UnprotectedWithoutCitizens(db.Contents());
    v := db.DeleteAllAddresses();
    assert v.None?;
  }

  /**
   * Companies that were imported once can be imported again after the
   * purge: the only thing the stored companies can change is a key clash,
   * and an empty table has none.
   */
  lemma CompaniesReimport(companies: map<int, Company>, entries: seq<Record>)
    requires CompaniesOutcome(companies, entries) == Pass
    ensures CompaniesOutcome(EmptyTables.companies, entries) == Pass
  {
  }

  /**
   * Without the purge the same companies file cannot be imported twice: the
   * second `bulk_create` repeats the first one's primary keys.
   */
  lemma CompaniesTwiceRefused(companies: map<int, Company>, entries: seq<Record>)
    requires CompaniesOutcome(companies, entries) == Pass && |entries| > 0
    ensures CompaniesOutcome(companies + BatchMap(CompanyRows(entries).value), entries) == Fail(DatabaseFailure(DuplicateKey("id")))
  {
    var rows := CompanyRows(entries).value;
    assert rows[0].0 in companies + BatchMap(rows);
  }

  /**
   * Whether the people import is refused depends on the tables only
   * through the stored citizens and the company keys: with the same
   * citizens and at least the same companies, an import that was accepted
   * is accepted again.
   */
  lemma PeopleReimport(t: Tables, u: Tables, entries: seq<Record>, parseTime: string -> Option<DateTime>)
    requires PeopleOutcome(t, entries, parseTime) == Pass
    requires u.citizens == t.citizens && t.companies.Keys <= u.companies.Keys
    ensures PeopleOutcome(u, entries, parseTime) == Pass
  {
    var rows := DecodeAll(entries, parseTime).value;
    DecodedEntries(entries, parseTime);
    var profiles := ProfilesOf(rows).value;
    assert PeopleViolation(t, rows, profiles) == None;
  }

  /**
   * Without the purge the same people file cannot be imported twice: its
   * first citizen's id is taken, so the database refuses the batch (a
   * column out of range is reported first, if there is one).
   */
  lemma PeopleTwiceRefused(t0: Tables, t: Tables, entries: seq<Record>, parseTime: string -> Option<DateTime>)
    requires DecodeAll(entries, parseTime).Success? && PeopleImported(t0, t, entries, parseTime)
    requires |entries| > 0
    ensures PeopleOutcome(t, entries, parseTime).Fail?
    ensures PeopleOutcome(t, entries, parseTime).error.DatabaseFailure?
  {
    var rows := DecodeAll(entries, parseTime).value;
    DecodedEntries(entries, parseTime);
    var profiles := ProfilesOf(rows).value;
    ImportedFirst(t0, t, rows, profiles);
    FirstIdTaken(t, rows, profiles);
    RefusedByDatabase(t, entries, parseTime);
  }

  lemma ImportedFirst(t0: Tables, t: Tables, rows: seq<PersonRow>, profiles: seq<Profile>)
    requires |profiles| == |rows| && Imported(t0, t, rows, profiles) && |rows| > 0
    ensures rows[0].index in t.citizens
  {
    assert Stored(t, rows[0], profiles[0]);
  }

  /** Entries that decode, and whose profiles convert, fail the import exactly when the database refuses them. */
  lemma RefusedByDatabase(t: Tables, entries: seq<Record>, parseTime: string -> Option<DateTime>)
    requires DecodeAll(entries, parseTime).Success?
    requires forall i :: 0 <= i < |entries| ==> DecodeAll(entries, parseTime).value[i].entry.Keys == ExpectedPeopleFields
    requires ProfilesOf(DecodeAll(entries, parseTime).value).Success?
    requires PeopleViolation(t, DecodeAll(entries, parseTime).value, ProfilesOf(DecodeAll(entries, parseTime).value).value).Some?
    ensures PeopleOutcome(t, entries, parseTime).Fail?
    ensures PeopleOutcome(t, entries, parseTime).error.DatabaseFailure?
  {
  }

  /** A batch whose first id is already stored is refused. */
  lemma FirstIdTaken(t: Tables, rows: seq<PersonRow>, profiles: seq<Profile>)
    requires |profiles| == |rows| && |rows| > 0 && rows[0].index in t.citizens
    ensures PeopleViolation(t, rows, profiles).Some?
  {
    var probe := Unlinked(rows, profiles);
    assert probe[0].0 == rows[0].index;
    assert !FreshKeys(t.citizens, probe);
  }
}
