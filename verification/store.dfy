/**
 * The relational store behind the ORM: one table per model, keyed by primary
 * key, with the constraints the schema declares (unique names, unique `_id`
 * and `guid`, foreign keys, PROTECT and SET_NULL on delete, the 16- and 32-bit
 * integer column ranges). Auto-generated keys come from per-table sequences
 * that, as in PostgreSQL, survive a rollback.
 */
module Store {
  import opened Wrappers
  import opened Models

  /** Why the database refused a statement. */
  datatype Violation =
    | DuplicateKey(column: string)      // primary key or unique constraint
    | MissingReference(column: string)  // foreign key to a row that does not exist
    | OutOfRange(column: string)        // integer column overflow
    | Protected(table: string)          // delete blocked by on_delete=PROTECT

  /** The contents of every table as values; `friends` is the directed many-to-many table. */
  datatype Tables = Tables(
    companies: map<int, Company>,
    eyeColors: map<int, string>,
    foods: map<int, Food>,
    tags: map<int, string>,
    addresses: map<int, Address>,
    citizens: map<int, Citizen>,
    friends: map<int, set<int>>)

  const EmptyTables := Tables(map[], map[], map[], map[], map[], map[], map[])

  predicate Submap<V(==)>(a: map<int, V>, b: map<int, V>) {
    forall k :: k in a ==> k in b && b[k] == a[k]
  }

  /** No two rows share a name (the `unique=True` name columns). */
  predicate UniqueNames(m: map<int, string>) {
    forall a, b :: a in m && b in m && m[a] == m[b] ==> a == b
  }

  predicate UniqueFoodNames(m: map<int, Food>) {
    forall a, b :: a in m && b in m && m[a].name == m[b].name ==> a == b
  }

  function FoodNames(m: map<int, Food>): set<string> {
    set k | k in m :: m[k].name
  }

  /** The rows `filter(name__in=names)` returns. */
  function IdsNamed(m: map<int, string>, names: seq<string>): set<int> {
    set k | k in m && m[k] in names
  }

  function FoodIdsNamed(m: map<int, Food>, names: seq<string>): set<int> {
    set k | k in m && m[k].name in names
  }

  const SmallIntMin := -0x8000
  const SmallIntMax := 0x7fff
  const IntegerMin := -0x8000_0000
  const IntegerMax := 0x7fff_ffff

  predicate InSmallInt(x: int) {
    SmallIntMin <= x <= SmallIntMax
  }

  predicate InInteger(x: int) {
    IntegerMin <= x <= IntegerMax
  }

  /** Every foreign key of a citizen row names an existing row. */
  predicate References(t: Tables, c: Citizen) {
    && c.eyeColor in t.eyeColors
    && c.address in t.addresses
    && (c.company.Some? ==> c.company.value in t.companies)
    && c.tags <= t.tags.Keys
    && c.favouriteFood <= t.foods.Keys
  }

  predicate UniqueProfiles(citizens: map<int, Citizen>) {
    forall a, b :: a in citizens && b in citizens && a != b ==>
      citizens[a].profile.externalId != citizens[b].profile.externalId &&
      citizens[a].profile.guid != citizens[b].profile.guid
  }

  /** The schema's constraints, which every committed state satisfies. */
  predicate ValidTables(t: Tables) {
    && UniqueNames(t.eyeColors)
    && UniqueFoodNames(t.foods)
    && UniqueNames(t.tags)
    && (forall id :: id in t.citizens ==> References(t, t.citizens[id]))
    && UniqueProfiles(t.citizens)
    && t.friends.Keys == t.citizens.Keys
    && (forall id :: id in t.friends ==> t.friends[id] <= t.citizens.Keys)
    && ColumnsInRange(t.citizens, t.companies)
  }

  /** Every stored citizen row and company key fits its `integer` and `smallint` columns. */
  predicate ColumnsInRange(citizens: map<int, Citizen>, companies: map<int, Company>) {
    && (forall id :: id in citizens ==> RowInRange(id, citizens[id]))
    && (forall k :: k in companies ==> InInteger(k))
  }

  /** The keys of a batch of rows to insert, in order. */
  function Keys<V>(batch: seq<(int, V)>): (ks: seq<int>)
    ensures |ks| == |batch|
    ensures forall i :: 0 <= i < |batch| ==> ks[i] == batch[i].0
  {
    seq(|batch|, i requires 0 <= i < |batch| => batch[i].0)
  }

  predicate Distinct(ks: seq<int>) {
    forall i, j :: 0 <= i < j < |ks| ==> ks[i] != ks[j]
  }

  /**
   * A batch of keyed rows as a table: every key of the batch is present, and
   * a key listed more than once holds its last row, as a Python dict built
   * entry by entry does.
   */
  function BatchMap<V>(batch: seq<(int, V)>): (m: map<int, V>)
    ensures forall i :: 0 <= i < |batch| ==> batch[i].0 in m
    ensures forall k :: k in m ==> k in Keys(batch)
    ensures forall i :: 0 <= i < |batch| && (forall j :: i < j < |batch| ==> batch[j].0 != batch[i].0) ==>
      m[batch[i].0] == batch[i].1
  {
    if batch == [] then map[]
    else
      var init := batch[..|batch| - 1];
      var last := batch[|batch| - 1];
      var m := BatchMap(init)[last.0 := last.1];
      assert Keys(batch) == Keys(init) + [last.0];
      assert forall i :: 0 <= i < |init| ==> init[i] == batch[i];
      m
  }

  /** The position in the batch that a listed key comes from. */
  lemma KeyIndex<V>(batch: seq<(int, V)>, k: int) returns (i: int)
    requires k in Keys(batch)
    ensures 0 <= i < |batch| && batch[i].0 == k
  {
    if forall j :: 0 <= j < |batch| ==> Keys(batch)[j] != k {
      assert false;
    }
    i :| 0 <= i < |batch| && Keys(batch)[i] == k;
  }

  /** With pairwise different keys, each key of the batch holds its own row. */
  lemma BatchRow<V>(batch: seq<(int, V)>, k: int) returns (i: int)
    requires Distinct(Keys(batch)) && k in BatchMap(batch)
    ensures 0 <= i < |batch| && batch[i].0 == k && BatchMap(batch)[k] == batch[i].1
  {
    i := KeyIndex(batch, k);
    assert forall j :: i < j < |batch| ==> Keys(batch)[j] != Keys(batch)[i];
  }

  /** With pairwise different keys, every row of the batch is stored under its key. */
  lemma BatchRows<V>(batch: seq<(int, V)>)
    requires Distinct(Keys(batch))
    ensures forall i :: 0 <= i < |batch| ==> batch[i].0 in BatchMap(batch) && BatchMap(batch)[batch[i].0] == batch[i].1
  {
    forall i | 0 <= i < |batch|
      ensures batch[i].0 in BatchMap(batch) && BatchMap(batch)[batch[i].0] == batch[i].1
    {
      assert forall j :: i < j < |batch| ==> Keys(batch)[j] != Keys(batch)[i];
    }
  }

  /** A batch stores exactly its own keys. */
  lemma BatchMapKeys<V>(batch: seq<(int, V)>)
    ensures BatchMap(batch).Keys == set k | k in Keys(batch)
  {
    forall k | k in Keys(batch)
      ensures k in BatchMap(batch)
    {
      var i := KeyIndex(batch, k);
    }
  }

  /** The empty friend lists that inserted citizens start with. */
  function NoFriends(ks: seq<int>): (m: map<int, set<int>>)
    ensures m.Keys == set k | k in ks
    ensures forall k :: k in m ==> m[k] == {}
  {
    map k | k in ks :: {}
  }

  lemma ValuesGrow(a: map<int, string>, b: map<int, string>)
    requires Submap(a, b)
    ensures a.Values <= b.Values
  {
    forall n | n in a.Values
      ensures n in b.Values
    {
      if forall k :: k in a ==> a[k] != n {
        assert false;
      }
      var k :| k in a && a[k] == n;
      assert b[k] == n;
    }
  }

  lemma FoodNamesGrow(a: map<int, Food>, b: map<int, Food>)
    requires Submap(a, b)
    ensures FoodNames(a) <= FoodNames(b)
  {
  }

  /** The batch's keys are new to the table and pairwise different. */
  predicate FreshKeys<V>(m: map<int, V>, batch: seq<(int, V)>) {
    Distinct(Keys(batch)) && forall i :: 0 <= i < |batch| ==> batch[i].0 !in m
  }

  /** Why `bulk_create` of these companies fails, if it does. */
  function CompanyBatchViolation(companies: map<int, Company>, batch: seq<(int, Company)>): (v: Option<Violation>)
    ensures v.None? <==> (forall i :: 0 <= i < |batch| ==> InInteger(batch[i].0)) && FreshKeys(companies, batch)
  {
    if exists i :: 0 <= i < |batch| && !InInteger(batch[i].0) then Some(OutOfRange("company"))
    else if FreshKeys(companies, batch) then None
    else Some(DuplicateKey("id"))
  }

  /** A company key one past the largest 32-bit `integer` is refused, even by an empty table. */
  lemma CompanyKeyOutOfRange()
    ensures CompanyBatchViolation(map[], [(IntegerMax + 1, Company("ACME"))]) == Some(OutOfRange("company"))
    ensures CompanyBatchViolation(map[], [(IntegerMax, Company("ACME"))]) == None
  {
    var batch := [(IntegerMax + 1, Company("ACME"))];
    assert !InInteger(batch[0].0);
  }

  /** Neither `_id` nor `guid` of a new citizen repeats one already stored or elsewhere in the batch. */
  predicate FreshProfiles(citizens: map<int, Citizen>, batch: seq<(int, Citizen)>) {
    && (forall i, k :: 0 <= i < |batch| && k in citizens ==>
          batch[i].1.profile.externalId != citizens[k].profile.externalId &&
          batch[i].1.profile.guid != citizens[k].profile.guid)
    && (forall i, j :: 0 <= i < j < |batch| ==>
          batch[i].1.profile.externalId != batch[j].1.profile.externalId &&
          batch[i].1.profile.guid != batch[j].1.profile.guid)
  }

  /** The `smallint` and `integer` columns of a citizen row, its `company_id` included, fit their types. */
  predicate InRange(c: Citizen) {
    && InSmallInt(c.profile.age) && InSmallInt(c.genderCode) && InInteger(c.balanceInCents)
    && (c.company.Some? ==> InInteger(c.company.value))
  }

  /** The integer columns of a citizen row, its `integer` primary key included, fit their types. */
  predicate RowInRange(id: int, c: Citizen) {
    InInteger(id) && InRange(c)
  }

  /**
   * Why writing one citizen's friend edges fails, if it does: the edge
   * table's `to_citizen_id` column is an `integer`, so a target outside its
   * range is refused as the rows are written; otherwise every target must be
   * a citizen.
   */
  function FriendsViolation(citizens: set<int>, targets: set<int>): (v: Option<Violation>)
    ensures v.None? <==> targets <= citizens && forall x :: x in targets ==> InInteger(x)
    ensures (exists x :: x in targets && !InInteger(x)) <==> v == Some(OutOfRange("friends"))
    ensures v.Some? && v != Some(OutOfRange("friends")) ==> v == Some(MissingReference("friends"))
  {
    if exists x :: x in targets && !InInteger(x) then Some(OutOfRange("friends"))
    else if targets <= citizens then None
    else Some(MissingReference("friends"))
  }

  /** A friend index past the `integer` range is refused as out of range even when other targets are missing. */
  lemma FriendOutOfRangeExample()
    ensures FriendsViolation({1}, {2, IntegerMax + 1}) == Some(OutOfRange("friends"))
    ensures FriendsViolation({1}, {2, IntegerMax}) == Some(MissingReference("friends"))
    ensures FriendsViolation({1, IntegerMax}, {IntegerMax}) == None
  {
    assert IntegerMax + 1 in {2, IntegerMax + 1} && !InInteger(IntegerMax + 1);
    assert 2 !in {1};
  }

  /** Why `bulk_create` of these citizens fails, if it does, in the order the checks are made. */
  function CitizenBatchViolation(t: Tables, batch: seq<(int, Citizen)>): (v: Option<Violation>)
    ensures v.None? <==>
      && (forall i :: 0 <= i < |batch| ==> RowInRange(batch[i].0, batch[i].1) && References(t, batch[i].1))
      && FreshKeys(t.citizens, batch)
      && FreshProfiles(t.citizens, batch)
  {
    if exists i :: 0 <= i < |batch| && !RowInRange(batch[i].0, batch[i].1) then Some(OutOfRange("citizen"))
    else if !FreshKeys(t.citizens, batch) then Some(DuplicateKey("id"))
    else if !FreshProfiles(t.citizens, batch) then Some(DuplicateKey("_id/guid"))
    else if exists i :: 0 <= i < |batch| && !References(t, batch[i].1) then Some(MissingReference("citizen"))
    else None
  }

  /** What deleting every row of a referenced table leaves of the citizens under SET_NULL or CASCADE. */
  function WithoutCompanies(citizens: map<int, Citizen>): (r: map<int, Citizen>)
    ensures r.Keys == citizens.Keys
    ensures forall id :: id in r ==> r[id] == citizens[id].(company := None)
  {
    map id | id in citizens :: citizens[id].(company := None)
  }

  function WithoutFoods(citizens: map<int, Citizen>): (r: map<int, Citizen>)
    ensures r.Keys == citizens.Keys
    ensures forall id :: id in r ==> r[id] == citizens[id].(favouriteFood := {})
  {
    map id | id in citizens :: citizens[id].(favouriteFood := {})
  }

  function WithoutTags(citizens: map<int, Citizen>): (r: map<int, Citizen>)
    ensures r.Keys == citizens.Keys
    ensures forall id :: id in r ==> r[id] == citizens[id].(tags := {})
  {
    map id | id in citizens :: citizens[id].(tags := {})
  }

  /** A citizen row points at the eye colour or address being deleted, which PROTECT forbids. */
  predicate EyeColorsReferenced(t: Tables) {
    exists id :: id in t.citizens && t.citizens[id].eyeColor in t.eyeColors
  }

  predicate AddressesReferenced(t: Tables) {
    exists id :: id in t.citizens && t.citizens[id].address in t.addresses
  }

  /** In a consistent store, any citizen blocks the deletion of every eye colour and address. */
  lemma ProtectedWhileCitizensExist(t: Tables, id: int)
    requires ValidTables(t) && id in t.citizens
    ensures EyeColorsReferenced(t) && AddressesReferenced(t)
  {
    assert t.citizens[id].eyeColor in t.eyeColors;
    assert t.citizens[id].address in t.addresses;
  }

  /** Without citizens nothing protects the lookup rows. */
  lemma UnprotectedWithoutCitizens(t: Tables)
    requires t.citizens == map[]
    ensures !EyeColorsReferenced(t) && !AddressesReferenced(t)
  {
  }

  /** The rows of an accepted batch point at existing rows. */
  lemma InsertedReferences(t: Tables, batch: seq<(int, Citizen)>)
    requires ValidTables(t) && CitizenBatchViolation(t, batch).None?
    ensures forall id :: id in t.citizens + BatchMap(batch) ==> References(t, (t.citizens + BatchMap(batch))[id])
  {
    var added := BatchMap(batch);
    forall id | id in t.citizens + added
      ensures References(t, (t.citizens + added)[id])
    {
      if id in added {
        var i := BatchRow(batch, id);
        assert References(t, batch[i].1);
      }
    }
  }

  /** The rows of an accepted batch fit the `integer` and `smallint` columns, as the stored rows already do. */
  lemma InsertedInRange(t: Tables, batch: seq<(int, Citizen)>)
    requires ValidTables(t) && CitizenBatchViolation(t, batch).None?
    ensures ColumnsInRange(t.citizens + BatchMap(batch), t.companies)
  {
    var added := BatchMap(batch);
    forall id | id in t.citizens + added
      ensures RowInRange(id, (t.citizens + added)[id])
    {
      if id in added {
        var i := BatchRow(batch, id);
        assert RowInRange(batch[i].0, batch[i].1);
      }
    }
  }

  /** The rows of an accepted batch keep `_id` and `guid` unique. */
  lemma InsertedProfilesUnique(t: Tables, batch: seq<(int, Citizen)>)
    requires ValidTables(t) && CitizenBatchViolation(t, batch).None?
    ensures UniqueProfiles(t.citizens + BatchMap(batch))
  {
    var added := BatchMap(batch);
    var all := t.citizens + added;
    forall a, b | a in all && b in all && a != b
      ensures all[a].profile.externalId != all[b].profile.externalId
      ensures all[a].profile.guid != all[b].profile.guid
    {
      if a in added && b in added {
        var i := BatchRow(batch, a);
        var j := BatchRow(batch, b);
        if i > j {
          assert batch[j].1.profile.externalId != batch[i].1.profile.externalId;
        }
      } else if a in added {
        var i := BatchRow(batch, a);
        assert b in t.citizens;
      } else if b in added {
        var j := BatchRow(batch, b);
        assert a in t.citizens;
      }
    }
  }

  /** Inserting a batch the database accepts keeps every constraint of the schema. */
  lemma CitizenInsertValid(t: Tables, batch: seq<(int, Citizen)>)
    requires ValidTables(t) && CitizenBatchViolation(t, batch).None?
    ensures ValidTables(t.(citizens := t.citizens + BatchMap(batch), friends := t.friends + NoFriends(Keys(batch))))
  {
    InsertedReferences(t, batch);
    InsertedProfilesUnique(t, batch);
    InsertedInRange(t, batch);
    var u := t.(citizens := t.citizens + BatchMap(batch), friends := t.friends + NoFriends(Keys(batch)));
    BatchMapKeys(batch);
    assert forall id :: id in u.citizens ==> References(u, u.citizens[id]);
  }

  /** A tag under a new key and with a new name keeps the tables valid. */
  lemma TagAddedValid(t: Tables, id: int, name: string)
    requires ValidTables(t) && id !in t.tags && name !in t.tags.Values
    ensures ValidTables(t.(tags := t.tags[id := name]))
  {
    var u := t.(tags := t.tags[id := name]);
    assert forall k :: k in t.tags ==> t.tags[k] in t.tags.Values;
    assert forall c :: c in t.citizens ==> References(u, t.citizens[c]) by {
      forall c | c in t.citizens ensures References(u, t.citizens[c]) {
        assert References(t, t.citizens[c]);
      }
    }
  }

  /** The same for a food: a new key and a name no stored food has. */
  lemma FoodAddedValid(t: Tables, id: int, f: Food)
    requires ValidTables(t) && id !in t.foods && f.name !in FoodNames(t.foods)
    ensures ValidTables(t.(foods := t.foods[id := f]))
  {
    var u := t.(foods := t.foods[id := f]);
    assert forall k :: k in t.foods ==> t.foods[k].name in FoodNames(t.foods);
    assert forall c :: c in t.citizens ==> References(u, t.citizens[c]) by {
      forall c | c in t.citizens ensures References(u, t.citizens[c]) {
        assert References(t, t.citizens[c]);
      }
    }
  }

  /**
   * The database. Rows with an explicit primary key (companies, citizens) are
   * stored under it; the others take the next value of their table's sequence.
   */
  class Database {
    var companies: map<int, Company>
    var eyeColors: map<int, string>
    var foods: map<int, Food>
    var tags: map<int, string>
    var addresses: map<int, Address>
    var citizens: map<int, Citizen>
    var friends: map<int, set<int>>
    var nextEyeColorId: int
    var nextFoodId: int
    var nextTagId: int
    var nextAddressId: int

    function Contents(): Tables
      reads this
    {
      Tables(companies, eyeColors, foods, tags, addresses, citizens, friends)
    }

    /** The sequences are ahead of every key they handed out. */
    predicate SequencesAhead(t: Tables)
      reads this
    {
      && (forall k :: k in t.eyeColors ==> k < nextEyeColorId)
      && (forall k :: k in t.foods ==> k < nextFoodId)
      && (forall k :: k in t.tags ==> k < nextTagId)
      && (forall k :: k in t.addresses ==> k < nextAddressId)
    }

    predicate Valid()
      reads this
    {
      ValidTables(Contents()) && SequencesAhead(Contents())
    }

    /** A freshly migrated, empty database. */
    constructor ()
      ensures Valid()
      ensures Contents() == EmptyTables
    {
      companies, eyeColors, foods, tags, addresses, citizens, friends :=
        map[], map[], map[], map[], map[], map[], map[];
      nextEyeColorId, nextFoodId, nextTagId, nextAddressId := 1, 1, 1, 1;
    }

    /** `EyeColor.objects.get_or_create(color_name=name)`: the row with this name, created if missing. */
    method GetOrCreateEyeColor(name: string) returns (id: int)
      requires Valid()
      modifies this
      ensures Valid()
      ensures id in eyeColors && eyeColors[id] == name
      ensures name in old(eyeColors).Values ==> eyeColors == old(eyeColors)
      ensures name !in old(eyeColors).Values ==> id !in old(eyeColors) && eyeColors == old(eyeColors)[id := name]
      ensures Contents() == old(Contents()).(eyeColors := eyeColors)
      ensures nextFoodId == old(nextFoodId) && nextTagId == old(nextTagId) && nextAddressId == old(nextAddressId)
    {
      if name in eyeColors.Values {
        if forall k :: k in eyeColors ==> eyeColors[k] != name {
          assert false;
        }
        id :| id in eyeColors && eyeColors[id] == name;
      } else {
        id := nextEyeColorId;
        eyeColors := eyeColors[id := name];
        nextEyeColorId := nextEyeColorId + 1;
      }
    }

    /**
     * `Tag.objects.bulk_create(..., ignore_conflicts=True)`: every name gets a
     * row; a name already present, or repeated in the batch, is skipped.
     */
    method InsertTagsIgnoringConflicts(names: seq<string>)
      requires Valid()
      modifies this
      ensures Valid()
      ensures Submap(old(tags), tags)
      ensures forall n :: n in names ==> n in tags.Values
      ensures forall k :: k in tags && k !in old(tags) ==> tags[k] in names
      ensures Contents() == old(Contents()).(tags := tags)
      ensures nextEyeColorId == old(nextEyeColorId) && nextFoodId == old(nextFoodId) && nextAddressId == old(nextAddressId)
    {
      var i := 0;
      while i < |names|
        invariant 0 <= i <= |names|
        invariant Valid()
        invariant Submap(old(tags), tags)
        invariant forall j :: 0 <= j < i ==> names[j] in tags.Values
        invariant forall k :: k in tags && k !in old(tags) ==> tags[k] in names[..i]
        invariant Contents() == old(Contents()).(tags := tags)
        invariant nextEyeColorId == old(nextEyeColorId) && nextFoodId == old(nextFoodId) && nextAddressId == old(nextAddressId)
      {
        if names[i] !in tags.Values {
          var id := nextTagId;
          ValuesGrow(tags, tags[id := names[i]]);
          TagAddedValid(Contents(), id, names[i]);
          tags := tags[id := names[i]];
          nextTagId := nextTagId + 1;
          assert tags[id] == names[i];
        }
        i := i + 1;
      }
      assert names[..i] == names;
    }

    /** `Food.objects.bulk_create(..., ignore_conflicts=True)`: as for tags, keyed on the food's name. */
    method InsertFoodsIgnoringConflicts(rows: seq<Food>)
      requires Valid()
      modifies this
      ensures Valid()
      ensures Submap(old(foods), foods)
      ensures forall i :: 0 <= i < |rows| ==> rows[i].name in FoodNames(foods)
      ensures forall k :: k in foods && k !in old(foods) ==> foods[k] in rows
      ensures Contents() == old(Contents()).(foods := foods)
      ensures nextEyeColorId == old(nextEyeColorId) && nextTagId == old(nextTagId) && nextAddressId == old(nextAddressId)
    {
      var i := 0;
      while i < |rows|
        invariant 0 <= i <= |rows|
        invariant Valid()
        invariant Submap(old(foods), foods)
        invariant forall j :: 0 <= j < i ==> rows[j].name in FoodNames(foods)
        invariant forall k :: k in foods && k !in old(foods) ==> foods[k] in rows[..i]
        invariant Contents() == old(Contents()).(foods := foods)
        invariant nextEyeColorId == old(nextEyeColorId) && nextTagId == old(nextTagId) && nextAddressId == old(nextAddressId)
      {
        if rows[i].name !in FoodNames(foods) {
          var id := nextFoodId;
          FoodNamesGrow(foods, foods[id := rows[i]]);
          FoodAddedValid(Contents(), id, rows[i]);
          foods := foods[id := rows[i]];
          nextFoodId := nextFoodId + 1;
          assert foods[id].name == rows[i].name;
        }
        i := i + 1;
      }
      assert rows[..i] == rows;
    }

    /** `Address.objects.create(...)`: a new row under the next key. */
    method CreateAddress(a: Address) returns (id: int)
      requires Valid()
      modifies this
      ensures Valid()
      ensures id !in old(addresses) && addresses == old(addresses)[id := a]
      ensures Contents() == old(Contents()).(addresses := addresses)
      ensures nextEyeColorId == old(nextEyeColorId) && nextFoodId == old(nextFoodId) && nextTagId == old(nextTagId)
    {
      id := nextAddressId;
      addresses := addresses[id := a];
      nextAddressId := nextAddressId + 1;
    }

    /** `Company.objects.bulk_create(batch)`: all rows or, on a key clash, none. */
    method BulkCreateCompanies(batch: seq<(int, Company)>) returns (v: Option<Violation>)
      requires Valid()
      modifies this
      ensures Valid()
      ensures v == CompanyBatchViolation(old(companies), batch)
      ensures v.Some? ==> Contents() == old(Contents())
      ensures v.None? ==> Contents() == old(Contents()).(companies := old(companies) + BatchMap(batch))
      ensures nextEyeColorId == old(nextEyeColorId) && nextFoodId == old(nextFoodId)
      ensures nextTagId == old(nextTagId) && nextAddressId == old(nextAddressId)
    {
      v := CompanyBatchViolation(companies, batch);
      if v.None? {
        companies := companies + BatchMap(batch);
      }
    }

    /**
     * `Citizen.objects.bulk_create(batch)`: all rows, each with no friends yet,
     * or, when a row breaks a constraint, none.
     */
    method BulkCreateCitizens(batch: seq<(int, Citizen)>) returns (v: Option<Violation>)
      requires Valid()
      modifies this
      ensures Valid()
      ensures v == CitizenBatchViolation(old(Contents()), batch)
      ensures v.Some? ==> Contents() == old(Contents())
      ensures v.None? ==> Contents() == old(Contents()).(
        citizens := old(citizens) + BatchMap(batch),
        friends := old(friends) + NoFriends(Keys(batch)))
      ensures nextEyeColorId == old(nextEyeColorId) && nextFoodId == old(nextFoodId)
      ensures nextTagId == old(nextTagId) && nextAddressId == old(nextAddressId)
    {
      v := CitizenBatchViolation(Contents(), batch);
      if v.None? {
        CitizenInsertValid(Contents(), batch);
        citizens := citizens + BatchMap(batch);
        friends := friends + NoFriends(Keys(batch));
      }
    }

    /**
     * `citizen.friends.set(targets)`: replaces the citizen's outgoing friend
     * links; the refusal is `FriendsViolation`.
     */
    method SetFriends(id: int, targets: set<int>) returns (v: Option<Violation>)
      requires Valid() && id in citizens
      modifies this
      ensures Valid()
      ensures v == FriendsViolation(old(citizens.Keys), targets)
      ensures v.Some? ==> Contents() == old(Contents())
      ensures v.None? ==> Contents() == old(Contents()).(friends := old(friends)[id := targets])
      ensures nextEyeColorId == old(nextEyeColorId) && nextFoodId == old(nextFoodId)
      ensures nextTagId == old(nextTagId) && nextAddressId == old(nextAddressId)
    {
      v := FriendsViolation(citizens.Keys, targets);
      if v.None? {
        friends := friends[id := targets];
      }
    }

    /** The sequences stay ahead of every earlier state whose lookup tables the current ones extend. */
    lemma AheadOfEarlier(t: Tables)
      requires Valid()
      requires Submap(t.eyeColors, eyeColors) && Submap(t.foods, foods)
      requires Submap(t.tags, tags) && Submap(t.addresses, addresses)
      ensures SequencesAhead(t)
    {
    }

    /** Rolling a transaction back to the state it started from; the sequences keep their values. */
    method Restore(t: Tables)
      requires ValidTables(t) && SequencesAhead(t)
      modifies this
      ensures Valid() && Contents() == t
      ensures nextEyeColorId == old(nextEyeColorId) && nextFoodId == old(nextFoodId)
      ensures nextTagId == old(nextTagId) && nextAddressId == old(nextAddressId)
    {
      companies, eyeColors, foods, tags, addresses, citizens, friends :=
        t.companies, t.eyeColors, t.foods, t.tags, t.addresses, t.citizens, t.friends;
      assert Contents() == t;
    }

    /** `Citizen.objects.all().delete()`: the friend links go with them. */
    method DeleteAllCitizens()
      requires Valid()
      modifies this
      ensures Valid()
      ensures Contents() == old(Contents()).(citizens := map[], friends := map[])
      ensures nextEyeColorId == old(nextEyeColorId) && nextFoodId == old(nextFoodId)
      ensures nextTagId == old(nextTagId) && nextAddressId == old(nextAddressId)
    {
      citizens, friends := map[], map[];
    }

    /** `EyeColor.objects.all().delete()`: refused while a citizen refers to one (PROTECT). */
    method DeleteAllEyeColors() returns (v: Option<Violation>)
      requires Valid()
      modifies this
      ensures Valid()
      ensures v.Some? <==> EyeColorsReferenced(old(Contents()))
      ensures v.Some? ==> v == Some(Protected("eye color")) && Contents() == old(Contents())
      ensures v.None? ==> Contents() == old(Contents()).(eyeColors := map[])
      ensures nextEyeColorId == old(nextEyeColorId) && nextFoodId == old(nextFoodId)
      ensures nextTagId == old(nextTagId) && nextAddressId == old(nextAddressId)
    {
      if exists id :: id in citizens && citizens[id].eyeColor in eyeColors {
        v := Some(Protected("eye color"));
      } else {
        v := None;
        assert forall id :: id in citizens ==> citizens[id].eyeColor !in eyeColors;
        eyeColors := map[];
      }
    }

    /** `Food.objects.all().delete()`: the citizens' favourite-food links go with them. */
    method DeleteAllFoods()
      requires Valid()
      modifies this
      ensures Valid()
      ensures Contents() == old(Contents()).(foods := map[], citizens := WithoutFoods(old(citizens)))
      ensures nextEyeColorId == old(nextEyeColorId) && nextFoodId == old(nextFoodId)
      ensures nextTagId == old(nextTagId) && nextAddressId == old(nextAddressId)
    {
      citizens := WithoutFoods(citizens);
      foods := map[];
    }

    /** `Tag.objects.all().delete()`: the citizens' tag links go with them. */
    method DeleteAllTags()
      requires Valid()
      modifies this
      ensures Valid()
      ensures Contents() == old(Contents()).(tags := map[], citizens := WithoutTags(old(citizens)))
      ensures nextEyeColorId == old(nextEyeColorId) && nextFoodId == old(nextFoodId)
      ensures nextTagId == old(nextTagId) && nextAddressId == old(nextAddressId)
    {
      citizens := WithoutTags(citizens);
      tags := map[];
    }

    /** `Company.objects.all().delete()`: employees lose their company (SET_NULL). */
    method DeleteAllCompanies()
      requires Valid()
      modifies this
      ensures Valid()
      ensures Contents() == old(Contents()).(companies := map[], citizens := WithoutCompanies(old(citizens)))
      ensures nextEyeColorId == old(nextEyeColorId) && nextFoodId == old(nextFoodId)
      ensures nextTagId == old(nextTagId) && nextAddressId == old(nextAddressId)
    {
      citizens := WithoutCompanies(citizens);
      companies := map[];
    }

    /** `Address.objects.all().delete()`: refused while a citizen lives at one (PROTECT). */
    method DeleteAllAddresses() returns (v: Option<Violation>)
      requires Valid()
      modifies this
      ensures Valid()
      ensures v.Some? <==> AddressesReferenced(old(Contents()))
      ensures v.Some? ==> v == Some(Protected("address")) && Contents() == old(Contents())
      ensures v.None? ==> Contents() == old(Contents()).(addresses := map[])
      ensures nextEyeColorId == old(nextEyeColorId) && nextFoodId == old(nextFoodId)
      ensures nextTagId == old(nextTagId) && nextAddressId == old(nextAddressId)
    {
      if exists id :: id in citizens && citizens[id].address in addresses {
        v := Some(Protected("address"));
      } else {
        v := None;
        assert forall id :: id in citizens ==> citizens[id].address !in addresses;
        addresses := map[];
      }
    }
  }
}
