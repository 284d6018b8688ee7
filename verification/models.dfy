/**
 * The entities of the citizens application: foods with their fixed type
 * enumeration, companies, addresses, the ISO/IEC 5218 gender codes,
 * registration timestamps and the citizen row itself. The tables that hold
 * them, with their uniqueness and reference invariants, are in module Store.
 */
module Models {
  import opened Wrappers

  /** The three food types; every Food row has exactly one of them. */
  datatype FoodType = Fruit | Vegetable | Other

  const KnownFruits: seq<string> := ["orange", "apple", "banana", "strawberry"]
  const KnownVegetables: seq<string> := ["beetroot", "celery", "carrot", "cucumber"]

  /** No name is both a known fruit and a known vegetable. */
  lemma KnownListsDisjoint()
    ensures forall n :: n in KnownFruits ==> n !in KnownVegetables
  {
  }

  /** A Food row: its name (unique across the table) and its type. */
  datatype Food = Food(name: string, kind: FoodType)

  datatype Company = Company(name: string)

  /** One postal address; the importer creates one per citizen, never shared. */
  datatype Address = Address(streetAddress: string, cityName: string, stateName: string, postCode: string)

  /** The codes of ISO/IEC 5218 that the gender column may hold. */
  const NotKnown := 0
  const Male := 1
  const Female := 2
  const NotApplicable := 9

  predicate IsGenderCode(code: int) {
    code == NotKnown || code == Male || code == Female || code == NotApplicable
  }

  /**
   * A point in time as a day number, the second within that day and the UTC
   * offset (in seconds) the wall-clock reading was taken in.
   */
  datatype DateTime = DateTime(day: int, second: int, utcOffset: int)

  const SecondsPerDay := 86400

  /** Seconds since the epoch of day 0, in UTC. */
  function Instant(t: DateTime): int {
    t.day * SecondsPerDay + t.second - t.utcOffset
  }

  /** The same instant read on a UTC clock, as the timestamp column stores it. */
  function ToUtc(t: DateTime): (u: DateTime)
    ensures u.utcOffset == 0 && 0 <= u.second < SecondsPerDay
    ensures Instant(u) == Instant(t)
  {
    var i := Instant(t);
    DateTime(i / SecondsPerDay, i % SecondsPerDay, 0)
  }

  /** Normalising twice changes nothing: a UTC reading is already normal. */
  lemma ToUtcIdempotent(t: DateTime)
    ensures ToUtc(ToUtc(t)) == ToUtc(t)
  {
    var u := ToUtc(t);
    assert Instant(u) == u.day * SecondsPerDay + u.second;
  }

  /** 12:29:07 at offset -01:00 is stored as 13:29:07 UTC on the same day. */
  lemma ToUtcWestOfGreenwich(day: int)
    ensures ToUtc(DateTime(day, 12 * 3600 + 29 * 60 + 7, -3600)) == DateTime(day, 13 * 3600 + 29 * 60 + 7, 0)
  {
    var i := Instant(DateTime(day, 12 * 3600 + 29 * 60 + 7, -3600));
    assert i == day * SecondsPerDay + 13 * 3600 + 29 * 60 + 7;
  }

  /** The scalar columns of a citizen, copied from the source record. */
  datatype Profile = Profile(
    externalId: string, guid: string, hasDied: bool, pictureUrl: string, age: int,
    name: string, email: string, phoneNumber: string, about: string, greeting: string)

  /**
   * A citizen row. Its id is the key it is stored under; `eyeColor`,
   * `address`, `company`, `tags` and `favouriteFood` hold ids of rows in the
   * other tables. The directed friends relation is a table of its own.
   */
  datatype Citizen = Citizen(
    profile: Profile, registeredAt: DateTime, balanceInCents: int, genderCode: int,
    eyeColor: int, address: int, company: Option<int>, tags: set<int>, favouriteFood: set<int>)

  lemma NonEmptyHasElement(s: set<int>)
    requires |s| > 0
    ensures exists y :: y in s
  {
    if forall y :: y !in s {
      assert false;
    }
  }

  lemma {:induction false} MinimumExists(s: set<int>)
    requires |s| > 0
    ensures exists m :: m in s && forall x :: x in s ==> m <= x
    decreases |s|
  {
    NonEmptyHasElement(s);
    var y :| y in s;
    if s == {y} {
      assert forall x :: x in s ==> y <= x;
    } else {
      MinimumExists(s - {y});
      var m :| m in s - {y} && forall x :: x in s - {y} ==> m <= x;
      var least := if y < m then y else m;
      forall x | x in s
        ensures least <= x
      {
        if x != y {
          assert x in s - {y};
        }
      }
      assert least in s;
    }
  }

  function Minimum(s: set<int>): (m: int)
    requires |s| > 0
    ensures m in s && forall x :: x in s ==> m <= x
  {
    MinimumExists(s);
    var m :| m in s && forall x :: x in s ==> m <= x;
    m
  }

  /** A set of ids listed in ascending order: citizens are always read this way. */
  function InIdOrder(ids: set<int>): (r: seq<int>)
    ensures |r| == |ids|
    ensures forall x :: x in r <==> x in ids
    ensures forall i, j :: 0 <= i < j < |r| ==> r[i] < r[j]
    decreases |ids|
  {
    if |ids| == 0 then []
    else
      var m := Minimum(ids);
      [m] + InIdOrder(ids - {m})
  }
}
