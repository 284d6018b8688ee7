/**
 * What the REST serializers read out of the store: a citizen's details with
 * its favourite foods split into fruits and vegetables, the short form used
 * when listing several citizens, and a company's employees in id order.
 */
module Serializers {
  import opened Wrappers
  import opened Models
  import opened Store
  import opened Importers

  /** The names of the citizen's favourite foods of one type (`favourite_food.filter(type=...)`). */
  function FoodsOfType(t: Tables, c: Citizen, kind: FoodType): (names: set<string>)
    ensures forall n :: n in names <==> exists k :: k in c.favouriteFood && k in t.foods && t.foods[k] == Food(n, kind)
  {
    set k | k in c.favouriteFood && k in t.foods && t.foods[k].kind == kind :: t.foods[k].name
  }

  /** `get_fruits`. */
  function Fruits(t: Tables, c: Citizen): set<string> {
    FoodsOfType(t, c, Fruit)
  }

  /** `get_vegetables`. */
  function Vegetables(t: Tables, c: Citizen): set<string> {
    FoodsOfType(t, c, Vegetable)
  }

  /** The body of a single-citizen response. */
  datatype Details = Details(username: string, age: int, fruits: set<string>, vegetables: set<string>)

  /** `CitizenSerializer(citizen).data`. */
  function CitizenDetails(t: Tables, c: Citizen): (d: Details)
    ensures d.username == c.profile.name && d.age == c.profile.age
    ensures forall n :: n in d.fruits <==> exists k :: k in c.favouriteFood && k in t.foods && t.foods[k] == Food(n, Fruit)
    ensures forall n :: n in d.vegetables <==> exists k :: k in c.favouriteFood && k in t.foods && t.foods[k] == Food(n, Vegetable)
  {
    Details(c.profile.name, c.profile.age, Fruits(t, c), Vegetables(t, c))
  }

  /**
   * Food names are unique, so no name is reported both as a fruit and as a
   * vegetable, and a favourite food of type other is in neither list.
   */
  lemma OtherFoodsHidden(t: Tables, c: Citizen, k: int)
    requires UniqueFoodNames(t.foods)
    requires k in c.favouriteFood && k in t.foods && t.foods[k].kind == Other
    ensures t.foods[k].name !in Fruits(t, c) && t.foods[k].name !in Vegetables(t, c)
  {
  }

  lemma FruitsAndVegetablesDisjoint(t: Tables, c: Citizen)
    requires UniqueFoodNames(t.foods)
    ensures Fruits(t, c) * Vegetables(t, c) == {}
  {
  }

  /** A citizen who likes carrot (vegetable), apple (fruit) and mushroom (other). */
  const ExampleFoods := map[1 := Food("carrot", Vegetable), 2 := Food("apple", Fruit), 3 := Food("mushroom", Other)]

  lemma DetailsExample(t: Tables, c: Citizen)
    requires t.foods == ExampleFoods && c.favouriteFood == {1, 2, 3}
    ensures CitizenDetails(t, c) == Details(c.profile.name, c.profile.age, {"apple"}, {"carrot"})
  {
    var d := CitizenDetails(t, c);
    assert t.foods[2] == Food("apple", Fruit);
    assert t.foods[1] == Food("carrot", Vegetable);
    forall n | n in d.fruits
      ensures n == "apple"
    {
      var k :| k in c.favouriteFood && k in t.foods && t.foods[k] == Food(n, Fruit);
    }
    forall n | n in d.vegetables
      ensures n == "carrot"
    {
      var k :| k in c.favouriteFood && k in t.foods && t.foods[k] == Food(n, Vegetable);
    }
  }

  /** Every food row has the type its name is categorised as. */
  predicate FoodsCategorized(foods: map<int, Food>) {
    forall k :: k in foods ==> foods[k].kind == Categorize(foods[k].name)
  }

  /**
   * Once imported into a store whose foods were all categorised by name, a
   * citizen's fruits are exactly the known fruits its entry lists, and its
   * vegetables exactly the known vegetables.
   */
  lemma ImportedFruitsAndVegetables(t0: Tables, t: Tables, rows: seq<PersonRow>, profiles: seq<Profile>, i: int)
    requires |profiles| == |rows| && Imported(t0, t, rows, profiles)
    requires FoodsCategorized(t0.foods)
    requires 0 <= i < |rows|
    ensures rows[i].index in t.citizens
    ensures Fruits(t, t.citizens[rows[i].index]) == set n | n in rows[i].favouriteFood && n in KnownFruits
    ensures Vegetables(t, t.citizens[rows[i].index]) == set n | n in rows[i].favouriteFood && n in KnownVegetables
  {
    var row := rows[i];
    ImportedFoods(t0, t, rows, profiles, i);
    ImportedFoodsCategorized(t0, t, rows, profiles);
    var c := t.citizens[row.index];
    ListedFoodsOfType(t, c, row.favouriteFood, Fruit);
    ListedFoodsOfType(t, c, row.favouriteFood, Vegetable);
    KnownNames(row.favouriteFood);
  }

  /** An imported citizen's favourite foods are the rows named by its entry. */
  lemma ImportedFoods(t0: Tables, t: Tables, rows: seq<PersonRow>, profiles: seq<Profile>, i: int)
    requires |profiles| == |rows| && Imported(t0, t, rows, profiles)
    requires 0 <= i < |rows|
    ensures rows[i].index in t.citizens
    ensures t.citizens[rows[i].index].favouriteFood == FoodIdsNamed(t.foods, rows[i].favouriteFood)
    ensures forall n :: n in rows[i].favouriteFood ==> n in FoodNames(t.foods)
  {
    assert Stored(t, rows[i], profiles[i]);
  }

  /** Categorising by name picks out the known fruits and the known vegetables. */
  lemma KnownNames(names: seq<string>)
    ensures (set n | n in names && Categorize(n) == Fruit) == set n | n in names && n in KnownFruits
    ensures (set n | n in names && Categorize(n) == Vegetable) == set n | n in names && n in KnownVegetables
  {
  }

  lemma ImportedFoodsCategorized(t0: Tables, t: Tables, rows: seq<PersonRow>, profiles: seq<Profile>)
    requires |profiles| == |rows| && Imported(t0, t, rows, profiles)
    requires FoodsCategorized(t0.foods)
    ensures FoodsCategorized(t.foods)
  {
    forall k | k in t.foods
      ensures t.foods[k].kind == Categorize(t.foods[k].name)
    {
      if k in t0.foods {
        assert t.foods[k] == t0.foods[k];
      }
    }
  }

  /** The favourite foods named by a list, in a categorised table, split by type. */
  lemma ListedFoodsOfType(t: Tables, c: Citizen, names: seq<string>, kind: FoodType)
    requires FoodsCategorized(t.foods)
    requires c.favouriteFood == FoodIdsNamed(t.foods, names)
    requires forall n :: n in names ==> n in FoodNames(t.foods)
    ensures FoodsOfType(t, c, kind) == set n | n in names && Categorize(n) == kind
  {
    var listed := set n | n in names && Categorize(n) == kind;
    forall n | n in FoodsOfType(t, c, kind)
      ensures n in listed
    {
      var k :| k in c.favouriteFood && k in t.foods && t.foods[k] == Food(n, kind);
    }
    forall n | n in listed
      ensures n in FoodsOfType(t, c, kind)
    {
      assert n in FoodNames(t.foods);
      if forall k :: k in t.foods ==> t.foods[k].name != n {
        assert false;
      }
      var k :| k in t.foods && t.foods[k].name == n;
      assert k in c.favouriteFood;
    }
  }

  /**
   * One entry of a multi-citizen response. The address is rendered by the
   * model's default text form, which names the row; it is kept here as the
   * address row's id.
   */
  datatype Summary = Summary(username: string, age: int, address: int, phoneNumber: string)

  /** `MultiCitizenSerializer(citizen).data`. */
  function SummaryOf(c: Citizen): Summary {
    Summary(c.profile.name, c.profile.age, c.address, c.profile.phoneNumber)
  }

  /**
   * The serializer shows its four listed fields and nothing else: two
   * citizens get the same summary exactly when they agree on name, age,
   * address and phone number, whatever their balance, email or friends.
   */
  lemma SummaryOnlyListedFields(c: Citizen, d: Citizen)
    ensures SummaryOf(c) == SummaryOf(d) <==>
      (c.profile.name == d.profile.name && c.profile.age == d.profile.age &&
       c.address == d.address && c.profile.phoneNumber == d.profile.phoneNumber)
  {
  }

  /** The ids of the citizens whose company is `company` (`company.citizen_set`). */
  function EmployeeIds(t: Tables, company: int): set<int> {
    set id | id in t.citizens && t.citizens[id].company == Some(company)
  }

  /**
   * `CompanySerializer(company).data['employees']`: one link per citizen of
   * the company, in ascending id order (the citizens' default ordering). A
   * link names the citizen's id.
   */
  function Employees(t: Tables, company: int): (ids: seq<int>)
    ensures forall id :: id in ids <==> id in t.citizens && t.citizens[id].company == Some(company)
    ensures forall i, j :: 0 <= i < j < |ids| ==> ids[i] < ids[j]
  {
    InIdOrder(EmployeeIds(t, company))
  }
}
