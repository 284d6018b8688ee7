/**
 * The decisions of the three REST endpoints: a malformed id parameter, a
 * missing row, a company without employees, or the serialized data. The
 * HTTP status and payload of each outcome are fixed per constructor.
 */
module Views {
  import opened Wrappers
  import opened Strings
  import opened Models
  import opened Store
  import opened UseCases
  import opened Serializers

  datatype Response =
    | InvalidFormat   // 400 with the invalid id format payload
    | NotFound        // 404 with the non-existent resource payload
    | NoEmployees     // 204 with the no employees payload
    | SingleCitizen(details: Details)
    | CitizenPair(citizens: seq<Summary>, commonLiveBrownEyedFriends: map<int, Summary>)
    | EmployeeLinks(employees: seq<int>)

  /**
   * `_validate_params_format`: every parameter must be an integer literal;
   * the first one that is not stops the check with the 400 response.
   */
  function ValidateParamsFormat(params: seq<string>): (r: Option<Response>)
    ensures r.None? <==> forall i :: 0 <= i < |params| ==> IsIntLiteral(params[i])
    ensures r.Some? ==> r.value == InvalidFormat
  {
    if params == [] then None
    else if ParseInt(params[0]).None? then Some(InvalidFormat)
    else
      var rest := ValidateParamsFormat(params[1..]);
      assert forall i :: 1 <= i < |params| ==> params[i] == params[1..][i - 1];
      rest
  }

  /** `SingleCitizenDetailsView.get`. */
  function SingleCitizenView(t: Tables, citizenId: string): (r: Response)
    ensures r == InvalidFormat <==> !IsIntLiteral(citizenId)
    ensures r == NotFound <==> IsIntLiteral(citizenId) && ParseInt(citizenId).value !in t.citizens
    ensures r.SingleCitizen? <==> IsIntLiteral(citizenId) && ParseInt(citizenId).value in t.citizens
    ensures r.SingleCitizen? ==> r.details == CitizenDetails(t, t.citizens[ParseInt(citizenId).value])
  {
    match ValidateParamsFormat([citizenId])
    case Some(error) => error
    case None =>
      assert IsIntLiteral([citizenId][0]);
      var id := ParseInt(citizenId).value;
      if id !in t.citizens then NotFound
      else SingleCitizen(CitizenDetails(t, t.citizens[id]))
  }

  /** The rows `Citizen.objects.filter(id__in=[a, b])` returns, as ids. */
  function CitizensNamed(t: Tables, a: int, b: int): (found: set<int>)
    ensures |found| == 2 <==> a != b && a in t.citizens && b in t.citizens
  {
    var found := set id | id in t.citizens && (id == a || id == b);
    if a != b && a in t.citizens && b in t.citizens then
      assert found == {a, b};
      found
    else
      SetAtMostOne(found, if a !in t.citizens then b else a);
      found
  }

  lemma SetAtMostOne(s: set<int>, x: int)
    requires s <= {x}
    ensures |s| <= 1
  {
    if x in s {
      assert s == {x};
    } else {
      assert s == {};
    }
  }

  function Smaller(a: int, b: int): int {
    if a < b then a else b
  }

  function Larger(a: int, b: int): int {
    if a < b then b else a
  }

  /**
   * `TwoCitizensDetailsView.get`: both ids must name stored citizens, and
   * different ones, else the response is NotFound. The two citizens are
   * listed in ascending id order, followed by their common live brown-eyed
   * friends, keyed by id (the source builds them from a set, in no order).
   */
  function TwoCitizensView(t: Tables, citizenAId: string, citizenBId: string): (r: Response)
    requires t.friends.Keys == t.citizens.Keys
    ensures r == InvalidFormat <==> !IsIntLiteral(citizenAId) || !IsIntLiteral(citizenBId)
    ensures r == NotFound <==> (
      && IsIntLiteral(citizenAId) && IsIntLiteral(citizenBId)
      && var a, b := ParseInt(citizenAId).value, ParseInt(citizenBId).value;
         a == b || a !in t.citizens || b !in t.citizens)
    ensures r.CitizenPair? ==> (
      && IsIntLiteral(citizenAId) && IsIntLiteral(citizenBId)
      && var a, b := ParseInt(citizenAId).value, ParseInt(citizenBId).value;
         && a != b && a in t.citizens && b in t.citizens
         && r.citizens == [SummaryOf(t.citizens[Smaller(a, b)]), SummaryOf(t.citizens[Larger(a, b)])]
         && r.commonLiveBrownEyedFriends.Keys == CommonLiveBrownEyedFriends(t, a, b)
         && forall x :: x in r.commonLiveBrownEyedFriends ==> r.commonLiveBrownEyedFriends[x] == SummaryOf(t.citizens[x]))
    ensures r.InvalidFormat? || r.NotFound? || r.CitizenPair?
  {
    match ValidateParamsFormat([citizenAId, citizenBId])
    case Some(error) => error
    case None =>
      assert IsIntLiteral([citizenAId, citizenBId][0]) && IsIntLiteral([citizenAId, citizenBId][1]);
      var a, b := ParseInt(citizenAId).value, ParseInt(citizenBId).value;
      var found := CitizensNamed(t, a, b);
      if |found| != 2 then NotFound
      else
        var ids := InIdOrder(found);
        assert ids[0] in found && ids[1] in found && ids[0] < ids[1];
        assert ids[0] == Smaller(a, b) && ids[1] == Larger(a, b);
        CommonFriendsSymmetric(t, a, b);
        var common := CommonLiveBrownEyedFriends(t, ids[0], ids[1]);
        CitizenPair([SummaryOf(t.citizens[ids[0]]), SummaryOf(t.citizens[ids[1]])],
                    map x | x in common :: SummaryOf(t.citizens[x]))
  }

  /**
   * `CompanyEmployeesView.get`: a company that does not exist is NotFound; one
   * that exists but has no citizens is NoEmployees; otherwise its employees in
   * ascending id order.
   */
  function CompanyEmployeesView(t: Tables, companyId: string): (r: Response)
    ensures r == InvalidFormat <==> !IsIntLiteral(companyId)
    ensures r == NotFound <==> IsIntLiteral(companyId) && ParseInt(companyId).value !in t.companies
    ensures r == NoEmployees <==> (
      && IsIntLiteral(companyId) && ParseInt(companyId).value in t.companies
      && forall id :: id in t.citizens ==> t.citizens[id].company != Some(ParseInt(companyId).value))
    ensures r.EmployeeLinks? ==> (
      && IsIntLiteral(companyId) && ParseInt(companyId).value in t.companies
      && |r.employees| > 0
      && (forall id :: id in r.employees <==> id in t.citizens && t.citizens[id].company == Some(ParseInt(companyId).value))
      && (forall i, j :: 0 <= i < j < |r.employees| ==> r.employees[i] < r.employees[j]))
    ensures r.InvalidFormat? || r.NotFound? || r.NoEmployees? || r.EmployeeLinks?
  {
    match ValidateParamsFormat([companyId])
    case Some(error) => error
    case None =>
      assert IsIntLiteral([companyId][0]);
      var id := ParseInt(companyId).value;
      if id !in t.companies then NotFound
      else if EmployeeIds(t, id) == {} then
        assert forall x :: x in t.citizens && t.citizens[x].company == Some(id) ==> x in EmployeeIds(t, id);
        NoEmployees
      else
        var employees := Employees(t, id);
        assert |employees| > 0 by {
          var x :| x in EmployeeIds(t, id);
          assert x in employees;
        }
        EmployeeLinks(employees)
  }

  /** A parameter that is not a number is refused before any lookup. */
  lemma InvalidFormatExample(t: Tables)
    ensures SingleCitizenView(t, "this_is_totally_invalid") == InvalidFormat
    ensures CompanyEmployeesView(t, "this_is_totally_invalid") == InvalidFormat
  {
    assert !IsDigit("this_is_totally_invalid"[0]);
  }

  /** The same id twice finds one row, not two: the pair view answers NotFound. */
  lemma SameCitizenTwiceNotFound(t: Tables, citizenId: string)
    requires t.friends.Keys == t.citizens.Keys && IsIntLiteral(citizenId)
    ensures TwoCitizensView(t, citizenId, citizenId) == NotFound
  {
  }

  /**
   * Citizens 2 and 1 of the example tables: listed as 1 then 2, with their
   * one common live brown-eyed friend, 3.
   */
  lemma PairViewExample()
    ensures var t := ExampleTables;
      TwoCitizensView(t, "2", "1") == CitizenPair([SummaryOf(t.citizens[1]), SummaryOf(t.citizens[2])],
                                                  map[3 := SummaryOf(t.citizens[3])])
  {
    var t := ExampleTables;
    assert ParseInt("1") == Some(1) && ParseInt("2") == Some(2);
    var r := TwoCitizensView(t, "2", "1");
    CommonFriendsExample();
    CommonFriendsSymmetric(t, 2, 1);
    assert r.commonLiveBrownEyedFriends == map[3 := SummaryOf(t.citizens[3])];
  }
}
