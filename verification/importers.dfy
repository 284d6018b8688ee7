/**
 * The resource importers: companies and people are read from decoded JSON
 * arrays and written inside one transaction each, so an import either stores
 * everything or, when any entry is rejected, nothing.
 */
module Importers {
  import opened Wrappers
  import opened Strings
  import opened Json
  import opened Models
  import opened Store

  /** How an import stops. Only `MalformedEntry` is the importers' own `DataImportError`. */
  datatype ImportError =
    | MalformedEntry                    // DataImportError: keys missing or unexpected
    | MissingKey(key: string)           // a KeyError the importer does not translate
    | TypeFailure(field: string)        // a value of the wrong JSON type
    | ValueFailure(field: string)       // a string of the right type that does not parse
    | DatabaseFailure(violation: Violation)

  predicate IsDataImportError(e: ImportError) {
    e.MalformedEntry?
  }

  const GenderToGenderCode: map<string, int> := map["male" := Male, "female" := Female]

  /** Exactly the keys a people entry must have. */
  const ExpectedPeopleFields: set<string> := {
    "_id", "index", "guid", "has_died", "balance", "picture", "age",
    "eyeColor", "name", "gender", "company_id", "email", "phone", "address",
    "about", "registered", "tags", "friends", "greeting", "favouriteFood"
  }

  // ---------------------------------------------------------------------------
  // Balances

  /** The text `replace('$', '').replace(',', '')` leaves of a balance. */
  function BalanceDigits(raw: string): string {
    Without(Without(raw, '$'), ',')
  }

  /**
   * `_raw_balance_to_cents` as written: split at the one '.', then dollars
   * times 100 plus cents. The sign of the dollars is not carried to the cents.
   */
  function RawBalanceToCents(raw: string): (r: Option<int>)
    ensures r.Some? ==> Count(raw, '.') == 1
  {
    CountWithout(raw, '$', '.');
    CountWithout(Without(raw, '$'), ',', '.');
    var parts := Split(BalanceDigits(raw), '.');
    if |parts| != 2 then None
    else match (ParseInt(parts[0]), ParseInt(parts[1]))
      case (Some(dollars), Some(cents)) => Some(dollars * 100 + cents)
      case _ => None
  }

  /** The conversion with the sign applied to the whole amount, which the importer model uses. */
  function BalanceToCents(raw: string): (r: Option<int>)
    ensures r.Some? ==> Count(raw, '.') == 1
    ensures r.Some? <==> RawBalanceToCents(raw).Some?
  {
    CountWithout(raw, '$', '.');
    CountWithout(Without(raw, '$'), ',', '.');
    var parts := Split(BalanceDigits(raw), '.');
    if |parts| != 2 then None
    else match (ParseInt(parts[0]), ParseInt(parts[1]))
      case (Some(dollars), Some(cents)) =>
        if |parts[0]| > 0 && parts[0][0] == '-' then Some(dollars * 100 - cents) else Some(dollars * 100 + cents)
      case _ => None
  }

  /** Digits grouped in threes from the right, as in "2,418". */
  function Grouped(digits: string): string {
    if |digits| <= 3 then digits
    else Grouped(digits[..|digits| - 3]) + "," + digits[|digits| - 3..]
  }

  /** Grouping adds nothing but commas. */
  lemma {:induction false} GroupedChars(digits: string, x: char)
    requires x != ',' && x !in digits
    ensures x !in Grouped(digits)
    decreases |digits|
  {
    if |digits| > 3 {
      var init := digits[..|digits| - 3];
      assert digits == init + digits[|digits| - 3..];
      GroupedChars(init, x);
    }
  }

  lemma {:induction false} WithoutGrouped(digits: string)
    requires ',' !in digits
    ensures Without(Grouped(digits), ',') == digits
    decreases |digits|
  {
    if |digits| <= 3 {
      WithoutAbsent(digits, ',');
    } else {
      var init := digits[..|digits| - 3];
      var tail := digits[|digits| - 3..];
      assert digits == init + tail;
      assert ',' !in init && ',' !in tail;
      WithoutGrouped(init);
      WithoutAroundComma(Grouped(init), init, tail);
    }
  }

  /** Dropping the commas of `head + "," + tail` drops the joining one too. */
  lemma WithoutAroundComma(head: string, init: string, tail: string)
    requires Without(head, ',') == init && ',' !in tail
    ensures Without(head + "," + tail, ',') == init + tail
  {
    var rest := [','] + tail;
    assert head + "," + tail == head + rest;
    assert rest[0] == ',' && rest[1..] == tail;
    WithoutAbsent(tail, ',');
    assert Without(rest, ',') == tail;
    WithoutAppend(head, rest, ',');
  }

  function TwoDigits(n: nat): (s: string)
    requires n < 100
    ensures IsNumeral(s) && NumeralValue(s) == n
  {
    var s := [DigitChar(n / 10), DigitChar(n % 10)];
    assert NumeralValue(s[..1]) == n / 10 by {
      assert s[..1][..0] == [];
    }
    s
  }

  /** A balance as the resource files write it: "-$2,418.59" for -241859 cents. */
  function FormatBalance(cents: int): string {
    var magnitude := if cents < 0 then -cents else cents;
    (if cents < 0 then "-" else "") + "$" + Grouped(DecimalString(magnitude / 100)) + "." + TwoDigits(magnitude % 100)
  }

  lemma ParseSigned(negative: bool, n: nat)
    ensures ParseInt((if negative then "-" else "") + DecimalString(n)) == Some(if negative then -(n as int) else n as int)
  {
    if negative {
      var s := "-" + DecimalString(n);
      assert s[1..] == DecimalString(n);
      assert !IsNumeral(s) by { assert !IsDigit(s[0]); }
    } else {
      ParseIntOfDecimal(n);
      assert "" + DecimalString(n) == DecimalString(n);
    }
  }

  lemma DropDollar(sign: string, g: string, c: string)
    requires '$' !in sign && '$' !in g && '$' !in c
    ensures Without(sign + "$" + g + "." + c, '$') == sign + g + "." + c
  {
    var a := sign + "$";
    var b := a + g;
    var e := b + ".";
    WithoutAbsent(sign, '$');
    WithoutAbsent(g, '$');
    WithoutAbsent(c, '$');
    WithoutAppend(sign, "$", '$');
    WithoutChar('$', '$');
    assert Without(a, '$') == sign;
    WithoutAppend(a, g, '$');
    assert Without(b, '$') == sign + g;
    WithoutAppend(b, ".", '$');
    WithoutChar('.', '$');
    assert Without(e, '$') == sign + g + ".";
    WithoutAppend(e, c, '$');
  }

  lemma DropCommas(sign: string, d: string, c: string)
    requires ',' !in sign && ',' !in d && ',' !in c
    ensures Without(sign + Grouped(d) + "." + c, ',') == sign + d + "." + c
  {
    var g := Grouped(d);
    var b := sign + g;
    var e := b + ".";
    WithoutAbsent(sign, ',');
    WithoutGrouped(d);
    WithoutAbsent(c, ',');
    WithoutAppend(sign, g, ',');
    assert Without(b, ',') == sign + d;
    WithoutAppend(b, ".", ',');
    WithoutChar('.', ',');
    assert Without(e, ',') == sign + d + ".";
    WithoutAppend(e, c, ',');
  }

  /** What stripping the currency marks leaves of a formatted balance. */
  lemma FormattedDigits(cents: int)
    ensures var magnitude := if cents < 0 then -cents else cents;
      BalanceDigits(FormatBalance(cents)) ==
        (if cents < 0 then "-" else "") + DecimalString(magnitude / 100) + "." + TwoDigits(magnitude % 100)
  {
    var magnitude := if cents < 0 then -cents else cents;
    var sign := if cents < 0 then "-" else "";
    var d := DecimalString(magnitude / 100);
    var c := TwoDigits(magnitude % 100);
    var g := Grouped(d);
    assert forall x :: x in d ==> IsDigit(x);
    assert forall x :: x in c ==> IsDigit(x);
    GroupedChars(d, '$');
    DropDollar(sign, g, c);
    DropCommas(sign, d, c);
  }

  /** A signed numeral, a '.', and two digits split into the two numerals. */
  lemma SplitAtPoint(negative: bool, d: string, c: string)
    requires IsNumeral(d) && IsNumeral(c)
    ensures var sign := if negative then "-" else "";
      && Split(sign + d + "." + c, '.') == [sign + d, c]
      && ((sign + d)[0] == '-' <==> negative)
  {
    var sign := if negative then "-" else "";
    assert '.' !in sign + d && '.' !in c by {
      assert forall x :: x in d ==> IsDigit(x);
      assert forall x :: x in c ==> IsDigit(x);
    }
    SplitPiece(sign + d, c, '.');
    SplitSeparatorFree(c, '.');
    assert IsDigit(d[0]);
  }

  /** The two pieces a formatted balance splits into at its '.', and their values. */
  lemma BalancePieces(cents: int)
    ensures var magnitude := if cents < 0 then -cents else cents;
      var parts := Split(BalanceDigits(FormatBalance(cents)), '.');
      && |parts| == 2
      && ParseInt(parts[0]) == Some(if cents < 0 then -(magnitude / 100) else magnitude / 100)
      && ParseInt(parts[1]) == Some(magnitude % 100)
      && (|parts[0]| > 0 && parts[0][0] == '-' <==> cents < 0)
  {
    var magnitude := if cents < 0 then -cents else cents;
    var d := DecimalString(magnitude / 100);
    var c := TwoDigits(magnitude % 100);
    FormattedDigits(cents);
    SplitAtPoint(cents < 0, d, c);
    ParseSigned(cents < 0, magnitude / 100);
    assert ParseInt(c) == Some(magnitude % 100) by {
      ParseIntOfDecimal(magnitude % 100);
    }
  }

  /** Every formatted balance converts back to its amount, negative ones included. */
  lemma BalanceRoundTrip(cents: int)
    ensures BalanceToCents(FormatBalance(cents)) == Some(cents)
  {
    BalancePieces(cents);
  }

  /** The conversion as written is right for amounts that are not negative. */
  lemma RawBalanceRoundTrip(cents: nat)
    ensures RawBalanceToCents(FormatBalance(cents)) == Some(cents)
  {
    BalancePieces(cents);
  }

  /**
   * As written, a negative balance with cents comes out too high by twice its
   * cents: the minus sign applies to the dollars only.
   */
  lemma RawBalanceNegative(cents: int)
    requires cents < 0
    ensures RawBalanceToCents(FormatBalance(cents)) == Some(cents + 2 * (-cents % 100))
  {
    BalancePieces(cents);
  }

  /** "-$0.50" is read as 50 cents by the conversion as written, and as -50 by the corrected one. */
  lemma RawBalanceLosesSign()
    ensures FormatBalance(-50) == "-$0.50"
    ensures RawBalanceToCents("-$0.50") == Some(50)
    ensures BalanceToCents("-$0.50") == Some(-50)
  {
    assert DecimalString(0) == "0";
    assert Grouped("0") == "0";
    assert TwoDigits(50) == "50";
    RawBalanceNegative(-50);
    BalanceRoundTrip(-50);
  }

  lemma DecimalExample()
    ensures DecimalString(2418) == "2418"
  {
    assert DecimalString(2) == "2";
    assert DecimalString(24) == "24";
    assert DecimalString(241) == "241";
  }

  lemma GroupedExample()
    ensures Grouped("2418") == "2,418"
  {
    var s := "2418";
    assert s[..|s| - 3] == "2" && s[|s| - 3..] == "418";
    assert Grouped("2") == "2";
  }

  lemma FormatExample()
    ensures FormatBalance(241859) == "$2,418.59"
  {
    DecimalExample();
    GroupedExample();
    assert TwoDigits(59) == "59";
    var s := "" + "$" + "2,418" + "." + "59";
    assert s == "$2,418.59";
  }

  /** The format the resource files use. */
  lemma BalanceExample()
    ensures BalanceToCents("$2,418.59") == Some(241859)
    ensures RawBalanceToCents("$2,418.59") == Some(241859)
  {
    FormatExample();
    RawBalanceRoundTrip(241859);
    BalanceRoundTrip(241859);
  }

  // ---------------------------------------------------------------------------
  // Addresses

  /** A field `_create_address` can store and read back: no surrounding space, no comma. */
  predicate IsAddressField(s: string) {
    IsTrimmed(s) && ',' !in s
  }

  /**
   * The parsing half of `_create_address`: exactly four comma-separated parts,
   * each with its surrounding whitespace stripped; any other count is the
   * ValueError of the tuple unpacking.
   */
  function ParseAddress(raw: string): (r: Option<Address>)
    ensures r.Some? <==> Count(raw, ',') == 3
    ensures r.Some? ==> IsTrimmed(r.value.streetAddress) && IsTrimmed(r.value.cityName)
    ensures r.Some? ==> IsTrimmed(r.value.stateName) && IsTrimmed(r.value.postCode)
  {
    var parts := Split(raw, ',');
    if |parts| != 4 then None
    else Some(Address(Strip(parts[0]), Strip(parts[1]), Strip(parts[2]), Strip(parts[3])))
  }

  /** An address as the resource files write it: "628 Sumner Place, Sperryville, American Samoa, 9819". */
  function FormatAddress(a: Address): string {
    Join([a.streetAddress, " " + a.cityName, " " + a.stateName, " " + a.postCode], ',')
  }

  lemma StripAfterSpace(s: string)
    requires IsTrimmed(s)
    ensures Strip(" " + s) == s
  {
    StripPadded(" ", s, "");
    assert " " + s + "" == " " + s;
  }

  /** Every address with storable fields survives formatting and parsing unchanged. */
  lemma AddressRoundTrip(a: Address)
    requires IsAddressField(a.streetAddress) && IsAddressField(a.cityName)
    requires IsAddressField(a.stateName) && IsAddressField(a.postCode)
    ensures ParseAddress(FormatAddress(a)) == Some(a)
  {
    var parts := [a.streetAddress, " " + a.cityName, " " + a.stateName, " " + a.postCode];
    assert forall i :: 0 <= i < 4 ==> ',' !in parts[i];
    SplitJoin(parts, ',');
    StripPadded("", a.streetAddress, "");
    assert "" + a.streetAddress + "" == a.streetAddress;
    StripAfterSpace(a.cityName);
    StripAfterSpace(a.stateName);
    StripAfterSpace(a.postCode);
  }

  lemma JoinFour(a: string, b: string, c: string, d: string, sep: char)
    ensures Join([a, b, c, d], sep) == a + [sep] + b + [sep] + c + [sep] + d
  {
    var parts := [a, b, c, d];
    assert parts[1..] == [b, c, d];
    assert [b, c, d][1..] == [c, d];
    assert [c, d][1..] == [d];
    assert Join([c, d], sep) == c + [sep] + d;
    assert Join([b, c, d], sep) == b + [sep] + (c + [sep] + d);
    assert Join(parts, sep) == a + [sep] + (b + [sep] + (c + [sep] + d));
  }

  lemma FormatAddressExample()
    ensures FormatAddress(Address("628 Sumner Place", "Sperryville", "American Samoa", "9819")) ==
      "628 Sumner Place, Sperryville, American Samoa, 9819"
  {
    JoinFour("628 Sumner Place", " Sperryville", " American Samoa", " 9819", ',');
    assert " " + "Sperryville" == " Sperryville";
    assert " " + "American Samoa" == " American Samoa";
    assert " " + "9819" == " 9819";
    var first := "628 Sumner Place" + [','] + " Sperryville";
    assert first == "628 Sumner Place, Sperryville";
    var second := first + [','] + " American Samoa";
    assert second == "628 Sumner Place, Sperryville, American Samoa";
    assert second + [','] + " 9819" == "628 Sumner Place, Sperryville, American Samoa, 9819";
  }

  lemma AddressExampleFields()
    ensures IsAddressField("628 Sumner Place") && IsAddressField("Sperryville")
    ensures IsAddressField("American Samoa") && IsAddressField("9819")
  {
  }

  /** The address of the importer's test entry. */
  lemma AddressExample()
    ensures ParseAddress("628 Sumner Place, Sperryville, American Samoa, 9819") ==
      Some(Address("628 Sumner Place", "Sperryville", "American Samoa", "9819"))
  {
    FormatAddressExample();
    AddressExampleFields();
    AddressRoundTrip(Address("628 Sumner Place", "Sperryville", "American Samoa", "9819"));
  }

  // ---------------------------------------------------------------------------
  // Field conversions

  /**
   * `GENDER_TO_GENDER_CODE.get(gender, 0)`: a list or object is not a valid
   * dictionary key; any other value that is not "male" or "female" is "not known".
   */
  function GenderCodeOf(gender: Json): (r: Result<int, ImportError>)
    ensures r.Success? ==> IsGenderCode(r.value)
    ensures r == Success(Male) <==> gender == JStr("male")
    ensures r == Success(Female) <==> gender == JStr("female")
    ensures r.Failure? <==> gender.JList? || gender.JObject?
  {
    match gender
    case JList(_) => Failure(TypeFailure("gender"))
    case JObject(_) => Failure(TypeFailure("gender"))
    case JStr(s) => Success(if s in GenderToGenderCode then GenderToGenderCode[s] else NotKnown)
    case _ => Success(NotKnown)
  }

  /** `_company_id_to_index`: the people file counts companies from 1, the companies file from 0. */
  function CompanyIdToIndex(companyId: int): int {
    companyId - 1
  }

  /** The ids 1 to 100 of the people file land one to one on the indexes 0 to 99 of the companies file. */
  lemma CompanyIdsMatchIndexes()
    ensures forall id :: 1 <= id <= 100 <==> 0 <= CompanyIdToIndex(id) <= 99
    ensures forall a, b :: CompanyIdToIndex(a) == CompanyIdToIndex(b) ==> a == b
    ensures CompanyIdToIndex(58) == 57
  {
  }

  /** The `company_id` value as an integer; a JSON boolean counts as 0 or 1, as in Python. */
  function CompanyIdOf(value: Json): (r: Result<int, ImportError>)
    ensures r.Success? <==> value.JInt? || value.JBool?
    ensures value.JInt? ==> r == Success(value.n - 1)
  {
    match value
    case JInt(n) => Success(CompanyIdToIndex(n))
    case JBool(b) => Success(CompanyIdToIndex(if b then 1 else 0))
    case _ => Failure(TypeFailure("company_id"))
  }

  /** The type `_create_food_data` gives a new food: known fruits, then known vegetables, else other. */
  function Categorize(name: string): (kind: FoodType)
    ensures kind == Fruit <==> name in KnownFruits
    ensures kind == Vegetable <==> name in KnownVegetables
    ensures kind == Other <==> name !in KnownFruits && name !in KnownVegetables
  {
    KnownListsDisjoint();
    if name in KnownFruits then Fruit
    else if name in KnownVegetables then Vegetable
    else Other
  }

  /** One item of a `friends` list: an object whose "index" is an integer. */
  predicate IsFriendRef(item: Json) {
    item.JObject? && "index" in item.fields && item.fields["index"].JInt?
  }

  function FriendIndex(item: Json): (r: Result<int, ImportError>)
    ensures r.Success? <==> IsFriendRef(item)
  {
    match item
    case JObject(fields) =>
      if "index" !in fields then Failure(MissingKey("index"))
      else if fields["index"].JInt? then Success(fields["index"].n)
      else Failure(TypeFailure("friends"))
    case _ => Failure(TypeFailure("friends"))
  }

  /** `[friend['index'] for friend in items]`: the first bad item stops it. */
  function FriendIndices(items: seq<Json>): (r: Result<seq<int>, ImportError>)
    ensures r.Success? <==> forall i :: 0 <= i < |items| ==> IsFriendRef(items[i])
    ensures r.Success? ==> |r.value| == |items|
    ensures r.Success? ==> forall i :: 0 <= i < |items| ==> r.value[i] == items[i].fields["index"].n
  {
    if items == [] then Success([])
    else
      var first :- FriendIndex(items[0]);
      var rest :- FriendIndices(items[1..]);
      Success([first] + rest)
  }

  /** The `friends` value iterated as Python does: an empty string or object yields nothing. */
  function FriendsOf(value: Json): (r: Result<seq<int>, ImportError>)
    ensures value.JList? ==> r == FriendIndices(value.items)
  {
    match value
    case JList(items) => FriendIndices(items)
    case JObject(fields) => if fields == map[] then Success([]) else Failure(TypeFailure("friends"))
    case JStr(s) => if s == "" then Success([]) else Failure(TypeFailure("friends"))
    case _ => Failure(TypeFailure("friends"))
  }

  /** A list of names: every item must be a string. */
  function NamesOf(items: seq<Json>, field: string): (r: Result<seq<string>, ImportError>)
    ensures r.Success? <==> forall i :: 0 <= i < |items| ==> items[i].JStr?
    ensures r.Success? ==> |r.value| == |items|
    ensures r.Success? ==> forall i :: 0 <= i < |items| ==> r.value[i] == items[i].s
  {
    if items == [] then Success([])
    else if !items[0].JStr? then Failure(TypeFailure(field))
    else
      var rest :- NamesOf(items[1..], field);
      Success([items[0].s] + rest)
  }

  /** A string iterated as Python does: each character as a string of its own. */
  function Characters(s: string): (r: seq<string>)
    ensures |r| == |s| && forall i :: 0 <= i < |s| ==> r[i] == [s[i]]
  {
    if s == [] then [] else [[s[0]]] + Characters(s[1..])
  }

  /**
   * The food or tag names, iterated as Python does, like the `friends`
   * value above: a list gives its items, a string its characters (each one a
   * name of its own) and an empty object nothing. A non-empty object would
   * give its keys in file order, which the parsed map no longer keeps, so
   * the model refuses it.
   */
  function NameList(value: Json, field: string): (r: Result<seq<string>, ImportError>)
    ensures value.JList? ==> r == NamesOf(value.items, field)
    ensures value.JStr? ==> r.Success? && |r.value| == |value.s| && forall i :: 0 <= i < |value.s| ==> r.value[i] == [value.s[i]]
    ensures value.JObject? ==> (r.Success? <==> value.fields == map[])
    ensures value.JObject? && r.Success? ==> r.value == []
    ensures !(value.JList? || value.JStr? || value.JObject?) ==> r == Failure(TypeFailure(field))
  {
    match value
    case JList(items) => NamesOf(items, field)
    case JStr(s) => Success(Characters(s))
    case JObject(fields) => if fields == map[] then Success([]) else Failure(TypeFailure(field))
    case _ => Failure(TypeFailure(field))
  }

  function Text(value: Json, field: string): (r: Result<string, ImportError>)
    ensures r.Success? <==> value.JStr?
    ensures r.Success? ==> r.value == value.s
  {
    if value.JStr? then Success(value.s) else Failure(TypeFailure(field))
  }

  function Integer(value: Json, field: string): (r: Result<int, ImportError>)
    ensures r.Success? <==> value.JInt?
    ensures r.Success? ==> r.value == value.n
  {
    if value.JInt? then Success(value.n) else Failure(TypeFailure(field))
  }

  function Flag(value: Json, field: string): (r: Result<bool, ImportError>)
    ensures r.Success? <==> value.JBool?
    ensures r.Success? ==> r.value == value.b
  {
    if value.JBool? then Success(value.b) else Failure(TypeFailure(field))
  }

  // ---------------------------------------------------------------------------
  // People entries

  /** What the import loop reads from one people entry before anything is stored. */
  datatype PersonRow = PersonRow(
    index: int, friends: seq<int>, balanceInCents: int, favouriteFood: seq<string>, tags: seq<string>,
    registeredAt: DateTime, eyeColor: string, address: Address, genderCode: int, companyId: int,
    entry: Record)

  /**
   * One people entry, checked in the order the import loop reads it: the key
   * set, the friends, the index, the balance, the food and tag names, the
   * registration time, the eye colour, the address, the gender and the company.
   * `parseTime` stands for `datetime.fromisoformat`.
   */
  function DecodePerson(entry: Record, parseTime: string -> Option<DateTime>): (r: Result<PersonRow, ImportError>)
    ensures r.Success? ==> entry.Keys == ExpectedPeopleFields && r.value.entry == entry
    ensures r.Success? ==> IsGenderCode(r.value.genderCode)
    ensures entry.Keys != ExpectedPeopleFields ==> r == Failure(MalformedEntry)
  {
    if entry.Keys != ExpectedPeopleFields then Failure(MalformedEntry)
    else DecodeFields(entry, parseTime)
  }

  /** The fields of an entry whose key set is the expected one. */
  function DecodeFields(entry: Record, parseTime: string -> Option<DateTime>): (r: Result<PersonRow, ImportError>)
    requires entry.Keys == ExpectedPeopleFields
    ensures r.Success? ==> r.value.entry == entry && IsGenderCode(r.value.genderCode)
  {
      var friends :- FriendsOf(entry["friends"]);
      var index :- Integer(entry["index"], "index");
      var balanceText :- Text(entry["balance"], "balance");
      var balance :- match BalanceToCents(balanceText)
        case Some(cents) => Success(cents)
        case None => Failure(ValueFailure("balance"));
      var foods :- NameList(entry["favouriteFood"], "favouriteFood");
      var tags :- NameList(entry["tags"], "tags");
      var registeredText :- Text(entry["registered"], "registered");
      var registered :- match parseTime(registeredText)
        case Some(t) => Success(t)
        case None => Failure(ValueFailure("registered"));
      var eyeColor :- Text(entry["eyeColor"], "eyeColor");
      var addressText :- Text(entry["address"], "address");
      var address :- match ParseAddress(addressText)
        case Some(a) => Success(a)
        case None => Failure(ValueFailure("address"));
      var gender :- GenderCodeOf(entry["gender"]);
      var company :- CompanyIdOf(entry["company_id"]);
      Success(PersonRow(index, friends, balance, foods, tags, registered, eyeColor, address, gender, company, entry))
  }

  /**
   * A decoded entry's id is its `index`, and its balance is the corrected
   * conversion of its `balance` text (see `RawBalanceLosesSign` for where
   * that differs from the conversion as written).
   */
  lemma DecodedIndexAndBalance(entry: Record, parseTime: string -> Option<DateTime>)
    requires DecodePerson(entry, parseTime).Success?
    ensures entry["index"] == JInt(DecodePerson(entry, parseTime).value.index)
    ensures entry["balance"].JStr?
    ensures BalanceToCents(entry["balance"].s) == Some(DecodePerson(entry, parseTime).value.balanceInCents)
  {
  }

  /**
   * `citizen.favourite_food.set(...)` and `citizen.tags.set(...)` run on the
   * unsaved citizen, whose primary key is already the entry's `index`, so
   * they write the link rows at once, keyed by that index. Their
   * `citizen_id` column is an `integer`: a non-empty food or tag list under
   * an index outside its range is refused there, before the next entry is
   * read.
   */
  function LinkViolation(row: PersonRow): (v: Option<Violation>)
    ensures v.Some? <==> !InInteger(row.index) && (row.favouriteFood != [] || row.tags != [])
    ensures v.Some? ==> v == Some(OutOfRange("citizen"))
  {
    if !InInteger(row.index) && (row.favouriteFood != [] || row.tags != []) then Some(OutOfRange("citizen"))
    else None
  }

  /** One pass of the entry loop: the entry is decoded, then its food and tag links are written. */
  function ReadEntry(entry: Record, parseTime: string -> Option<DateTime>): (r: Result<PersonRow, ImportError>)
    ensures r.Success? ==> r == DecodePerson(entry, parseTime)
    ensures DecodePerson(entry, parseTime).Failure? ==> r == DecodePerson(entry, parseTime)
    ensures DecodePerson(entry, parseTime).Success? ==>
      (r.Success? <==> LinkViolation(DecodePerson(entry, parseTime).value).None?)
    ensures r.Failure? && DecodePerson(entry, parseTime).Success? ==> r.error == DatabaseFailure(OutOfRange("citizen"))
  {
    var row :- DecodePerson(entry, parseTime);
    match LinkViolation(row)
    case Some(v) => Failure(DatabaseFailure(v))
    case None => Success(row)
  }

  /** The result of each pass of the entry loop, taken on its own. */
  function Decoded(entries: seq<Record>, parseTime: string -> Option<DateTime>): (rs: seq<Result<PersonRow, ImportError>>)
    ensures |rs| == |entries|
  {
    seq(|entries|, i requires 0 <= i < |entries| => ReadEntry(entries[i], parseTime))
  }

  /** All the values if every result is one; otherwise the error of the first failure. */
  function Collect<T>(rs: seq<Result<T, ImportError>>): (r: Result<seq<T>, ImportError>)
    ensures r.Success? ==> |r.value| == |rs| && forall i :: 0 <= i < |rs| ==> rs[i] == Success(r.value[i])
  {
    if rs == [] then Success([])
    else
      var init :- Collect(rs[..|rs| - 1]);
      var last :- rs[|rs| - 1];
      Success(init + [last])
  }

  /** A failure among the first `n` results is the outcome, whatever follows it. */
  lemma {:induction false} CollectPrefixFailure<T>(rs: seq<Result<T, ImportError>>, n: nat)
    requires n <= |rs| && Collect(rs[..n]).Failure?
    ensures Collect(rs) == Collect(rs[..n])
    decreases |rs| - n
  {
    if n < |rs| {
      var longer := rs[..n + 1];
      assert longer[..n] == rs[..n];
      CollectPrefixFailure(rs, n + 1);
    } else {
      assert rs[..n] == rs;
    }
  }

  /** When all results up to `n` are values, the next result decides the longer prefix. */
  lemma CollectStep<T>(rs: seq<Result<T, ImportError>>, n: nat)
    requires n < |rs| && Collect(rs[..n]).Success?
    ensures rs[n].Failure? ==> Collect(rs[..n + 1]) == Failure(rs[n].error)
    ensures rs[n].Success? ==> Collect(rs[..n + 1]) == Success(Collect(rs[..n]).value + [rs[n].value])
  {
    assert rs[..n + 1][..n] == rs[..n];
  }

  /** The entries decoded in order; the first rejected entry decides the error. */
  function DecodeAll(entries: seq<Record>, parseTime: string -> Option<DateTime>): (r: Result<seq<PersonRow>, ImportError>)
    ensures r.Success? ==> |r.value| == |entries|
  {
    Collect(Decoded(entries, parseTime))
  }

  /** Each decoded row carries its entry, which has exactly the expected keys. */
  lemma DecodedEntries(entries: seq<Record>, parseTime: string -> Option<DateTime>)
    requires DecodeAll(entries, parseTime).Success?
    ensures forall i :: 0 <= i < |entries| ==>
      DecodeAll(entries, parseTime).value[i].entry == entries[i] && entries[i].Keys == ExpectedPeopleFields
  {
    var rows := DecodeAll(entries, parseTime).value;
    forall i | 0 <= i < |entries|
      ensures rows[i].entry == entries[i] && entries[i].Keys == ExpectedPeopleFields
    {
      assert ReadEntry(entries[i], parseTime) == Decoded(entries, parseTime)[i] == Success(rows[i]);
    }
  }

  /**
   * An entry with a missing or extra key, after entries that all decode,
   * makes the whole import a DataImportError, whatever follows it.
   */
  lemma MalformedEntryRejected(entries: seq<Record>, i: nat, parseTime: string -> Option<DateTime>)
    requires i < |entries|
    requires entries[i].Keys != ExpectedPeopleFields
    requires Collect(Decoded(entries, parseTime)[..i]).Success?
    ensures DecodeAll(entries, parseTime) == Failure(MalformedEntry)
    ensures IsDataImportError(DecodeAll(entries, parseTime).error)
  {
    var rs := Decoded(entries, parseTime);
    assert rs[i] == ReadEntry(entries[i], parseTime);
    CollectStep(rs, i);
    CollectPrefixFailure(rs, i + 1);
  }

  /**
   * An entry that decodes but whose food or tag links are keyed by an index
   * outside the `integer` range, after entries that all decode and link,
   * makes the import a database failure, whatever follows it.
   */
  lemma OutOfRangeLinkRejected(t: Tables, entries: seq<Record>, i: nat, parseTime: string -> Option<DateTime>)
    requires i < |entries|
    requires DecodePerson(entries[i], parseTime).Success?
    requires !InInteger(DecodePerson(entries[i], parseTime).value.index)
    requires DecodePerson(entries[i], parseTime).value.favouriteFood != [] || DecodePerson(entries[i], parseTime).value.tags != []
    requires Collect(Decoded(entries, parseTime)[..i]).Success?
    ensures DecodeAll(entries, parseTime) == Failure(DatabaseFailure(OutOfRange("citizen")))
    ensures PeopleOutcome(t, entries, parseTime) == Fail(DatabaseFailure(OutOfRange("citizen")))
  {
    var rs := Decoded(entries, parseTime);
    assert rs[i] == ReadEntry(entries[i], parseTime);
    CollectStep(rs, i);
    CollectPrefixFailure(rs, i + 1);
  }

  /** The columns `bulk_create` reads from an entry, in the order of the model's fields. */
  function ProfileOf(entry: Record): (r: Result<Profile, ImportError>)
    requires entry.Keys == ExpectedPeopleFields
    ensures r.Success? ==> entry["_id"] == JStr(r.value.externalId) && entry["guid"] == JStr(r.value.guid)
    ensures r.Success? ==> entry["age"] == JInt(r.value.age) && entry["has_died"] == JBool(r.value.hasDied)
    ensures r.Success? ==> entry["name"] == JStr(r.value.name)
  {
    var externalId :- Text(entry["_id"], "_id");
    var guid :- Text(entry["guid"], "guid");
    var name :- Text(entry["name"], "name");
    var age :- Integer(entry["age"], "age");
    var hasDied :- Flag(entry["has_died"], "has_died");
    var phone :- Text(entry["phone"], "phone");
    var email :- Text(entry["email"], "email");
    var picture :- Text(entry["picture"], "picture");
    var about :- Text(entry["about"], "about");
    var greeting :- Text(entry["greeting"], "greeting");
    Success(Profile(externalId, guid, hasDied, picture, age, name, email, phone, about, greeting))
  }

  /** The profiles of all rows, converted in order when the batch is written. */
  function ProfilesOf(rows: seq<PersonRow>): (r: Result<seq<Profile>, ImportError>)
    requires forall i :: 0 <= i < |rows| ==> rows[i].entry.Keys == ExpectedPeopleFields
    ensures r.Success? ==> |r.value| == |rows|
    ensures r.Success? ==> forall i :: 0 <= i < |rows| ==> ProfileOf(rows[i].entry) == Success(r.value[i])
  {
    if rows == [] then Success([])
    else
      var first :- ProfileOf(rows[0].entry);
      var rest :- ProfilesOf(rows[1..]);
      Success([first] + rest)
  }

  // ---------------------------------------------------------------------------
  // import_companies

  /** The two keys `import_companies` reads from each entry. */
  predicate HasCompanyKeys(entry: Record) {
    "index" in entry && "company" in entry
  }

  /** The company rows of the entries, converted in order when the batch is written. */
  function CompanyRows(entries: seq<Record>): (r: Result<seq<(int, Company)>, ImportError>)
    requires forall i :: 0 <= i < |entries| ==> "index" in entries[i] && "company" in entries[i]
    ensures r.Success? <==> forall i :: 0 <= i < |entries| ==> entries[i]["index"].JInt? && entries[i]["company"].JStr?
    ensures r.Success? ==> |r.value| == |entries|
    ensures r.Success? ==> forall i :: 0 <= i < |entries| ==>
      entries[i]["index"] == JInt(r.value[i].0) && entries[i]["company"] == JStr(r.value[i].1.name)
  {
    if entries == [] then Success([])
    else
      var index :- Integer(entries[0]["index"], "index");
      var name :- Text(entries[0]["company"], "company");
      var rest :- CompanyRows(entries[1..]);
      Success([(index, Company(name))] + rest)
  }

  /** How `import_companies` ends, given the companies already stored. */
  function CompaniesOutcome(companies: map<int, Company>, entries: seq<Record>): Outcome<ImportError> {
    if exists i :: 0 <= i < |entries| && !HasCompanyKeys(entries[i]) then Fail(MalformedEntry)
    else match CompanyRows(entries)
      case Failure(e) => Fail(e)
      case Success(rows) =>
        match CompanyBatchViolation(companies, rows)
        case Some(v) => Fail(DatabaseFailure(v))
        case None => Pass
  }

  /**
   * `import_companies`: one company per entry, stored under its index, all in
   * one transaction.
   */
  method ImportCompanies(db: Database, entries: seq<Record>) returns (r: Outcome<ImportError>)
    requires db.Valid()
    modifies db
    ensures db.Valid()
    ensures r == CompaniesOutcome(old(db.companies), entries)
    ensures r.Fail? ==> db.Contents() == old(db.Contents())
    ensures r.Pass? ==> db.Contents() == old(db.Contents()).(companies := old(db.companies) + BatchMap(CompanyRows(entries).value))
  {
    var i := 0;
    while i < |entries|
      invariant 0 <= i <= |entries|
      invariant forall j :: 0 <= j < i ==> HasCompanyKeys(entries[j])
    {
      if !HasCompanyKeys(entries[i]) {
        return Fail(MalformedEntry);
      }
      i := i + 1;
    }
    var rows := CompanyRows(entries);
    if rows.Failure? {
      return Fail(rows.error);
    }
    var v := db.BulkCreateCompanies(rows.value);
    if v.Some? {
      return Fail(DatabaseFailure(v.value));
    }
    r := Pass;
  }

  /** An entry without "company" or "index" is a DataImportError, whatever else the file holds. */
  lemma MalformedCompanyRejected(companies: map<int, Company>, entries: seq<Record>, i: nat)
    requires i < |entries| && !HasCompanyKeys(entries[i])
    ensures CompaniesOutcome(companies, entries) == Fail(MalformedEntry)
    ensures IsDataImportError(CompaniesOutcome(companies, entries).error)
  {
  }

  /** Two well-formed companies are stored under their indexes. */
  lemma CompanyImportExample()
    ensures var entries := [
        map["index" := JInt(0), "company" := JStr("SOME_COMPANY")],
        map["index" := JInt(1), "company" := JStr("OTHER_COMPANY")]];
      && CompaniesOutcome(map[], entries) == Pass
      && BatchMap(CompanyRows(entries).value) == map[0 := Company("SOME_COMPANY"), 1 := Company("OTHER_COMPANY")]
  {
    var entries := [
      map["index" := JInt(0), "company" := JStr("SOME_COMPANY")],
      map["index" := JInt(1), "company" := JStr("OTHER_COMPANY")]];
    assert entries[1..] == [entries[1]];
    var rows := CompanyRows(entries).value;
    assert rows == [(0, Company("SOME_COMPANY")), (1, Company("OTHER_COMPANY"))];
    assert rows[..1] == [rows[0]];
    assert FreshKeys(map[], rows);
  }

  // ---------------------------------------------------------------------------
  // import_people

  /** The elements of a list, as `set(...)` or a many-to-many `set()` sees them. */
  function Elems(xs: seq<int>): set<int> {
    set x | x in xs
  }

  /**
   * `_create_food_data`: each name becomes a categorised Food, the batch is
   * inserted ignoring name conflicts, and the rows with those names are read back.
   */
  method CreateFoodData(db: Database, names: seq<string>) returns (ids: set<int>)
    requires db.Valid()
    modifies db
    ensures db.Valid()
    ensures ids == FoodIdsNamed(db.foods, names)
    ensures forall n :: n in names ==> n in FoodNames(db.foods)
    ensures Submap(old(db.foods), db.foods)
    ensures forall k :: k in db.foods && k !in old(db.foods) ==>
      db.foods[k].name in names && db.foods[k].kind == Categorize(db.foods[k].name)
    ensures db.Contents() == old(db.Contents()).(foods := db.foods)
    ensures db.nextEyeColorId == old(db.nextEyeColorId) && db.nextTagId == old(db.nextTagId)
    ensures db.nextAddressId == old(db.nextAddressId)
  {
    var favourites: seq<Food> := [];
    var i := 0;
    while i < |names|
      invariant 0 <= i <= |names|
      invariant |favourites| == i
      invariant forall j :: 0 <= j < i ==> favourites[j] == Food(names[j], Categorize(names[j]))
    {
      favourites := favourites + [Food(names[i], Categorize(names[i]))];
      i := i + 1;
    }
    db.InsertFoodsIgnoringConflicts(favourites);
    forall n | n in names
      ensures n in FoodNames(db.foods)
    {
      var j :| 0 <= j < |names| && names[j] == n;
      assert favourites[j].name == n;
    }
    ids := FoodIdsNamed(db.foods, names);
  }

  /** `_create_tags`: the names inserted ignoring conflicts, then the rows with those names read back. */
  method CreateTags(db: Database, names: seq<string>) returns (ids: set<int>)
    requires db.Valid()
    modifies db
    ensures db.Valid()
    ensures ids == IdsNamed(db.tags, names)
    ensures forall n :: n in names ==> n in db.tags.Values
    ensures Submap(old(db.tags), db.tags)
    ensures forall k :: k in db.tags && k !in old(db.tags) ==> db.tags[k] in names
    ensures db.Contents() == old(db.Contents()).(tags := db.tags)
    ensures db.nextEyeColorId == old(db.nextEyeColorId) && db.nextFoodId == old(db.nextFoodId)
    ensures db.nextAddressId == old(db.nextAddressId)
  {
    db.InsertTagsIgnoringConflicts(names);
    ids := IdsNamed(db.tags, names);
  }

  /** The lookup rows a citizen is linked to. */
  datatype Links = Links(eyeColor: int, address: int, tags: set<int>, foods: set<int>)

  /**
   * The links of a row agree with the tables: the eye colour and address rows
   * hold the entry's values, and the tag and food links are exactly the rows
   * carrying the entry's names, each of which exists.
   */
  predicate LinksMatch(t: Tables, row: PersonRow, links: Links) {
    && links.eyeColor in t.eyeColors && t.eyeColors[links.eyeColor] == row.eyeColor
    && links.address in t.addresses && t.addresses[links.address] == row.address
    && links.tags == IdsNamed(t.tags, row.tags)
    && (forall n :: n in row.tags ==> n in t.tags.Values)
    && links.foods == FoodIdsNamed(t.foods, row.favouriteFood)
    && (forall n :: n in row.favouriteFood ==> n in FoodNames(t.foods))
  }

  /** The lookup tables of `u` extend those of `t`; the other tables are the same. */
  predicate LookupsGrown(t: Tables, u: Tables) {
    && Submap(t.eyeColors, u.eyeColors) && Submap(t.foods, u.foods)
    && Submap(t.tags, u.tags) && Submap(t.addresses, u.addresses)
    && u.companies == t.companies && u.citizens == t.citizens && u.friends == t.friends
  }

  lemma TagIdsStable(t: map<int, string>, u: map<int, string>, names: seq<string>)
    requires Submap(t, u) && UniqueNames(u)
    requires forall n :: n in names ==> n in t.Values
    ensures IdsNamed(u, names) == IdsNamed(t, names)
  {
    forall k | k in IdsNamed(u, names)
      ensures k in IdsNamed(t, names)
    {
      var n := u[k];
      assert n in t.Values;
      if forall k0 :: k0 in t ==> t[k0] != n {
        assert false;
      }
      var k0 :| k0 in t && t[k0] == n;
      assert u[k0] == n;
      assert k0 == k;
    }
    forall k | k in IdsNamed(t, names)
      ensures k in IdsNamed(u, names)
    {
      assert u[k] == t[k];
    }
  }

  lemma FoodIdsStable(t: map<int, Food>, u: map<int, Food>, names: seq<string>)
    requires Submap(t, u) && UniqueFoodNames(u)
    requires forall n :: n in names ==> n in FoodNames(t)
    ensures FoodIdsNamed(u, names) == FoodIdsNamed(t, names)
  {
    forall k | k in FoodIdsNamed(u, names)
      ensures k in FoodIdsNamed(t, names)
    {
      var n := u[k].name;
      assert n in FoodNames(t);
      if forall k0 :: k0 in t ==> t[k0].name != n {
        assert false;
      }
      var k0 :| k0 in t && t[k0].name == n;
      assert u[k0].name == n;
      assert k0 == k;
    }
    forall k | k in FoodIdsNamed(t, names)
      ensures k in FoodIdsNamed(u, names)
    {
      assert u[k] == t[k];
    }
  }

  /** Links that match stay matching while the lookup tables only grow. */
  lemma LinksStable(t: Tables, u: Tables, row: PersonRow, links: Links)
    requires LinksMatch(t, row, links) && LookupsGrown(t, u) && ValidTables(u)
    ensures LinksMatch(u, row, links)
  {
    TagIdsStable(t.tags, u.tags, row.tags);
    FoodIdsStable(t.foods, u.foods, row.favouriteFood);
    ValuesGrow(t.tags, u.tags);
    FoodNamesGrow(t.foods, u.foods);
  }

  /** The citizen row an entry becomes once its lookup rows are linked. */
  function CitizenOf(row: PersonRow, profile: Profile, links: Links): (c: Citizen)
    ensures c.profile == profile && c.registeredAt == ToUtc(row.registeredAt)
    ensures c.company == Some(row.companyId) && c.genderCode == row.genderCode
  {
    Citizen(profile, ToUtc(row.registeredAt), row.balanceInCents, row.genderCode,
      links.eyeColor, links.address, Some(row.companyId), links.tags, links.foods)
  }

  /** The batch handed to `bulk_create`, in entry order. */
  function CitizenBatch(rows: seq<PersonRow>, profiles: seq<Profile>, links: seq<Links>): (batch: seq<(int, Citizen)>)
    requires |profiles| == |rows| && |links| == |rows|
    ensures |batch| == |rows|
    ensures forall i :: 0 <= i < |rows| ==> batch[i] == (rows[i].index, CitizenOf(rows[i], profiles[i], links[i]))
  {
    seq(|rows|, i requires 0 <= i < |rows| => (rows[i].index, CitizenOf(rows[i], profiles[i], links[i])))
  }

  const NoLinks := Links(0, 0, {}, {})

  /** The batch before its lookup rows are linked: keys, profiles and column values only. */
  function Unlinked(rows: seq<PersonRow>, profiles: seq<Profile>): (batch: seq<(int, Citizen)>)
    requires |profiles| == |rows|
    ensures |batch| == |rows|
  {
    CitizenBatch(rows, profiles, seq(|rows|, _ => NoLinks))
  }

  /** The indexes of the entries, which become the citizens' ids. */
  function Indexes(rows: seq<PersonRow>): (ids: seq<int>)
    ensures |ids| == |rows|
    ensures forall i :: 0 <= i < |rows| ==> ids[i] == rows[i].index
  {
    seq(|rows|, i requires 0 <= i < |rows| => rows[i].index)
  }

  /** `friends_relations`: each entry's friend indexes under its own index. */
  function FriendsRelations(rows: seq<PersonRow>): map<int, seq<int>> {
    BatchMap(seq(|rows|, i requires 0 <= i < |rows| => (rows[i].index, rows[i].friends)))
  }

  /**
   * Why `bulk_create` refuses the people batch, if it does: a column out of
   * range, a repeated id, `_id` or `guid`, or a company that does not exist.
   * Eye colours, addresses, tags and foods were created for the batch, so
   * they never fail it.
   */
  function PeopleInsertViolation(t: Tables, rows: seq<PersonRow>, profiles: seq<Profile>): Option<Violation>
    requires |profiles| == |rows|
  {
    var probe := Unlinked(rows, profiles);
    if exists i :: 0 <= i < |probe| && !RowInRange(probe[i].0, probe[i].1) then Some(OutOfRange("citizen"))
    else if !FreshKeys(t.citizens, probe) then Some(DuplicateKey("id"))
    else if !FreshProfiles(t.citizens, probe) then Some(DuplicateKey("_id/guid"))
    else if exists i :: 0 <= i < |rows| && rows[i].companyId !in t.companies then Some(MissingReference("citizen"))
    else None
  }

  /**
   * How the friends loop ends over the citizens `citizens`: the first entry,
   * in order, whose friend edges cannot be written decides the error.
   */
  function FriendsLoopViolation(citizens: set<int>, rows: seq<PersonRow>): (v: Option<Violation>)
    ensures v.None? <==> forall k :: 0 <= k < |rows| ==> FriendsViolation(citizens, Elems(rows[k].friends)).None?
    ensures v.Some? ==> exists k :: 0 <= k < |rows| && v == FriendsViolation(citizens, Elems(rows[k].friends))
    decreases |rows|
  {
    if rows == [] then None
    else
      var first := FriendsViolation(citizens, Elems(rows[0].friends));
      if first.Some? then first
      else
        var rest := FriendsLoopViolation(citizens, rows[1..]);
        assert forall k :: 1 <= k < |rows| ==> rows[1..][k - 1] == rows[k];
        rest
  }

  /** Why the database refuses the people import, if it does. */
  function PeopleViolation(t: Tables, rows: seq<PersonRow>, profiles: seq<Profile>): Option<Violation>
    requires |profiles| == |rows|
  {
    var v := PeopleInsertViolation(t, rows, profiles);
    if v.Some? then v
    else FriendsLoopViolation(t.citizens.Keys + Elems(Indexes(rows)), rows)
  }

  /** How writing the decoded rows ends: the conversion of a column, or the database, may refuse them. */
  function StoreError(t: Tables, rows: seq<PersonRow>): Option<ImportError>
    requires forall i :: 0 <= i < |rows| ==> rows[i].entry.Keys == ExpectedPeopleFields
  {
    match ProfilesOf(rows)
    case Failure(e) => Some(e)
    case Success(profiles) =>
      match PeopleViolation(t, rows, profiles)
      case Some(v) => Some(DatabaseFailure(v))
      case None => None
  }

  /** How `import_people` ends, given the tables before it. */
  function PeopleOutcome(t: Tables, entries: seq<Record>, parseTime: string -> Option<DateTime>): Outcome<ImportError> {
    match DecodeAll(entries, parseTime)
    case Failure(e) => Fail(e)
    case Success(rows) =>
      DecodedEntries(entries, parseTime);
      match StoreError(t, rows)
      case Some(e) => Fail(e)
      case None => Pass
  }

  /**
   * Once every entry's lookup rows exist and match it, `bulk_create` of the
   * linked batch fails exactly as the unlinked description says.
   */
  lemma LinkedBatchViolation(t0: Tables, t1: Tables, rows: seq<PersonRow>, profiles: seq<Profile>, links: seq<Links>)
    requires |profiles| == |rows| && |links| == |rows|
    requires LookupsGrown(t0, t1)
    requires forall i :: 0 <= i < |rows| ==> LinksMatch(t1, rows[i], links[i])
    ensures CitizenBatchViolation(t1, CitizenBatch(rows, profiles, links)) == PeopleInsertViolation(t0, rows, profiles)
  {
    LinkedColumnsAgree(t0, t1, rows, profiles, links);
    LinkedReferences(t0, t1, rows, profiles, links);
  }

  /** Linking changes no key, profile or range-checked column of the batch. */
  lemma LinkedColumnsAgree(t0: Tables, t1: Tables, rows: seq<PersonRow>, profiles: seq<Profile>, links: seq<Links>)
    requires |profiles| == |rows| && |links| == |rows|
    requires t1.citizens == t0.citizens
    ensures var batch := CitizenBatch(rows, profiles, links);
      var probe := Unlinked(rows, profiles);
      && ((exists i :: 0 <= i < |batch| && !RowInRange(batch[i].0, batch[i].1)) <==> (exists i :: 0 <= i < |probe| && !RowInRange(probe[i].0, probe[i].1)))
      && FreshKeys(t1.citizens, batch) == FreshKeys(t0.citizens, probe)
      && FreshProfiles(t1.citizens, batch) == FreshProfiles(t0.citizens, probe)
  {
    var batch := CitizenBatch(rows, profiles, links);
    var probe := Unlinked(rows, profiles);
    LinkedKeysAgree(rows, profiles, links);
    LinkedProfilesAgree(t0.citizens, rows, profiles, links);
    assert forall i :: 0 <= i < |rows| ==> RowInRange(batch[i].0, batch[i].1) == RowInRange(probe[i].0, probe[i].1);
  }

  lemma LinkedKeysAgree(rows: seq<PersonRow>, profiles: seq<Profile>, links: seq<Links>)
    requires |profiles| == |rows| && |links| == |rows|
    ensures Keys(CitizenBatch(rows, profiles, links)) == Keys(Unlinked(rows, profiles))
  {
    var batch := CitizenBatch(rows, profiles, links);
    var probe := Unlinked(rows, profiles);
    assert forall i :: 0 <= i < |rows| ==> Keys(batch)[i] == Keys(probe)[i];
  }

  lemma LinkedProfilesAgree(citizens: map<int, Citizen>, rows: seq<PersonRow>, profiles: seq<Profile>, links: seq<Links>)
    requires |profiles| == |rows| && |links| == |rows|
    ensures FreshProfiles(citizens, CitizenBatch(rows, profiles, links)) == FreshProfiles(citizens, Unlinked(rows, profiles))
  {
    var batch := CitizenBatch(rows, profiles, links);
    var probe := Unlinked(rows, profiles);
    assert forall i :: 0 <= i < |rows| ==> batch[i].1.profile == profiles[i] == probe[i].1.profile;
  }

  /** A linked row's references hold exactly when its company exists. */
  lemma LinkedReferences(t0: Tables, t1: Tables, rows: seq<PersonRow>, profiles: seq<Profile>, links: seq<Links>)
    requires |profiles| == |rows| && |links| == |rows|
    requires LookupsGrown(t0, t1)
    requires forall i :: 0 <= i < |rows| ==> LinksMatch(t1, rows[i], links[i])
    ensures var batch := CitizenBatch(rows, profiles, links);
      (exists i :: 0 <= i < |batch| && !References(t1, batch[i].1)) <==> (exists i :: 0 <= i < |rows| && rows[i].companyId !in t0.companies)
  {
    var batch := CitizenBatch(rows, profiles, links);
    forall i | 0 <= i < |rows|
      ensures References(t1, batch[i].1) <==> rows[i].companyId in t0.companies
    {
      assert LinksMatch(t1, rows[i], links[i]);
      assert links[i].tags <= t1.tags.Keys;
      assert links[i].foods <= t1.foods.Keys;
    }
  }

  /** The names of foods the entries list. */
  function ListedFoods(rows: seq<PersonRow>): set<string> {
    set i, n | 0 <= i < |rows| && n in rows[i].favouriteFood :: n
  }

  function ListedTags(rows: seq<PersonRow>): set<string> {
    set i, n | 0 <= i < |rows| && n in rows[i].tags :: n
  }

  function ListedEyeColors(rows: seq<PersonRow>): set<string> {
    set i | 0 <= i < |rows| :: rows[i].eyeColor
  }

  lemma ListedGrow(rows: seq<PersonRow>, row: PersonRow)
    ensures ListedFoods(rows) <= ListedFoods(rows + [row])
    ensures ListedTags(rows) <= ListedTags(rows + [row])
    ensures ListedEyeColors(rows) <= ListedEyeColors(rows + [row])
    ensures forall n :: n in row.favouriteFood ==> n in ListedFoods(rows + [row])
    ensures forall n :: n in row.tags ==> n in ListedTags(rows + [row])
    ensures row.eyeColor in ListedEyeColors(rows + [row])
  {
    var more := rows + [row];
    assert forall i :: 0 <= i < |rows| ==> more[i] == rows[i];
    assert more[|rows|] == row;
  }

  /** The friend lists keyed by entry index: with distinct indexes, each entry keeps its own list. */
  lemma RelationOfRow(rows: seq<PersonRow>, i: int)
    requires Distinct(Indexes(rows)) && 0 <= i < |rows|
    ensures rows[i].index in FriendsRelations(rows)
    ensures FriendsRelations(rows)[rows[i].index] == rows[i].friends
  {
    var pairs := seq(|rows|, j requires 0 <= j < |rows| => (rows[j].index, rows[j].friends));
    assert pairs[i] == (rows[i].index, rows[i].friends);
    assert forall j :: i < j < |pairs| ==> pairs[j].0 != pairs[i].0 by {
      assert forall j :: 0 <= j < |rows| ==> Indexes(rows)[j] == pairs[j].0;
    }
  }

  lemma RelationKeys(rows: seq<PersonRow>)
    ensures FriendsRelations(rows).Keys == Elems(Indexes(rows))
  {
    var pairs := seq(|rows|, j requires 0 <= j < |rows| => (rows[j].index, rows[j].friends));
    assert Keys(pairs) == Indexes(rows);
  }

  /** The keys the stored batch adds are the entries' indexes. */
  lemma BatchKeys(rows: seq<PersonRow>, profiles: seq<Profile>, links: seq<Links>)
    requires |profiles| == |rows| && |links| == |rows|
    ensures Keys(CitizenBatch(rows, profiles, links)) == Indexes(rows)
    ensures BatchMap(CitizenBatch(rows, profiles, links)).Keys == Elems(Indexes(rows))
  {
    var batch := CitizenBatch(rows, profiles, links);
    assert Keys(batch) == Indexes(rows);
  }

  /** The friends table the import leaves for its citizens. */
  function FriendsTable(rows: seq<PersonRow>): (m: map<int, set<int>>)
    ensures m.Keys == Elems(Indexes(rows))
  {
    RelationKeys(rows);
    map id | id in FriendsRelations(rows) :: Elems(FriendsRelations(rows)[id])
  }

  /** With distinct indexes, each entry's citizen gets the entry's own friend list. */
  lemma FriendsTableRow(rows: seq<PersonRow>, k: int)
    requires Distinct(Indexes(rows)) && 0 <= k < |rows|
    ensures rows[k].index in FriendsTable(rows) && FriendsTable(rows)[rows[k].index] == Elems(rows[k].friends)
  {
    RelationOfRow(rows, k);
  }

  /** The entry's citizen row is stored under its index, linked to rows that match the entry. */
  predicate Stored(t: Tables, row: PersonRow, profile: Profile) {
    row.index in t.citizens &&
    (var c := t.citizens[row.index];
     var l := Links(c.eyeColor, c.address, c.tags, c.favouriteFood);
     c == CitizenOf(row, profile, l) && LinksMatch(t, row, l))
  }

  function AddressesOf(links: seq<Links>): set<int> {
    set j | 0 <= j < |links| :: links[j].address
  }

  /**
   * What linking one entry did, from `u` to `t`: its links match the
   * entry, the lookup tables only grew, one new address row holds the
   * entry's address, and every other new row carries one of the entry's
   * names (a new food with its category).
   */
  predicate LinkedOne(u: Tables, t: Tables, row: PersonRow, links: Links) {
    && LinksMatch(t, row, links)
    && LookupsGrown(u, t)
    && links.address !in u.addresses && t.addresses == u.addresses[links.address := row.address]
    && (forall k :: k in t.foods && k !in u.foods ==>
          t.foods[k].name in row.favouriteFood && t.foods[k].kind == Categorize(t.foods[k].name))
    && (forall k :: k in t.tags && k !in u.tags ==> t.tags[k] in row.tags)
    && (forall k :: k in t.eyeColors && k !in u.eyeColors ==> t.eyeColors[k] == row.eyeColor)
  }

  /** What linking all the entries so far did, from `t0` to `t`. */
  predicate Linked(t0: Tables, t: Tables, rows: seq<PersonRow>, links: seq<Links>) {
    && |links| == |rows|
    && LookupsGrown(t0, t)
    && (forall j :: 0 <= j < |rows| ==> LinksMatch(t, rows[j], links[j]))
    && FreshAddresses(t0, t, links)
    && NamedRows(t0, t, rows)
  }

  /** Each link holds an address row of its own that did not exist in `t0`, and there are no others. */
  predicate FreshAddresses(t0: Tables, t: Tables, links: seq<Links>) {
    && (forall j :: 0 <= j < |links| ==> links[j].address !in t0.addresses)
    && (forall j, k :: 0 <= j < k < |links| ==> links[j].address != links[k].address)
    && t.addresses.Keys == t0.addresses.Keys + AddressesOf(links)
  }

  /** Every eye colour, tag and food row added since `t0` carries a name the entries list; a food its category. */
  predicate NamedRows(t0: Tables, t: Tables, rows: seq<PersonRow>) {
    && (forall k :: k in t.eyeColors && k !in t0.eyeColors ==> t.eyeColors[k] in ListedEyeColors(rows))
    && (forall k :: k in t.tags && k !in t0.tags ==> t.tags[k] in ListedTags(rows))
    && (forall k :: k in t.foods && k !in t0.foods ==>
          t.foods[k].name in ListedFoods(rows) && t.foods[k].kind == Categorize(t.foods[k].name))
  }

  lemma LinkedNone(t0: Tables)
    ensures Linked(t0, t0, [], [])
  {
    assert AddressesOf([]) == {};
  }

  lemma MatchesGrow(u: Tables, t: Tables, rows: seq<PersonRow>, links: seq<Links>, row: PersonRow, l: Links)
    requires |links| == |rows| && LookupsGrown(u, t) && ValidTables(t) && LinksMatch(t, row, l)
    requires forall j :: 0 <= j < |rows| ==> LinksMatch(u, rows[j], links[j])
    ensures forall j :: 0 <= j < |rows| + 1 ==> LinksMatch(t, (rows + [row])[j], (links + [l])[j])
  {
    forall j | 0 <= j < |rows| + 1
      ensures LinksMatch(t, (rows + [row])[j], (links + [l])[j])
    {
      if j < |rows| {
        LinksStable(u, t, rows[j], links[j]);
      }
    }
  }

  lemma AddressesGrow(t0: Tables, u: Tables, t: Tables, links: seq<Links>, row: PersonRow, l: Links)
    requires FreshAddresses(t0, u, links) && Submap(t0.addresses, u.addresses)
    requires l.address !in u.addresses && t.addresses == u.addresses[l.address := row.address]
    ensures FreshAddresses(t0, t, links + [l])
  {
    var links' := links + [l];
    forall j | 0 <= j < |links|
      ensures links'[j] == links[j] && links[j].address in u.addresses
    {
      assert links[j].address in AddressesOf(links);
      assert links'[j].address in AddressesOf(links');
    }
    assert links'[|links|].address in AddressesOf(links');
    forall x | x in AddressesOf(links')
      ensures x in AddressesOf(links) + {l.address}
    {
      if forall j :: 0 <= j < |links'| ==> links'[j].address != x {
        assert false;
      }
      var j :| 0 <= j < |links'| && links'[j].address == x;
      if j < |links| {
        assert links[j].address in AddressesOf(links);
      }
    }
    assert AddressesOf(links') == AddressesOf(links) + {l.address};
  }

  lemma NamesGrow(t0: Tables, u: Tables, t: Tables, rows: seq<PersonRow>, row: PersonRow, l: Links)
    requires NamedRows(t0, u, rows) && LinkedOne(u, t, row, l)
    ensures NamedRows(t0, t, rows + [row])
  {
    ListedGrow(rows, row);
  }

  lemma LinkedGrow(t0: Tables, u: Tables, t: Tables, rows: seq<PersonRow>, links: seq<Links>, row: PersonRow, l: Links)
    requires Linked(t0, u, rows, links) && LinkedOne(u, t, row, l) && ValidTables(t)
    ensures Linked(t0, t, rows + [row], links + [l])
  {
    MatchesGrow(u, t, rows, links, row, l);
    AddressesGrow(t0, u, t, links, row, l);
    NamesGrow(t0, u, t, rows, row, l);
  }

  /** The new citizens: one per entry, under its index, each with a new address of its own. */
  predicate ImportedCitizens(t0: Tables, t: Tables, rows: seq<PersonRow>, profiles: seq<Profile>)
    requires |profiles| == |rows|
  {
    && Distinct(Indexes(rows))
    && (forall i :: 0 <= i < |rows| ==>
          rows[i].index !in t0.citizens && Stored(t, rows[i], profiles[i]) &&
          t.citizens[rows[i].index].address !in t0.addresses)
    && (forall i, j :: 0 <= i < j < |rows| ==> t.citizens[rows[i].index].address != t.citizens[rows[j].index].address)
    && t.addresses.Keys == t0.addresses.Keys + NewAddresses(t, rows)
    && Submap(t0.citizens, t.citizens)
    && t.citizens.Keys == t0.citizens.Keys + Elems(Indexes(rows))
  }

  function NewAddresses(t: Tables, rows: seq<PersonRow>): set<int>
    requires forall i :: 0 <= i < |rows| ==> rows[i].index in t.citizens
  {
    set i | 0 <= i < |rows| :: t.citizens[rows[i].index].address
  }

  /** The lookup rows: kept, and the only new ones carry names the entries list (new foods categorised). */
  predicate ImportedLookups(t0: Tables, t: Tables, rows: seq<PersonRow>) {
    && t.companies == t0.companies
    && Submap(t0.eyeColors, t.eyeColors) && Submap(t0.foods, t.foods)
    && Submap(t0.tags, t.tags) && Submap(t0.addresses, t.addresses)
    && (forall k :: k in t.eyeColors && k !in t0.eyeColors ==> t.eyeColors[k] in ListedEyeColors(rows))
    && (forall k :: k in t.tags && k !in t0.tags ==> t.tags[k] in ListedTags(rows))
    && (forall k :: k in t.foods && k !in t0.foods ==>
          t.foods[k].name in ListedFoods(rows) && t.foods[k].kind == Categorize(t.foods[k].name))
  }

  /**
   * What a successful `import_people` leaves behind: the new citizens, the
   * lookup rows they need and nothing else, and each new citizen's friends
   * being the entry's friend indexes; the stored citizens keep their rows
   * and friends.
   */
  predicate Imported(t0: Tables, t: Tables, rows: seq<PersonRow>, profiles: seq<Profile>)
    requires |profiles| == |rows|
  {
    && ImportedCitizens(t0, t, rows, profiles)
    && ImportedLookups(t0, t, rows)
    && t.friends == t0.friends + FriendsTable(rows)
  }

  /** The lookup rows of one entry: its foods, its tags, its eye colour and a new address, in that order. */
  method LinkPerson(db: Database, row: PersonRow) returns (links: Links)
    requires db.Valid()
    modifies db
    ensures db.Valid()
    ensures LinkedOne(old(db.Contents()), db.Contents(), row, links)
  {
    var foods := CreateFoodData(db, row.favouriteFood);
    var tags := CreateTags(db, row.tags);
    var eyeColor := db.GetOrCreateEyeColor(row.eyeColor);
    var address := db.CreateAddress(row.address);
    links := Links(eyeColor, address, tags, foods);
  }

  /** The friends table `f`, grown from `f0`, holds the lists of the first `j` entries and nothing else new. */
  predicate FriendsSetUpTo(f: map<int, set<int>>, f0: map<int, set<int>>, rows: seq<PersonRow>, j: int)
    requires 0 <= j <= |rows|
  {
    && f.Keys == f0.Keys
    && (forall k :: 0 <= k < j ==> rows[k].index in f && f[rows[k].index] == Elems(rows[k].friends))
    && (forall id :: id in f && id !in Indexes(rows)[..j] ==> f[id] == f0[id])
  }

  lemma FriendsSetStep(f: map<int, set<int>>, f0: map<int, set<int>>, rows: seq<PersonRow>, j: int)
    requires 0 <= j < |rows| && Distinct(Indexes(rows)) && rows[j].index in f
    requires FriendsSetUpTo(f, f0, rows, j)
    ensures FriendsSetUpTo(f[rows[j].index := Elems(rows[j].friends)], f0, rows, j + 1)
  {
    assert forall k :: 0 <= k < j ==> Indexes(rows)[k] != Indexes(rows)[j];
    assert Indexes(rows)[..j + 1] == Indexes(rows)[..j] + [rows[j].index];
  }

  /**
   * The friends loop: each entry's citizen gets the entry's friend indexes,
   * which must fit the `integer` edge column and name citizens; the first
   * list that does not stops the loop.
   */
  method SetAllFriends(db: Database, rows: seq<PersonRow>) returns (v: Option<Violation>)
    requires db.Valid()
    requires Distinct(Indexes(rows))
    requires forall i :: 0 <= i < |rows| ==> rows[i].index in db.citizens
    modifies db
    ensures db.Valid()
    ensures v == FriendsLoopViolation(old(db.citizens.Keys), rows)
    ensures db.Contents() == old(db.Contents()).(friends := db.friends)
    ensures v.None? ==> FriendsSetUpTo(db.friends, old(db.friends), rows, |rows|)
    ensures db.nextEyeColorId == old(db.nextEyeColorId) && db.nextFoodId == old(db.nextFoodId)
    ensures db.nextTagId == old(db.nextTagId) && db.nextAddressId == old(db.nextAddressId)
  {
    var relations := FriendsRelations(rows);
    var j := 0;
    while j < |rows|
      invariant 0 <= j <= |rows|
      invariant db.Valid()
      invariant db.Contents() == old(db.Contents()).(friends := db.friends)
      invariant db.nextEyeColorId == old(db.nextEyeColorId) && db.nextFoodId == old(db.nextFoodId)
      invariant db.nextTagId == old(db.nextTagId) && db.nextAddressId == old(db.nextAddressId)
      invariant FriendsSetUpTo(db.friends, old(db.friends), rows, j)
      invariant FriendsLoopViolation(old(db.citizens.Keys), rows) == FriendsLoopViolation(old(db.citizens.Keys), rows[j..])
    {
      var id := rows[j].index;
      RelationOfRow(rows, j);
      FriendsSetStep(db.friends, old(db.friends), rows, j);
      assert rows[j..][0] == rows[j] && rows[j..][1..] == rows[j + 1..];
      v := db.SetFriends(id, Elems(relations[id]));
      if v.Some? {
        return;
      }
      j := j + 1;
    }
    assert rows[j..] == [];
    v := None;
  }

  /** With fresh, distinct indexes, `bulk_create` adds exactly one citizen per entry, built from it. */
  lemma BatchRowsStored(t1: Tables, t: Tables, rows: seq<PersonRow>, profiles: seq<Profile>, links: seq<Links>)
    requires |profiles| == |rows| && |links| == |rows|
    requires Distinct(Indexes(rows)) && forall i :: 0 <= i < |rows| ==> rows[i].index !in t1.citizens
    requires t.citizens == t1.citizens + BatchMap(CitizenBatch(rows, profiles, links))
    ensures forall i :: 0 <= i < |rows| ==>
      rows[i].index in t.citizens && t.citizens[rows[i].index] == CitizenOf(rows[i], profiles[i], links[i])
    ensures Submap(t1.citizens, t.citizens)
    ensures t.citizens.Keys == t1.citizens.Keys + Elems(Indexes(rows))
  {
    BatchKeys(rows, profiles, links);
    BatchRows(CitizenBatch(rows, profiles, links));
  }

  lemma StoredAfterImport(t1: Tables, t: Tables, rows: seq<PersonRow>, profiles: seq<Profile>, links: seq<Links>)
    requires |profiles| == |rows| && |links| == |rows|
    requires forall i :: 0 <= i < |rows| ==>
      rows[i].index in t.citizens && t.citizens[rows[i].index] == CitizenOf(rows[i], profiles[i], links[i])
    requires forall j :: 0 <= j < |rows| ==> LinksMatch(t1, rows[j], links[j])
    requires t.addresses == t1.addresses && t.eyeColors == t1.eyeColors
    requires t.tags == t1.tags && t.foods == t1.foods
    ensures forall i :: 0 <= i < |rows| ==> Stored(t, rows[i], profiles[i])
  {
    forall i | 0 <= i < |rows|
      ensures Stored(t, rows[i], profiles[i])
    {
      var c := t.citizens[rows[i].index];
      assert Links(c.eyeColor, c.address, c.tags, c.favouriteFood) == links[i];
      assert LinksMatch(t1, rows[i], links[i]);
    }
  }

  lemma AddressesAfterImport(t0: Tables, t: Tables, rows: seq<PersonRow>, profiles: seq<Profile>, links: seq<Links>)
    requires |profiles| == |rows| && |links| == |rows|
    requires forall i :: 0 <= i < |rows| ==>
      rows[i].index in t.citizens && t.citizens[rows[i].index] == CitizenOf(rows[i], profiles[i], links[i])
    requires FreshAddresses(t0, t, links)
    ensures forall i :: 0 <= i < |rows| ==> t.citizens[rows[i].index].address !in t0.addresses
    ensures forall i, j :: 0 <= i < j < |rows| ==> t.citizens[rows[i].index].address != t.citizens[rows[j].index].address
    ensures t.addresses.Keys == t0.addresses.Keys + NewAddresses(t, rows)
  {
    assert NewAddresses(t, rows) == AddressesOf(links);
  }

  /** A batch `bulk_create` accepts has distinct indexes, none of them already a citizen's. */
  lemma FreshIndexes(t1: Tables, rows: seq<PersonRow>, profiles: seq<Profile>, links: seq<Links>)
    requires |profiles| == |rows| && |links| == |rows|
    requires FreshKeys(t1.citizens, CitizenBatch(rows, profiles, links))
    ensures Distinct(Indexes(rows)) && forall i :: 0 <= i < |rows| ==> rows[i].index !in t1.citizens
  {
    BatchKeys(rows, profiles, links);
  }

  lemma CitizensAfterImport(t0: Tables, t1: Tables, t: Tables,
                            rows: seq<PersonRow>, profiles: seq<Profile>, links: seq<Links>)
    requires |profiles| == |rows|
    requires Linked(t0, t1, rows, links)
    requires Distinct(Indexes(rows)) && forall i :: 0 <= i < |rows| ==> rows[i].index !in t1.citizens
    requires forall i :: 0 <= i < |rows| ==>
      rows[i].index in t.citizens && t.citizens[rows[i].index] == CitizenOf(rows[i], profiles[i], links[i])
    requires Submap(t1.citizens, t.citizens)
    requires t.citizens.Keys == t1.citizens.Keys + Elems(Indexes(rows))
    requires t.addresses == t1.addresses && t.eyeColors == t1.eyeColors
    requires t.tags == t1.tags && t.foods == t1.foods
    ensures ImportedCitizens(t0, t, rows, profiles)
  {
    StoredAfterImport(t1, t, rows, profiles, links);
    AddressesAfterImport(t0, t, rows, profiles, links);
  }

  lemma NewCitizenFriends(f: map<int, set<int>>, f0: map<int, set<int>>, rows: seq<PersonRow>, id: int)
    requires Distinct(Indexes(rows)) && id in Indexes(rows)
    requires FriendsSetUpTo(f, f0, rows, |rows|)
    ensures id in f && id in FriendsTable(rows) && f[id] == FriendsTable(rows)[id]
  {
    if forall k :: 0 <= k < |rows| ==> Indexes(rows)[k] != id {
      assert false;
    }
    var k :| 0 <= k < |rows| && Indexes(rows)[k] == id;
    FriendsTableRow(rows, k);
  }

  lemma MapsEqual(a: map<int, set<int>>, b: map<int, set<int>>)
    requires a.Keys == b.Keys && forall k :: k in a ==> a[k] == b[k]
    ensures a == b
  {
    forall k | k in a
      ensures a[k] == b[k]
    {
    }
    assert forall k :: k in b ==> k in a;
  }

  /** A citizen stored before the import keeps the friends it had. */
  lemma OldCitizenFriends(t0friends: map<int, set<int>>, t2friends: map<int, set<int>>, f: map<int, set<int>>, rows: seq<PersonRow>, id: int)
    requires t2friends == t0friends + NoFriends(Indexes(rows))
    requires FriendsSetUpTo(f, t2friends, rows, |rows|)
    requires id in f && id !in Indexes(rows)
    ensures id in t0friends && f[id] == t0friends[id]
  {
    assert Indexes(rows)[..|rows|] == Indexes(rows);
    assert id !in NoFriends(Indexes(rows));
  }

  /** The friends table after the loop has a list for every citizen, old and new. */
  lemma FriendsKeysAfterImport(t0friends: map<int, set<int>>, t2friends: map<int, set<int>>, f: map<int, set<int>>, rows: seq<PersonRow>)
    requires t2friends == t0friends + NoFriends(Indexes(rows))
    requires f.Keys == t2friends.Keys
    ensures f.Keys == t0friends.Keys + Elems(Indexes(rows))
  {
    assert NoFriends(Indexes(rows)).Keys == Elems(Indexes(rows));
  }

  /** Each citizen's list after the loop: a stored citizen keeps its own, a new one has its entry's. */
  lemma FriendsValuesAfterImport(t0friends: map<int, set<int>>, t2friends: map<int, set<int>>, f: map<int, set<int>>, rows: seq<PersonRow>)
    requires Distinct(Indexes(rows))
    requires t2friends == t0friends + NoFriends(Indexes(rows))
    requires FriendsSetUpTo(f, t2friends, rows, |rows|)
    ensures forall id :: id in f ==> id in t0friends + FriendsTable(rows) && f[id] == (t0friends + FriendsTable(rows))[id]
  {
    forall id | id in f
      ensures id in t0friends + FriendsTable(rows) && f[id] == (t0friends + FriendsTable(rows))[id]
    {
      if id in Indexes(rows) {
        NewCitizenFriends(f, t2friends, rows, id);
      } else {
        OldCitizenFriends(t0friends, t2friends, f, rows, id);
      }
    }
  }

  /** The friends table after the loop: the stored citizens keep theirs, the new ones have the entries' lists. */
  lemma FriendsAfterImport(t0friends: map<int, set<int>>, t2friends: map<int, set<int>>, f: map<int, set<int>>, rows: seq<PersonRow>)
    requires Distinct(Indexes(rows))
    requires t2friends == t0friends + NoFriends(Indexes(rows))
    requires FriendsSetUpTo(f, t2friends, rows, |rows|)
    ensures f == t0friends + FriendsTable(rows)
  {
    var g := t0friends + FriendsTable(rows);
    FriendsKeysAfterImport(t0friends, t2friends, f, rows);
    FriendsValuesAfterImport(t0friends, t2friends, f, rows);
    assert g.Keys == t0friends.Keys + Elems(Indexes(rows));
    MapsEqual(f, g);
  }

  /**
   * The import is complete once the batch is stored (`t2`) and every new
   * citizen's friends are set (`t`): `Imported` holds of the final tables.
   */
  lemma ImportCompleted(t0: Tables, t1: Tables, t2: Tables, t: Tables,
                        rows: seq<PersonRow>, profiles: seq<Profile>, links: seq<Links>)
    requires |profiles| == |rows|
    requires Linked(t0, t1, rows, links)
    requires Distinct(Indexes(rows)) && forall i :: 0 <= i < |rows| ==> rows[i].index !in t1.citizens
    requires t2.citizens == t1.citizens + BatchMap(CitizenBatch(rows, profiles, links))
    requires t2.friends == t1.friends + NoFriends(Keys(CitizenBatch(rows, profiles, links)))
    requires t.citizens == t2.citizens && FriendsSetUpTo(t.friends, t2.friends, rows, |rows|)
    requires t.companies == t1.companies && t.eyeColors == t1.eyeColors && t.foods == t1.foods
    requires t.tags == t1.tags && t.addresses == t1.addresses
    ensures Imported(t0, t, rows, profiles)
  {
    BatchKeys(rows, profiles, links);
    BatchRowsStored(t1, t, rows, profiles, links);
    CitizensAfterImport(t0, t1, t, rows, profiles, links);
    FriendsAfterImport(t0.friends, t2.friends, t.friends, rows);
  }

  /** A new citizen's friends are exactly the indexes its entry lists, itself included if listed. */
  lemma ImportedFriends(t0: Tables, t: Tables, rows: seq<PersonRow>, profiles: seq<Profile>, i: int)
    requires |profiles| == |rows| && Imported(t0, t, rows, profiles) && 0 <= i < |rows|
    ensures rows[i].index in t.friends && t.friends[rows[i].index] == Elems(rows[i].friends)
  {
    FriendsTableRow(rows, i);
  }

  /** The import never touches the friends of a citizen stored before it: no edge is mirrored onto them. */
  lemma FriendsNotMirrored(t0: Tables, t: Tables, rows: seq<PersonRow>, profiles: seq<Profile>, id: int)
    requires |profiles| == |rows| && Imported(t0, t, rows, profiles)
    requires id in t0.friends && id !in Indexes(rows)
    ensures id in t.friends && t.friends[id] == t0.friends[id]
  {
    assert id !in Elems(Indexes(rows));
  }

  /** Entry 1 lists 2 and entry 2 lists nobody: 2 is 1's friend, but 1 is not 2's. */
  lemma OneWayFriendship(t0: Tables, t: Tables, rows: seq<PersonRow>, profiles: seq<Profile>)
    requires |profiles| == |rows| && Imported(t0, t, rows, profiles)
    requires |rows| == 2 && rows[0].index == 1 && rows[0].friends == [2] && rows[1].index == 2 && rows[1].friends == []
    ensures 2 in t.friends[1] && 1 !in t.friends[2]
  {
    ImportedFriends(t0, t, rows, profiles, 0);
    ImportedFriends(t0, t, rows, profiles, 1);
  }

  /** `Imported`, for the rows and profiles decoded from the entries. */
  predicate PeopleImported(t0: Tables, t: Tables, entries: seq<Record>, parseTime: string -> Option<DateTime>)
    requires DecodeAll(entries, parseTime).Success?
  {
    DecodedEntries(entries, parseTime);
    var rows := DecodeAll(entries, parseTime).value;
    var profiles := ProfilesOf(rows);
    profiles.Success? && Imported(t0, t, rows, profiles.value)
  }

  /**
   * The entry loop of `import_people`: each entry is checked and decoded,
   * its lookup rows are created, and its food and tag links are written. It
   * stops at the first entry that cannot be decoded or linked, leaving the
   * rows created so far to the rollback.
   */
  method LinkEntries(db: Database, entries: seq<Record>, parseTime: string -> Option<DateTime>)
      returns (rows: seq<PersonRow>, links: seq<Links>, err: Option<ImportError>)
    requires db.Valid()
    modifies db
    ensures db.Valid()
    ensures Linked(old(db.Contents()), db.Contents(), rows, links)
    ensures err.Some? ==> DecodeAll(entries, parseTime) == Failure(err.value)
    ensures err.None? ==> DecodeAll(entries, parseTime) == Success(rows)
  {
    ghost var t0 := db.Contents();
    ghost var rs := Decoded(entries, parseTime);
    rows, links, err := [], [], None;
    LinkedNone(t0);
    var i := 0;
    while i < |entries|
      invariant 0 <= i <= |entries|
      invariant db.Valid()
      invariant Collect(rs[..i]) == Success(rows)
      invariant Linked(t0, db.Contents(), rows, links)
    {
      var decoded := DecodePerson(entries[i], parseTime);
      assert rs[i] == ReadEntry(entries[i], parseTime);
      CollectStep(rs, i);
      if decoded.Failure? {
        CollectPrefixFailure(rs, i + 1);
        return rows, links, Some(decoded.error);
      }
      var row := decoded.value;
      ghost var u := db.Contents();
      var l := LinkPerson(db, row);
      LinkedGrow(t0, u, db.Contents(), rows, links, row, l);
      var linkError := LinkViolation(row);
      if linkError.Some? {
        CollectPrefixFailure(rs, i + 1);
        return rows + [row], links + [l], Some(DatabaseFailure(linkError.value));
      }
      rows := rows + [row];
      links := links + [l];
      i := i + 1;
    }
    assert rs[..i] == rs;
  }

  /**
   * The writes of `import_people` after the entry loop: one `bulk_create`
   * of the linked citizens, then the friends loop. On failure the caller
   * rolls back.
   */
  method StorePeople(db: Database, t0: Tables, rows: seq<PersonRow>, links: seq<Links>) returns (err: Option<ImportError>)
    requires db.Valid()
    requires Linked(t0, db.Contents(), rows, links)
    requires forall i :: 0 <= i < |rows| ==> rows[i].entry.Keys == ExpectedPeopleFields
    modifies db
    ensures db.Valid()
    ensures Submap(t0.eyeColors, db.eyeColors) && Submap(t0.foods, db.foods)
    ensures Submap(t0.tags, db.tags) && Submap(t0.addresses, db.addresses)
    ensures err == StoreError(t0, rows)
    ensures err.None? ==> Imported(t0, db.Contents(), rows, ProfilesOf(rows).value)
  {
    ghost var t1 := db.Contents();
    var converted := ProfilesOf(rows);
    if converted.Failure? {
      return Some(converted.error);
    }
    var profiles := converted.value;
    var batch := CitizenBatch(rows, profiles, links);
    LinkedBatchViolation(t0, t1, rows, profiles, links);
    var v := db.BulkCreateCitizens(batch);
    if v.Some? {
      return Some(DatabaseFailure(v.value));
    }
    ghost var t2 := db.Contents();
    FreshIndexes(t1, rows, profiles, links);
    BatchKeys(rows, profiles, links);
    v := SetAllFriends(db, rows);
    if v.Some? {
      assert t2.citizens.Keys == t0.citizens.Keys + Elems(Indexes(rows));
      assert PeopleViolation(t0, rows, profiles) == v;
      return Some(DatabaseFailure(v.value));
    }
    ImportCompleted(t0, t1, t2, db.Contents(), rows, profiles, links);
    assert PeopleViolation(t0, rows, profiles) == None;
    return None;
  }

  /**
   * `import_people`, inside one transaction: each entry is checked and its
   * lookup rows created, the citizens are written with one `bulk_create`,
   * then each new citizen's friends are set. Any failure rolls the tables
   * back to what they were.
   */
  method ImportPeople(db: Database, entries: seq<Record>, parseTime: string -> Option<DateTime>) returns (r: Outcome<ImportError>)
    requires db.Valid()
    modifies db
    ensures db.Valid()
    ensures r == PeopleOutcome(old(db.Contents()), entries, parseTime)
    ensures r.Fail? ==> db.Contents() == old(db.Contents())
    ensures r.Pass? ==> PeopleImported(old(db.Contents()), db.Contents(), entries, parseTime)
  {
    var t0 := db.Contents();  // the savepoint `transaction.atomic` rolls back to
    var rows, links, err := LinkEntries(db, entries, parseTime);
    if err.None? {
      DecodedEntries(entries, parseTime);
      err := StorePeople(db, t0, rows, links);
    }
    if err.Some? {
      db.AheadOfEarlier(t0);
      db.Restore(t0);
      return Fail(err.value);
    }
    return Pass;
  }
}
