# Paranuara citizens: a Dafny model

This project models the core of the Paranuara citizens application in Dafny.
The application is a Django service that imports two JSON resource files into
a relational store. The companies file holds one company per entry. The people
file holds one citizen per entry, with friends, tags, favourite foods, an eye
colour and an address. The service answers three REST queries over the stored
data:

- the details of one citizen;
- two citizens with their common friends who are alive and have brown eyes;
- the employees of a company.

A management command empties every table.

The model has these modules:

- `Wrappers` (`wrappers.dfy`): `Option`, `Result` and `Outcome`.
- `Json` (`json.dfy`): a parsed JSON value. An entry is a `Record`, a map from
  keys to values.
- `Strings` (`strings.dfy`): the Python string built-ins the code relies on:
  - `int()` on a decimal literal;
  - `str.split` with one separator;
  - `str.strip`;
  - `str.replace(c, '')`.
- `Models` (`models.dfy`): the entities of `models.py` as datatypes:
  - the food types, with the known fruit and vegetable lists;
  - the ISO/IEC 5218 gender codes;
  - timestamps normalised to UTC;
  - the citizen row;
  - the ascending-id order in which citizens are read.
- `Store` (`store.dfy`): the relational store the ORM writes to. It is the
  class `Database`, with one `map` field per table and the directed `friends`
  table. `ValidTables` holds the constraints the schema declares:
  - unique food, tag and eye colour names;
  - unique `_id` and `guid`;
  - foreign keys, with PROTECT and SET_NULL on delete;
  - the `smallint` and `integer` column ranges: every citizen id, every
    citizen column of those types, `company_id` included, and every company
    id fits its column.

  Auto-generated ids come from per-table sequences, and the sequences survive
  a rollback. `Restore` stands for the rollback of `transaction.atomic`.
- `Importers` (`importers.dfy`): `import_companies` and `import_people` as
  methods over a `Database`, and their pure helpers. Each import method is
  proved against a function of the entries and the tables before it
  (`CompaniesOutcome`, `PeopleOutcome`). A failure leaves every table as it
  was.
- `UseCases` (`use_cases.dfy`): the common live brown-eyed friends query.
- `Serializers` (`serializers.dfy`) and `Views` (`views.dfy`): what each
  endpoint answers, as a `Response` datatype instead of HTTP.
- `PurgeDatabase` (`purge.dfy`): the purge command, as a method that empties
  the store.

The importer leaves two situations unguarded. A friend index may name no
citizen, and a citizen index may collide with an existing row. The model
returns an explicit `DatabaseFailure` error for each, and the import is then
rolled back. This is what a store that enforces its primary and foreign keys
does at `bulk_create` or at commit. Duplicate `_id`/`guid` values, a
`company_id` with no company and an out-of-range integer column are handled
the same way. Two of these failures come before `bulk_create`:

- The food and tag links of an entry are written while the loop runs. They
  are keyed by the entry's `index`, so an index outside the `integer` range
  fails there if the entry lists a food or a tag.
- A friend index outside that range fails when the friend edges are written.

## Model

| member | source | states |
|---|---|---|
| Models.KnownListsDisjoint | paranuara/citizens/models.py:31-32 | no name is both a known fruit and a known vegetable |
| Models.ToUtc | paranuara/citizens/models.py:93 | the stored timestamp is the same instant as the parsed one, on a UTC clock (offset 0, second within the day) |
| Models.ToUtcIdempotent | paranuara/citizens/models.py:93 | normalising a stored timestamp again changes nothing |
| Models.ToUtcWestOfGreenwich | paranuara/citizens/resources/importers.py:68 | 12:29:07 at offset -01:00 is stored as 13:29:07 UTC on the same day |
| Models.InIdOrder | paranuara/citizens/models.py:87-88 | a set of citizen ids listed in strictly ascending order, with the same elements and the same size |
| Store.CitizenBatchViolation | paranuara/citizens/resources/importers.py:96 | a citizen batch is accepted exactly when every id fits the 32-bit `integer` key, every other integer column, `company_id` included, fits its type, every row references existing rows, the ids are new and pairwise distinct, and `_id`/`guid` repeat neither a stored citizen nor another row |
| Store.InsertedProfilesUnique | paranuara/citizens/models.py:90-91 | after an accepted batch, `_id` and `guid` are still unique across all citizens |
| Store.InsertedReferences | paranuara/citizens/models.py:107-119 | after an accepted batch, every citizen references existing eye colour, address, company, tag and food rows |
| Store.CitizenInsertValid | paranuara/citizens/resources/importers.py:96 | an accepted batch, stored with empty friend sets, keeps every schema constraint |
| Store.TagAddedValid | paranuara/citizens/models.py:82 | adding a tag whose name is new keeps tag names unique and the store valid |
| Store.FoodAddedValid | paranuara/citizens/models.py:34 | adding a food whose name is new keeps food names unique and the store valid |
| Store.WithoutCompanies | paranuara/citizens/models.py:136-137 | deleting every company keeps every citizen, with its company set to null and nothing else changed |
| Store.WithoutTags | paranuara/citizens/models.py:143 | deleting every tag keeps every citizen, with no tags and nothing else changed |
| Store.WithoutFoods | paranuara/citizens/models.py:145 | deleting every food keeps every citizen, with no favourite food and nothing else changed |
| Store.ProtectedWhileCitizensExist | paranuara/citizens/models.py:107-119 | while any citizen exists, deleting every eye colour or every address is blocked by PROTECT |
| Store.UnprotectedWithoutCitizens | paranuara/citizens/management/commands/purge_database.py:13-18 | once no citizen exists, nothing blocks deleting eye colours and addresses |
| Store.Database.GetOrCreateEyeColor | paranuara/citizens/resources/importers.py:69-71 | returns the row with that colour name; it creates the row only if the name is new, and no other table or sequence changes |
| Store.Database.InsertTagsIgnoringConflicts | paranuara/citizens/resources/importers.py:124-125 | afterwards every name has a tag row; existing rows are kept, and every new row carries one of the names |
| Store.Database.InsertFoodsIgnoringConflicts | paranuara/citizens/resources/importers.py:113-116 | afterwards every food name has a row; existing rows are kept, and every new row is one of the given foods |
| Store.Database.CreateAddress | paranuara/citizens/resources/importers.py:139-144 | one new address row under a fresh id; nothing else changes |
| Store.FriendsViolation | paranuara/citizens/resources/importers.py:101 | writing friend edges fails exactly when a target is outside the `integer` range of the edge column (OutOfRange, checked first) or names no citizen (MissingReference) |
| Store.FriendOutOfRangeExample | paranuara/citizens/resources/importers.py:101 | a friend index 2147483648 is refused as out of range even beside a missing friend; 2147483647 only as missing |
| Store.InsertedInRange | paranuara/citizens/resources/importers.py:96 | after an accepted batch, every stored citizen row and company id still fits its `integer` and `smallint` columns |
| Store.CompanyBatchViolation | paranuara/citizens/resources/importers.py:46-49 | a company batch is accepted exactly when every id fits the 32-bit `integer` key and no id repeats a stored id or another row's id |
| Store.CompanyKeyOutOfRange | paranuara/citizens/resources/importers.py:46-49 | a company with id 2147483648 is refused as out of range even by an empty table, and one with id 2147483647 is accepted |
| Store.Database.BulkCreateCompanies | paranuara/citizens/resources/importers.py:49 | all rows are stored, or none are when an id is outside the 32-bit `integer` range or repeats a stored id or another row's id; the refusal is exactly `CompanyBatchViolation` |
| Store.Database.BulkCreateCitizens | paranuara/citizens/resources/importers.py:96 | all rows are stored, each with an empty friend set, or none are; the refusal is exactly `CitizenBatchViolation` |
| Store.Database.SetFriends | paranuara/citizens/resources/importers.py:101 | replaces one citizen's outgoing friend set, and only that set; refused, with nothing changed, exactly as `FriendsViolation` says |
| Store.Database.Restore | paranuara/citizens/resources/importers.py:52 | the tables return to the savepoint; the id sequences keep their values |
| Store.Database.DeleteAllCitizens | paranuara/citizens/management/commands/purge_database.py:13 | no citizen and no friend edge remains; the other tables are unchanged |
| Store.Database.DeleteAllEyeColors | paranuara/citizens/management/commands/purge_database.py:14 | refused, with nothing changed, exactly when a citizen references an eye colour; otherwise the table is emptied |
| Store.Database.DeleteAllFoods | paranuara/citizens/management/commands/purge_database.py:15 | the food table is emptied and every citizen loses its favourite foods |
| Store.Database.DeleteAllTags | paranuara/citizens/management/commands/purge_database.py:16 | the tag table is emptied and every citizen loses its tags |
| Store.Database.DeleteAllCompanies | paranuara/citizens/management/commands/purge_database.py:17 | the company table is emptied and every citizen's company becomes null |
| Store.Database.DeleteAllAddresses | paranuara/citizens/management/commands/purge_database.py:18 | refused, with nothing changed, exactly when a citizen references an address; otherwise the table is emptied |
| Strings.ParseInt | paranuara/citizens/rest/views.py:91-94 | `int()` succeeds exactly on an optionally signed run of decimal digits |
| Strings.ParseIntOfDecimal | paranuara/citizens/resources/importers.py:156 | `int()` reads back the decimal text of every integer |
| Strings.Split | paranuara/citizens/resources/importers.py:138 | `split` yields one more piece than there are separators, no piece holds the separator, and joining the pieces gives back the input |
| Strings.SplitJoin | paranuara/citizens/resources/importers.py:138 | splitting separator-free pieces joined by the separator gives back the pieces |
| Strings.Strip | paranuara/citizens/resources/importers.py:140-143 | `strip` leaves no whitespace at either end |
| Strings.StripPadded | paranuara/citizens/resources/importers.py:140-143 | `strip` removes exactly the surrounding whitespace of a trimmed text |
| Strings.Without | paranuara/citizens/resources/importers.py:155 | `replace(c, '')` leaves no `c` |
| Strings.CountWithout | paranuara/citizens/resources/importers.py:155 | removing one character does not change the count of another |
| Importers.RawBalanceToCents | paranuara/citizens/resources/importers.py:147-156 | `_raw_balance_to_cents` as written; it fails unless the text has exactly one `.` |
| Importers.RawBalanceRoundTrip | paranuara/citizens/resources/importers.py:147-156 | for a non-negative amount, the conversion as written reads back the `$d,ddd.cc` text of that amount |
| Importers.RawBalanceNegative | paranuara/citizens/resources/importers.py:156 | for a negative amount, the conversion as written is off by twice the cents |
| Importers.RawBalanceLosesSign | paranuara/citizens/resources/importers.py:156 | `-$0.50` is read as +50 cents as written, and as -50 after the correction |
| Importers.BalanceToCents | paranuara/citizens/resources/importers.py:147-156 | the corrected conversion succeeds on exactly the same texts as the original |
| Importers.BalanceRoundTrip | paranuara/citizens/resources/importers.py:147-156 | the corrected conversion reads back the formatted text of every amount, negative ones included |
| Importers.BalanceExample | paranuara/citizens/resources/importers.py:152 | `$2,418.59` is 241859 cents, both as written and corrected |
| Importers.ParseAddress | paranuara/citizens/resources/importers.py:132-138 | parsing succeeds exactly when the text has three commas, and every part is stripped |
| Importers.AddressRoundTrip | paranuara/citizens/resources/importers.py:132-144 | a comma-free, trimmed address written as `street, city, state, code` parses back to itself |
| Importers.AddressExample | paranuara/citizens/resources/importers.py:132-144 | `628 Sumner Place, Sperryville, American Samoa, 9819` gives its four fields |
| Importers.GenderCodeOf | paranuara/citizens/resources/importers.py:84 | "male" gives 1 and "female" gives 2, in both directions; any other hashable value gives 0; the code is always an ISO/IEC 5218 code |
| Importers.CompanyIdsMatchIndexes | paranuara/citizens/resources/importers.py:159-170 | the offset maps company ids 1..100 one to one onto indexes 0..99, and 58 onto 57 |
| Importers.CompanyIdOf | paranuara/citizens/resources/importers.py:90 | an integer `company_id` becomes that id minus one; a non-number is a type failure |
| Importers.Categorize | paranuara/citizens/resources/importers.py:104-114 | a name is a fruit exactly when it is a known fruit, a vegetable exactly when it is a known vegetable, and other exactly when it is neither |
| Importers.FriendIndices | paranuara/citizens/resources/importers.py:61-63 | the friend indexes are the `index` of each listed friend, in order, and fail exactly when one is malformed |
| Importers.NamesOf | paranuara/citizens/resources/importers.py:66-67 | the food and tag lists are read item by item, and fail exactly when an item is not a string |
| Importers.NameList | paranuara/citizens/resources/importers.py:104-106 | a list gives its items, a string one name per character, an empty object no names; a non-empty object and any other value are refused |
| Importers.DecodePerson | paranuara/citizens/resources/importers.py:57-91 | an entry whose key set is not the 20 expected fields is a malformed entry; a decoded entry keeps its record and has a valid gender code |
| Importers.DecodedIndexAndBalance | paranuara/citizens/resources/importers.py:61-65 | a decoded entry's id is its `index`, and its balance is the corrected conversion of its `balance` text |
| Importers.LinkViolation | paranuara/citizens/resources/importers.py:92-93 | the food and tag links of an entry fail exactly when its index is outside the `integer` range and it lists a food or a tag; the error is OutOfRange |
| Importers.ReadEntry | paranuara/citizens/resources/importers.py:57-93 | one pass of the loop: a decoding failure is the outcome; a decoded entry passes exactly when its links can be written, and otherwise fails as OutOfRange |
| Importers.OutOfRangeLinkRejected | paranuara/citizens/resources/importers.py:75-93 | an entry whose links are keyed by an out-of-range index, after entries that all decode and link, fails the whole import as OutOfRange, whatever follows it |
| Importers.ProfileOf | paranuara/citizens/resources/importers.py:73-91 | `_id`, `guid`, `age`, `has_died` and `name` are copied from the entry verbatim |
| Importers.CollectPrefixFailure | paranuara/citizens/resources/importers.py:57-59 | once an entry fails, the entries after it cannot change the outcome |
| Importers.MalformedEntryRejected | paranuara/citizens/resources/importers.py:58-59 | an entry with the wrong key set, after entries that all decode and link, makes the import a DataImportError |
| Importers.CompanyRows | paranuara/citizens/resources/importers.py:38-47 | one company per entry, with id `index` and name `company`; no other key is read |
| Importers.ImportCompanies | paranuara/citizens/resources/importers.py:35-49 | ends as `CompaniesOutcome` says; on failure the tables are unchanged; on success exactly the entries' companies are added |
| Importers.MalformedCompanyRejected | paranuara/citizens/resources/importers.py:39-43 | an entry without `index` or `company` is a DataImportError, whatever the other entries hold |
| Importers.CompanyImportExample | paranuara/citizens/resources/importers.py:35-49 | two well-formed entries become companies 0 and 1 with their names |
| Importers.CreateFoodData | paranuara/citizens/resources/importers.py:104-120 | returns exactly the food rows named in the list; each name then has one row; new rows carry a listed name and its category, and old rows are kept |
| Importers.CreateTags | paranuara/citizens/resources/importers.py:123-129 | returns exactly the tag rows named in the list; each name then has one row; new rows carry a listed name, and old rows are kept |
| Importers.TagIdsStable | paranuara/citizens/resources/importers.py:125-129 | once a tag name exists, later inserts do not change which rows it names |
| Importers.FoodIdsStable | paranuara/citizens/resources/importers.py:116-120 | once a food name exists, later inserts do not change which rows it names |
| Importers.CitizenOf | paranuara/citizens/resources/importers.py:73-91 | the citizen row holds the profile, the UTC registration time, company id `company_id - 1` and the mapped gender code |
| Importers.LinkPerson | paranuara/citizens/resources/importers.py:66-72 | one entry's food, tag, eye colour and address rows exist and match it afterwards; lookup tables only grow, by one new address and rows with the entry's names |
| Importers.LinkEntries | paranuara/citizens/resources/importers.py:57-94 | the decoding and the food and tag link writes follow the loop over the entries, stopping at the first entry that cannot be decoded or linked; the lookup rows of each entry read so far exist and match it |
| Importers.LinkedBatchViolation | paranuara/citizens/resources/importers.py:96 | `bulk_create` of the linked batch fails exactly as the description over the entries says |
| Importers.SetAllFriends | paranuara/citizens/resources/importers.py:100-101 | sets each new citizen's friends to its entry's indexes; refused exactly as `FriendsLoopViolation` says |
| Importers.FriendsLoopViolation | paranuara/citizens/resources/importers.py:100-101 | the friend loop passes exactly when every citizen's list passes `FriendsViolation`; a failure is the violation of one of the lists |
| Importers.StorePeople | paranuara/citizens/resources/importers.py:96-101 | the bulk insert and the friend loop end as `StoreError` says; on success the new citizens are stored as `Imported` describes |
| Importers.ImportPeople | paranuara/citizens/resources/importers.py:52-101 | ends as `PeopleOutcome` says; on failure the tables are unchanged; on success the tables are as `Imported` describes |
| Importers.ImportCompleted | paranuara/citizens/resources/importers.py:96-101 | after the bulk insert and the friend loop, the store holds the new citizens, their lookups and their friend edges, and nothing else changed |
| Importers.FriendsAfterImport | paranuara/citizens/resources/importers.py:100-101 | the friends table after the loop is the old one plus, for each new citizen, the set of its listed indexes |
| Importers.ImportedFriends | paranuara/citizens/resources/importers.py:100-101 | a new citizen's friends are exactly the indexes its entry lists, itself included if listed |
| Importers.FriendsNotMirrored | paranuara/citizens/models.py:139-141 | the friends of a citizen stored before the import are untouched, so no edge is mirrored |
| Importers.OneWayFriendship | paranuara/citizens/models.py:139-141 | when entry 1 lists 2 and entry 2 lists nobody, 2 is 1's friend but 1 is not 2's |
| UseCases.CommonLiveBrownEyedFriends | paranuara/citizens/use_cases.py:6-20 | every result is a friend of both citizens, alive and brown-eyed, and every such friend is a result |
| UseCases.CommonFriendsSymmetric | paranuara/citizens/use_cases.py:20 | swapping the two citizens gives the same result |
| UseCases.OnlyOutgoingEdges | paranuara/citizens/use_cases.py:17-18 | a citizen who lists `a`, but whom `a` does not list, is never a result |
| UseCases.CommonFriendsExample | paranuara/citizens/use_cases.py:12-20 | with shared friends 3 (brown, alive), 4 (blue) and 5 (brown, dead), the result is {3} |
| Serializers.FoodsOfType | paranuara/citizens/rest/serializers.py:15-27 | the names are exactly those of the citizen's favourite foods of the given type |
| Serializers.CitizenDetails | paranuara/citizens/rest/serializers.py:6-27 | `username` is the name and `age` the age; `fruits` and `vegetables` are exactly the favourite foods of those types |
| Serializers.OtherFoodsHidden | paranuara/citizens/rest/serializers.py:15-27 | a favourite food of type other is in neither list |
| Serializers.FruitsAndVegetablesDisjoint | paranuara/citizens/rest/serializers.py:15-27 | no name is both a fruit and a vegetable of a citizen |
| Serializers.DetailsExample | paranuara/citizens/rest/serializers.py:15-27 | carrot, apple and mushroom give fruits {apple} and vegetables {carrot} |
| Serializers.ImportedFruitsAndVegetables | paranuara/citizens/resources/importers.py:104-114 | after an import into a store with categorised foods, a citizen's fruits are exactly the known fruits its entry lists, and likewise its vegetables |
| Serializers.SummaryOnlyListedFields | paranuara/citizens/rest/serializers.py:30-39 | `MultiCitizenSerializer`, modelled by `SummaryOf`, shows exactly `username`, `age`, `address` and `phone_number`: two citizens get the same summary exactly when they agree on those four fields; which summaries the pair view returns is stated by `Views.TwoCitizensView` and `Views.PairViewExample` |
| Serializers.Employees | paranuara/citizens/rest/serializers.py:42-53 | exactly the company's citizens, in strictly ascending id order |
| Views.ValidateParamsFormat | paranuara/citizens/rest/views.py:88-98 | no error exactly when every parameter is an integer literal; the error is InvalidFormat |
| Views.SingleCitizenView | paranuara/citizens/rest/views.py:14-31 | InvalidFormat exactly for a malformed id, NotFound exactly for a missing citizen, otherwise that citizen's details |
| Views.CitizensNamed | paranuara/citizens/rest/views.py:42-43 | the filter finds two rows exactly when the ids differ and both citizens exist |
| Views.TwoCitizensView | paranuara/citizens/rest/views.py:34-59 | InvalidFormat exactly for a malformed id; NotFound exactly when the ids are equal or a citizen is missing; otherwise both summaries in ascending id order and the common live brown-eyed friends |
| Views.CompanyEmployeesView | paranuara/citizens/rest/views.py:62-85 | InvalidFormat, NotFound for a missing company, NoEmployees exactly for a company without citizens, otherwise its employees in id order |
| Views.InvalidFormatExample | paranuara/citizens/rest/views.py:88-98 | a non-numeric id is refused before any lookup |
| Views.SameCitizenTwiceNotFound | paranuara/citizens/rest/views.py:42-47 | the same id twice finds one row, so the pair view answers NotFound |
| Views.PairViewExample | paranuara/citizens/rest/views.py:49-57 | citizens 2 and 1 are listed as 1 then 2, with common friend 3 only |
| PurgeDatabase.Handle | paranuara/citizens/management/commands/purge_database.py:11-18 | every table is empty afterwards, the deletes never fail, and the id sequences keep their values |
| PurgeDatabase.CompaniesReimport | paranuara/citizens/management/commands/purge_database.py:8-9 | companies imported once can be imported again into the purged store |
| PurgeDatabase.CompaniesTwiceRefused | paranuara/citizens/management/commands/purge_database.py:8-9 | without a purge, the same companies file is refused the second time with a duplicate id |
| PurgeDatabase.PeopleReimport | paranuara/citizens/management/commands/purge_database.py:8-9 | a people import that was accepted is accepted again with the same citizens (none, after a purge) and at least the same companies |
| PurgeDatabase.PeopleTwiceRefused | paranuara/citizens/management/commands/purge_database.py:8-9 | without a purge, the same people file is refused by the database the second time |

## Left out

- Reading the resource files (`get_data_from_json_file`) and the `import_resources` command. The importers take already parsed entries.
- `datetime.fromisoformat` is a parameter, `parseTime`. The model only normalises its result to UTC.
- Strings.ParseInt: `int()` is modelled as accepting only an optional sign followed by ASCII digits. Python also accepts surrounding whitespace, underscores between digits and other Unicode decimal digits.
- Views.ValidateParamsFormat: built on `Strings.ParseInt`, so a parameter such as ` 7` or `1_0` is refused by the model as InvalidFormat, while the view accepts it and goes on to the lookup.
- Importers.DecodePerson: the stored balance is the corrected conversion `BalanceToCents` (stated by `DecodedIndexAndBalance`), not `_raw_balance_to_cents` as written. The two differ only when the dollar part starts with `-` and the cents are not zero, as in `-$1.50`; see "## Findings", where `RawBalanceToCents` keeps the code as written.
- Importers.ImportPeople: for the same reason, an imported citizen's `balance_in_cents` is the corrected amount, and the range check of that column is made on the corrected amount.
- Importers.NameList: a non-empty JSON object in `favouriteFood` or `tags` would be iterated by its keys in file order; the parsed object keeps no order, so the model refuses it as a `TypeFailure`.
- Django's coercion of JSON values into model fields is not modelled. A value of the wrong JSON type for a field is a `TypeFailure`. Examples are a number where a string is stored, or a string in an integer column.
- Store.CitizenBatchViolation: text lengths are not checked. The database does enforce them. Every `CharField(max_length=255)` is a `varchar(255)` column and `EmailField` is a `varchar(254)` column (models.py:4-14). A longer value raises a DataError, so the insert fails. The model accepts such a row. The columns are the citizen's `name`, `_id`, `guid`, `picture`, `phone` and `email`.
- Store.CompanyBatchViolation: for the same reason, a company `name` longer than 255 characters is accepted by the model, although the database refuses it.
- Store.Database.GetOrCreateEyeColor, Store.Database.CreateAddress, Store.Database.InsertTagsIgnoringConflicts and Store.Database.InsertFoodsIgnoringConflicts: an eye colour, an address part, a tag or a food name longer than 255 characters is written by the model. The database raises a DataError instead, which `ignore_conflicts` does not suppress.
- Importers.ImportPeople and Importers.ImportCompanies: an import that holds such a too-long text therefore passes in the model. In the source it fails and `transaction.atomic` rolls it back as a whole.
- The gender `choices` and the email format are checked only by Django's form and model validation, which `bulk_create` does not run. The database does not enforce them either, so the model leaves them out too. The importer only produces gender codes 0, 1 and 2.
- Json.Json: JSON numbers are integers only. `json.load` turns a number with a fraction or an exponent into a Python float, which the model has no value for. So an entry whose `index`, `age`, `company_id` or friend `index` is a float is not modelled. Django would coerce such a value or reject it.
- Foreign keys are checked when a row is written. The store may defer them to commit, but either way the atomic import fails and rolls back as a whole. Only the error kind can differ. Take a friend list naming no citizen, followed by a later list with an index outside the `integer` range. The model reports the missing reference, while a store that defers the check reports the range error.
- `import_people` reads the fields of an entry one by one, writing its food, tag, eye colour and address rows between them. The model decodes the whole entry first, then writes its lookup rows, then its food and tag links. The fields are checked in the order the loop reads them, and the model's lookup writes cannot fail. So the first bad entry raises the same error in both, and a failure rolls everything back. The exception is a too-long text, which is listed above.
- The food and tag links written during the loop are only range-checked by the model. It stores them with the citizen rows at `bulk_create`.
- After a rollback, the id sequences keep their advanced values. No property depends on the ids the sequences hand out.
- URL routing, the 405 responses to other HTTP methods, status codes and the payload texts are not modelled. Each `Response` constructor stands for one fixed status and payload.
- Employee hyperlinks are modelled as citizen ids.
- `str(citizen.address)` in the multi-citizen serializer is modelled as the address row's id. Django's default text for a row names its id.
- The fruit and vegetable lists are modelled as sets of names, so their order is not modelled. The common friends are modelled as a map keyed by citizen id. The source builds them from a Python set, so their order is unspecified.
- Concurrency between requests and imports is not modelled.

## Findings

| source | as written | input that shows it | evidently intended | confidence | as-written member | corrected member |
|---|---|---|---|---|---|---|
| paranuara/citizens/resources/importers.py:156 | `int(dollars) * 100 + int(cents)` adds the cents even when the dollars are negative | `-$0.50` gives +50 cents; `-$1.50` gives -50 | the sign applies to the whole amount: -50 and -150 | not executed; the shipped resource file may hold no negative balance | Importers.RawBalanceLosesSign | Importers.BalanceRoundTrip |
