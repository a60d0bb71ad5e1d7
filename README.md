# ExpireBee data layer, modelled in Dafny

ExpireBee is a browser app for tracking household inventory and expiry dates.
It keeps its data in an IndexedDB database through Dexie. This project models
the core of that data layer:

- the record types and the two enumerations of `src/lib/Model.ts`, as datatypes;
- `ToDictionary`, which indexes a list of records by `id || 0`. It is modelled
  as a loop over an array that fills a map, proved against `DictOf`, a fold over the records in list order;
- the database `ExpireBee`, with its six auto-increment tables (`++id`). Each
  table is a class holding a map from key to record and the next key to hand out;
- the `populate` step, which runs when the database is first created and adds four
  categories and eight locations;
- `Upsert`, which either updates the record at a truthy `item.id` or adds the
  item under a fresh key.

Files:
- `wrappers.dfy`: `Option`.
- `model.dfy`: module `Model`, for `src/lib/Model.ts`.
- `data.dfy`: module `Data`, for `src/lib/Data.ts`.

Every entity declares `id?: number`. A record is therefore modelled as
`Record(id: Option<int>, data: F)`, where `F` holds the entity's own fields.
JavaScript truthiness of an id is `Truthy(id)`, meaning present and not 0.
The expression `id || 0` is `KeyOf(id)`.

The `Upsert` branch on `if (item.id)` is kept as written. An item whose id is 0
takes the insert branch just like an item without an id, and the table
assigns it a fresh key.

## Model

| member | source | states |
|---|---|---|
| Model.SortOrderOf | src/lib/Model.ts:3-7 | the value n names a SortOrder member exactly when 0 <= n < 3, and that member's number is n |
| Model.MetadataTypeOf | src/lib/Model.ts:25-29 | the value n names a MetadataType member exactly when 0 <= n < 3, and that member's number is n |
| Model.EnumRoundTrip | src/lib/Model.ts:3-7 | each enum member is recovered from its numeric value |
| Model.KeyOf | src/lib/Model.ts:63 | `id \|\| 0` is non-zero exactly when the id is truthy, and is then the id itself |
| Model.ToDictionary | src/lib/Model.ts:61-65 | the loop over the array leaves exactly the fold DictOf of the records; the array is not modified |
| Model.DictOfEmpty | src/lib/Model.ts:62-64 | the empty list gives the empty dictionary |
| Model.DictOfKeys | src/lib/Model.ts:63 | the dictionary's key set is exactly the set of `r.id \|\| 0` over the records |
| Model.DictOfLastWriter | src/lib/Model.ts:63 | the last record with key k is the value stored at k (last writer wins) |
| Model.DictOfValues | src/lib/Model.ts:63 | every value in the dictionary is the last record written under its key |
| Model.LastIndexExists | src/lib/Model.ts:63 | any record with key k is followed, at or after its index, by a last record with key k |
| Model.DictOfSize | src/lib/Model.ts:63 | the dictionary has at most as many keys as there are records |
| Model.DictOfUnsaved | src/lib/Model.ts:63 | key 0 is present exactly when some record has no id or id 0, and it holds the last such record |
| Model.DictOfDistinct | src/lib/Model.ts:63 | with truthy, pairwise distinct ids there is one key per record, and each record is stored at its own id |
| Model.ExampleSavedRecords | src/lib/Model.ts:61-65 | records with ids 1 and 2 are indexed under 1 and 2 |
| Model.ExampleUnsavedRecords | src/lib/Model.ts:61-65 | two records without ids collapse onto key 0, which holds the later one |
| Data.Table.constructor | src/lib/Data.ts:13-20 | a new auto-increment table is empty, its counter starts at 1, and it is valid |
| Data.Table.Add | src/lib/Data.ts:45 | the item is stored, with its id set, under the counter's key, which was not in use; the counter advances and validity is kept |
| Data.Table.Update | src/lib/Data.ts:42 | the record at an existing key is replaced and 1 is reported; a missing key changes nothing and 0 is reported; keys and counter are unchanged |
| Data.Upsert | src/lib/Data.ts:40-47 | a truthy id updates that key only and returns the id; no id or id 0 adds under a fresh key and returns it; exactly one happens (the key set stays the same iff the id is truthy); the count grows by 0 or by 1 |
| Data.AddAllContents | src/lib/Data.ts:22-36 | adding items one by one from key `start` puts item i under `start + i` with that id, keeps the old rows, and grows the count by the number of items |
| Data.AddAllFour | src/lib/Data.ts:23-26 | four adds into an empty table fill keys 1 to 4 in order |
| Data.AddAllEight | src/lib/Data.ts:28-35 | eight adds into an empty table fill keys 1 to 8 in order |
| Data.SeededIsAddAll | src/lib/Data.ts:22-36 | the seeded category and location rows are exactly the seed lists added in order from key 1 |
| Data.Store.Create | src/lib/Data.ts:4-36 | a new database has six distinct fresh valid tables; category and location hold the seed lists added in order from key 1 (counters 5 and 9); the other four are empty with counters at 1 |
| Data.Store.Populate | src/lib/Data.ts:22-36 | on a fresh store, the 4 seed categories go under keys 1-4 and the 8 seed locations under keys 1-8, in the listed order, which is the seed lists added one by one from key 1; tag, product, barcode and inventory are untouched |
| Data.Store.AddSeedCategories | src/lib/Data.ts:23-26 | the four category adds leave SeededCategories and counter 5, and touch no other table |
| Data.Store.AddSeedLocations | src/lib/Data.ts:28-35 | the eight location adds leave SeededLocations and counter 9, and touch no other table |

## Left out

- Dexie and IndexedDB internals are not modelled: persistence across sessions,
  transactions, schema versions, the secondary indexes listed after `++id`, and
  the event machinery that fires `populate`. `Store.Create` stands for opening the
  database for the first time. Reopening an existing database is not modelled.
- Promises are not modelled. `Upsert`, `add` and `update` are synchronous, and a
  rejected call (an I/O failure) is not modelled.
- Data.Table.Update: replaces the whole stored record with the item. Dexie's
  `update` merges only the given properties, so a property missing from the item
  would survive in Dexie and is lost here. `Upsert` passes the whole item, so
  only properties the item omits differ.
- Data.Table.Add: always assigns the counter's key. An explicit non-zero id
  passed to `add` is not modelled, because `Upsert` calls `add` only when the id
  is absent or 0. Dexie's treatment of an explicit id 0 on an auto-increment
  table is not modelled either. The model assigns a fresh key in that case.
- Store.Populate: requires a freshly created store, because the database runs the
  step only on first creation. It is proved through two block methods,
  AddSeedCategories and AddSeedLocations. That split is not present in the source.
- JavaScript numbers are modelled as unbounded integers. NaN, fractions and
  values outside the safe-integer range are not modelled.
- `Date` values are an opaque type, and no date arithmetic is modelled.
  `InventoryView` and its `dayjs` fields (src/lib/Model.ts:53-57) are not part of
  this model, because they are computed with an external date library.
- Referential integrity of `categoryId`, `tagIds`, `locationId` and `productId`
  is not modelled, because the code does not enforce it.
- The routing table in src/view/RouterConfig.ts is not part of this model. It
  is declarative configuration for an external router.
