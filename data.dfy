/**
  The data-access layer of ExpireBee (src/lib/Data.ts): a store of six
  auto-increment tables, the seed data written when the store is first
  created, and the create-or-update helper `Upsert`.

  Each table is modelled abstractly, as the records it holds keyed by primary
  key plus the auto-increment counter behind the `++id` schema entries.
 */
module Data {
  import opened Wrappers
  import opened Model

  /** One table whose inbound primary key `id` is auto-incremented (`++id`). */
  class Table<F> {
    var rows: map<int, Record<F>>
    var nextId: int

    /** Keys are positive and below the counter, and every record carries its own key as id. */
    ghost predicate Valid()
      reads this
    {
      && 1 <= nextId
      && forall k :: k in rows ==> 1 <= k < nextId && rows[k].id == Some(k)
    }

    constructor ()
      ensures Valid()
      ensures rows == map[] && nextId == 1
    {
      rows := map[];
      nextId := 1;
    }

    /** `table.add(item)`: stores the item under a fresh key, written into its id, and returns that key. */
    method Add(item: Record<F>) returns (key: int)
      requires Valid()
      modifies this
      ensures Valid()
      ensures key == old(nextId) && key !in old(rows) && key != 0
      ensures rows == old(rows)[key := item.(id := Some(key))]
      ensures nextId == old(nextId) + 1
    {
      key := nextId;
      rows := rows[key := item.(id := Some(key))];
      nextId := nextId + 1;
    }

    /**
      `table.update(key, changes)`: overwrites the record at `key`, keeping its key,
      and reports 1; when there is no record at `key` nothing changes and it reports 0.
     */
    method Update(key: int, changes: Record<F>) returns (updated: nat)
      requires Valid()
      modifies this
      ensures Valid()
      ensures updated == if key in old(rows) then 1 else 0
      ensures rows == if key in old(rows) then old(rows)[key := changes.(id := Some(key))] else old(rows)
      ensures nextId == old(nextId)
    {
      if key in rows {
        rows := rows[key := changes.(id := Some(key))];
        updated := 1;
      } else {
        updated := 0;
      }
    }
  }

  /**
    Create-or-update. A truthy `item.id` updates the record at that id and
    returns the id; an absent id, and also id 0, adds the item and returns the
    key the table assigns.
   */
  method Upsert<F>(table: Table<F>, item: Record<F>) returns (key: int)
    requires table.Valid()
    modifies table
    ensures table.Valid()
    // update branch: the returned key is the item's own id; keys and counter stay
    ensures Truthy(item.id) ==>
      && key == item.id.value
      && table.rows == (if key in old(table.rows) then old(table.rows)[key := item] else old(table.rows))
      && table.nextId == old(table.nextId)
    // insert branch: a key that was not in use, one more record
    ensures !Truthy(item.id) ==>
      && key == old(table.nextId)
      && key !in old(table.rows)
      && table.rows == old(table.rows)[key := item.(id := Some(key))]
      && table.nextId == old(table.nextId) + 1
    // exactly one of the two happens
    ensures Truthy(item.id) <==> table.rows.Keys == old(table.rows).Keys
    ensures |table.rows| == if Truthy(item.id) then |old(table.rows)| else |old(table.rows)| + 1
  {
    if item.id.Some? && item.id.value != 0 {
      var _ := table.Update(item.id.value, item);
      key := item.id.value;
    } else {
      key := table.Add(item);
    }
  }

  /** The categories written on first creation, in the order they are added. */
  const CategorySeed: seq<Category> := [
    Record(None, CategoryData("Food - Perishable")),
    Record(None, CategoryData("Food - Nonperishable")),
    Record(None, CategoryData("Medicine - Prescription")),
    Record(None, CategoryData("Medicine - Over the Counter"))
  ]

  /** The locations written on first creation, in the order they are added. */
  const LocationSeed: seq<Location> := [
    Record(None, LocationData("Kitchen - Fridge")),
    Record(None, LocationData("Kitchen - Freezer")),
    Record(None, LocationData("Kitchen - Top Pantry")),
    Record(None, LocationData("Kitchen - Bottom Pantry")),
    Record(None, LocationData("Kitchen - Top Open Shelf")),
    Record(None, LocationData("Kitchen - Bottom Open Shelf")),
    Record(None, LocationData("Kitchen - Other")),
    Record(None, LocationData("Bathroom - Cabinet"))
  ]

  /** The rows after adding `items` one by one, the first under key `start`, the next under `start + 1`, and so on. */
  ghost function AddAll<F>(rows: map<int, Record<F>>, start: int, items: seq<Record<F>>): map<int, Record<F>>
  {
    if items == [] then rows
    else
      var n := |items| - 1;
      AddAll(rows, start, items[..n])[start + n := items[n].(id := Some(start + n))]
  }

  /**
    What adding `items` one by one does to a table whose keys are all below
    `start`: each item lands under its own new key with that key as id, in list
    order, the old rows stay, and the count grows by the number of items.
   */
  lemma {:induction false} AddAllContents<F>(rows: map<int, Record<F>>, start: int, items: seq<Record<F>>)
    requires forall k :: k in rows ==> k < start
    ensures forall k :: k in AddAll(rows, start, items) <==> k in rows || start <= k < start + |items|
    ensures |AddAll(rows, start, items)| == |rows| + |items|
    ensures forall i :: 0 <= i < |items| ==> AddAll(rows, start, items)[start + i] == items[i].(id := Some(start + i))
    ensures forall k :: k in rows ==> AddAll(rows, start, items)[k] == rows[k]
  {
    if items != [] {
      var n := |items| - 1;
      var init := items[..n];
      AddAllContents(rows, start, init);
      var before := AddAll(rows, start, init);
      assert AddAll(rows, start, items) == before[start + n := items[n].(id := Some(start + n))];
      assert start + n !in before;
      forall i | 0 <= i < n ensures AddAll(rows, start, items)[start + i] == items[i].(id := Some(start + i)) {
        assert init[i] == items[i];
      }
    }
  }

  /** Adding four items to an empty table from key 1 puts them under keys 1 to 4, in order. */
  lemma {:induction false} AddAllFour<F>(items: seq<Record<F>>)
    requires |items| == 4
    ensures AddAll(map[], 1, items) ==
      map[1 := items[0].(id := Some(1)), 2 := items[1].(id := Some(2)),
          3 := items[2].(id := Some(3)), 4 := items[3].(id := Some(4))]
  {
    var added := AddAll(map[], 1, items);
    AddAllContents(map[], 1, items);
    forall k ensures k in added <==> k in {1, 2, 3, 4} {
      assert k in added <==> 1 <= k < 5;
    }
    assert added.Keys == {1, 2, 3, 4};
    forall k | k in added ensures added[k] == items[k - 1].(id := Some(k)) {
      assert added[1 + (k - 1)] == items[k - 1].(id := Some(k));
    }
  }

  /** Adding eight items to an empty table from key 1 puts them under keys 1 to 8, in order. */
  lemma {:induction false} AddAllEight<F>(items: seq<Record<F>>)
    requires |items| == 8
    ensures AddAll(map[], 1, items) ==
      map[1 := items[0].(id := Some(1)), 2 := items[1].(id := Some(2)),
          3 := items[2].(id := Some(3)), 4 := items[3].(id := Some(4)),
          5 := items[4].(id := Some(5)), 6 := items[5].(id := Some(6)),
          7 := items[6].(id := Some(7)), 8 := items[7].(id := Some(8))]
  {
    var added := AddAll(map[], 1, items);
    AddAllContents(map[], 1, items);
    forall k ensures k in added <==> k in {1, 2, 3, 4, 5, 6, 7, 8} {
      assert k in added <==> 1 <= k < 9;
    }
    assert added.Keys == {1, 2, 3, 4, 5, 6, 7, 8};
    forall k | k in added ensures added[k] == items[k - 1].(id := Some(k)) {
      assert added[1 + (k - 1)] == items[k - 1].(id := Some(k));
    }
  }

  /**
    The rows the population step leaves in the category and location tables are
    those of adding each seed list, in order, to an empty table from key 1.
   */
  lemma {:induction false} SeededIsAddAll()
    ensures SeededCategories() == AddAll(map[], 1, CategorySeed)
    ensures SeededLocations() == AddAll(map[], 1, LocationSeed)
  {
    AddAllFour(CategorySeed);
    AddAllEight(LocationSeed);
  }

  /** The category table after the population step: the seed categories under keys 1 to 4. */
  function SeededCategories(): map<int, Category>
  {
    map[1 := CategorySeed[0].(id := Some(1)), 2 := CategorySeed[1].(id := Some(2)),
        3 := CategorySeed[2].(id := Some(3)), 4 := CategorySeed[3].(id := Some(4))]
  }

  /** The location table after the population step: the seed locations under keys 1 to 8. */
  function SeededLocations(): map<int, Location>
  {
    map[1 := LocationSeed[0].(id := Some(1)), 2 := LocationSeed[1].(id := Some(2)),
        3 := LocationSeed[2].(id := Some(3)), 4 := LocationSeed[3].(id := Some(4)),
        5 := LocationSeed[4].(id := Some(5)), 6 := LocationSeed[5].(id := Some(6)),
        7 := LocationSeed[6].(id := Some(7)), 8 := LocationSeed[7].(id := Some(8))]
  }

  /** The ExpireBee database: six tables, each keyed by an auto-increment id. */
  class Store {
    const location: Table<LocationData>
    const category: Table<CategoryData>
    const tag: Table<TagData>
    const product: Table<ProductData>
    const barcode: Table<BarcodeData>
    const inventory: Table<InventoryData>

    /** The six tables are distinct objects, and each is valid. */
    ghost predicate Valid()
      reads location, category, tag, product, barcode, inventory
    {
      && location as object != category
      && tag as object !in {location as object, category}
      && product as object !in {location as object, category}
      && barcode as object !in {location as object, category}
      && inventory as object !in {location as object, category}
      && location.Valid() && category.Valid() && tag.Valid()
      && product.Valid() && barcode.Valid() && inventory.Valid()
    }

    /** No table holds a record and every counter is at its start: the store has just been created. */
    ghost predicate Empty()
      reads location, category, tag, product, barcode, inventory
    {
      && location.rows == map[] && location.nextId == 1
      && category.rows == map[] && category.nextId == 1
      && tag.rows == map[] && tag.nextId == 1
      && product.rows == map[] && product.nextId == 1
      && barcode.rows == map[] && barcode.nextId == 1
      && inventory.rows == map[] && inventory.nextId == 1
    }

    /** Opening the database for the first time: six empty tables, then the population step. */
    constructor Create()
      ensures Valid()
      ensures fresh(location) && fresh(category) && fresh(tag) && fresh(product) && fresh(barcode) && fresh(inventory)
      ensures category.rows == SeededCategories() && category.nextId == 1 + |CategorySeed|
      ensures location.rows == SeededLocations() && location.nextId == 1 + |LocationSeed|
      ensures category.rows == AddAll(map[], 1, CategorySeed) && location.rows == AddAll(map[], 1, LocationSeed)
      ensures tag.rows == map[] && product.rows == map[] && barcode.rows == map[] && inventory.rows == map[]
      ensures tag.nextId == 1 && product.nextId == 1 && barcode.nextId == 1 && inventory.nextId == 1
    {
      location := new Table();
      category := new Table();
      tag := new Table();
      product := new Table();
      barcode := new Table();
      inventory := new Table();
      new;
      Populate();
    }

    /**
      The population step, which the database runs once, when it is first
      created: four categories, then eight locations, added in the listed order
      under keys from 1. No other table is touched.
     */
    method Populate()
      requires Valid() && Empty()
      modifies category, location
      ensures Valid()
      ensures category.rows == SeededCategories() && category.nextId == 1 + |CategorySeed|
      ensures location.rows == SeededLocations() && location.nextId == 1 + |LocationSeed|
      ensures category.rows == AddAll(map[], 1, CategorySeed) && location.rows == AddAll(map[], 1, LocationSeed)
      ensures unchanged(tag, product, barcode, inventory)
    {
      AddSeedCategories();
      AddSeedLocations();
      SeededIsAddAll();
    }

    /** The first block of the population step: four `category.add` calls. */
    method AddSeedCategories()
      requires Valid() && category.rows == map[] && category.nextId == 1
      modifies category
      ensures Valid()
      ensures category.rows == SeededCategories() && category.nextId == 1 + |CategorySeed|
      ensures unchanged(location, tag, product, barcode, inventory)
    {
      var categories := category;
      var _ := categories.Add(CategorySeed[0]);
      var _ := categories.Add(CategorySeed[1]);
      var _ := categories.Add(CategorySeed[2]);
      var _ := categories.Add(CategorySeed[3]);
    }

    /** The second block of the population step: eight `location.add` calls. */
    method AddSeedLocations()
      requires Valid() && location.rows == map[] && location.nextId == 1
      modifies location
      ensures Valid()
      ensures location.rows == SeededLocations() && location.nextId == 1 + |LocationSeed|
      ensures unchanged(category, tag, product, barcode, inventory)
    {
      var locations := location;
      var _ := locations.Add(LocationSeed[0]);
      var _ := locations.Add(LocationSeed[1]);
      var _ := locations.Add(LocationSeed[2]);
      var _ := locations.Add(LocationSeed[3]);
      var _ := locations.Add(LocationSeed[4]);
      var _ := locations.Add(LocationSeed[5]);
      var _ := locations.Add(LocationSeed[6]);
      var _ := locations.Add(LocationSeed[7]);
    }
  }
}
