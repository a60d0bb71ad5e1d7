/**
  The domain model of ExpireBee (src/lib/Model.ts): the record shapes that the
  store persists, the two enumerations used by the views, and `ToDictionary`,
  which indexes a list of records by id.
 */
module Model {
  import opened Wrappers

  /** A calendar date. No date arithmetic is modelled, so the value is opaque. */
  type Date(==, !new)

  /** How the inventory list is ordered. A TypeScript numeric enum: Date = 0, Name = 1, Location = 2. */
  datatype SortOrder = ByDate | ByName | ByLocation {
    function Value(): nat {
      match this
      case ByDate => 0
      case ByName => 1
      case ByLocation => 2
    }
  }

  /** The enum member whose numeric value is `n`, if any (TypeScript's reverse mapping). */
  function SortOrderOf(n: int): (r: Option<SortOrder>)
    ensures r.Some? <==> 0 <= n < 3
    ensures r.Some? ==> r.value.Value() == n
  {
    if n == 0 then Some(ByDate)
    else if n == 1 then Some(ByName)
    else if n == 2 then Some(ByLocation)
    else None
  }

  /** Which kind of metadata a management view edits: Location = 0, Category = 1, Tag = 2. */
  datatype MetadataType = LocationMetadata | CategoryMetadata | TagMetadata {
    function Value(): nat {
      match this
      case LocationMetadata => 0
      case CategoryMetadata => 1
      case TagMetadata => 2
    }
  }

  /** The enum member whose numeric value is `n`, if any. */
  function MetadataTypeOf(n: int): (r: Option<MetadataType>)
    ensures r.Some? <==> 0 <= n < 3
    ensures r.Some? ==> r.value.Value() == n
  {
    if n == 0 then Some(LocationMetadata)
    else if n == 1 then Some(CategoryMetadata)
    else if n == 2 then Some(TagMetadata)
    else None
  }

  /** Each enum value is recovered from its number. */
  lemma EnumRoundTrip(s: SortOrder, m: MetadataType)
    ensures SortOrderOf(s.Value()) == Some(s)
    ensures MetadataTypeOf(m.Value()) == Some(m)
  {
  }

  /**
    A record as stored: the optional auto-assigned `id` that every entity type
    declares (`id?: number`), together with the entity's own fields.
   */
  datatype Record<+F> = Record(id: Option<int>, data: F)

  datatype LocationData = LocationData(name: string)
  type Location = Record<LocationData>

  datatype CategoryData = CategoryData(name: string)
  type Category = Record<CategoryData>

  datatype TagData = TagData(name: string, color: string)
  type Tag = Record<TagData>

  datatype ProductData = ProductData(name: string, categoryId: Option<int>, tagIds: Option<seq<int>>)
  type Product = Record<ProductData>

  /** A scanned code; unlike the other references, `productId` is required. */
  datatype BarcodeData = BarcodeData(code: string, productId: int)
  type Barcode = Record<BarcodeData>

  /** A product's fields (the TypeScript intersection `Product & {...}`) plus the tracking fields of one batch. */
  datatype InventoryData = InventoryData(
    name: string, categoryId: Option<int>, tagIds: Option<seq<int>>,
    purchaseDate: Option<Date>, expirationDate: Option<Date>, openedDate: Option<Date>,
    quantity: int, locationId: Option<int>, notes: string)
  type Inventory = Record<InventoryData>

  /** JavaScript truthiness of an optional number: present and not zero. */
  predicate Truthy(id: Option<int>) {
    id.Some? && id.value != 0
  }

  /** The dictionary key `id || 0`: the id itself when truthy, 0 otherwise. */
  function KeyOf(id: Option<int>): (k: int)
    ensures k != 0 <==> Truthy(id)
    ensures Truthy(id) ==> k == id.value
  {
    match id
    case None => 0
    case Some(v) => v
  }

  /** Dictionary<T>: values indexed by number. */
  type Dictionary<T> = map<int, T>

  /** The key a record is stored under by `ToDictionary`. */
  function Key<F>(r: Record<F>): int
  {
    KeyOf(r.id)
  }

  /**
    The dictionary that `records.forEach(i => dict[i.id || 0] = i)` leaves behind:
    the records written one after another, in order, each under its key.
   */
  function DictOf<F>(records: seq<Record<F>>): Dictionary<Record<F>>
  {
    if records == [] then map[]
    else
      var last := records[|records| - 1];
      DictOf(records[..|records| - 1])[Key(last) := last]
  }

  /** The keys written by the records: `(r.id || 0)` for each record r. */
  function KeySet<F>(records: seq<Record<F>>): set<int>
  {
    set i | 0 <= i < |records| :: Key(records[i])
  }

  /** records[i] is the last record whose key is k. */
  ghost predicate LastWith<F>(records: seq<Record<F>>, k: int, i: int)
  {
    && 0 <= i < |records|
    && Key(records[i]) == k
    && forall j :: i < j < |records| ==> Key(records[j]) != k
  }

  /** Indexes `records` by `id || 0`; the array is only read. */
  method ToDictionary<F>(records: array<Record<F>>) returns (dict: Dictionary<Record<F>>)
    ensures dict == DictOf(records[..])
  {
    dict := map[];
    var i := 0;
    while i < records.Length
      invariant 0 <= i <= records.Length
      invariant dict == DictOf(records[..i])
    {
      assert records[..i + 1][..i] == records[..i];
      dict := dict[Key(records[i]) := records[i]];
      i := i + 1;
    }
    assert records[..i] == records[..];
  }

  /** The empty list gives the empty dictionary. */
  lemma DictOfEmpty<F>()
    ensures DictOf<F>([]) == map[]
  {
  }

  /** The keys of the dictionary are exactly the keys `id || 0` of the records. */
  lemma {:induction false} DictOfKeys<F>(records: seq<Record<F>>)
    ensures DictOf(records).Keys == KeySet(records)
  {
    if records != [] {
      var n := |records| - 1;
      var init := records[..n];
      DictOfKeys(init);
      assert KeySet(records) == KeySet(init) + {Key(records[n])} by {
        forall k | k in KeySet(records) ensures k in KeySet(init) + {Key(records[n])} {
          var i :| 0 <= i < |records| && Key(records[i]) == k;
          if i < n { assert init[i] == records[i]; }
        }
        forall k | k in KeySet(init) ensures k in KeySet(records) {
          var i :| 0 <= i < |init| && Key(init[i]) == k;
          assert records[i] == init[i];
        }
      }
    }
  }

  /** Last writer wins: the last record with key k is the value at k. */
  lemma {:induction false} DictOfLastWriter<F>(records: seq<Record<F>>, k: int, i: int)
    requires LastWith(records, k, i)
    ensures k in DictOf(records) && DictOf(records)[k] == records[i]
  {
    var n := |records| - 1;
    if i < n {
      var init := records[..n];
      assert Key(records[n]) != k;
      forall j | i < j < |init| ensures Key(init[j]) != k {
        assert init[j] == records[j];
      }
      DictOfLastWriter(init, k, i);
    }
  }

  /** Every key in the dictionary holds the last record written with that key. */
  lemma {:induction false} DictOfValues<F>(records: seq<Record<F>>, k: int)
    requires k in DictOf(records)
    ensures exists i :: LastWith(records, k, i) && DictOf(records)[k] == records[i]
  {
    DictOfKeys(records);
    var i0 :| 0 <= i0 < |records| && Key(records[i0]) == k;
    LastIndexExists(records, k, i0);
    var i :| i0 <= i && LastWith(records, k, i);
    DictOfLastWriter(records, k, i);
  }

  /** A last index with key k exists at or after any index i0 with that key. */
  lemma {:induction false} LastIndexExists<F>(records: seq<Record<F>>, k: int, i0: int)
    requires 0 <= i0 < |records| && Key(records[i0]) == k
    ensures exists i :: i0 <= i && LastWith(records, k, i)
    decreases |records| - i0
  {
    if !LastWith(records, k, i0) {
      var j :| i0 < j < |records| && Key(records[j]) == k;
      LastIndexExists(records, k, j);
    }
  }

  /** The dictionary never has more keys than there are records. */
  lemma {:induction false} DictOfSize<F>(records: seq<Record<F>>)
    ensures |DictOf(records)| <= |records|
  {
    if records != [] {
      DictOfSize(records[..|records| - 1]);
    }
  }

  /** records[i] has a falsy id and every later record has a truthy one. */
  ghost predicate LastUnsaved<F>(records: seq<Record<F>>, i: int)
  {
    && 0 <= i < |records|
    && !Truthy(records[i].id)
    && forall j :: i < j < |records| ==> Truthy(records[j].id)
  }

  /**
    Records without an id, or with id 0, all land on key 0: key 0 is present
    exactly when there is such a record, and it holds the last of them.
   */
  lemma {:induction false} DictOfUnsaved<F>(records: seq<Record<F>>)
    ensures 0 in DictOf(records) <==> exists i :: 0 <= i < |records| && !Truthy(records[i].id)
    ensures forall i :: LastUnsaved(records, i) ==> DictOf(records)[0] == records[i]
  {
    DictOfKeys(records);
    if i0 :| 0 <= i0 < |records| && !Truthy(records[i0].id) {
      assert 0 in KeySet(records);
    }
    forall i | LastUnsaved(records, i) ensures DictOf(records)[0] == records[i] {
      DictOfLastWriter(records, 0, i);
    }
  }

  /** Every record has a truthy id and no two records share one. */
  ghost predicate DistinctIds<F>(records: seq<Record<F>>)
  {
    && (forall i :: 0 <= i < |records| ==> Truthy(records[i].id))
    && (forall i, j :: 0 <= i < j < |records| ==> records[i].id != records[j].id)
  }

  /** Every record sits in `dict` at its own id. */
  ghost predicate EachAtOwnId<F>(dict: Dictionary<Record<F>>, records: seq<Record<F>>)
  {
    forall i :: 0 <= i < |records| ==>
      records[i].id.Some? && Key(records[i]) in dict && dict[Key(records[i])] == records[i]
  }

  /** With distinct saved ids nothing is lost: one key per record, each record at its own id. */
  lemma {:induction false} DictOfDistinct<F>(records: seq<Record<F>>)
    requires DistinctIds(records)
    ensures |DictOf(records)| == |records|
    ensures EachAtOwnId(DictOf(records), records)
  {
    if records != [] {
      var n := |records| - 1;
      var init := records[..n];
      var last := records[n];
      assert DistinctIds(init) by {
        forall i | 0 <= i < |init| ensures init[i] == records[i] { }
      }
      DictOfDistinct(init);
      var d0 := DictOf(init);
      var k := Key(last);
      assert DictOf(records) == d0[k := last];
      assert k !in d0 by {
        DictOfKeys(init);
      }
      forall i | 0 <= i < |records|
        ensures records[i].id.Some? && Key(records[i]) in d0[k := last]
        ensures d0[k := last][Key(records[i])] == records[i]
      {
        if i < n {
          assert init[i] == records[i];
          assert records[i].id != records[n].id;
          assert Key(init[i]) in d0;
        }
      }
    }
  }

  /** `ToDictionary([{id:1,name:"A"},{id:2,name:"B"}])` is `{1: A, 2: B}`. */
  lemma ExampleSavedRecords()
    ensures DictOf([Record(Some(1), CategoryData("A")), Record(Some(2), CategoryData("B"))])
         == map[1 := Record(Some(1), CategoryData("A")), 2 := Record(Some(2), CategoryData("B"))]
  {
  }

  /** `ToDictionary([{name:"A"},{name:"B"}])` is `{0: B}`: the later unsaved record wins. */
  lemma ExampleUnsavedRecords()
    ensures DictOf([Record(None, CategoryData("A")), Record(None, CategoryData("B"))])
         == map[0 := Record(None, CategoryData("B"))]
  {
  }
}
