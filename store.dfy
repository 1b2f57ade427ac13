/**
 * The key-value table the handlers talk to through the DynamoDB document
 * client, reduced to a map from primary key to stored record. A table's key
 * shape is a partition key alone, or a partition key and a sort key.
 */
module Store {
  import opened Results
  import opened JsValues
  import opened Http

  /** The primary key declared for a table. */
  datatype KeyShape =
    | Single(partition: string)
    | Composite(partition: string, sort: string)
  {
    /** A composite key names two different attributes. */
    predicate Proper() {
      Composite? ==> partition != sort
    }

    /** The attribute names that make up the key. */
    function KeyFields(): (fs: set<string>)
      ensures partition in fs
      ensures Composite? ==> sort in fs
    {
      if Single? then {partition} else {partition, sort}
    }
  }

  /** A primary key value. A key part may be any value: the abstract table
      accepts an undefined or null key part where the real store would refuse
      one. */
  datatype Key = Key1(id: Value) | Key2(id: Value, sortValue: Value)

  /** A key of the form the shape asks for: one part or two. */
  predicate Fits(shape: KeyShape, k: Key) {
    shape.Single? <==> k.Key1?
  }

  /** The key a table of this shape files a record under. */
  function KeyOf(shape: KeyShape, r: Record): Key {
    match shape
    case Single(p) => Key1(Field(r, p))
    case Composite(p, s) => Key2(Field(r, p), Field(r, s))
  }

  /** The key built from a partition value and, for a composite shape, a sort value. */
  function KeyFor(shape: KeyShape, id: Value, sortValue: Value): (k: Key)
    ensures Fits(shape, k)
  {
    if shape.Single? then Key1(id) else Key2(id, sortValue)
  }

  /** The record holding only the key attributes of `k`. */
  function KeyRecord(shape: KeyShape, k: Key): (r: Record)
    requires shape.Proper()
    ensures r.Keys == shape.KeyFields()
    ensures Fits(shape, k) ==> KeyOf(shape, r) == k
  {
    match shape
    case Single(p) => map[p := k.id]
    case Composite(p, s) =>
      if k.Key2? then map[p := k.id, s := k.sortValue] else map[p := k.id, s := Undefined]
  }

  /** The attributes of `r` among `names`. */
  function Restrict(r: Record, names: set<string>): (sub: Record)
    ensures sub.Keys == r.Keys * names
    ensures forall f :: f in sub ==> sub[f] == r[f]
  {
    map f | f in r.Keys * names :: r[f]
  }

  /** Every entry is filed under the key its own attributes give. */
  ghost predicate KeyConsistent(shape: KeyShape, items: map<Key, Record>) {
    forall k :: k in items ==> KeyOf(shape, items[k]) == k
  }

  /** The whole-record write `put`: the item replaces whatever was filed
      under its key. */
  function Put(shape: KeyShape, items: map<Key, Record>, item: Record): (r: map<Key, Record>)
    ensures r.Keys == items.Keys + {KeyOf(shape, item)}
    ensures r[KeyOf(shape, item)] == item
    ensures forall k :: k in items && k != KeyOf(shape, item) ==> r[k] == items[k]
  {
    items[KeyOf(shape, item) := item]
  }

  /** The partial write `update ... set a = :a, ...`: the named attributes are
      overwritten and every other attribute is kept. On an absent key the
      store creates the item from the key attributes and the set attributes,
      as DynamoDB's UpdateItem does. */
  function Update(shape: KeyShape, items: map<Key, Record>, k: Key, fields: Record): (r: map<Key, Record>)
    requires shape.Proper()
    ensures r.Keys == items.Keys + {k}
    ensures forall f :: f in fields ==> f in r[k] && r[k][f] == fields[f]
    ensures k in items ==> forall f :: f in items[k] && f !in fields ==> f in r[k] && r[k][f] == items[k][f]
    ensures k in items ==> r[k].Keys == items[k].Keys + fields.Keys
    ensures k !in items ==> r[k].Keys == shape.KeyFields() + fields.Keys
    ensures k !in items && Fits(shape, k) && fields.Keys !! shape.KeyFields() ==> KeyOf(shape, r[k]) == k
    ensures forall k' :: k' in items && k' != k ==> r[k'] == items[k']
  {
    var base := if k in items then items[k] else KeyRecord(shape, k);
    items[k := base + fields]
  }

  /** `delete`: removes the key; an absent key is not an error. */
  function Delete(items: map<Key, Record>, k: Key): (r: map<Key, Record>)
    ensures r.Keys == items.Keys - {k}
    ensures forall k' :: k' in r ==> r[k'] == items[k']
    ensures k !in items ==> r == items
  {
    items - {k}
  }

  /** The table, reached over the network: every call either succeeds or
      raises the error `fault` (what the remote store decides is a parameter
      here), and a call that raises changes nothing. */
  class Table {
    const shape: KeyShape
    var items: map<Key, Record>

    ghost predicate Valid()
      reads this
    {
      shape.Proper() && KeyConsistent(shape, items)
    }

    constructor (shape: KeyShape)
      requires shape.Proper()
      ensures this.shape == shape && items == map[] && Valid()
    {
      this.shape := shape;
      items := map[];
    }

    method PutItem(item: Record, fault: Option<JsError>) returns (err: Option<JsError>)
      requires Valid()
      modifies this
      ensures Valid() && err == fault
      ensures items == if fault.None? then Put(shape, old(items), item) else old(items)
    {
      err := fault;
      if fault.None? {
        items := Put(shape, items, item);
      }
    }

    method GetItem(k: Key, fault: Option<JsError>) returns (item: Option<Record>, err: Option<JsError>)
      ensures err == fault
      ensures fault.None? && k in items ==> item == Some(items[k])
      ensures fault.Some? || k !in items ==> item == None
    {
      err := fault;
      item := if fault.None? && k in items then Some(items[k]) else None;
    }

    /** `update` setting the attributes of `fields`; the store refuses an
        update of a key attribute and the handlers never ask for one. */
    method UpdateItem(k: Key, fields: Record, fault: Option<JsError>) returns (err: Option<JsError>)
      requires Valid()
      requires Fits(shape, k)
      requires fields.Keys !! shape.KeyFields()
      modifies this
      ensures Valid() && err == fault
      ensures items == if fault.None? then Update(shape, old(items), k, fields) else old(items)
    {
      err := fault;
      if fault.None? {
        UpdateKeepsKeys(shape, items, k, fields);
        items := Update(shape, items, k, fields);
      }
    }

    method DeleteItem(k: Key, fault: Option<JsError>) returns (err: Option<JsError>)
      requires Valid()
      modifies this
      ensures Valid() && err == fault
      ensures items == if fault.None? then Delete(old(items), k) else old(items)
    {
      err := fault;
      if fault.None? {
        items := Delete(items, k);
      }
    }

    method Scan(fault: Option<JsError>) returns (all: set<Record>, err: Option<JsError>)
      ensures err == fault
      ensures fault.None? ==> all == items.Values
      ensures fault.Some? ==> all == {}
    {
      err := fault;
      all := if fault.None? then items.Values else {};
    }
  }

  /** An update that leaves the key attributes alone files the record under
      the same key. */
  lemma UpdateKeepsKeys(shape: KeyShape, items: map<Key, Record>, k: Key, fields: Record)
    requires shape.Proper() && KeyConsistent(shape, items)
    requires Fits(shape, k)
    requires fields.Keys !! shape.KeyFields()
    ensures KeyConsistent(shape, Update(shape, items, k, fields))
  {
    var r := Update(shape, items, k, fields);
    var base := if k in items then items[k] else KeyRecord(shape, k);
    assert r[k] == base + fields;
    assert KeyOf(shape, base + fields) == KeyOf(shape, base);
  }

  /** A scan loses no record: in a key-consistent table no two keys hold the
      same record, so the scanned records are as many as the entries. */
  lemma {:induction false} ScanLosesNothing(shape: KeyShape, items: map<Key, Record>)
    requires KeyConsistent(shape, items)
    ensures |items.Values| == |items|
  {
    if items != map[] {
      var k :| k in items;
      var rest := Delete(items, k);
      assert KeyConsistent(shape, rest);
      ScanLosesNothing(shape, rest);
      assert items.Values == rest.Values + {items[k]} by {
        forall v | v in items.Values ensures v in rest.Values + {items[k]} {
          var k' :| k' in items && items[k'] == v;
          if k' != k { assert rest[k'] == v; }
        }
      }
      assert items[k] !in rest.Values by {
        forall k' | k' in rest ensures rest[k'] != items[k] {
          assert KeyOf(shape, rest[k']) == k' != k;
        }
      }
      assert items.Keys == rest.Keys + {k};
    }
  }
}
