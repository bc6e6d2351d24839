/**
 The document database as the handler sees it: named collections that only
 ever receive `insertOne`, each insert returning a freshly generated id.
 */
module DocumentStore {
  import opened Json

  type Document = Fields

  /** The property the driver reads the id from; it generates one only when the document has none. */
  const IdKey := "_id"

  /** A persisted document together with the `_id` the store generated for it. */
  datatype Stored = Stored(id: nat, doc: Document)

  /** Collections by name; a name never written to reads as an empty collection. */
  datatype Store = Store(collections: map<string, seq<Stored>>, nextId: nat)

  const Empty: Store := Store(map[], 0)

  function Docs(s: Store, name: string): seq<Stored> {
    if name in s.collections then s.collections[name] else []
  }

  /**
   Ids are fresh: every id is below the counter, and within a collection ids
   grow in insertion order, so no two documents of a collection share one.
   */
  ghost predicate Valid(s: Store) {
    && (forall c, i :: 0 <= i < |Docs(s, c)| ==> Docs(s, c)[i].id < s.nextId)
    && (forall c, i, j :: 0 <= i < j < |Docs(s, c)| ==> Docs(s, c)[i].id < Docs(s, c)[j].id)
  }

  /** `db.collection(name).insertOne(doc)`: appends the document and yields its new id. */
  function InsertOne(s: Store, name: string, doc: Document): (r: (nat, Store))
    ensures Docs(r.1, name) == Docs(s, name) + [Stored(r.0, doc)]
    ensures forall c :: c != name ==> Docs(r.1, c) == Docs(s, c)
    ensures r.1.nextId == r.0 + 1 && s.nextId <= r.0
    ensures Valid(s) ==> Valid(r.1)
    ensures Valid(s) ==> forall c, d :: d in Docs(s, c) ==> d.id < r.0
  {
    var id := s.nextId;
    (id, Store(s.collections[name := Docs(s, name) + [Stored(id, doc)]], id + 1))
  }
}
