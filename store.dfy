/**
  The document collection "Events" that the repository works on, as an in-memory
  ordered sequence of (document id, record) pairs. It stands for the four calls the
  repository makes on the cloud document store client: `collection.get()`,
  `collection.add(record)`, `collection.doc(id).get()` and `collection.doc(id).update(record)`.
  A failing network call is a `fault` parameter of the call.
 */
module DocumentStore {
  import opened Wrappers

  /** A property value of a stored record; `Undefined` is JavaScript's `undefined`. */
  datatype Value = Text(s: string) | Number(n: int) | Undefined

  /** The properties of a record other than `likes`. */
  type Props = m: map<string, Value> | "likes" !in m witness map[]

  /** A record: its properties and its `likes` counter, which may be missing. */
  datatype Event = Event(props: Props, likes: Option<int>)

  /** A document of the collection: the store-assigned id and the stored record. */
  datatype Doc = Doc(id: string, data: Event)

  /** Why a store call failed. */
  datatype Error = Unavailable | NotFound

  ghost predicate DistinctIds(docs: seq<Doc>)
  {
    forall i, j :: 0 <= i < j < |docs| ==> docs[i].id != docs[j].id
  }

  /** The position of the document with the given id, if there is one. */
  function IndexOf(docs: seq<Doc>, id: string): (r: Option<nat>)
    ensures r.Some? ==> r.value < |docs| && docs[r.value].id == id
    ensures r.Some? ==> forall i :: 0 <= i < r.value ==> docs[i].id != id
    ensures r.None? ==> forall i :: 0 <= i < |docs| ==> docs[i].id != id
  {
    if |docs| == 0 then None
    else if docs[0].id == id then Some(0)
    else match IndexOf(docs[1..], id)
      case None => None
      case Some(k) => Some(k + 1)
  }

  /** What `doc(id).get()` yields as `data()`: the record, or `undefined` for an unknown id. */
  function Lookup(docs: seq<Doc>, id: string): (r: Option<Event>)
    ensures r.Some? <==> exists i :: 0 <= i < |docs| && docs[i].id == id
    ensures forall i :: 0 <= i < |docs| && docs[i].id == id && DistinctIds(docs) ==> r == Some(docs[i].data)
  {
    match IndexOf(docs, id)
    case None => None
    case Some(k) => Some(docs[k].data)
  }

  /** The length of the longest document id. */
  function MaxIdLength(docs: seq<Doc>): (n: nat)
    ensures forall i :: 0 <= i < |docs| ==> |docs[i].id| <= n
  {
    if |docs| == 0 then 0
    else
      var rest := MaxIdLength(docs[1..]);
      if |docs[0].id| > rest then |docs[0].id| else rest
  }

  /** The id the store assigns to a new document: non-empty and used by no document. */
  function FreshId(docs: seq<Doc>): (id: string)
    ensures id != ""
    ensures forall i :: 0 <= i < |docs| ==> docs[i].id != id
  {
    seq(MaxIdLength(docs) + 1, _ => 'x')
  }

  class Collection {
    /** The documents, in the order `collection.get()` lists them. */
    var docs: seq<Doc>

    ghost predicate Valid()
      reads this
    {
      DistinctIds(docs)
    }

    constructor (initial: seq<Doc>)
      requires DistinctIds(initial)
      ensures Valid() && docs == initial
    {
      docs := initial;
    }

    /** `collection.get()`: the snapshot of all documents. */
    method Get(fault: bool) returns (r: Result<seq<Doc>, Error>)
      ensures fault ==> r == Failure(Unavailable)
      ensures !fault ==> r == Success(docs)
    {
      if fault {
        r := Failure(Unavailable);
      } else {
        r := Success(docs);
      }
    }

    /** `collection.add(record)`: stores the record under a fresh id and returns that id. */
    method Add(data: Event, fault: bool) returns (r: Result<string, Error>)
      requires Valid()
      modifies this
      ensures Valid()
      ensures fault ==> r == Failure(Unavailable) && docs == old(docs)
      ensures !fault ==> r == Success(FreshId(old(docs))) && docs == old(docs) + [Doc(r.value, data)]
    {
      if fault {
        r := Failure(Unavailable);
        return;
      }
      var id := FreshId(docs);
      docs := docs + [Doc(id, data)];
      r := Success(id);
    }

    /** `collection.doc(id).get()`: the snapshot's `data()`, `None` when no document has the id. */
    method Read(id: string, fault: bool) returns (r: Result<Option<Event>, Error>)
      ensures fault ==> r == Failure(Unavailable)
      ensures !fault ==> r == Success(Lookup(docs, id))
    {
      if fault {
        r := Failure(Unavailable);
      } else {
        r := Success(Lookup(docs, id));
      }
    }

    /** `collection.doc(id).update(record)`: overwrites the record of an existing document. */
    method Update(id: string, data: Event, fault: bool) returns (r: Result<(), Error>)
      requires Valid()
      modifies this
      ensures Valid()
      ensures fault ==> r == Failure(Unavailable) && docs == old(docs)
      ensures !fault && IndexOf(old(docs), id).None? ==> r == Failure(NotFound) && docs == old(docs)
      ensures !fault && IndexOf(old(docs), id).Some? ==>
        r == Success(()) && docs == old(docs)[IndexOf(old(docs), id).value := Doc(id, data)]
    {
      if fault {
        r := Failure(Unavailable);
        return;
      }
      match IndexOf(docs, id)
      case None =>
        r := Failure(NotFound);
      case Some(k) =>
        docs := docs[k := Doc(id, data)];
        r := Success(());
    }
  }
}
