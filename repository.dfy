/**
  The event repository: list, add, like and unlike over the "Events" collection,
  with a fixed two-event fallback when the collection is empty or cannot be read.
 */
module Repository {
  import opened Wrappers
  import opened DocumentStore

  // ----- the fallback data -----

  /** `mockEvents.events`: the two sample events returned when there is nothing to list. */
  const MockEvents: seq<Event> := [
    Event(map["title" := Text("a mock event"), "id" := Number(1),
              "description" := Text("something really cool"), "location" := Text("Joes pizza")],
          Some(0)),
    Event(map["title" := Text("another mock event"), "id" := Number(2),
              "description" := Text("something even cooler"), "location" := Text("Johns pizza")],
          Some(0))
  ]

  lemma MockEventsAreTheSamples()
    ensures |MockEvents| == 2
    ensures forall k :: 0 <= k < 2 ==>
      MockEvents[k].likes == Some(0) && MockEvents[k].props["id"] == Number(k + 1) &&
      MockEvents[k].props.Keys == {"title", "id", "description", "location"}
    ensures MockEvents[0].props["title"] == Text("a mock event")
    ensures MockEvents[0].props["description"] == Text("something really cool")
    ensures MockEvents[0].props["location"] == Text("Joes pizza")
    ensures MockEvents[1].props["title"] == Text("another mock event")
    ensures MockEvents[1].props["description"] == Text("something even cooler")
    ensures MockEvents[1].props["location"] == Text("Johns pizza")
  {
  }

  // ----- listing -----

  /** A listed entry: the document's record with `_id` set to the document id. */
  function WithId(d: Doc): (r: Event)
    ensures r.likes == d.data.likes
    ensures r.props.Keys == d.data.props.Keys + {"_id"}
    ensures r.props["_id"] == Text(d.id)
    ensures forall key :: key in d.data.props && key != "_id" ==> r.props[key] == d.data.props[key]
  {
    d.data.(props := d.data.props["_id" := Text(d.id)])
  }

  /** The entries built from a non-empty snapshot, one per document, in document order. */
  function Tagged(docs: seq<Doc>): seq<Event>
  {
    if |docs| == 0 then [] else Tagged(docs[..|docs| - 1]) + [WithId(docs[|docs| - 1])]
  }

  /** What `getEvents` answers for a snapshot that was read without error. */
  function Listing(docs: seq<Doc>): seq<Event>
  {
    if |docs| == 0 then MockEvents else Tagged(docs)
  }

  lemma {:induction false} TaggedAt(docs: seq<Doc>)
    ensures |Tagged(docs)| == |docs|
    ensures forall k :: 0 <= k < |docs| ==> Tagged(docs)[k] == WithId(docs[k])
  {
    if |docs| > 0 {
      var init := docs[..|docs| - 1];
      TaggedAt(init);
      assert forall k :: 0 <= k < |init| ==> init[k] == docs[k];
    }
  }

  /** A non-empty collection is listed one entry per document, in order, each with `_id` added. */
  lemma ListingOfDocuments(docs: seq<Doc>)
    requires |docs| > 0
    ensures |Listing(docs)| == |docs|
    ensures forall k :: 0 <= k < |docs| ==>
      Listing(docs)[k].likes == docs[k].data.likes &&
      Listing(docs)[k].props.Keys == docs[k].data.props.Keys + {"_id"} &&
      Listing(docs)[k].props["_id"] == Text(docs[k].id)
    ensures forall k, key :: 0 <= k < |docs| && key in docs[k].data.props && key != "_id" ==>
      Listing(docs)[k].props[key] == docs[k].data.props[key]
  {
    TaggedAt(docs);
  }

  /** A stored `id` property survives listing unchanged: only `_id` is set. */
  lemma StoredIdKept(docs: seq<Doc>, k: nat)
    requires k < |docs| && "id" in docs[k].data.props
    ensures |Listing(docs)| == |docs|
    ensures "id" in Listing(docs)[k].props && Listing(docs)[k].props["id"] == docs[k].data.props["id"]
  {
    TaggedAt(docs);
  }

  /** `getEvents`: never fails; falls back to the samples on an empty or unreadable collection. */
  method GetEvents(store: Collection, fault: bool) returns (events: seq<Event>)
    ensures fault ==> events == MockEvents
    ensures !fault ==> events == Listing(store.docs)
  {
    var snapshot := store.Get(fault);
    if snapshot.Failure? {
      return MockEvents;
    }
    var docs := snapshot.value;
    if |docs| == 0 {
      return MockEvents;
    }
    var ret: seq<Event> := [];
    var i := 0;
    while i < |docs|
      invariant 0 <= i <= |docs|
      invariant ret == Tagged(docs[..i])
    {
      var el := docs[i].data;
      el := el.(props := el.props["_id" := Text(docs[i].id)]);
      assert docs[..i + 1][..i] == docs[..i];
      ret := ret + [el];
      i := i + 1;
    }
    assert docs[..i] == docs;
    return ret;
  }

  // ----- adding -----

  /** The value of a request-body property; `undefined` when it is absent. */
  function Field(body: map<string, Value>, key: string): Value
  {
    if key in body then body[key] else Undefined
  }

  /** The record `addEvent` stores: title, description and location from the body, likes 0. */
  function NewRecord(body: map<string, Value>): (r: Event)
    ensures r.likes == Some(0)
    ensures r.props.Keys == {"title", "description", "location"}
    ensures forall key :: key in r.props ==> r.props[key] == Field(body, key)
  {
    Event(map["title" := Field(body, "title"), "description" := Field(body, "description"),
              "location" := Field(body, "location")],
          Some(0))
  }

  /** Whatever else the body holds (a `likes`, an `id`, ...) does not reach the new record. */
  lemma NewRecordIgnoresOtherFields(b1: map<string, Value>, b2: map<string, Value>)
    requires forall key :: key in {"title", "description", "location"} ==> Field(b1, key) == Field(b2, key)
    ensures NewRecord(b1) == NewRecord(b2)
  {
    assert NewRecord(b1).props == NewRecord(b2).props;
  }

  /** The collection after a successful `addEvent`. */
  function Added(docs: seq<Doc>, body: map<string, Value>): seq<Doc>
  {
    docs + [Doc(FreshId(docs), NewRecord(body))]
  }

  /**
    The listing after an insert keeps the old entries in front and ends with the new record,
    tagged with its non-empty store-assigned id.
   */
  lemma AddedIsListed(docs: seq<Doc>, body: map<string, Value>)
    ensures |Listing(Added(docs, body))| == |docs| + 1
    ensures |docs| > 0 ==> Listing(Added(docs, body))[..|docs|] == Listing(docs)
    ensures var e := Listing(Added(docs, body))[|docs|];
      e.props["_id"] == Text(FreshId(docs)) && FreshId(docs) != "" && e.likes == Some(0) &&
      e.props["title"] == Field(body, "title") &&
      e.props["description"] == Field(body, "description") &&
      e.props["location"] == Field(body, "location")
  {
    var all := Added(docs, body);
    TaggedAt(docs);
    assert all[..|all| - 1] == docs;
    assert Listing(all) == Tagged(docs) + [WithId(all[|docs|])];
    if |docs| > 0 {
      assert Listing(all)[..|docs|] == Tagged(docs);
    }
  }

  /** `addEvent`: insert the new record (a failed insert propagates), then list again. */
  method AddEvent(body: map<string, Value>, store: Collection, addFault: bool, listFault: bool)
    returns (r: Result<seq<Event>, Error>)
    requires store.Valid()
    modifies store
    ensures store.Valid()
    ensures addFault ==> r == Failure(Unavailable) && store.docs == old(store.docs)
    ensures !addFault ==> store.docs == Added(old(store.docs), body)
    ensures !addFault && listFault ==> r == Success(MockEvents)
    ensures !addFault && !listFault ==> r == Success(Listing(Added(old(store.docs), body)))
  {
    var ev := Event(map["title" := Field(body, "title"), "description" := Field(body, "description"),
                        "location" := Field(body, "location")],
                    Some(0));
    var added := store.Add(ev, addFault);
    if added.Failure? {
      return Failure(added.error);
    }
    var events := GetEvents(store, listFault);
    return Success(events);
  }

  // ----- likes -----

  /** The counter `changeLikes` starts from: a missing (or zero) `likes` counts as 0. */
  function LikesBase(likes: Option<int>): int
  {
    match likes
    case None => 0
    case Some(n) => n
  }

  /** The record `changeLikes` writes back: one more like, or one fewer while the count is positive. */
  function Bumped(e: Event, increment: bool): (r: Event)
    ensures r.props == e.props
    ensures r.likes.Some?
    ensures increment ==> r.likes.value == LikesBase(e.likes) + 1
    ensures !increment && LikesBase(e.likes) > 0 ==> r.likes.value == LikesBase(e.likes) - 1
    ensures !increment && LikesBase(e.likes) <= 0 ==> r.likes.value == LikesBase(e.likes)
  {
    var base := LikesBase(e.likes);
    e.(likes := Some(if increment then base + 1 else if base > 0 then base - 1 else base))
  }

  /** The collection after a successful `changeLikes`; `None` when no document has the id. */
  function Changed(docs: seq<Doc>, id: string, increment: bool): (r: Option<seq<Doc>>)
    ensures r.Some? <==> exists i :: 0 <= i < |docs| && docs[i].id == id
    ensures r.Some? ==>
      |r.value| == |docs| &&
      forall j :: 0 <= j < |docs| ==>
        r.value[j].id == docs[j].id &&
        (docs[j].id != id ==> r.value[j] == docs[j]) &&
        (docs[j].id == id && DistinctIds(docs) ==> r.value[j].data == Bumped(docs[j].data, increment))
  {
    match IndexOf(docs, id)
    case None => None
    case Some(k) => Some(docs[k := Doc(id, Bumped(docs[k].data, increment))])
  }

  /** The next listing shows the changed counter at the document's place, all else as listed before. */
  lemma ChangeIsListed(docs: seq<Doc>, k: nat, increment: bool)
    requires DistinctIds(docs) && k < |docs|
    ensures Changed(docs, docs[k].id, increment).Some?
    ensures var after := Changed(docs, docs[k].id, increment).value;
      |Listing(after)| == |Listing(docs)| == |docs| &&
      Listing(after)[k].likes == Bumped(docs[k].data, increment).likes &&
      Listing(after)[k].props == Listing(docs)[k].props &&
      forall j :: 0 <= j < |docs| && j != k ==> Listing(after)[j] == Listing(docs)[j]
  {
    var after := Changed(docs, docs[k].id, increment).value;
    TaggedAt(docs);
    TaggedAt(after);
  }

  /** Liking and then unliking a record with a non-negative count restores the count. */
  lemma LikeThenUnlike(e: Event)
    requires LikesBase(e.likes) >= 0
    ensures Bumped(Bumped(e, true), false) == e.(likes := Some(LikesBase(e.likes)))
  {
  }

  /** Unliking never takes a non-negative count below zero, and leaves zero at zero. */
  lemma UnlikeFloorsAtZero(e: Event)
    requires LikesBase(e.likes) >= 0
    ensures Bumped(e, false).likes.value >= 0
    ensures LikesBase(e.likes) == 0 ==> Bumped(e, false).likes == Some(0)
  {
  }

  /** The counter invariant: every stored `likes` that is present is non-negative. */
  ghost predicate NonNegativeLikes(docs: seq<Doc>)
  {
    forall i :: 0 <= i < |docs| && docs[i].data.likes.Some? ==> docs[i].data.likes.value >= 0
  }

  /** `changeLikes`: read the record, adjust `likes`, write it back, then list again. */
  method ChangeLikes(id: string, increment: bool, store: Collection,
                     fetchFault: bool, updateFault: bool, listFault: bool)
    returns (r: Option<seq<Event>>)
    requires store.Valid()
    modifies store
    ensures store.Valid()
    ensures r.Some? <==> !fetchFault && !updateFault && Changed(old(store.docs), id, increment).Some?
    ensures r.None? ==> store.docs == old(store.docs)
    ensures r.Some? ==> store.docs == Changed(old(store.docs), id, increment).value
    ensures r.Some? && listFault ==> r.value == MockEvents
    ensures r.Some? && !listFault ==> r.value == Listing(store.docs)
  {
    var snapshot := store.Read(id, fetchFault);
    if snapshot.Failure? {
      return None;
    }
    if snapshot.value.None? {
      // `el.likes` on the undefined data of an unknown document throws; the error is caught
      return None;
    }
    var el := snapshot.value.value;
    if el.likes == None || el.likes == Some(0) {
      el := el.(likes := Some(0));
    }
    if increment {
      el := el.(likes := Some(el.likes.value + 1));
    } else if el.likes.value > 0 {
      el := el.(likes := Some(el.likes.value - 1));
    }
    assert el == Bumped(snapshot.value.value, increment);
    var updated := store.Update(id, el, updateFault);
    if updated.Failure? {
      return None;
    }
    var events := GetEvents(store, listFault);
    return Some(events);
  }

  /** `addLike`: `changeLikes` with increment. */
  method AddLike(id: string, store: Collection, fetchFault: bool, updateFault: bool, listFault: bool)
    returns (r: Option<seq<Event>>)
    requires store.Valid()
    modifies store
    ensures store.Valid()
    ensures r.Some? <==> !fetchFault && !updateFault && Changed(old(store.docs), id, true).Some?
    ensures r.None? ==> store.docs == old(store.docs)
    ensures r.Some? ==> store.docs == Changed(old(store.docs), id, true).value
    ensures r.Some? ==> r.value == if listFault then MockEvents else Listing(store.docs)
  {
    r := ChangeLikes(id, true, store, fetchFault, updateFault, listFault);
  }

  /** `removeLike`: `changeLikes` with decrement. */
  method RemoveLike(id: string, store: Collection, fetchFault: bool, updateFault: bool, listFault: bool)
    returns (r: Option<seq<Event>>)
    requires store.Valid()
    modifies store
    ensures store.Valid()
    ensures r.Some? <==> !fetchFault && !updateFault && Changed(old(store.docs), id, false).Some?
    ensures r.None? ==> store.docs == old(store.docs)
    ensures r.Some? ==> store.docs == Changed(old(store.docs), id, false).value
    ensures r.Some? ==> r.value == if listFault then MockEvents else Listing(store.docs)
    ensures r.Some? && NonNegativeLikes(old(store.docs)) ==> NonNegativeLikes(store.docs)
  {
    r := ChangeLikes(id, false, store, fetchFault, updateFault, listFault);
    if r.Some? && NonNegativeLikes(old(store.docs)) {
      ChangeKeepsInvariant(old(store.docs), id, false);
    }
  }

  // ----- the repository as a state machine over the collection -----

  /** A call that changes the collection when it succeeds; a failed call changes nothing. */
  datatype Request = List | Add(body: map<string, Value>) | Like(id: string) | Unlike(id: string)

  function Step(docs: seq<Doc>, req: Request): seq<Doc>
  {
    match req
    case List => docs
    case Add(body) => Added(docs, body)
    case Like(id) => (match Changed(docs, id, true) case None => docs case Some(after) => after)
    case Unlike(id) => (match Changed(docs, id, false) case None => docs case Some(after) => after)
  }

  function Run(docs: seq<Doc>, reqs: seq<Request>): seq<Doc>
    decreases |reqs|
  {
    if |reqs| == 0 then docs else Run(Step(docs, reqs[0]), reqs[1..])
  }

  ghost predicate Invariant(docs: seq<Doc>)
  {
    DistinctIds(docs) && NonNegativeLikes(docs)
  }

  lemma AddKeepsInvariant(docs: seq<Doc>, body: map<string, Value>)
    requires Invariant(docs)
    ensures Invariant(Added(docs, body))
  {
  }

  lemma ChangeKeepsInvariant(docs: seq<Doc>, id: string, increment: bool)
    requires Invariant(docs)
    ensures Changed(docs, id, increment).Some? ==> Invariant(Changed(docs, id, increment).value)
  {
  }

  /** Every sequence of calls keeps ids distinct and every counter non-negative. */
  lemma {:induction false} RunKeepsInvariant(docs: seq<Doc>, reqs: seq<Request>)
    requires Invariant(docs)
    ensures Invariant(Run(docs, reqs))
    decreases |reqs|
  {
    if |reqs| > 0 {
      match reqs[0] {
        case List =>
        case Add(body) => AddKeepsInvariant(docs, body);
        case Like(id) => ChangeKeepsInvariant(docs, id, true);
        case Unlike(id) => ChangeKeepsInvariant(docs, id, false);
      }
      RunKeepsInvariant(Step(docs, reqs[0]), reqs[1..]);
    }
  }

  /** Starting from an empty collection, no listing ever shows a negative `likes`. */
  lemma ListedLikesNeverNegative(reqs: seq<Request>)
    ensures var events := Listing(Run([], reqs));
      forall k :: 0 <= k < |events| && events[k].likes.Some? ==> events[k].likes.value >= 0
  {
    var docs := Run([], reqs);
    RunKeepsInvariant([], reqs);
    if |docs| > 0 {
      TaggedAt(docs);
    }
  }
}
