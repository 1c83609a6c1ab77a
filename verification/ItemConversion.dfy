/** What an item of the parent becomes (`create_or_update_consumer_identity` and `convert_dict_to_consumer_identity`),
    by what a query for its uuid finds after it was applied. */
module ItemConversion {
  import opened Wrappers
  import opened ConsumerIdentities
  import opened PageImport

  // The document found for an item after it was applied, or that applying it raised.
  function Left(canon: Canon, docs: seq<Doc>, item: Item, now: int): Result<Option<Doc>> {
    var after := ApplyInOrder(canon, docs, [item], now);
    if after.raised then Raised("raised")
    else Ok(Find(after.docs, UuidOf(canon, item)))
  }

  function UuidOf(canon: Canon, item: Item): string {
    if item.uuid.Some? && canon(item.uuid.value).Some? then canon(item.uuid.value).value else ""
  }

  // The item names a uuid that parses and engineering ids, and no date of it is unreadable.
  predicate Accepted(canon: Canon, item: Item) {
    && item.uuid.Some? && canon(item.uuid.value).Some? && item.engineeringIds.Some?
    && item.created != Unreadable && item.modified != Unreadable && item.deletedDate != Unreadable
  }

  lemma AppliedOne(canon: Canon, docs: seq<Doc>, item: Item, now: int)
    ensures var made := Convert(canon, item, now);
      ApplyInOrder(canon, docs, [item], now) ==
      if made.Ok? then Outcome(Upsert(docs, made.value), false) else Outcome(docs, true)
  {
    assert [item][1..] == [];
    var made := Convert(canon, item, now);
    if made.Ok? {
      assert ApplyInOrder(canon, Upsert(docs, made.value), [], now) == Outcome(Upsert(docs, made.value), false);
    }
  }

  /** Exactly the items that lack a uuid or engineering ids, or have a uuid or a date that does not parse, raise; they
      change nothing. */
  lemma RaisesIffNotAccepted(canon: Canon, docs: seq<Doc>, item: Item, now: int)
    ensures Left(canon, docs, item, now).Raised? <==> !Accepted(canon, item)
    ensures !Accepted(canon, item) ==> ApplyInOrder(canon, docs, [item], now).docs == docs
  {
    AppliedOne(canon, docs, item, now);
  }

  lemma LeftIsFound(canon: Canon, docs: seq<Doc>, item: Item, now: int)
    requires Accepted(canon, item)
    ensures Convert(canon, item, now).Ok?
    ensures Left(canon, docs, item, now) == Ok(Some(Convert(canon, item, now).value))
  {
    AppliedOne(canon, docs, item, now);
    FindAfterUpsert(docs, Convert(canon, item, now).value, UuidOf(canon, item));
  }

  /** What was sent is what is found: the uuid in its canonical form, the engineering ids, every date that was given,
      and no date where an empty one was sent. The document is deleted if and only if it was sent as deleted; then it
      has a deletion date, which is the clock reading only if none was sent. */
  lemma LeftAsSent(canon: Canon, docs: seq<Doc>, item: Item, now: int)
    requires Accepted(canon, item)
    ensures var left := Left(canon, docs, item, now);
      && left.Ok? && left.value.Some?
      && var doc := left.value.value;
      && canon(item.uuid.value) == Some(doc.uuid) && Some(doc.engineeringIds) == item.engineeringIds
      && (item.created.Given? ==> doc.created == Some(item.created.at))
      && (item.created.Empty? ==> doc.created == None)
      && (item.modified.Given? ==> doc.modified == Some(item.modified.at))
      && (item.modified.Empty? ==> doc.modified == None)
      && (doc.deleted <==> item.deleted == Some(true))
      && (item.deletedDate.Given? ==> doc.deletedDate == Some(item.deletedDate.at))
      && (!item.deletedDate.Given? ==> doc.deletedDate == if doc.deleted then Some(now) else None)
  {
    LeftIsFound(canon, docs, item, now);
  }

  lemma SameLeft(canon: Canon, docs: seq<Doc>, a: Item, b: Item, now: int)
    requires a.uuid == b.uuid && Convert(canon, a, now) == Convert(canon, b, now)
    ensures Left(canon, docs, a, now) == Left(canon, docs, b, now)
  {
    AppliedOne(canon, docs, a, now);
    AppliedOne(canon, docs, b, now);
  }

  /** What is left out: no `deleted` is like sending false, no creation or modification date like sending the clock
      reading, no deletion date like sending an empty one. */
  lemma LeftOutIsDefault(canon: Canon, docs: seq<Doc>, item: Item, now: int)
    requires Accepted(canon, item)
    ensures Left(canon, docs, item.(deleted := None), now) == Left(canon, docs, item.(deleted := Some(false)), now)
    ensures Left(canon, docs, item.(created := Absent), now) == Left(canon, docs, item.(created := Given(now)), now)
    ensures Left(canon, docs, item.(modified := Absent), now) == Left(canon, docs, item.(modified := Given(now)), now)
    ensures Left(canon, docs, item.(deletedDate := Absent), now) == Left(canon, docs, item.(deletedDate := Empty), now)
  {
    SameLeft(canon, docs, item.(deleted := None), item.(deleted := Some(false)), now);
    SameLeft(canon, docs, item.(created := Absent), item.(created := Given(now)), now);
    SameLeft(canon, docs, item.(modified := Absent), item.(modified := Given(now)), now);
    SameLeft(canon, docs, item.(deletedDate := Absent), item.(deletedDate := Empty), now);
  }

  // ---------------------------------------------------------------------------------------------
  // Pages with items that raise

  lemma {:induction false} AllConvertIff(canon: Canon, items: seq<Item>, now: int)
    ensures ConvertAll(canon, items, now).Ok? <==> forall x :: x in items ==> Accepted(canon, x)
    decreases items
  {
    if items != [] {
      AllConvertIff(canon, items[1..], now);
      assert items == [items[0]] + items[1..] && items[0] in items;
    }
  }

  lemma {:induction false} AppliedIff(canon: Canon, docs: seq<Doc>, items: seq<Item>, now: int)
    ensures var after := ApplyInOrder(canon, docs, items, now);
      && (!after.raised <==> forall x :: x in items ==> Accepted(canon, x))
      && (forall u :: u in Uuids(docs) ==> u in Uuids(after.docs))
      && (!after.raised ==> forall x :: x in items ==> UuidOf(canon, x) in Uuids(after.docs))
    decreases items
  {
    if items != [] {
      var made := Convert(canon, items[0], now);
      assert items == [items[0]] + items[1..] && items[0] in items;
      if made.Ok? {
        UpsertAdds(docs, made.value);
        AppliedIff(canon, Upsert(docs, made.value), items[1..], now);
      }
    }
  }

  lemma UpsertAdds(docs: seq<Doc>, doc: Doc)
    ensures Uuids(Upsert(docs, doc)) == Uuids(docs) + {doc.uuid}
  {
    if doc.uuid in Uuids(docs) {
      UpsertKnown(docs, [], doc);
    } else {
      UpsertNew(docs, doc);
    }
  }

  lemma {:induction false} ConvertedUuids(canon: Canon, items: seq<Item>, now: int)
    requires ConvertAll(canon, items, now).Ok?
    ensures forall x :: x in items ==> UuidOf(canon, x) in Uuids(ConvertAll(canon, items, now).value)
    decreases items
  {
    if items != [] {
      var first, rest := Convert(canon, items[0], now).value, ConvertAll(canon, items[1..], now).value;
      ConvertedUuids(canon, items[1..], now);
      UuidsAppend([first], rest);
      assert first in [first];
      assert items == [items[0]] + items[1..];
    }
  }

  lemma {:induction false} NewOrKnown(items: seq<Item>, ids: set<string>, x: Item)
    ensures x in New(items, ids) <==> x in items && x.uuid.Some? && x.uuid.value !in ids
    ensures x in Known(items, ids) <==> x in items && x.uuid.Some? && x.uuid.value in ids
    decreases items
  {
    if items != [] {
      NewOrKnown(items[1..], ids, x);
      assert items == [items[0]] + items[1..];
    }
  }

  /** A page raises if and only if an item of it that has a uuid is not accepted. If that uuid text is not stored yet,
      nothing of the page is stored. If the page does not raise, every item of it with a uuid is found afterwards. */
  lemma PageRaisesIff(canon: Canon, docs: seq<Doc>, items: seq<Item>, now: int)
    ensures var after := ImportPage(canon, docs, items, now);
      && (after.raised <==> exists x :: x in items && x.uuid.Some? && !Accepted(canon, x))
      && ((exists x :: x in items && x.uuid.Some? && x.uuid.value !in Uuids(docs) && !Accepted(canon, x)) ==>
            after.docs == docs)
      && (forall u :: u in Uuids(docs) ==> u in Uuids(after.docs))
      && (!after.raised ==> forall x :: x in items && x.uuid.Some? ==>
            Accepted(canon, x) && Find(after.docs, UuidOf(canon, x)).Some?)
  {
    var ids := Uuids(docs);
    var unseen, known := New(items, ids), Known(items, ids);
    forall x
      ensures x in unseen <==> x in items && x.uuid.Some? && x.uuid.value !in ids
      ensures x in known <==> x in items && x.uuid.Some? && x.uuid.value in ids
    {
      NewOrKnown(items, ids, x);
    }
    AllConvertIff(canon, unseen, now);
    if ConvertAll(canon, unseen, now).Ok? {
      var inserted := ConvertAll(canon, unseen, now).value;
      ConvertedUuids(canon, unseen, now);
      UuidsAppend(docs, inserted);
      AppliedIff(canon, docs + inserted, known, now);
      var after := ImportPage(canon, docs, items, now).docs;
      forall u
        ensures Find(after, u).Some? <==> u in Uuids(after)
      {
        FoundIffStored(after, u);
      }
    }
  }

  /** A sweep that does not raise has accepted, and stored, every item with a uuid that was on a page. */
  lemma {:induction false} PagesStoreAll(canon: Canon, docs: seq<Doc>, pages: seq<seq<Item>>, now: int)
    ensures var after := ImportPages(canon, docs, pages, now);
      && (forall u :: u in Uuids(docs) ==> u in Uuids(after.docs))
      && (!after.raised ==> forall x :: OnPage(pages, x) && x.uuid.Some? ==>
            Accepted(canon, x) && Find(after.docs, UuidOf(canon, x)).Some?)
    decreases pages
  {
    if pages != [] {
      var first := ImportPage(canon, docs, pages[0], now);
      PageRaisesIff(canon, docs, pages[0], now);
      if !first.raised {
        PagesStoreAll(canon, first.docs, pages[1..], now);
        var after := ImportPages(canon, docs, pages, now);
        forall x | !after.raised && OnPage(pages, x) && x.uuid.Some?
          ensures Accepted(canon, x) && Find(after.docs, UuidOf(canon, x)).Some?
        {
          FoundIffStored(first.docs, UuidOf(canon, x));
          FoundIffStored(after.docs, UuidOf(canon, x));
          var i :| 0 <= i < |pages| && x in pages[i];
          if i > 0 {
            assert x in pages[1..][i - 1];
          }
        }
      }
    }
  }

  /** So a sweep that went through the listing without raising, and no other saves a watermark, has accepted every
      listed item with a uuid, and each is found. */
  lemma CompleteSweepStoresAll(canon: Canon, docs: seq<Doc>, listing: seq<Item>, limit: nat, now: int, n: nat)
    requires Offset(listing, limit, n) == |listing|
    requires !ImportPages(canon, docs, Pages(listing, limit, n), now).raised
    ensures forall x :: x in listing && x.uuid.Some? ==>
              Accepted(canon, x) &&
              Find(ImportPages(canon, docs, Pages(listing, limit, n), now).docs, UuidOf(canon, x)).Some?
  {
    PagesInOrder(listing, limit, n);
    PagesStoreAll(canon, docs, Pages(listing, limit, n), now);
  }
}
