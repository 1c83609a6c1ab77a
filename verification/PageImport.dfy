/** The fast page import refines the simple one: `process_data` against item-by-item
    `create_or_update_consumer_identity`. */
module PageImport {
  import opened Wrappers
  import opened ConsumerIdentities

  // Stored uuids are in canonical form, and the canonical form is its own canonical form.
  ghost predicate Canonical(canon: Canon, docs: seq<Doc>) {
    forall d :: d in docs ==> canon(d.uuid) == Some(d.uuid)
  }

  ghost predicate Idempotent(canon: Canon) {
    forall text, id :: canon(text) == Some(id) ==> canon(id) == Some(id)
  }

  ghost predicate OneDocPerUuid(docs: seq<Doc>) {
    forall i, j :: 0 <= i < j < |docs| ==> docs[i].uuid != docs[j].uuid
  }

  // Every item converts: it has a uuid that parses, and engineering ids.
  ghost predicate WellFormed(canon: Canon, items: seq<Item>, now: int) {
    forall i :: 0 <= i < |items| ==> Convert(canon, items[i], now).Ok?
  }

  // No item names a uuid of `ids` or of an earlier item.
  ghost predicate Unseen(canon: Canon, ids: set<string>, items: seq<Item>)
    decreases items
  {
    items == [] ||
    (var id := if items[0].uuid.Some? then canon(items[0].uuid.value) else None;
     id.Some? && id.value !in ids && Unseen(canon, ids + {id.value}, items[1..]))
  }

  // ---------------------------------------------------------------------------------------------
  // One document

  lemma FoundIffStored(docs: seq<Doc>, uuid: string)
    ensures IndexOf(docs, uuid) < |docs| <==> uuid in Uuids(docs)
  {
  }

  lemma UpsertKnown(docs: seq<Doc>, more: seq<Doc>, doc: Doc)
    requires doc.uuid in Uuids(docs)
    ensures |Upsert(docs, doc)| == |docs| && Uuids(Upsert(docs, doc)) == Uuids(docs)
    ensures Upsert(docs + more, doc) == Upsert(docs, doc) + more
    ensures forall i :: 0 <= i < |docs| ==> Upsert(docs, doc)[i].uuid == docs[i].uuid
  {
    var i := IndexOf(docs, doc.uuid);
    FoundIffStored(docs, doc.uuid);
    var after := docs[i := doc];
    assert forall j :: 0 <= j < |docs| && j != i ==> after[j] == docs[j];
    forall u
      ensures u in Uuids(after) <==> u in Uuids(docs)
    {
      if u in Uuids(docs) {
        var j :| 0 <= j < |docs| && docs[j].uuid == u;
        assert after[j].uuid == u && after[j] in after;
      }
    }
    IndexIsFirst(docs + more, doc.uuid, i);
  }

  lemma IndexIsFirst(docs: seq<Doc>, uuid: string, i: nat)
    requires i < |docs| && docs[i].uuid == uuid && forall j :: 0 <= j < i ==> docs[j].uuid != uuid
    ensures IndexOf(docs, uuid) == i
  {
  }

  lemma UpsertNew(docs: seq<Doc>, doc: Doc)
    requires doc.uuid !in Uuids(docs)
    ensures Upsert(docs, doc) == docs + [doc]
    ensures Uuids(docs + [doc]) == Uuids(docs) + {doc.uuid}
  {
  }

  /** Applying one document changes what a query for its uuid finds, and nothing else; a collection with one
      document per uuid keeps that. */
  lemma FindAfterUpsert(docs: seq<Doc>, doc: Doc, uuid: string)
    ensures Find(Upsert(docs, doc), uuid) == if uuid == doc.uuid then Some(doc) else Find(docs, uuid)
    ensures OneDocPerUuid(docs) ==> OneDocPerUuid(Upsert(docs, doc))
  {
    var after := Upsert(docs, doc);
    var i, j := IndexOf(docs, doc.uuid), IndexOf(docs, uuid);
    if uuid == doc.uuid {
      IndexIsFirst(after, uuid, i);
    } else if j < |docs| {
      IndexIsFirst(after, uuid, j);
    } else {
      assert IndexOf(after, uuid) == |after|;
    }
  }

  // ---------------------------------------------------------------------------------------------
  // Known items are updated in place, whatever was inserted behind them

  lemma {:induction false} KnownInPlace(canon: Canon, docs: seq<Doc>, more: seq<Doc>, items: seq<Item>, now: int)
    requires WellFormed(canon, items, now) && Canonical(canon, docs)
    requires forall i :: 0 <= i < |items| ==> items[i].uuid.Some? && items[i].uuid.value in Uuids(docs)
    ensures var alone := ApplyInOrder(canon, docs, items, now);
      && !alone.raised && |alone.docs| == |docs| && Uuids(alone.docs) == Uuids(docs)
      && (forall i :: 0 <= i < |docs| ==> alone.docs[i].uuid == docs[i].uuid)
      && ApplyInOrder(canon, docs + more, items, now) == Outcome(alone.docs + more, false)
    decreases items
  {
    if items != [] {
      var doc := Convert(canon, items[0], now).value;
      StoredAsWritten(canon, docs, items[0], now);
      UpsertKnown(docs, more, doc);
      UpsertCanonical(canon, docs, doc);
      KnownInPlace(canon, Upsert(docs, doc), more, items[1..], now);
    }
  }

  lemma StoredAsWritten(canon: Canon, docs: seq<Doc>, item: Item, now: int)
    requires Canonical(canon, docs) && Convert(canon, item, now).Ok?
    requires item.uuid.value in Uuids(docs)
    ensures Convert(canon, item, now).value.uuid == item.uuid.value
  {
  }

  lemma UpsertCanonical(canon: Canon, docs: seq<Doc>, doc: Doc)
    requires Canonical(canon, docs) && canon(doc.uuid) == Some(doc.uuid)
    ensures Canonical(canon, Upsert(docs, doc))
  {
  }

  lemma KnownIsKnown(items: seq<Item>, ids: set<string>)
    ensures forall x :: x in Known(items, ids) ==> x in items && x.uuid.Some? && x.uuid.value in ids
    ensures forall x :: x in New(items, ids) ==> x in items && x.uuid.Some? && x.uuid.value !in ids
  {
  }

  lemma WellFormedByItem(canon: Canon, items: seq<Item>, part: seq<Item>, now: int)
    requires WellFormed(canon, items, now) && forall x :: x in part ==> x in items
    ensures WellFormed(canon, part, now)
  {
    forall i | 0 <= i < |part|
      ensures Convert(canon, part[i], now).Ok?
    {
      assert part[i] in items;
      var j :| 0 <= j < |items| && items[j] == part[i];
    }
  }

  lemma {:induction false} AllConvert(canon: Canon, items: seq<Item>, now: int)
    requires WellFormed(canon, items, now)
    ensures ConvertAll(canon, items, now).Ok? && |ConvertAll(canon, items, now).value| == |items|
    decreases items
  {
    if items != [] {
      AllConvert(canon, items[1..], now);
    }
  }

  // ---------------------------------------------------------------------------------------------
  // When the two forms agree

  // Unseen new items are appended in page order by the simple form too.
  lemma {:induction false} UnseenAppended(canon: Canon, docs: seq<Doc>, added: seq<Doc>, items: seq<Item>, now: int)
    requires WellFormed(canon, items, now) && Canonical(canon, docs)
    requires Unseen(canon, Uuids(docs + added), New(items, Uuids(docs)))
    ensures ApplyInOrder(canon, docs + added, items, now) == KnownThenNew(canon, docs, Uuids(docs), added, items, now)
    decreases items
  {
    if items == [] {
      assert docs + added + [] == docs + added;
    } else if items[0].uuid.value in Uuids(docs) {
      var doc := Convert(canon, items[0], now).value;
      KnownFirst(canon, docs, added, items, now);
      UnseenAppended(canon, Upsert(docs, doc), added, items[1..], now);
    } else {
      var doc := Convert(canon, items[0], now).value;
      NewFirst(canon, docs, added, items, now);
      NewFirstBehind(canon, docs, Uuids(docs), added, items, now);
      UnseenAppended(canon, docs, added + [doc], items[1..], now);
    }
  }

  // The known documents updated in place, then what was added before, then the new ones.
  function KnownThenNew(canon: Canon, docs: seq<Doc>, ids: set<string>, added: seq<Doc>, items: seq<Item>, now: int)
    : Outcome
  {
    var updated := ApplyInOrder(canon, docs, Known(items, ids), now);
    match ConvertAll(canon, New(items, ids), now)
    case Raised(_) => Outcome([], true)
    case Ok(inserted) => Outcome(updated.docs + added + inserted, updated.raised)
  }

  lemma KnownFirst(canon: Canon, docs: seq<Doc>, added: seq<Doc>, items: seq<Item>, now: int)
    requires WellFormed(canon, items, now) && Canonical(canon, docs) && items != []
    requires items[0].uuid.value in Uuids(docs)
    ensures var docs' := Upsert(docs, Convert(canon, items[0], now).value);
      && Canonical(canon, docs') && WellFormed(canon, items[1..], now)
      && Uuids(docs') == Uuids(docs) && Uuids(docs' + added) == Uuids(docs + added)
      && New(items[1..], Uuids(docs')) == New(items, Uuids(docs))
      && ApplyInOrder(canon, docs + added, items, now) == ApplyInOrder(canon, docs' + added, items[1..], now)
      && KnownThenNew(canon, docs, Uuids(docs), added, items, now) ==
         KnownThenNew(canon, docs', Uuids(docs), added, items[1..], now)
  {
    var ids, rest := Uuids(docs), items[1..];
    var doc := Convert(canon, items[0], now).value;
    StoredAsWritten(canon, docs, items[0], now);
    UpsertKnown(docs, added, doc);
    UpsertCanonical(canon, docs, doc);
    SameUuids(docs, Upsert(docs, doc), added);
    assert Known(items, ids) == [items[0]] + Known(rest, ids);
    assert Known(items, ids)[1..] == Known(rest, ids);
    assert ApplyInOrder(canon, docs, Known(items, ids), now) ==
           ApplyInOrder(canon, Upsert(docs, doc), Known(rest, ids), now);
  }

  lemma ConvertFirst(canon: Canon, item: Item, rest: seq<Item>, now: int)
    requires Convert(canon, item, now).Ok?
    ensures var all, tail := ConvertAll(canon, [item] + rest, now), ConvertAll(canon, rest, now);
      if tail.Ok? then all == Ok([Convert(canon, item, now).value] + tail.value) else all.Raised?
  {
  }

  lemma NewFirst(canon: Canon, docs: seq<Doc>, added: seq<Doc>, items: seq<Item>, now: int)
    requires WellFormed(canon, items, now) && items != []
    requires items[0].uuid.value !in Uuids(docs)
    requires Unseen(canon, Uuids(docs + added), New(items, Uuids(docs)))
    ensures var added' := added + [Convert(canon, items[0], now).value];
      && WellFormed(canon, items[1..], now)
      && Unseen(canon, Uuids(docs + added'), New(items[1..], Uuids(docs)))
      && ApplyInOrder(canon, docs + added, items, now) == ApplyInOrder(canon, docs + added', items[1..], now)
  {
    var ids, rest := Uuids(docs), items[1..];
    var doc := Convert(canon, items[0], now).value;
    assert New(items, ids) == [items[0]] + New(rest, ids);
    assert New(items, ids)[1..] == New(rest, ids);
    UpsertNew(docs + added, doc);
    assert docs + added + [doc] == docs + (added + [doc]);
  }

  lemma NewFirstBehind(canon: Canon, docs: seq<Doc>, ids: set<string>, added: seq<Doc>, items: seq<Item>, now: int)
    requires WellFormed(canon, items, now) && items != [] && items[0].uuid.value !in ids
    ensures var added' := added + [Convert(canon, items[0], now).value];
      KnownThenNew(canon, docs, ids, added, items, now) == KnownThenNew(canon, docs, ids, added', items[1..], now)
  {
    var rest, doc := items[1..], Convert(canon, items[0], now).value;
    assert New(items, ids) == [items[0]] + New(rest, ids);
    assert Known(items, ids) == Known(rest, ids);
    ConvertFirst(canon, items[0], New(rest, ids), now);
    if ConvertAll(canon, New(rest, ids), now).Ok? {
      var inserted := ConvertAll(canon, New(rest, ids), now).value;
      var updated := ApplyInOrder(canon, docs, Known(rest, ids), now).docs;
      assert updated + added + ([doc] + inserted) == updated + (added + [doc]) + inserted;
    }
  }

  lemma SameUuids(docs: seq<Doc>, docs': seq<Doc>, more: seq<Doc>)
    requires Uuids(docs) == Uuids(docs')
    ensures Uuids(docs + more) == Uuids(docs' + more)
  {
    forall u
      ensures u in Uuids(docs + more) <==> u in Uuids(docs) || u in Uuids(more)
      ensures u in Uuids(docs' + more) <==> u in Uuids(docs') || u in Uuids(more)
    {
      UuidsAppend(docs, more);
      UuidsAppend(docs', more);
    }
  }

  lemma UuidsAppend(docs: seq<Doc>, more: seq<Doc>)
    ensures Uuids(docs + more) == Uuids(docs) + Uuids(more)
  {
  }

  // The simple form never adds more documents than there are new items, and fewer when one is seen twice.
  lemma {:induction false} SimpleAddsNoMore(canon: Canon, docs: seq<Doc>, ids: set<string>, items: seq<Item>, now: int)
    requires WellFormed(canon, items, now) && ids <= Uuids(docs)
    requires forall id :: id in ids ==> canon(id) == Some(id)
    ensures var simple := ApplyInOrder(canon, docs, items, now);
      && !simple.raised && |simple.docs| <= |docs| + |New(items, ids)|
      && (!Unseen(canon, Uuids(docs), New(items, ids)) ==> |simple.docs| < |docs| + |New(items, ids)|)
    decreases items
  {
    if items != [] {
      var item, rest := items[0], items[1..];
      var doc := Convert(canon, item, now).value;
      if item.uuid.value in ids {
        UpsertKnown(docs, [], doc);
        assert New(items, ids) == New(rest, ids);
      } else {
        assert New(items, ids) == [item] + New(rest, ids);
        assert New(items, ids)[1..] == New(rest, ids);
        if doc.uuid in Uuids(docs) {
          UpsertKnown(docs, [], doc);
        } else {
          UpsertNew(docs, doc);
        }
      }
      SimpleAddsNoMore(canon, Upsert(docs, doc), ids, rest, now);
    }
  }

  // The page import in two parts: the known documents updated in place, the new ones behind them.
  lemma FastForm(canon: Canon, docs: seq<Doc>, items: seq<Item>, now: int)
    requires WellFormed(canon, items, now) && Canonical(canon, docs)
    ensures var ids := Uuids(docs);
      var inserted := ConvertAll(canon, New(items, ids), now);
      var updated := ApplyInOrder(canon, docs, Known(items, ids), now);
      && inserted.Ok? && |inserted.value| == |New(items, ids)|
      && !updated.raised && |updated.docs| == |docs|
      && (forall i :: 0 <= i < |docs| ==> updated.docs[i].uuid == docs[i].uuid)
      && ImportPage(canon, docs, items, now) == Outcome(updated.docs + inserted.value, false)
  {
    var ids := Uuids(docs);
    KnownIsKnown(items, ids);
    WellFormedByItem(canon, items, New(items, ids), now);
    WellFormedByItem(canon, items, Known(items, ids), now);
    AllConvert(canon, New(items, ids), now);
    var known := Known(items, ids);
    forall i | 0 <= i < |known|
      ensures known[i].uuid.Some? && known[i].uuid.value in ids
    {
      assert known[i] in known;
    }
    KnownInPlace(canon, docs, ConvertAll(canon, New(items, ids), now).value, known, now);
  }

  // Documents for the new items, put behind the collection, repeat no uuid exactly when the items are unseen.
  lemma {:induction false} UnseenMeansDistinct(canon: Canon, docs: seq<Doc>, items: seq<Item>, now: int)
    requires WellFormed(canon, items, now) && OneDocPerUuid(docs)
    ensures ConvertAll(canon, items, now).Ok?
    ensures OneDocPerUuid(docs + ConvertAll(canon, items, now).value) <==> Unseen(canon, Uuids(docs), items)
    decreases items
  {
    if items == [] {
      assert docs + [] == docs;
    } else {
      AllConvert(canon, items, now);
      var doc := Convert(canon, items[0], now).value;
      var tail := ConvertAll(canon, items[1..], now).value;
      assert docs + ([doc] + tail) == docs + [doc] + tail;
      if doc.uuid in Uuids(docs) {
        var i :| 0 <= i < |docs| && docs[i].uuid == doc.uuid;
        var all := docs + ([doc] + tail);
        assert all[i].uuid == all[|docs|].uuid;
      } else {
        UpsertNew(docs, doc);
        FindAfterUpsert(docs, doc, doc.uuid);
        UnseenMeansDistinct(canon, docs + [doc], items[1..], now);
      }
    }
  }

  /** The fast form refines the simple form exactly on the pages it is safe for: importing a page leaves the very
      documents that applying its items one by one leaves, if and only if no item it bulk-inserts names, in
      canonical form, a stored uuid or the uuid of another one. */
  lemma FastRefinesSimple(canon: Canon, docs: seq<Doc>, items: seq<Item>, now: int)
    requires WellFormed(canon, items, now) && Canonical(canon, docs)
    ensures ImportPage(canon, docs, items, now) == ApplyInOrder(canon, docs, items, now)
       <==> Unseen(canon, Uuids(docs), New(items, Uuids(docs)))
  {
    var ids := Uuids(docs);
    FastForm(canon, docs, items, now);
    if Unseen(canon, ids, New(items, ids)) {
      assert docs + [] == docs;
      UnseenAppended(canon, docs, [], items, now);
      var updated := ApplyInOrder(canon, docs, Known(items, ids), now).docs;
      assert updated + [] == updated;
    } else {
      SimpleAddsNoMore(canon, docs, ids, items, now);
    }
  }

  /** The same condition decides whether the import keeps one document per uuid. */
  lemma ImportKeepsOneDoc(canon: Canon, docs: seq<Doc>, items: seq<Item>, now: int)
    requires WellFormed(canon, items, now) && Canonical(canon, docs) && OneDocPerUuid(docs)
    ensures OneDocPerUuid(ImportPage(canon, docs, items, now).docs)
       <==> Unseen(canon, Uuids(docs), New(items, Uuids(docs)))
  {
    var ids := Uuids(docs);
    FastForm(canon, docs, items, now);
    KnownIsKnown(items, ids);
    WellFormedByItem(canon, items, New(items, ids), now);
    UnseenMeansDistinct(canon, docs, New(items, ids), now);
    var inserted := ConvertAll(canon, New(items, ids), now).value;
    var updated := ApplyInOrder(canon, docs, Known(items, ids), now).docs;
    assert ImportPage(canon, docs, items, now).docs == updated + inserted;
    SameUuidsInOrder(updated, docs, inserted);
  }

  lemma SameUuidsInOrder(a: seq<Doc>, b: seq<Doc>, more: seq<Doc>)
    requires |a| == |b| && forall i :: 0 <= i < |a| ==> a[i].uuid == b[i].uuid
    ensures OneDocPerUuid(a + more) <==> OneDocPerUuid(b + more)
  {
    var x, y := a + more, b + more;
    assert forall i :: 0 <= i < |x| ==> x[i].uuid == y[i].uuid;
  }

  /** An item whose uuid text is not canonical slips past the existence check and is inserted a second time. */
  lemma OtherSpellingIsInsertedTwice(canon: Canon, doc: Doc, item: Item, now: int)
    requires canon(doc.uuid) == Some(doc.uuid) && Convert(canon, item, now).Ok?
    requires item.uuid.value != doc.uuid && canon(item.uuid.value) == Some(doc.uuid)
    ensures ApplyInOrder(canon, [doc], [item], now).docs == [Convert(canon, item, now).value]
    ensures ImportPage(canon, [doc], [item], now).docs == [doc, Convert(canon, item, now).value]
  {
    var made := Convert(canon, item, now).value;
    assert [item][1..] == [];
    assert ApplyInOrder(canon, [made], [], now) == Outcome([made], false);
    assert Uuids([doc]) == {doc.uuid};
    assert Known([item], {doc.uuid}) == [] && New([item], {doc.uuid}) == [item];
    ConvertOne(canon, item, now);
  }

  // ---------------------------------------------------------------------------------------------
  // Pages as the parent sends them

  // Uuids in canonical form, each at most once.
  ghost predicate ProperPage(canon: Canon, items: seq<Item>, now: int) {
    && WellFormed(canon, items, now)
    && (forall i :: 0 <= i < |items| ==> items[i].uuid.Some? && canon(items[i].uuid.value) == items[i].uuid)
    && forall i, j :: 0 <= i < j < |items| ==> items[i].uuid != items[j].uuid
  }

  lemma {:induction false} ProperPageIsUnseen(canon: Canon, items: seq<Item>, ids: set<string>, more: set<string>,
                                              now: int)
    requires ProperPage(canon, items, now)
    requires forall i :: 0 <= i < |items| ==> items[i].uuid.value !in more
    ensures Unseen(canon, ids + more, New(items, ids))
    decreases items
  {
    if items != [] {
      var id := items[0].uuid.value;
      var rest := items[1..];
      if id in ids {
        assert New(items, ids) == New(rest, ids);
        ProperPageIsUnseen(canon, rest, ids, more, now);
      } else {
        assert New(items, ids) == [items[0]] + New(rest, ids);
        assert New(items, ids)[1..] == New(rest, ids);
        ProperPageIsUnseen(canon, rest, ids, more + {id}, now);
        assert ids + (more + {id}) == ids + more + {id};
      }
    }
  }

  // What a query finds after the items were applied in order: the last of them for that uuid, or what it found
  // before.
  function Overridden(canon: Canon, docs: seq<Doc>, items: seq<Item>, now: int, uuid: string): Option<Doc>
    decreases items
  {
    if items == [] then Find(docs, uuid)
    else
      var last := Convert(canon, items[|items| - 1], now);
      if last.Ok? && last.value.uuid == uuid then Some(last.value)
      else Overridden(canon, docs, items[..|items| - 1], now, uuid)
  }

  lemma ApplyLast(canon: Canon, docs: seq<Doc>, items: seq<Item>, now: int)
    requires WellFormed(canon, items, now) && items != []
    requires !ApplyInOrder(canon, docs, items[..|items| - 1], now).raised
    ensures var before := ApplyInOrder(canon, docs, items[..|items| - 1], now).docs;
      ApplyInOrder(canon, docs, items, now) ==
      Outcome(Upsert(before, Convert(canon, items[|items| - 1], now).value), false)
  {
    var n := |items| - 1;
    ApplyAppends(canon, docs, items[..n], [items[n]], now);
    assert items == items[..n] + [items[n]] && [items[n]][1..] == [];
    var after := Upsert(ApplyInOrder(canon, docs, items[..n], now).docs, Convert(canon, items[n], now).value);
    assert ApplyInOrder(canon, after, [], now) == Outcome(after, false);
  }

  lemma {:induction false} AppliedOverrides(canon: Canon, docs: seq<Doc>, items: seq<Item>, now: int, uuid: string)
    requires WellFormed(canon, items, now)
    ensures var after := ApplyInOrder(canon, docs, items, now);
      && !after.raised && Find(after.docs, uuid) == Overridden(canon, docs, items, now, uuid)
    decreases items
  {
    if items != [] {
      var n := |items| - 1;
      AppliedOverrides(canon, docs, items[..n], now, uuid);
      ApplyLast(canon, docs, items, now);
      FindAfterUpsert(ApplyInOrder(canon, docs, items[..n], now).docs, Convert(canon, items[n], now).value, uuid);
    }
  }

  lemma {:induction false} AppliedKeeps(canon: Canon, docs: seq<Doc>, items: seq<Item>, now: int)
    requires WellFormed(canon, items, now) && Canonical(canon, docs) && Idempotent(canon)
    ensures var after := ApplyInOrder(canon, docs, items, now);
      !after.raised && Canonical(canon, after.docs) && (OneDocPerUuid(docs) ==> OneDocPerUuid(after.docs))
    decreases items
  {
    if items != [] {
      var n := |items| - 1;
      AppliedKeeps(canon, docs, items[..n], now);
      ApplyLast(canon, docs, items, now);
      var before, doc := ApplyInOrder(canon, docs, items[..n], now).docs, Convert(canon, items[n], now).value;
      FindAfterUpsert(before, doc, doc.uuid);
      assert canon(items[n].uuid.value) == Some(doc.uuid);
      UpsertCanonical(canon, before, doc);
    }
  }

  lemma {:induction false} OverriddenBy(canon: Canon, docs: seq<Doc>, items: seq<Item>, now: int, i: nat)
    requires ProperPage(canon, items, now) && i < |items|
    ensures Overridden(canon, docs, items, now, items[i].uuid.value) == Some(Convert(canon, items[i], now).value)
    decreases items
  {
    var n := |items| - 1;
    if i < n {
      OverriddenBy(canon, docs, items[..n], now, i);
    }
  }

  lemma {:induction false} NotOverridden(canon: Canon, docs: seq<Doc>, items: seq<Item>, now: int, uuid: string)
    requires ProperPage(canon, items, now) && forall i :: 0 <= i < |items| ==> items[i].uuid.value != uuid
    ensures Overridden(canon, docs, items, now, uuid) == Find(docs, uuid)
    decreases items
  {
    if items != [] {
      NotOverridden(canon, docs, items[..|items| - 1], now, uuid);
    }
  }

  /** A proper page leaves each of its identities as sent and every other as it was; a collection with one document
      per uuid stays one. */
  lemma PageOverrides(canon: Canon, docs: seq<Doc>, items: seq<Item>, now: int)
    requires ProperPage(canon, items, now) && Canonical(canon, docs) && Idempotent(canon)
    ensures var after := ImportPage(canon, docs, items, now);
      && after == ApplyInOrder(canon, docs, items, now) && !after.raised
      && (forall i :: 0 <= i < |items| ==>
            Find(after.docs, items[i].uuid.value) == Some(Convert(canon, items[i], now).value))
      && (forall u :: (forall i :: 0 <= i < |items| ==> items[i].uuid.value != u) ==>
            Find(after.docs, u) == Find(docs, u))
      && Canonical(canon, after.docs) && (OneDocPerUuid(docs) ==> OneDocPerUuid(after.docs))
  {
    var ids := Uuids(docs);
    ProperPageIsUnseen(canon, items, ids, {}, now);
    assert ids + {} == ids;
    FastRefinesSimple(canon, docs, items, now);
    AppliedKeeps(canon, docs, items, now);
    forall i | 0 <= i < |items|
      ensures Find(ImportPage(canon, docs, items, now).docs, items[i].uuid.value) ==
              Some(Convert(canon, items[i], now).value)
    {
      AppliedOverrides(canon, docs, items, now, items[i].uuid.value);
      OverriddenBy(canon, docs, items, now, i);
    }
    forall u | forall i :: 0 <= i < |items| ==> items[i].uuid.value != u
      ensures Find(ImportPage(canon, docs, items, now).docs, u) == Find(docs, u)
    {
      AppliedOverrides(canon, docs, items, now, u);
      NotOverridden(canon, docs, items, now, u);
    }
  }

  // ---------------------------------------------------------------------------------------------
  // The whole sweep

  // Items that have a uuid are well-formed and name it in canonical form, each at most once.
  ghost predicate ProperListing(canon: Canon, items: seq<Item>, now: int) {
    && (forall i :: 0 <= i < |items| && items[i].uuid.Some? ==>
          Convert(canon, items[i], now).Ok? && canon(items[i].uuid.value) == items[i].uuid)
    && forall i, j :: 0 <= i < j < |items| && items[i].uuid.Some? ==> items[i].uuid != items[j].uuid
  }

  function WithUuid(items: seq<Item>): (named: seq<Item>)
    ensures forall x :: x in named <==> x in items && x.uuid.Some?
  {
    if items == [] then [] else (if items[0].uuid.Some? then [items[0]] else []) + WithUuid(items[1..])
  }

  lemma {:induction false} OthersIgnored(items: seq<Item>, ids: set<string>)
    ensures New(items, ids) == New(WithUuid(items), ids) && Known(items, ids) == Known(WithUuid(items), ids)
    decreases items
  {
    if items != [] {
      OthersIgnored(items[1..], ids);
      if items[0].uuid.Some? {
        assert ([items[0]] + WithUuid(items[1..]))[1..] == WithUuid(items[1..]);
      } else {
        assert WithUuid(items) == WithUuid(items[1..]);
        assert New(items, ids) == New(items[1..], ids) && Known(items, ids) == Known(items[1..], ids);
      }
    }
  }

  lemma {:induction false} NamedAreProper(canon: Canon, items: seq<Item>, now: int)
    requires ProperListing(canon, items, now)
    ensures ProperPage(canon, WithUuid(items), now)
    decreases items
  {
    if items != [] {
      var rest := WithUuid(items[1..]);
      NamedAreProper(canon, items[1..], now);
      if items[0].uuid.Some? {
        forall i | 0 <= i < |rest|
          ensures rest[i].uuid != items[0].uuid
        {
          assert rest[i] in rest;
          var j :| 0 <= j < |items[1..]| && items[1..][j] == rest[i];
          assert items[j + 1] == rest[i];
        }
      }
    }
  }

  // The items of a listing that are on a page are what a query finds for their uuids; for others it finds what it did.
  ghost predicate Overrides(canon: Canon, docs: seq<Doc>, docs': seq<Doc>, listing: seq<Item>, pages: seq<seq<Item>>,
                            now: int)
  {
    && (forall x :: x in listing && x.uuid.Some? && OnPage(pages, x) ==>
          Convert(canon, x, now).Ok? && Find(docs', x.uuid.value) == Some(Convert(canon, x, now).value))
    && forall u :: (forall x :: x in listing && OnPage(pages, x) ==> x.uuid != Some(u)) ==>
         Find(docs', u) == Find(docs, u)
  }

  lemma PageLeaves(canon: Canon, docs: seq<Doc>, items: seq<Item>, now: int)
    requires ProperListing(canon, items, now) && Canonical(canon, docs) && Idempotent(canon)
    ensures var after := ImportPage(canon, docs, items, now);
      && !after.raised && Canonical(canon, after.docs) && (OneDocPerUuid(docs) ==> OneDocPerUuid(after.docs))
      && (forall x :: x in items && x.uuid.Some? ==>
            Convert(canon, x, now).Ok? && Find(after.docs, x.uuid.value) == Some(Convert(canon, x, now).value))
      && forall u :: (forall x :: x in items ==> x.uuid != Some(u)) ==> Find(after.docs, u) == Find(docs, u)
  {
    var named := WithUuid(items);
    OthersIgnored(items, Uuids(docs));
    NamedAreProper(canon, items, now);
    PageOverrides(canon, docs, named, now);
    forall x | x in items && x.uuid.Some?
      ensures Convert(canon, x, now).Ok?
      ensures Find(ImportPage(canon, docs, items, now).docs, x.uuid.value) == Some(Convert(canon, x, now).value)
    {
      var i :| 0 <= i < |named| && named[i] == x;
    }
    forall u | forall x :: x in items ==> x.uuid != Some(u)
      ensures Find(ImportPage(canon, docs, items, now).docs, u) == Find(docs, u)
    {
      assert forall i :: 0 <= i < |named| ==> named[i] in named && named[i].uuid.value != u;
    }
  }

  // Pages of a listing may overlap: what is on two of them is the same on both.
  lemma {:induction false} PagesOverride(canon: Canon, docs: seq<Doc>, listing: seq<Item>, pages: seq<seq<Item>>,
                                         now: int)
    requires ProperListing(canon, listing, now) && Canonical(canon, docs) && Idempotent(canon)
    requires forall i :: 0 <= i < |pages| ==>
               ProperListing(canon, pages[i], now) && forall x :: x in pages[i] ==> x in listing
    ensures var after := ImportPages(canon, docs, pages, now);
      && !after.raised && Canonical(canon, after.docs) && (OneDocPerUuid(docs) ==> OneDocPerUuid(after.docs))
      && Overrides(canon, docs, after.docs, listing, pages, now)
    decreases pages
  {
    if pages != [] {
      var n := |pages| - 1;
      var before, page := pages[..n], pages[n];
      assert pages == before + [page];
      PagesOverride(canon, docs, listing, before, now);
      PagesAppend(canon, docs, before, page, now);
      var middle := ImportPages(canon, docs, before, now).docs;
      PageLeaves(canon, middle, page, now);
      OverridesOneMore(canon, docs, middle, ImportPage(canon, middle, page, now).docs, listing, before, page, now);
    }
  }

  lemma SameItem(canon: Canon, listing: seq<Item>, now: int, x: Item, y: Item)
    requires ProperListing(canon, listing, now) && x in listing && y in listing
    requires x.uuid.Some? && x.uuid == y.uuid
    ensures x == y
  {
    var i :| 0 <= i < |listing| && listing[i] == x;
    var j :| 0 <= j < |listing| && listing[j] == y;
    assert i == j;
  }

  lemma OverridesOneMore(canon: Canon, docs: seq<Doc>, middle: seq<Doc>, docs': seq<Doc>, listing: seq<Item>,
                         before: seq<seq<Item>>, page: seq<Item>, now: int)
    requires ProperListing(canon, listing, now) && forall x :: x in page ==> x in listing
    requires Overrides(canon, docs, middle, listing, before, now)
    requires forall x :: x in page && x.uuid.Some? ==>
               Convert(canon, x, now).Ok? && Find(docs', x.uuid.value) == Some(Convert(canon, x, now).value)
    requires forall u :: (forall x :: x in page ==> x.uuid != Some(u)) ==> Find(docs', u) == Find(middle, u)
    ensures Overrides(canon, docs, docs', listing, before + [page], now)
  {
    forall x
      ensures OnPage(before + [page], x) <==> OnPage(before, x) || x in page
    {
      OnOneMore(before, page, x);
    }
    forall x | x in listing && x.uuid.Some? && OnPage(before + [page], x)
      ensures Convert(canon, x, now).Ok? && Find(docs', x.uuid.value) == Some(Convert(canon, x, now).value)
    {
      if x !in page {
        forall y | y in page
          ensures y.uuid != x.uuid
        {
          if y.uuid == x.uuid {
            SameItem(canon, listing, now, x, y);
          }
        }
      }
    }
    forall u | forall x :: x in listing && OnPage(before + [page], x) ==> x.uuid != Some(u)
      ensures Find(docs', u) == Find(docs, u)
    {
      assert forall x :: x in page ==> OnPage(before + [page], x) && x.uuid != Some(u);
    }
  }

  /** Sweep: whatever the page limit, and though items without uuid make pages overlap, a sweep that goes through a
      listing leaves the old collection overridden by every listed identity. */
  lemma SweepOverrides(canon: Canon, docs: seq<Doc>, listing: seq<Item>, limit: nat, now: int, n: nat)
    requires ProperListing(canon, listing, now) && Canonical(canon, docs) && Idempotent(canon)
    requires Offset(listing, limit, n) == |listing|
    ensures var after := ImportPages(canon, docs, Pages(listing, limit, n), now);
      && !after.raised
      && (forall x :: x in listing && x.uuid.Some? ==>
            Convert(canon, x, now).Ok? && Find(after.docs, x.uuid.value) == Some(Convert(canon, x, now).value))
      && (forall u :: (forall x :: x in listing ==> x.uuid != Some(u)) ==> Find(after.docs, u) == Find(docs, u))
      && (OneDocPerUuid(docs) ==> OneDocPerUuid(after.docs))
  {
    var pages := Pages(listing, limit, n);
    forall i | 0 <= i < |pages|
      ensures ProperListing(canon, pages[i], now) && forall x :: x in pages[i] ==> x in listing
    {
      PagesAt(listing, limit, n, i);
      PageIsProper(canon, listing, limit, now, Offset(listing, limit, i));
    }
    PagesOverride(canon, docs, listing, pages, now);
    PagesInOrder(listing, limit, n);
  }

  lemma PageIsProper(canon: Canon, listing: seq<Item>, limit: nat, now: int, offset: nat)
    requires ProperListing(canon, listing, now) && offset <= |listing|
    ensures ProperListing(canon, PageAt(listing, limit, offset), now)
    ensures forall x :: x in PageAt(listing, limit, offset) ==> x in listing
  {
    var page := PageAt(listing, limit, offset);
    assert forall i :: 0 <= i < |page| ==> page[i] == listing[offset + i];
  }

  lemma ProperNeverRaises(canon: Canon, docs: seq<Doc>, listing: seq<Item>, limit: nat, now: int, n: nat)
    requires ProperListing(canon, listing, now) && Canonical(canon, docs) && Idempotent(canon)
    ensures !ImportPages(canon, docs, Pages(listing, limit, n), now).raised
  {
    forall i | 0 <= i < n
      ensures ProperListing(canon, Pages(listing, limit, n)[i], now)
      ensures forall x :: x in Pages(listing, limit, n)[i] ==> x in listing
    {
      PagesAt(listing, limit, n, i);
      PageIsProper(canon, listing, limit, now, Offset(listing, limit, i));
    }
    PagesOverride(canon, docs, listing, Pages(listing, limit, n), now);
  }

  /** On such a listing a sweep ends if and only if the listing has no stretch without uuids that fills a page. */
  lemma SweepOfProperListing(canon: Canon, docs: seq<Doc>, listing: seq<Item>, limit: nat, now: int)
    requires ProperListing(canon, listing, now) && Canonical(canon, docs) && Idempotent(canon)
    ensures Ends(canon, docs, listing, limit, now) <==> NoGap(listing, limit)
  {
    SweepEndsIffNoGap(canon, docs, listing, limit, now);
    forall n: nat
      ensures !ImportPages(canon, docs, Pages(listing, limit, n), now).raised
    {
      ProperNeverRaises(canon, docs, listing, limit, now, n);
    }
  }
}
