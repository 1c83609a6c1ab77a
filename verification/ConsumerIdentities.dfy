/** The local copy of the parent's identities (`identity.py`): pages are imported by a bulk insert of the new and a
    serial update of the known identities.

    `ConsumerIdentity` has no unique index on `uuid`, so the collection is a sequence of documents in insertion
    order, and a query for one document finds the first. `canon` is `str(UUID(text))`: the canonical form of a
    uuid, or nothing where `UUID` raises. */
module ConsumerIdentities {
  import opened Wrappers
  import MongoKeys

  type Canon = string -> Option<string>

  // A date of the parent's item: no such key, an empty value, a date, or a text that is none.
  datatype Field = Absent | Empty | Given(at: int) | Unreadable

  datatype Item = Item(uuid: Option<string>, engineeringIds: Option<seq<string>>, created: Field, modified: Field,
                       deleted: Option<bool>, deletedDate: Field)

  datatype Doc = Doc(uuid: string, engineeringIds: seq<string>, created: Option<int>, modified: Option<int>,
                     deleted: bool, deletedDate: Option<int>)

  function Date(f: Field, default: Option<int>): Option<int> {
    match f
    case Absent => default
    case Empty => None
    case Given(at) => Some(at)
    case Unreadable => None
  }

  // `convert_dict_to_consumer_identity`, at one clock reading.
  function Convert(canon: Canon, item: Item, now: int): Result<Doc> {
    if item.uuid.None? then Raised("Missing required parameter: 'uuid'")
    else if item.engineeringIds.None? then Raised("Missing required parameter: 'engineering_ids'")
    else if item.created.Unreadable? || item.modified.Unreadable? || item.deletedDate.Unreadable? then
      Raised("unsupported date format")
    else if canon(item.uuid.value).None? then Raised("badly formed hexadecimal UUID string")
    else
      var deleted := item.deleted == Some(true);
      var deletedDate := Date(item.deletedDate, None);
      Ok(Doc(canon(item.uuid.value).value, item.engineeringIds.value, Date(item.created, Some(now)),
             Date(item.modified, Some(now)), deleted, if deleted && deletedDate.None? then Some(now) else deletedDate))
  }

  // `ConsumerIdentity.objects(uuid=...).first()`: where it is, or the number of documents.
  function IndexOf(docs: seq<Doc>, uuid: string): (i: nat)
    ensures i <= |docs|
    ensures i < |docs| ==> docs[i].uuid == uuid
    ensures forall j :: 0 <= j < i ==> docs[j].uuid != uuid
  {
    if docs == [] then 0 else if docs[0].uuid == uuid then 0 else 1 + IndexOf(docs[1..], uuid)
  }

  function Find(docs: seq<Doc>, uuid: string): Option<Doc> {
    var i := IndexOf(docs, uuid);
    if i < |docs| then Some(docs[i]) else None
  }

  // `create_or_update_consumer_identity`: the simple form.
  function Upsert(docs: seq<Doc>, doc: Doc): seq<Doc> {
    var i := IndexOf(docs, doc.uuid);
    if i < |docs| then docs[i := doc] else docs + [doc]
  }

  // A collection after a call that may have raised on the way.
  datatype Outcome = Outcome(docs: seq<Doc>, raised: bool)

  function ApplyInOrder(canon: Canon, docs: seq<Doc>, items: seq<Item>, now: int): Outcome
    decreases items
  {
    if items == [] then Outcome(docs, false)
    else match Convert(canon, items[0], now)
      case Raised(_) => Outcome(docs, true)
      case Ok(doc) => ApplyInOrder(canon, Upsert(docs, doc), items[1..], now)
  }

  // The stored uuids, in the form they are stored in.
  function Uuids(docs: seq<Doc>): set<string> {
    set d | d in docs :: d.uuid
  }

  // The items of a page whose uuid text is, or is not, among `ids`; items without uuid are in neither.
  function Known(items: seq<Item>, ids: set<string>): seq<Item> {
    if items == [] then []
    else (if items[0].uuid.Some? && items[0].uuid.value in ids then [items[0]] else []) + Known(items[1..], ids)
  }

  function New(items: seq<Item>, ids: set<string>): seq<Item> {
    if items == [] then []
    else (if items[0].uuid.Some? && items[0].uuid.value !in ids then [items[0]] else []) + New(items[1..], ids)
  }

  function ConvertAll(canon: Canon, items: seq<Item>, now: int): Result<seq<Doc>> {
    if items == [] then Ok([])
    else match Convert(canon, items[0], now)
      case Raised(why) => Raised(why)
      case Ok(doc) =>
        match ConvertAll(canon, items[1..], now)
        case Raised(why) => Raised(why)
        case Ok(docs) => Ok([doc] + docs)
  }

  // `process_data`: the fast form.
  function ImportPage(canon: Canon, docs: seq<Doc>, items: seq<Item>, now: int): Outcome {
    var ids := Uuids(docs);
    match ConvertAll(canon, New(items, ids), now)
    case Raised(_) => Outcome(docs, true)
    case Ok(inserted) => ApplyInOrder(canon, docs + inserted, Known(items, ids), now)
  }

  // ---------------------------------------------------------------------------------------------
  // Pages item by item

  function UuidCount(items: seq<Item>): (n: nat)
    ensures n <= |items|
  {
    if items == [] then 0 else (if items[0].uuid.Some? then 1 else 0) + UuidCount(items[1..])
  }

  lemma {:induction false} KnownAppends(items: seq<Item>, more: seq<Item>, ids: set<string>)
    ensures Known(items + more, ids) == Known(items, ids) + Known(more, ids)
    decreases items
  {
    if items == [] {
      assert items + more == more;
    } else {
      assert (items + more)[1..] == items[1..] + more;
      KnownAppends(items[1..], more, ids);
    }
  }

  lemma {:induction false} NewAppends(items: seq<Item>, more: seq<Item>, ids: set<string>)
    ensures New(items + more, ids) == New(items, ids) + New(more, ids)
    decreases items
  {
    if items == [] {
      assert items + more == more;
    } else {
      assert (items + more)[1..] == items[1..] + more;
      NewAppends(items[1..], more, ids);
    }
  }

  lemma {:induction false} CountAppends(items: seq<Item>, more: seq<Item>)
    ensures UuidCount(items + more) == UuidCount(items) + UuidCount(more)
    decreases items
  {
    if items == [] {
      assert items + more == more;
    } else {
      assert (items + more)[1..] == items[1..] + more;
      CountAppends(items[1..], more);
    }
  }

  lemma {:induction false} ApplyAppends(canon: Canon, docs: seq<Doc>, items: seq<Item>, more: seq<Item>, now: int)
    ensures var first := ApplyInOrder(canon, docs, items, now);
      ApplyInOrder(canon, docs, items + more, now) ==
      if first.raised then first else ApplyInOrder(canon, first.docs, more, now)
    decreases items
  {
    if items == [] {
      assert items + more == more;
    } else {
      assert (items + more)[1..] == items[1..] + more;
      if Convert(canon, items[0], now).Ok? {
        ApplyAppends(canon, Upsert(docs, Convert(canon, items[0], now).value), items[1..], more, now);
      }
    }
  }

  lemma {:induction false} ConvertAppends(canon: Canon, items: seq<Item>, more: seq<Item>, now: int)
    ensures var first, second := ConvertAll(canon, items, now), ConvertAll(canon, more, now);
      var both := ConvertAll(canon, items + more, now);
      && (both.Ok? <==> first.Ok? && second.Ok?)
      && (both.Ok? ==> both.value == first.value + second.value)
    decreases items
  {
    if items == [] {
      assert items + more == more;
    } else {
      assert (items + more)[1..] == items[1..] + more;
      ConvertAppends(canon, items[1..], more, now);
    }
  }

  lemma ConvertOne(canon: Canon, item: Item, now: int)
    requires Convert(canon, item, now).Ok?
    ensures ConvertAll(canon, [item], now) == Ok([Convert(canon, item, now).value])
  {
    assert [item][1..] == [];
    assert ConvertAll(canon, [], now) == Ok([]);
    var doc := Convert(canon, item, now).value;
    assert [doc] + [] == [doc];
  }

  // ---------------------------------------------------------------------------------------------
  // Pages one after the other

  ghost function Concat(pages: seq<seq<Item>>): seq<Item> {
    if pages == [] then [] else pages[0] + Concat(pages[1..])
  }

  ghost function ImportPages(canon: Canon, docs: seq<Doc>, pages: seq<seq<Item>>, now: int): Outcome
    decreases pages
  {
    if pages == [] then Outcome(docs, false)
    else
      var first := ImportPage(canon, docs, pages[0], now);
      if first.raised then first else ImportPages(canon, first.docs, pages[1..], now)
  }

  lemma {:induction false} ConcatAppend(pages: seq<seq<Item>>, page: seq<Item>)
    ensures Concat(pages + [page]) == Concat(pages) + page
    decreases pages
  {
    if pages == [] {
      assert pages + [page] == [page] && [page][1..] == [];
    } else {
      assert (pages + [page])[1..] == pages[1..] + [page];
      ConcatAppend(pages[1..], page);
    }
  }

  lemma {:induction false} PagesAppend(canon: Canon, docs: seq<Doc>, pages: seq<seq<Item>>, page: seq<Item>, now: int)
    ensures var before := ImportPages(canon, docs, pages, now);
      ImportPages(canon, docs, pages + [page], now) ==
      if before.raised then before else ImportPage(canon, before.docs, page, now)
    decreases pages
  {
    if pages == [] {
      assert pages + [page] == [page];
      assert [page][1..] == [];
    } else {
      assert (pages + [page])[1..] == pages[1..] + [page];
      PagesAppend(canon, ImportPage(canon, docs, pages[0], now).docs, pages[1..], page, now);
    }
  }

  // ---------------------------------------------------------------------------------------------
  // The paging loop

  function PageAt(listing: seq<Item>, limit: nat, offset: nat): seq<Item>
    requires offset <= |listing|
  {
    listing[offset..if offset + limit < |listing| then offset + limit else |listing|]
  }

  // The offset after a number of pages: it advances by the items that have a uuid.
  function Offset(listing: seq<Item>, limit: nat, n: nat): (offset: nat)
    ensures offset <= |listing|
  {
    if n == 0 then 0
    else
      var before := Offset(listing, limit, n - 1);
      before + UuidCount(PageAt(listing, limit, before))
  }

  function Pages(listing: seq<Item>, limit: nat, n: nat): (pages: seq<seq<Item>>)
    ensures |pages| == n
  {
    if n == 0 then [] else Pages(listing, limit, n - 1) + [PageAt(listing, limit, Offset(listing, limit, n - 1))]
  }

  lemma {:induction false} PagesAt(listing: seq<Item>, limit: nat, n: nat, i: nat)
    requires i < n
    ensures Pages(listing, limit, n)[i] == PageAt(listing, limit, Offset(listing, limit, i))
    decreases n
  {
    if i < n - 1 {
      PagesAt(listing, limit, n - 1, i);
    }
  }

  // What the first `n` pages leave.
  ghost predicate Imported(canon: Canon, docs: seq<Doc>, listing: seq<Item>, limit: nat, now: int, n: nat, o: Outcome) {
    o == ImportPages(canon, docs, Pages(listing, limit, n), now)
  }

  // After `n` pages the loop has ended: one of them raised, or the listing was gone through.
  ghost predicate Ended(canon: Canon, docs: seq<Doc>, listing: seq<Item>, limit: nat, now: int, n: nat) {
    ImportPages(canon, docs, Pages(listing, limit, n), now).raised || Offset(listing, limit, n) == |listing|
  }

  // The loop goes on with a page on which no item has a uuid.
  ghost predicate Stuck(canon: Canon, docs: seq<Doc>, listing: seq<Item>, limit: nat, now: int, n: nat) {
    && !Ended(canon, docs, listing, limit, now, n)
    && UuidCount(PageAt(listing, limit, Offset(listing, limit, n))) == 0
  }

  ghost predicate NeverStuck(canon: Canon, docs: seq<Doc>, listing: seq<Item>, limit: nat, now: int) {
    forall n: nat :: !Stuck(canon, docs, listing, limit, now, n)
  }

  ghost predicate Ends(canon: Canon, docs: seq<Doc>, listing: seq<Item>, limit: nat, now: int) {
    exists n: nat :: Ended(canon, docs, listing, limit, now, n)
  }

  // Where the loop is after `n` pages.
  ghost predicate SweptTo(canon: Canon, docs: seq<Doc>, listing: seq<Item>, limit: nat, now: int, n: nat, offset: nat,
                          o: Outcome)
  {
    offset == Offset(listing, limit, n) <= |listing| && Imported(canon, docs, listing, limit, now, n, o)
  }

  lemma EndedThere(canon: Canon, docs: seq<Doc>, listing: seq<Item>, limit: nat, now: int, n: nat, offset: nat,
                   o: Outcome)
    requires SweptTo(canon, docs, listing, limit, now, n, offset, o) && (o.raised || offset == |listing|)
    ensures Ended(canon, docs, listing, limit, now, n) && Imported(canon, docs, listing, limit, now, n, o)
  {
  }

  lemma OnePageMore(canon: Canon, docs: seq<Doc>, listing: seq<Item>, limit: nat, now: int, n: nat)
    ensures var before := ImportPages(canon, docs, Pages(listing, limit, n), now);
      ImportPages(canon, docs, Pages(listing, limit, n + 1), now) ==
      if before.raised then before
      else ImportPage(canon, before.docs, PageAt(listing, limit, Offset(listing, limit, n)), now)
  {
    PagesAppend(canon, docs, Pages(listing, limit, n), PageAt(listing, limit, Offset(listing, limit, n)), now);
  }

  // The next page leads on, unless it raises.
  lemma NextPage(canon: Canon, start: seq<Doc>, listing: seq<Item>, limit: nat, now: int, n: nat, offset: nat,
                 docs: seq<Doc>)
    requires SweptTo(canon, start, listing, limit, now, n, offset, Outcome(docs, false)) && offset < |listing|
    requires NeverStuck(canon, start, listing, limit, now)
    ensures var page := PageAt(listing, limit, offset);
      && UuidCount(page) > 0 && !Ended(canon, start, listing, limit, now, n)
      && SweptTo(canon, start, listing, limit, now, n + 1, offset + UuidCount(page), ImportPage(canon, docs, page, now))
  {
    assert !Stuck(canon, start, listing, limit, now, n);
    OnePageMore(canon, start, listing, limit, now, n);
    assert Offset(listing, limit, n + 1) == offset + UuidCount(PageAt(listing, limit, offset));
  }

  lemma {:induction false} NothingToImport(items: seq<Item>, ids: set<string>)
    requires UuidCount(items) == 0
    ensures New(items, ids) == [] && Known(items, ids) == []
    decreases items
  {
    if items != [] {
      NothingToImport(items[1..], ids);
    }
  }

  lemma NextEnded(canon: Canon, docs: seq<Doc>, listing: seq<Item>, limit: nat, now: int, n: nat)
    requires Ended(canon, docs, listing, limit, now, n)
    ensures Ended(canon, docs, listing, limit, now, n + 1)
  {
    OnePageMore(canon, docs, listing, limit, now, n);
  }

  lemma UuidlessPage(canon: Canon, docs: seq<Doc>, page: seq<Item>, now: int)
    requires UuidCount(page) == 0
    ensures ImportPage(canon, docs, page, now) == Outcome(docs, false)
  {
    NothingToImport(page, Uuids(docs));
    assert docs + [] == docs;
  }

  lemma NextStuck(canon: Canon, docs: seq<Doc>, listing: seq<Item>, limit: nat, now: int, n: nat)
    requires Stuck(canon, docs, listing, limit, now, n)
    ensures Stuck(canon, docs, listing, limit, now, n + 1)
  {
    OnePageMore(canon, docs, listing, limit, now, n);
    UuidlessPage(canon, ImportPages(canon, docs, Pages(listing, limit, n), now).docs,
      PageAt(listing, limit, Offset(listing, limit, n)), now);
  }

  // A loop that has ended has ended for good, and one that is stuck is stuck for good.
  lemma EndedStays(canon: Canon, docs: seq<Doc>, listing: seq<Item>, limit: nat, now: int, n: nat, later: nat)
    requires n <= later && Ended(canon, docs, listing, limit, now, n)
    ensures Ended(canon, docs, listing, limit, now, later)
  {
    for m := n to later
      invariant Ended(canon, docs, listing, limit, now, m)
    {
      NextEnded(canon, docs, listing, limit, now, m);
    }
  }

  lemma StuckStays(canon: Canon, docs: seq<Doc>, listing: seq<Item>, limit: nat, now: int, n: nat, later: nat)
    requires n <= later && Stuck(canon, docs, listing, limit, now, n)
    ensures Stuck(canon, docs, listing, limit, now, later)
  {
    for m := n to later
      invariant Stuck(canon, docs, listing, limit, now, m)
    {
      NextStuck(canon, docs, listing, limit, now, m);
    }
  }

  lemma Advances(canon: Canon, docs: seq<Doc>, listing: seq<Item>, limit: nat, now: int, n: nat)
    requires NeverStuck(canon, docs, listing, limit, now)
    ensures n <= Offset(listing, limit, n) || Ended(canon, docs, listing, limit, now, n)
  {
    for m := 0 to n
      invariant m <= Offset(listing, limit, m) || Ended(canon, docs, listing, limit, now, m)
    {
      if Ended(canon, docs, listing, limit, now, m) {
        NextEnded(canon, docs, listing, limit, now, m);
      } else {
        assert !Stuck(canon, docs, listing, limit, now, m);
      }
    }
  }

  /** The loop ends, exactly: if and only if no offset it reaches has a page on which no item has a uuid. */
  lemma SweepEndsIff(canon: Canon, docs: seq<Doc>, listing: seq<Item>, limit: nat, now: int)
    ensures Ends(canon, docs, listing, limit, now) <==> NeverStuck(canon, docs, listing, limit, now)
  {
    if NeverStuck(canon, docs, listing, limit, now) {
      Advances(canon, docs, listing, limit, now, |listing| + 1);
    } else {
      var stuck: nat :| Stuck(canon, docs, listing, limit, now, stuck);
      forall n: nat
        ensures !Ended(canon, docs, listing, limit, now, n)
      {
        if stuck <= n {
          StuckStays(canon, docs, listing, limit, now, stuck, n);
        } else if Ended(canon, docs, listing, limit, now, n) {
          EndedStays(canon, docs, listing, limit, now, n, stuck);
        }
      }
    }
  }

  // Wherever a page begins in the listing, it has an item with a uuid.
  predicate NoGap(listing: seq<Item>, limit: nat) {
    forall offset :: 0 <= offset < |listing| ==> UuidCount(PageAt(listing, limit, offset)) > 0
  }

  lemma UuidsOfPart(listing: seq<Item>, from: nat, mid: nat, end: nat)
    requires from <= mid <= end <= |listing|
    ensures UuidCount(listing[from..end]) == UuidCount(listing[from..mid]) + UuidCount(listing[mid..end])
  {
    CountAppends(listing[from..mid], listing[mid..end]);
    assert listing[from..end] == listing[from..mid] + listing[mid..end];
  }

  // The page before a gap does not lead past its beginning.
  lemma StopsAtGap(listing: seq<Item>, limit: nat, offset: nat, gap: nat)
    requires offset <= gap < |listing| && UuidCount(PageAt(listing, limit, gap)) == 0
    ensures offset + UuidCount(PageAt(listing, limit, offset)) <= gap
  {
    var end := if offset + limit < |listing| then offset + limit else |listing|;
    var gapEnd := if gap + limit < |listing| then gap + limit else |listing|;
    if gap < end {
      UuidsOfPart(listing, offset, gap, end);
      UuidsOfPart(listing, gap, end, gapEnd);
    }
  }

  lemma GapIsNotPassed(listing: seq<Item>, limit: nat, n: nat, gap: nat)
    requires gap < |listing| && UuidCount(PageAt(listing, limit, gap)) == 0
    ensures Offset(listing, limit, n) <= gap
  {
    for m := 0 to n
      invariant Offset(listing, limit, m) <= gap
    {
      StopsAtGap(listing, limit, Offset(listing, limit, m), gap);
    }
  }

  ghost predicate SomeRaises(canon: Canon, docs: seq<Doc>, listing: seq<Item>, limit: nat, now: int) {
    exists n: nat :: ImportPages(canon, docs, Pages(listing, limit, n), now).raised
  }

  /** What that depends on: unless an import raises, the loop ends if and only if the listing has no stretch without
      uuids that fills a page. */
  lemma SweepEndsIffNoGap(canon: Canon, docs: seq<Doc>, listing: seq<Item>, limit: nat, now: int)
    ensures Ends(canon, docs, listing, limit, now) <==>
            NoGap(listing, limit) || SomeRaises(canon, docs, listing, limit, now)
  {
    SweepEndsIff(canon, docs, listing, limit, now);
    if NoGap(listing, limit) {
      forall n: nat
        ensures !Stuck(canon, docs, listing, limit, now, n)
      {
        assert Offset(listing, limit, n) <= |listing|;
      }
    } else if SomeRaises(canon, docs, listing, limit, now) {
      var n: nat :| ImportPages(canon, docs, Pages(listing, limit, n), now).raised;
      assert Ended(canon, docs, listing, limit, now, n);
    } else {
      var gap :| 0 <= gap < |listing| && UuidCount(PageAt(listing, limit, gap)) == 0;
      forall n: nat
        ensures !Ended(canon, docs, listing, limit, now, n)
      {
        GapIsNotPassed(listing, limit, n, gap);
      }
    }
  }

  /** A listing whose last item has no uuid is never gone through: unless an import raises, the last page is fetched
      for ever. */
  lemma LastWithoutUuidIsStuck(canon: Canon, docs: seq<Doc>, listing: seq<Item>, limit: nat, now: int)
    requires listing != [] && listing[|listing| - 1].uuid.None?
    requires !SomeRaises(canon, docs, listing, limit, now)
    ensures !Ends(canon, docs, listing, limit, now)
  {
    var last := |listing| - 1;
    assert PageAt(listing, limit, last) == if limit == 0 then [] else [listing[last]];
    assert [listing[last]][1..] == [] && UuidCount([]) == 0;
    SweepEndsIffNoGap(canon, docs, listing, limit, now);
  }

  ghost predicate OnPage(pages: seq<seq<Item>>, x: Item) {
    exists i :: 0 <= i < |pages| && x in pages[i]
  }

  lemma OnOneMore(before: seq<seq<Item>>, page: seq<Item>, x: Item)
    ensures OnPage(before + [page], x) <==> OnPage(before, x) || x in page
  {
    var pages := before + [page];
    if OnPage(before, x) {
      var i :| 0 <= i < |before| && x in before[i];
      assert x in pages[i];
    }
    if x in page {
      assert x in pages[|before|];
    }
  }

  lemma {:induction false} PagesCover(listing: seq<Item>, limit: nat, n: nat, j: nat)
    requires j < Offset(listing, limit, n)
    ensures OnPage(Pages(listing, limit, n), listing[j])
    decreases n
  {
    if n > 0 {
      var before := Offset(listing, limit, n - 1);
      var page := PageAt(listing, limit, before);
      OnOneMore(Pages(listing, limit, n - 1), page, listing[j]);
      if j < before {
        PagesCover(listing, limit, n - 1, j);
      } else {
        assert page[j - before] == listing[j];
      }
    }
  }

  lemma PageBehind(listing: seq<Item>, limit: nat, offset: nat)
    requires offset <= |listing|
    ensures var page := PageAt(listing, limit, offset);
      offset + |page| <= |listing| && listing[..offset] + page == listing[..offset + |page|]
  {
  }

  lemma {:induction false} AllCounted(items: seq<Item>)
    requires forall i :: 0 <= i < |items| ==> items[i].uuid.Some?
    ensures UuidCount(items) == |items|
    decreases items
  {
    if items != [] {
      AllCounted(items[1..]);
    }
  }

  lemma PageOfUuids(listing: seq<Item>, limit: nat, n: nat)
    requires forall i :: 0 <= i < |listing| ==> listing[i].uuid.Some?
    requires Concat(Pages(listing, limit, n)) == listing[..Offset(listing, limit, n)]
    ensures Concat(Pages(listing, limit, n + 1)) == listing[..Offset(listing, limit, n + 1)]
  {
    var offset := Offset(listing, limit, n);
    var page := PageAt(listing, limit, offset);
    ConcatAppend(Pages(listing, limit, n), page);
    PageBehind(listing, limit, offset);
    AllCounted(page);
    assert Offset(listing, limit, n + 1) == offset + |page|;
  }

  // Where every item has a uuid, the pages are consecutive.
  lemma PagesOfUuids(listing: seq<Item>, limit: nat, n: nat)
    requires forall i :: 0 <= i < |listing| ==> listing[i].uuid.Some?
    ensures Concat(Pages(listing, limit, n)) == listing[..Offset(listing, limit, n)]
  {
    for m := 0 to n
      invariant Concat(Pages(listing, limit, m)) == listing[..Offset(listing, limit, m)]
    {
      PageOfUuids(listing, limit, m);
    }
  }

  lemma PagesInOrder(listing: seq<Item>, limit: nat, n: nat)
    ensures var pages, end := Pages(listing, limit, n), Offset(listing, limit, n);
      && ((forall x :: x in listing ==> x.uuid.Some?) ==> Concat(pages) == listing[..end] <= listing)
      && (end == |listing| ==> listing[..end] == listing && forall x :: x in listing ==> OnPage(pages, x))
  {
    if forall x :: x in listing ==> x.uuid.Some? {
      PagesOfUuids(listing, limit, n);
    }
    if Offset(listing, limit, n) == |listing| {
      forall x | x in listing
        ensures OnPage(Pages(listing, limit, n), x)
      {
        var j :| 0 <= j < |listing| && listing[j] == x;
        PagesCover(listing, limit, n, j);
      }
    }
  }

  // ---------------------------------------------------------------------------------------------
  // The collection

  // The list comprehensions of `process_data` over the uuids found in the database.
  method Partition(data: seq<Item>, ids: set<string>) returns (known: seq<Item>, unseen: seq<Item>, seen: nat)
    ensures known == Known(data, ids) && unseen == New(data, ids) && seen == UuidCount(data)
  {
    known, unseen, seen := [], [], 0;
    for i := 0 to |data|
      invariant known == Known(data[..i], ids) && unseen == New(data[..i], ids)
      invariant seen == UuidCount(data[..i])
    {
      var x := data[i];
      KnownAppends(data[..i], [x], ids);
      NewAppends(data[..i], [x], ids);
      CountAppends(data[..i], [x]);
      assert data[..i + 1] == data[..i] + [x] && [x][1..] == [];
      if x.uuid.Some? {
        seen := seen + 1;
        if x.uuid.value in ids {
          known := known + [x];
        } else {
          unseen := unseen + [x];
        }
      }
    }
    assert data[..|data|] == data;
  }

  class IdentityStore {
    var docs: seq<Doc>
    var syncInfo: MongoKeys.SyncInfo

    constructor ()
      ensures docs == [] && syncInfo == map[]
    {
      docs, syncInfo := [], map[];
    }

    method CreateOrUpdate(canon: Canon, item: Item, now: int) returns (raised: bool)
      modifies this`docs
      ensures Outcome(docs, raised) == ApplyInOrder(canon, old(docs), [item], now)
      ensures raised <==> Convert(canon, item, now).Raised?
      ensures !raised ==> docs == Upsert(old(docs), Convert(canon, item, now).value)
    {
      var converted := Convert(canon, item, now);
      if converted.Raised? {
        return true;
      }
      var identity := converted.value;
      var i := IndexOf(docs, identity.uuid);
      if i < |docs| {
        docs := docs[i := identity];
      } else {
        docs := docs + [identity];
      }
      return false;
    }

    method BulkInsert(canon: Canon, items: seq<Item>, now: int) returns (raised: bool)
      modifies this`docs
      ensures raised <==> ConvertAll(canon, items, now).Raised?
      ensures docs == old(docs) + if raised then [] else ConvertAll(canon, items, now).value
    {
      var objects: seq<Doc> := [];
      for i := 0 to |items|
        invariant docs == old(docs)
        invariant ConvertAll(canon, items[..i], now) == Ok(objects)
      {
        var converted := Convert(canon, items[i], now);
        ConvertAppends(canon, items[..i], [items[i]], now);
        assert items[..i + 1] == items[..i] + [items[i]];
        if converted.Raised? {
          ConvertAppends(canon, items[..i + 1], items[i + 1..], now);
          assert items == items[..i + 1] + items[i + 1..];
          return true;
        }
        ConvertOne(canon, items[i], now);
        objects := objects + [converted.value];
      }
      assert items == items[..|items|];
      docs := docs + objects;
      return false;
    }

    method UpdateSerially(canon: Canon, items: seq<Item>, now: int) returns (raised: bool)
      modifies this`docs
      ensures Outcome(docs, raised) == ApplyInOrder(canon, old(docs), items, now)
    {
      for i := 0 to |items|
        invariant Outcome(docs, false) == ApplyInOrder(canon, old(docs), items[..i], now)
      {
        ApplyAppends(canon, old(docs), items[..i], [items[i]], now);
        assert items[..i + 1] == items[..i] + [items[i]];
        raised := CreateOrUpdate(canon, items[i], now);
        if raised {
          ApplyAppends(canon, old(docs), items[..i + 1], items[i + 1..], now);
          assert items == items[..i + 1] + items[i + 1..];
          return;
        }
      }
      assert items == items[..|items|];
      raised := false;
    }

    // Returns how many items of the page had a uuid, which is what the paging loop advances by.
    method ProcessData(canon: Canon, data: seq<Item>, now: int) returns (seen: nat, raised: bool)
      modifies this`docs
      ensures seen == UuidCount(data)
      ensures Outcome(docs, raised) == ImportPage(canon, old(docs), data, now)
    {
      var known, unseen;
      known, unseen, seen := Partition(data, set d | d in docs :: d.uuid);
      raised := BulkInsert(canon, unseen, now);
      if !raised {
        raised := UpdateSerially(canon, known, now);
      }
    }

    method SaveLastSync(host: string, at: int)
      modifies this`syncInfo
      ensures syncInfo == MongoKeys.WithLastSync(old(syncInfo), host, at)
      ensures MongoKeys.LastSync(syncInfo, host) == Some(at)
      ensures forall other :: MongoKeys.Sanitize(other) != MongoKeys.Sanitize(host) ==>
                MongoKeys.LastSync(syncInfo, other) == MongoKeys.LastSync(old(syncInfo), other)
    {
      var key := MongoKeys.Sanitize(host);
      syncInfo := syncInfo[MongoKeys.Sanitize(key) := at];
      forall other
        ensures MongoKeys.LastSync(syncInfo, other) ==
                if MongoKeys.Sanitize(other) == key then Some(at) else MongoKeys.LastSync(old(syncInfo), other)
      {
        MongoKeys.WatermarkRoundTrip(old(syncInfo), host, at, other);
      }
    }

    // One page of a sweep, after `n` pages were imported.
    method SyncPage(canon: Canon, data: seq<Item>, offset: nat, now: int, ghost listing: seq<Item>, ghost limit: nat,
                    ghost start: seq<Doc>, ghost n: nat)
      returns (next: nat, raised: bool)
      requires SweptTo(canon, start, listing, limit, now, n, offset, Outcome(docs, false)) && offset < |listing|
      requires NeverStuck(canon, start, listing, limit, now) && data == PageAt(listing, limit, offset)
      modifies this`docs
      ensures SweptTo(canon, start, listing, limit, now, n + 1, next, Outcome(docs, raised))
      ensures !Ended(canon, start, listing, limit, now, n) && (raised || offset < next)
    {
      ghost var after := ImportPage(canon, docs, data, now);
      NextPage(canon, start, listing, limit, now, n, offset, docs);
      var seen;
      seen, raised := ProcessData(canon, data, now);
      assert Outcome(docs, raised) == after;
      next := offset + seen;
    }

    // The paging loop: it stops where it is sent nothing, a page raises, or the listing was gone through.
    method ImportListing(canon: Canon, listing: seq<Item>, limit: nat, now: int)
      returns (raised: bool, complete: bool, ghost n: nat)
      requires limit >= 1 && NeverStuck(canon, docs, listing, limit, now)
      modifies this`docs
      ensures Imported(canon, old(docs), listing, limit, now, n, Outcome(docs, raised))
      ensures Ended(canon, old(docs), listing, limit, now, n)
      ensures n > 0 ==> !Ended(canon, old(docs), listing, limit, now, n - 1)
      ensures complete <==> !raised && listing != []
    {
      var offset := 0;
      ghost var start := docs;
      n := 0;
      while true
        invariant SweptTo(canon, start, listing, limit, now, n, offset, Outcome(docs, false))
        invariant offset == |listing| ==> listing == [] && n == 0
        decreases |listing| - offset
      {
        var data := listing[offset..if offset + limit < |listing| then offset + limit else |listing|];
        if data == [] {
          EndedThere(canon, start, listing, limit, now, n, offset, Outcome(docs, false));
          return false, false, n;
        }
        offset, raised := SyncPage(canon, data, offset, now, listing, limit, start, n);
        n := n + 1;
        if raised || offset >= |listing| {
          EndedThere(canon, start, listing, limit, now, n, offset, Outcome(docs, raised));
          return raised, !raised, n;
        }
      }
    }

    /** The sweep over a listing that does not change meanwhile; `limit` is the page limit of the configuration. Where
        it ends at all, it imports the consecutive pages up to the end of the listing or the first that raises, every
        listed item is on one of them unless it raised, and the watermark moves only when the whole listing was
        imported. */
    method SyncFromParent(canon: Canon, listing: seq<Item>, limit: nat, host: string, now: int)
      returns (raised: bool, ghost n: nat)
      requires limit >= 1 && NeverStuck(canon, docs, listing, limit, now)
      modifies this
      ensures Imported(canon, old(docs), listing, limit, now, n, Outcome(docs, raised))
      ensures Ended(canon, old(docs), listing, limit, now, n)
      ensures n > 0 ==> !Ended(canon, old(docs), listing, limit, now, n - 1)
      ensures !raised ==> forall x :: x in listing ==> OnPage(Pages(listing, limit, n), x)
      ensures (forall x :: x in listing ==> x.uuid.Some?) ==>
                Concat(Pages(listing, limit, n)) <= listing && (!raised ==> Concat(Pages(listing, limit, n)) == listing)
      ensures syncInfo == if raised || listing == [] then old(syncInfo)
                          else MongoKeys.WithLastSync(old(syncInfo), host, now)
    {
      var complete;
      raised, complete, n := ImportListing(canon, listing, limit, now);
      if complete {
        SaveLastSync(host, now);
      }
      PagesInOrder(listing, limit, n);
    }
  }
}
