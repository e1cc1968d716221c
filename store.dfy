/**
 * The record store behind the inflow and outflow controllers, which are
 * copies of each other up to the record type: create with validation and
 * defaults, point lookup, partial update, soft delete and the filtered,
 * sorted, paginated list. Every operation is scoped to the calling owner,
 * and a record that is missing, foreign or soft-deleted is reported the
 * same way.
 */
module Store {
  import opened Common
  import opened Records
  import opened Ordering
  import opened Paging

  /** The 400 answer of create when the amount is absent, zero or negative. */
  const INVALID_AMOUNT: string := "Please provide a valid amount"

  function NotFoundMessage(t: RecordType): string {
    if t == InflowType then "Inflow not found" else "Outflow not found"
  }

  /** The fields a create or update request supplies; `None` is a field left out. */
  datatype Draft = Draft(amount: Option<real>, date: Option<int>, kind: Option<string>, note: Option<string>)

  ghost predicate UniqueIds(rs: seq<Entry>) {
    forall i, j :: 0 <= i < j < |rs| ==> rs[i].id != rs[j].id
  }

  ghost predicate WellFormed(t: RecordType, rs: seq<Entry>) {
    && (forall i :: 0 <= i < |rs| ==> Conforms(t, rs[i]))
    && UniqueIds(rs)
  }

  function EntryDate(e: Entry): int {
    e.date
  }

  // ---------------------------------------------------------------- create

  /** `paymentChannel || 'cash'` and `category || 'other'`: an absent or empty value takes the default. */
  function KindOrDefault(t: RecordType, k: Option<string>): (r: string)
    ensures (k.None? || k.value == "") ==> ParseKind(t, r) == Some(DefaultKind(t))
    ensures k.Some? && k.value != "" ==> r == k.value
  {
    KindNameRoundTrip(t, DefaultKind(t));
    if k.None? || k.value == "" then KindName(DefaultKind(t)) else k.value
  }

  /** `date || new Date()`: an absent date, or the falsy timestamp 0, takes the current time. */
  function DateOrNow(date: Option<int>, now: int): (r: int)
    ensures (date.None? || date.value == 0) ==> r == now
    ensures date.Some? && date.value != 0 ==> r == date.value
  {
    if date.None? || date.value == 0 then now else date.value
  }

  /**
   * The record a create request yields. An absent, zero or negative amount is
   * the controller's 400; everything else goes through the schema, so a
   * record is stored with the caller as owner, the date defaulting to `now`,
   * the enumerated field to its default, and `isDeleted` false.
   */
  function NewRecord(t: RecordType, owner: UserId, id: RecordId, d: Draft, now: int): (r: Result<Entry>)
    ensures (d.amount.None? || d.amount.value <= 0.0) <==> r == Err(BadRequest(INVALID_AMOUNT))
    ensures d.amount.Some? && d.amount.value > 0.0 ==>
      var doc := Doc(id, owner, d.amount.value, DateOrNow(d.date, now), KindOrDefault(t, d.kind), d.note, false);
      && (r.Ok? <==> Failures(t, doc) == {})
      && (r.Err? ==> r.error == Invalid(Failures(t, doc)))
    ensures r.Ok? ==>
      && Conforms(t, r.value)
      && r.value.id == id && r.value.owner == owner && !r.value.isDeleted
      && r.value.amount == d.amount.value
      && r.value.date == DateOrNow(d.date, now)
      && KindName(r.value.kind) == KindOrDefault(t, d.kind)
      && r.value.note == CastNote(d.note)
  {
    if d.amount.None? || d.amount.value <= 0.0 then Err(BadRequest(INVALID_AMOUNT))
    else Save(t, Doc(id, owner, d.amount.value, DateOrNow(d.date, now), KindOrDefault(t, d.kind), d.note, false))
  }

  /**
   * A create request with a valid amount and no enumerated value is stored
   * with the type's default (`cash` for an inflow, `other` for an outflow),
   * today's date when none is given, and not deleted.
   */
  lemma CreateDefaults(t: RecordType, owner: UserId, id: RecordId, d: Draft, now: int)
    requires d.amount.Some? && d.amount.value >= MIN_AMOUNT
    requires d.kind.None? || d.kind.value == ""
    requires d.note.None?
    ensures NewRecord(t, owner, id, d, now) == Ok(Entry(id, owner, d.amount.value, DateOrNow(d.date, now), DefaultKind(t), None, false))
  {
    KindNameRoundTrip(t, DefaultKind(t));
  }

  /**
   * The controller only rejects amounts that are not positive; a positive
   * amount under the schema minimum passes it and is refused by the schema's
   * validator instead, so it is not stored either.
   */
  lemma CreateBelowMinimum(t: RecordType, owner: UserId, id: RecordId, d: Draft, now: int)
    requires d.amount.Some? && 0.0 < d.amount.value < MIN_AMOUNT
    ensures NewRecord(t, owner, id, d, now).Err?
    ensures NewRecord(t, owner, id, d, now).error.Invalid?
    ensures AmountField in NewRecord(t, owner, id, d, now).error.fields
  {
  }

  // ---------------------------------------------------------------- lookup

  /** The caller's live records, with no date or kind condition. */
  function Live(owner: UserId): Query {
    Query(owner, None, None)
  }

  /** What `findOne({ _id: id, user: owner, isDeleted: false })` matches. */
  predicate Visible(e: Entry, owner: UserId, id: RecordId) {
    e.id == id && e.owner == owner && !e.isDeleted
  }

  /** The position of the record `findOne` returns, the first one it matches. */
  function Locate(rs: seq<Entry>, owner: UserId, id: RecordId): (r: Option<nat>)
    ensures r.Some? ==> r.value < |rs| && Visible(rs[r.value], owner, id)
    ensures r.Some? ==> forall j :: 0 <= j < r.value ==> !Visible(rs[j], owner, id)
    ensures r.None? <==> forall j :: 0 <= j < |rs| ==> !Visible(rs[j], owner, id)
  {
    if rs == [] then None
    else if Visible(rs[0], owner, id) then Some(0)
    else
      match Locate(rs[1..], owner, id)
      case None => None
      case Some(k) => Some(k + 1)
  }

  /** Ids being unique, the record a lookup finds is the only one with that id. */
  lemma LocateUnique(rs: seq<Entry>, i: nat, owner: UserId, id: RecordId)
    requires UniqueIds(rs)
    requires i < |rs| && Visible(rs[i], owner, id)
    ensures Locate(rs, owner, id) == Some(i)
  {
  }

  /**
   * getInflowById / getOutflowById: the caller's record with that id if it is
   * not deleted; otherwise one and the same 404, whatever the reason.
   */
  function Lookup(t: RecordType, rs: seq<Entry>, owner: UserId, id: RecordId): (r: Result<Entry>)
    ensures r.Ok? <==> exists i :: 0 <= i < |rs| && Visible(rs[i], owner, id)
    ensures r.Ok? ==> r.value in rs && Visible(r.value, owner, id)
    ensures r.Err? ==> r.error == NotFound(NotFoundMessage(t))
  {
    match Locate(rs, owner, id)
    case Some(i) => Ok(rs[i])
    case None => Err(NotFound(NotFoundMessage(t)))
  }

  /**
   * A lookup sees only the caller's live records: dropping every record of
   * other owners and every deleted record changes no answer, so a foreign
   * record cannot be told apart from a missing one.
   */
  lemma {:induction false} LookupSeesOnlyOwn(t: RecordType, rs: seq<Entry>, owner: UserId, id: RecordId)
    ensures Lookup(t, rs, owner, id) == Lookup(t, Select(rs, Live(owner)), owner, id)
  {
    LocateSeesOnlyOwn(rs, owner, id);
  }

  lemma {:induction false} LocateSeesOnlyOwn(rs: seq<Entry>, owner: UserId, id: RecordId)
    ensures var own := Select(rs, Live(owner));
            match Locate(rs, owner, id)
            case None => Locate(own, owner, id).None?
            case Some(i) => Locate(own, owner, id).Some? && own[Locate(own, owner, id).value] == rs[i]
  {
    if rs != [] {
      LocateSeesOnlyOwn(rs[1..], owner, id);
      var q := Live(owner);
      var own, rest := Select(rs, q), Select(rs[1..], q);
      if Matches(rs[0], q) {
        assert own == [rs[0]] + rest;
        if !Visible(rs[0], owner, id) {
          assert own[1..] == rest;
          match Locate(rs[1..], owner, id)
          case None =>
          case Some(k) =>
            assert own[Locate(rest, owner, id).value + 1] == rest[Locate(rest, owner, id).value];
        }
      } else {
        assert own == rest;
      }
    }
  }

  // ---------------------------------------------------------------- update

  /**
   * The record an update request leaves behind: the supplied fields replace
   * the stored ones, the others are kept, and the document is validated
   * again on save.
   */
  function Patched(t: RecordType, e: Entry, p: Draft): (r: Result<Entry>)
    ensures r.Err? ==> r.error.Invalid? && r.error.fields != {}
    ensures r.Ok? ==>
      && Conforms(t, r.value)
      && r.value.id == e.id && r.value.owner == e.owner && r.value.isDeleted == e.isDeleted
      && r.value.amount == p.amount.GetOr(e.amount) && r.value.date == p.date.GetOr(e.date)
  {
    Save(t, Doc(e.id, e.owner, p.amount.GetOr(e.amount), p.date.GetOr(e.date),
                p.kind.GetOr(KindName(e.kind)), if p.note.Some? then p.note else e.note, e.isDeleted))
  }

  /**
   * An update changes only the fields it supplies: id, owner and the delete
   * flag never change, an unsupplied field keeps its value, and only a
   * supplied field can make the save fail. Unlike create, an update with a
   * zero or negative amount, or an empty enumerated value, is refused by the
   * schema rather than by the controller.
   */
  lemma PatchChangesOnlySupplied(t: RecordType, e: Entry, p: Draft)
    requires Conforms(t, e)
    ensures Patched(t, e, p).Ok? <==>
      && (p.amount.None? || p.amount.value >= MIN_AMOUNT)
      && (p.kind.None? || ParseKind(t, p.kind.value).Some?)
      && (p.note.None? || Utf16Length(Trim(p.note.value)) <= MAX_NOTE_LENGTH)
    ensures Patched(t, e, p).Ok? ==>
      var n := Patched(t, e, p).value;
      && n.id == e.id && n.owner == e.owner && n.isDeleted == e.isDeleted
      && n.amount == p.amount.GetOr(e.amount)
      && n.date == p.date.GetOr(e.date)
      && (if p.kind.Some? then KindName(n.kind) == p.kind.value else n.kind == e.kind)
      && n.note == (if p.note.Some? then CastNote(p.note) else e.note)
  {
    KindNameRoundTrip(t, e.kind);
    if p.note.None? && e.note.Some? {
      assert Utf16Length(Trim(e.note.value)) <= MAX_NOTE_LENGTH;
    }
    var k := p.kind.GetOr(KindName(e.kind));
    if p.kind.Some? && ParseKind(t, p.kind.value).None? {
      assert KindField in Failures(t, Doc(e.id, e.owner, p.amount.GetOr(e.amount), p.date.GetOr(e.date),
                k, if p.note.Some? then p.note else e.note, e.isDeleted));
    }
    if p.kind.None? && Patched(t, e, p).Ok? {
      var n := Patched(t, e, p).value;
      assert KindName(n.kind) == KindName(e.kind);
      assert Fits(t, n.kind) && Fits(t, e.kind);
      KindNameRoundTrip(t, n.kind);
    }
  }

  /** An update that supplies nothing saves the record as it was. */
  lemma EmptyPatchKeepsRecord(t: RecordType, e: Entry)
    requires Conforms(t, e)
    ensures Patched(t, e, Draft(None, None, None, None)) == Ok(e)
  {
    SaveRoundTrip(t, e);
  }

  // ---------------------------------------------------------------- list

  /** The conditions of a query: owner, not deleted, an optional date window, an optional enumerated value. */
  datatype Query = Query(owner: UserId, window: Option<Window>, kind: Option<string>)

  predicate Matches(e: Entry, q: Query) {
    && e.owner == q.owner
    && !e.isDeleted
    && (q.window.Some? ==> q.window.value.Contains(e.date))
    && (q.kind.Some? ==> KindName(e.kind) == q.kind.value)
  }

  /** The records a query matches, in store order. */
  function Select(rs: seq<Entry>, q: Query): (r: seq<Entry>)
    ensures |r| <= |rs|
    ensures forall e :: e in r <==> e in rs && Matches(e, q)
  {
    if rs == [] then []
    else (if Matches(rs[0], q) then [rs[0]] else []) + Select(rs[1..], q)
  }

  lemma {:induction false} SelectAppend(a: seq<Entry>, b: seq<Entry>, q: Query)
    ensures Select(a + b, q) == Select(a, q) + Select(b, q)
  {
    if a == [] {
      assert a + b == b;
    } else {
      var head := if Matches(a[0], q) then [a[0]] else [];
      calc {
        Select(a + b, q);
        { assert (a + b)[0] == a[0] && (a + b)[1..] == a[1..] + b; }
        head + Select(a[1..] + b, q);
        { SelectAppend(a[1..], b, q); }
        head + (Select(a[1..], q) + Select(b, q));
        (head + Select(a[1..], q)) + Select(b, q);
      }
    }
  }

  /** The `date` and `channel`/`category` query parameters; an absent or empty parameter filters nothing. */
  datatype ListFilter = ListFilter(day: Option<int>, kind: Option<string>)

  function ListQuery(owner: UserId, f: ListFilter): Query {
    Query(owner,
          if f.day.Some? then Some(DayWindow(f.day.value)) else None,
          if f.kind.Some? && f.kind.value != "" then f.kind else None)
  }

  datatype Listing = Listing(items: seq<Entry>, total: nat, page: nat, pages: nat)

  const DEFAULT_PAGE: nat := 1
  const DEFAULT_LIST_LIMIT: nat := 50

  predicate ValidPaging(page: Option<int>, limit: Option<int>) {
    (page.Some? ==> page.value >= 1) && (limit.Some? ==> limit.value >= 1)
  }

  /**
   * getInflows / getOutflows: the matching records sorted by date, newest
   * first, then page `page` of `limit` of them (1 and 50 by default); the
   * total counts every match before pagination.
   */
  function List(rs: seq<Entry>, owner: UserId, f: ListFilter, page: Option<int>, limit: Option<int>): (r: Listing)
    requires ValidPaging(page, limit)
    ensures r.total == |Select(rs, ListQuery(owner, f))|
    ensures r.page == page.GetOr(DEFAULT_PAGE)
    ensures r.items == Slice(SortDesc(Select(rs, ListQuery(owner, f)), EntryDate),
                             Skip(page.GetOr(DEFAULT_PAGE), limit.GetOr(DEFAULT_LIST_LIMIT)), limit.GetOr(DEFAULT_LIST_LIMIT))
    ensures r.pages == PageCount(r.total, limit.GetOr(DEFAULT_LIST_LIMIT))
    ensures |r.items| <= limit.GetOr(DEFAULT_LIST_LIMIT)
    ensures SortedDesc(r.items, EntryDate)
    ensures forall e :: e in r.items ==>
      && e in rs && e.owner == owner && !e.isDeleted
      && (f.day.Some? ==> DayStart(e.date) == DayStart(f.day.value))
      && (f.kind.Some? && f.kind.value != "" ==> KindName(e.kind) == f.kind.value)
  {
    var p: nat := page.GetOr(DEFAULT_PAGE);
    var l: nat := limit.GetOr(DEFAULT_LIST_LIMIT);
    var matched := Select(rs, ListQuery(owner, f));
    var sorted := SortDesc(matched, EntryDate);
    var items := Slice(sorted, Skip(p, l), l);
    PageOfSorted(matched, Skip(p, l), l);
    Listing(items, |matched|, p, PageCount(|matched|, l))
  }

  /** A page of the sorted matches holds only matches, newest first. */
  lemma PageOfSorted(matched: seq<Entry>, skip: nat, limit: nat)
    ensures var sorted := SortDesc(matched, EntryDate);
            var items := Slice(sorted, skip, limit);
            && SortedDesc(items, EntryDate)
            && forall e :: e in items ==> e in matched
  {
    var sorted := SortDesc(matched, EntryDate);
    var items := Slice(sorted, skip, limit);
    forall e | e in items ensures e in matched {
      var k :| 0 <= k < |items| && items[k] == e;
      assert sorted[skip + k] == e;
      assert e in multiset(sorted);
    }
    SortedPage(sorted, EntryDate, skip, limit);
  }

  /** A page of results sorted newest first is itself sorted newest first. */
  lemma SortedPage<T>(sorted: seq<T>, key: T -> int, skip: nat, limit: nat)
    requires SortedDesc(sorted, key)
    ensures SortedDesc(Slice(sorted, skip, limit), key)
  {
    var items := Slice(sorted, skip, limit);
    forall i, j | 0 <= i < j < |items| ensures key(items[i]) >= key(items[j]) {
      assert items[i] == sorted[skip + i] && items[j] == sorted[skip + j];
    }
  }

  /** Every matching record is on one of the pages 1..pages. */
  lemma ListReachesEveryMatch(rs: seq<Entry>, owner: UserId, f: ListFilter, limit: Option<int>, e: Entry)
    requires limit.Some? ==> limit.value >= 1
    requires e in rs && Matches(e, ListQuery(owner, f))
    ensures exists page :: 1 <= page <= List(rs, owner, f, None, limit).pages &&
                           e in List(rs, owner, f, Some(page), limit).items
  {
    var l: nat := limit.GetOr(DEFAULT_LIST_LIMIT);
    var matched := Select(rs, ListQuery(owner, f));
    var sorted := SortDesc(matched, EntryDate);
    assert e in multiset(sorted);
    var k :| 0 <= k < |sorted| && sorted[k] == e;
    PageHolds(sorted, k, l);
    var page := k / l + 1;
    assert List(rs, owner, f, Some(page), limit).items == Slice(sorted, Skip(page, l), l);
  }

  /** A page after the last one is empty rather than an error. */
  lemma ListPastLastPage(rs: seq<Entry>, owner: UserId, f: ListFilter, page: int, limit: Option<int>)
    requires page >= 1 && (limit.Some? ==> limit.value >= 1)
    requires page > List(rs, owner, f, None, limit).pages
    ensures List(rs, owner, f, Some(page), limit).items == []
  {
    var matched := Select(rs, ListQuery(owner, f));
    PageBeyondEndIsEmpty(SortDesc(matched, EntryDate), page, limit.GetOr(DEFAULT_LIST_LIMIT));
  }

  /** With a `channel` filter, an inflow listing holds only records of that channel. */
  lemma ListByChannel(rs: seq<Entry>, owner: UserId, day: Option<int>, c: Channel, page: Option<int>, limit: Option<int>)
    requires WellFormed(InflowType, rs) && ValidPaging(page, limit)
    ensures forall e :: e in List(rs, owner, ListFilter(day, Some(ChannelName(c))), page, limit).items ==>
                          e.kind == ByChannel(c)
  {
    forall e | e in List(rs, owner, ListFilter(day, Some(ChannelName(c))), page, limit).items
      ensures e.kind == ByChannel(c)
    {
      var i :| 0 <= i < |rs| && rs[i] == e;
      assert Conforms(InflowType, rs[i]);
      KindNameRoundTrip(InflowType, e.kind);
      KindNameRoundTrip(InflowType, ByChannel(c));
    }
  }

  /** With a `category` filter, an outflow listing holds only records of that category. */
  lemma ListByCategory(rs: seq<Entry>, owner: UserId, day: Option<int>, c: Category, page: Option<int>, limit: Option<int>)
    requires WellFormed(OutflowType, rs) && ValidPaging(page, limit)
    ensures forall e :: e in List(rs, owner, ListFilter(day, Some(CategoryName(c))), page, limit).items ==>
                          e.kind == ByCategory(c)
  {
    forall e | e in List(rs, owner, ListFilter(day, Some(CategoryName(c))), page, limit).items
      ensures e.kind == ByCategory(c)
    {
      var i :| 0 <= i < |rs| && rs[i] == e;
      assert Conforms(OutflowType, rs[i]);
      KindNameRoundTrip(OutflowType, e.kind);
      KindNameRoundTrip(OutflowType, ByCategory(c));
    }
  }

  // ---------------------------------------------------------------- lifecycle

  /** A record just created is found again by its owner under its new id, as it was stored. */
  lemma CreateThenLookup(t: RecordType, rs: seq<Entry>, nextId: RecordId, owner: UserId, d: Draft, now: int)
    requires forall i :: 0 <= i < |rs| ==> rs[i].id < nextId
    requires NewRecord(t, owner, nextId, d, now).Ok?
    ensures Lookup(t, rs + [NewRecord(t, owner, nextId, d, now).value], owner, nextId)
            == NewRecord(t, owner, nextId, d, now)
  {
    var e := NewRecord(t, owner, nextId, d, now).value;
    var rs' := rs + [e];
    assert Visible(rs'[|rs|], owner, nextId);
    assert Locate(rs', owner, nextId) == Some(|rs|);
  }

  /** After a soft delete the record is no longer found, so deleting it again is a 404. */
  lemma DeleteThenNotFound(t: RecordType, rs: seq<Entry>, owner: UserId, id: RecordId)
    requires UniqueIds(rs)
    requires Locate(rs, owner, id).Some?
    ensures var i := Locate(rs, owner, id).value;
            Lookup(t, rs[i := SoftDelete(rs[i])], owner, id) == Err(NotFound(NotFoundMessage(t)))
  {
    var i := Locate(rs, owner, id).value;
    var rs' := rs[i := SoftDelete(rs[i])];
    forall j | 0 <= j < |rs'| ensures !Visible(rs'[j], owner, id) {
      if j != i {
        assert rs'[j] == rs[j];
      }
    }
  }

  /** The field assignments of an update: each supplied field overwrites the document's, one by one. */
  method Assign(doc: Doc, p: Draft) returns (d: Doc)
    ensures d == doc.(amount := p.amount.GetOr(doc.amount), date := p.date.GetOr(doc.date),
                      kind := p.kind.GetOr(doc.kind), note := if p.note.Some? then p.note else doc.note)
  {
    d := doc;
    if p.amount.Some? {
      d := d.(amount := p.amount.value);
    }
    if p.date.Some? {
      d := d.(date := p.date.value);
    }
    if p.kind.Some? {
      d := d.(kind := p.kind.value);
    }
    if p.note.Some? {
      d := d.(note := p.note);
    }
  }

  // ---------------------------------------------------------------- the collection

  /** One collection of records of a single type, with the identifier of the next record it creates. */
  class Collection {
    const recordType: RecordType
    var records: seq<Entry>
    var nextId: nat

    ghost predicate Valid()
      reads this
    {
      && WellFormed(recordType, records)
      && (forall i :: 0 <= i < |records| ==> records[i].id < nextId)
    }

    constructor (t: RecordType)
      ensures Valid() && recordType == t && records == []
    {
      recordType := t;
      records := [];
      nextId := 0;
    }

    /** createInflow / createOutflow: guard the amount, default, validate, then append. */
    method Create(owner: UserId, d: Draft, now: int) returns (r: Result<Entry>)
      requires Valid()
      modifies this
      ensures Valid()
      ensures r == NewRecord(recordType, owner, old(nextId), d, now)
      ensures records == if r.Ok? then old(records) + [r.value] else old(records)
      ensures nextId == if r.Ok? then old(nextId) + 1 else old(nextId)
    {
      if d.amount.None? || d.amount.value <= 0.0 {
        return Err(BadRequest(INVALID_AMOUNT));
      }
      var doc := Doc(nextId, owner, d.amount.value, DateOrNow(d.date, now), KindOrDefault(recordType, d.kind), d.note, false);
      r := Save(recordType, doc);
      if r.Ok? {
        records := records + [r.value];
        nextId := nextId + 1;
      }
    }

    /** updateInflow / updateOutflow: find the caller's live record, assign the supplied fields one by one, save. */
    method Update(owner: UserId, id: RecordId, p: Draft) returns (r: Result<Entry>)
      requires Valid()
      modifies this
      ensures Valid() && nextId == old(nextId)
      ensures r == match Locate(old(records), owner, id)
                   case None => Err(NotFound(NotFoundMessage(recordType)))
                   case Some(i) => Patched(recordType, old(records)[i], p)
      ensures records == if r.Ok? then old(records)[Locate(old(records), owner, id).value := r.value]
                         else old(records)
    {
      var found := Locate(records, owner, id);
      if found.None? {
        return Err(NotFound(NotFoundMessage(recordType)));
      }
      var i := found.value;
      var doc := Assign(ToDoc(records[i]), p);
      r := Save(recordType, doc);
      if r.Ok? {
        records := records[i := r.value];
      }
    }

    /**
     * deleteInflow / deleteOutflow: find the caller's live record, set its flag
     * and save it again, which a stored record always passes; nothing is removed.
     */
    method Delete(owner: UserId, id: RecordId) returns (r: Outcome)
      requires Valid()
      modifies this
      ensures Valid() && nextId == old(nextId) && |records| == |old(records)|
      ensures r == if Locate(old(records), owner, id).None? then Fail(NotFound(NotFoundMessage(recordType))) else Pass
      ensures records == match Locate(old(records), owner, id)
                         case None => old(records)
                         case Some(i) => old(records)[i := SoftDelete(old(records)[i])]
    {
      var found := Locate(records, owner, id);
      if found.None? {
        return Fail(NotFound(NotFoundMessage(recordType)));
      }
      var i := found.value;
      var deleted := SoftDelete(records[i]);
      SaveRoundTrip(recordType, deleted);
      var saved := Save(recordType, ToDoc(deleted));
      records := records[i := saved.value];
      r := Pass;
    }
  }
}
