/**
 * The Inflow and Outflow schemas. Both records have an owner, a positive
 * amount, a date, a closed enumeration (the payment channel of an inflow,
 * the category of an outflow), an optional trimmed note and a soft-delete
 * flag. `Save` is what Mongoose does to a document on `create()` and
 * `save()`: it casts the note through its `trim` setter and then runs the
 * validators, failing with every path that does not validate.
 */
module Records {
  import opened Common

  datatype RecordType = InflowType | OutflowType

  datatype Channel = Cash | Transfer | Online

  datatype Category = Restocking | Delivery | Utilities | Rent | Salaries | Other

  /** The enumerated field: `paymentChannel` on an inflow, `category` on an outflow. */
  datatype Kind = ByChannel(channel: Channel) | ByCategory(category: Category)

  function ChannelName(c: Channel): string {
    match c
    case Cash => "cash"
    case Transfer => "transfer"
    case Online => "online"
  }

  /** The `enum` validator of `paymentChannel`: exactly the three names are accepted. */
  function ParseChannel(s: string): (r: Option<Channel>)
    ensures r.Some? ==> ChannelName(r.value) == s
    ensures r.None? ==> forall c :: ChannelName(c) != s
  {
    if s == "cash" then Some(Cash)
    else if s == "transfer" then Some(Transfer)
    else if s == "online" then Some(Online)
    else None
  }

  function CategoryName(c: Category): string {
    match c
    case Restocking => "restocking"
    case Delivery => "delivery"
    case Utilities => "utilities"
    case Rent => "rent"
    case Salaries => "salaries"
    case Other => "other"
  }

  /** The `enum` validator of `category`: exactly the six names are accepted. */
  function ParseCategory(s: string): (r: Option<Category>)
    ensures r.Some? ==> CategoryName(r.value) == s
    ensures r.None? ==> forall c :: CategoryName(c) != s
  {
    if s == "restocking" then Some(Restocking)
    else if s == "delivery" then Some(Delivery)
    else if s == "utilities" then Some(Utilities)
    else if s == "rent" then Some(Rent)
    else if s == "salaries" then Some(Salaries)
    else if s == "other" then Some(Other)
    else None
  }

  /** A kind belongs to the record type: inflows carry a channel, outflows a category. */
  predicate Fits(t: RecordType, k: Kind) {
    if t == InflowType then k.ByChannel? else k.ByCategory?
  }

  function KindName(k: Kind): string {
    match k
    case ByChannel(c) => ChannelName(c)
    case ByCategory(c) => CategoryName(c)
  }

  function ParseKind(t: RecordType, s: string): (r: Option<Kind>)
    ensures r.Some? ==> Fits(t, r.value) && KindName(r.value) == s
    ensures r.None? ==> forall k :: Fits(t, k) ==> KindName(k) != s
  {
    if t == InflowType then
      match ParseChannel(s)
      case Some(c) => Some(ByChannel(c))
      case None => None
    else
      match ParseCategory(s)
      case Some(c) => Some(ByCategory(c))
      case None => None
  }

  /** Every enumerated value is accepted back under its own name. */
  lemma KindNameRoundTrip(t: RecordType, k: Kind)
    requires Fits(t, k)
    ensures ParseKind(t, KindName(k)) == Some(k)
  {
    match k {
      case ByChannel(c) =>
        match c {
          case Cash =>
          case Transfer =>
          case Online =>
        }
      case ByCategory(c) =>
        match c {
          case Restocking =>
          case Delivery =>
          case Utilities =>
          case Rent =>
          case Salaries =>
          case Other =>
        }
    }
  }

  /** The schema default of the enumerated field: `cash` for inflows, `other` for outflows. */
  function DefaultKind(t: RecordType): (k: Kind)
    ensures Fits(t, k)
    ensures KindName(k) == if t == InflowType then "cash" else "other"
  {
    if t == InflowType then ByChannel(Cash) else ByCategory(Other)
  }

  /** A stored record. */
  datatype Entry = Entry(
    id: RecordId,
    owner: UserId,
    amount: real,
    date: int,
    kind: Kind,
    note: Option<string>,
    isDeleted: bool)

  /** A document as assigned, before casting and validation: the enumerated field is still a string. */
  datatype Doc = Doc(
    id: RecordId,
    owner: UserId,
    amount: real,
    date: int,
    kind: string,
    note: Option<string>,
    isDeleted: bool)

  function ToDoc(e: Entry): Doc {
    Doc(e.id, e.owner, e.amount, e.date, KindName(e.kind), e.note, e.isDeleted)
  }

  /** The `min` validator of `amount`. */
  const MIN_AMOUNT: real := 0.01

  /** The `maxlength` validator of `note`, which compares the note's `length` in UTF-16 code units. */
  const MAX_NOTE_LENGTH: nat := 500

  /** Characters outside the Basic Multilingual Plane take two UTF-16 code units (a surrogate pair). */
  predicate IsAstral(c: char) {
    c >= '\U{10000}'
  }

  /** JavaScript's `String.prototype.length`: the number of UTF-16 code units. */
  function Utf16Length(s: string): (n: nat)
    ensures |s| <= n <= 2 * |s|
  {
    if s == [] then 0 else (if IsAstral(s[0]) then 2 else 1) + Utf16Length(s[1..])
  }

  /** The UTF-16 length is the number of characters exactly when no character is outside the Basic Multilingual Plane. */
  lemma {:induction false} Utf16LengthIsLength(s: string)
    ensures Utf16Length(s) == |s| <==> forall i :: 0 <= i < |s| ==> !IsAstral(s[i])
  {
    if s != [] {
      Utf16LengthIsLength(s[1..]);
      assert forall i :: 1 <= i < |s| ==> s[i] == s[1..][i - 1];
    }
  }

  /** A string made only of characters outside the Basic Multilingual Plane is twice as long in UTF-16. */
  lemma {:induction false} AstralLengthDoubles(s: string)
    requires forall i :: 0 <= i < |s| ==> IsAstral(s[i])
    ensures Utf16Length(s) == 2 * |s|
  {
    if s != [] {
      AstralLengthDoubles(s[1..]);
    }
  }

  /** White space and line terminators, the characters `String.prototype.trim` removes. */
  predicate IsSpace(c: char) {
    || c == ' ' || c == '\t' || c == '\n' || c == '\r'
    || c == '\U{000B}' || c == '\U{000C}' || c == '\U{00A0}' || c == '\U{1680}'
    || ('\U{2000}' <= c <= '\U{200A}')
    || c == '\U{2028}' || c == '\U{2029}' || c == '\U{202F}' || c == '\U{205F}'
    || c == '\U{3000}' || c == '\U{FEFF}'
  }

  function TrimStart(s: string): (r: string)
    ensures |r| <= |s| && r == s[|s| - |r|..]
    ensures r == [] || !IsSpace(r[0])
    ensures forall i :: 0 <= i < |s| - |r| ==> IsSpace(s[i])
  {
    if s != [] && IsSpace(s[0]) then TrimStart(s[1..]) else s
  }

  function TrimEnd(s: string): (r: string)
    ensures |r| <= |s| && r == s[..|r|]
    ensures r == [] || !IsSpace(r[|r| - 1])
    ensures forall i :: |r| <= i < |s| ==> IsSpace(s[i])
  {
    if s != [] && IsSpace(s[|s| - 1]) then TrimEnd(s[..|s| - 1]) else s
  }

  /** How many white-space characters `s` starts with. */
  function LeadingSpaces(s: string): nat {
    |s| - |TrimStart(s)|
  }

  /** The `trim` setter of `note`: drops the white space at both ends and nothing else. */
  function Trim(s: string): (r: string)
    ensures LeadingSpaces(s) + |r| <= |s|
    ensures r == s[LeadingSpaces(s)..LeadingSpaces(s) + |r|]
    ensures forall i :: 0 <= i < |s| && !(LeadingSpaces(s) <= i < LeadingSpaces(s) + |r|) ==> IsSpace(s[i])
    ensures r == [] || (!IsSpace(r[0]) && !IsSpace(r[|r| - 1]))
  {
    var a := TrimStart(s);
    var r := TrimEnd(a);
    assert r == s[|s| - |a|..][..|r|] == s[|s| - |a|..|s| - |a| + |r|];
    forall i | |s| - |a| + |r| <= i < |s| ensures IsSpace(s[i]) {
      assert s[i] == a[i - (|s| - |a|)];
    }
    r
  }

  /** Trimming twice is trimming once. */
  lemma TrimIdempotent(s: string)
    ensures Trim(Trim(s)) == Trim(s)
  {
    var r := Trim(s);
    assert TrimStart(r) == r;
    assert TrimEnd(r) == r;
  }

  function CastNote(n: Option<string>): Option<string> {
    if n.Some? then Some(Trim(n.value)) else None
  }

  /** The paths whose validators reject the document once cast. */
  function Failures(t: RecordType, d: Doc): (fs: set<Field>)
    ensures AmountField in fs <==> d.amount < MIN_AMOUNT
    ensures KindField in fs <==> forall k :: Fits(t, k) ==> KindName(k) != d.kind
    ensures NoteField in fs <==> d.note.Some? && Utf16Length(Trim(d.note.value)) > MAX_NOTE_LENGTH
  {
    var amount: set<Field> := if d.amount < MIN_AMOUNT then {AmountField} else {};
    var kind: set<Field> := if ParseKind(t, d.kind).None? then {KindField} else {};
    var note: set<Field> := if d.note.Some? && Utf16Length(Trim(d.note.value)) > MAX_NOTE_LENGTH then {NoteField} else {};
    assert ParseKind(t, d.kind).Some? ==> Fits(t, ParseKind(t, d.kind).value);
    amount + kind + note
  }

  lemma CastNoteIsTrimmed(n: Option<string>)
    ensures CastNote(n).Some? ==> Trim(CastNote(n).value) == CastNote(n).value
  {
    if n.Some? {
      TrimIdempotent(n.value);
    }
  }

  /** What every stored record of type `t` satisfies. */
  predicate Conforms(t: RecordType, e: Entry) {
    && e.amount >= MIN_AMOUNT
    && Fits(t, e.kind)
    && (e.note.Some? ==> Trim(e.note.value) == e.note.value && Utf16Length(e.note.value) <= MAX_NOTE_LENGTH)
  }

  /** A note without white space is kept as it is by the `trim` setter. */
  lemma TrimKeepsSpaceless(s: string)
    requires forall i :: 0 <= i < |s| ==> !IsSpace(s[i])
    ensures Trim(s) == s
  {
  }

  /**
   * The note limit counts UTF-16 code units, not characters: 251 characters
   * outside the Basic Multilingual Plane (emoji, say) are 502 units long and
   * the note is refused.
   */
  lemma AstralNoteTooLong(t: RecordType, d: Doc)
    requires d.note.Some? && |d.note.value| == 251
    requires forall i :: 0 <= i < |d.note.value| ==> IsAstral(d.note.value[i])
    ensures NoteField in Failures(t, d)
  {
    var s := d.note.value;
    forall i | 0 <= i < |s| ensures !IsSpace(s[i]) {
      assert IsAstral(s[i]);
    }
    TrimKeepsSpaceless(s);
    AstralLengthDoubles(s);
  }

  /**
   * Casting and validating a document: it is stored exactly when no path
   * fails, the stored record conforms to the schema, and it is the document
   * with its note trimmed and its enumerated string resolved.
   */
  function Save(t: RecordType, d: Doc): (r: Result<Entry>)
    ensures r.Ok? <==> Failures(t, d) == {}
    ensures r.Err? ==> r.error == Invalid(Failures(t, d))
    ensures r.Ok? ==> Conforms(t, r.value) && ToDoc(r.value) == d.(note := CastNote(d.note))
  {
    var fs := Failures(t, d);
    if fs != {} then Err(Invalid(fs))
    else
      var k := ParseKind(t, d.kind);
      CastNoteIsTrimmed(d.note);
      Ok(Entry(d.id, d.owner, d.amount, d.date, k.value, CastNote(d.note), d.isDeleted))
  }

  /** Saving a stored record unchanged stores it unchanged. */
  lemma SaveRoundTrip(t: RecordType, e: Entry)
    requires Conforms(t, e)
    ensures Save(t, ToDoc(e)) == Ok(e)
  {
    KindNameRoundTrip(t, e.kind);
  }

  /** `softDelete()`: the flag is set and no other field changes. */
  function SoftDelete(e: Entry): (r: Entry)
    ensures r.isDeleted
    ensures r.(isDeleted := e.isDeleted) == e
  {
    e.(isDeleted := true)
  }

  /** Deleting twice is deleting once, and a deleted record still conforms to its schema. */
  lemma SoftDeleteIdempotent(t: RecordType, e: Entry)
    ensures SoftDelete(SoftDelete(e)) == SoftDelete(e)
    ensures Conforms(t, SoftDelete(e)) == Conforms(t, e)
  {
  }
}
