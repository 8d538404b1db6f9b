/** What travels between the browser and the spreadsheet endpoint: the
    payload objects the data service posts, the form fields they become,
    and the outcomes a request can have. The spreadsheet keeps every cell
    as text, so `DecodeSave` reads a saved offer back from its fields; the
    round trip `DecodeSave(FormOf(SavePayload(o))) == Some(o)` is what lets
    the remote store hold the offers the local cache holds. */
module SheetWire {
  import opened Types
  import opened JsText

  /** A payload value by its JavaScript `typeof`; an object carries the
      text `JSON.stringify` gives it. */
  datatype Value = Text(s: string) | Number(n: int) | Flag(b: bool) | Object(json: string)

  /** The text one payload key is appended with: JSON text for objects,
      `String(v)` for everything else. */
  function FieldText(v: Value): string
  {
    match v
    case Object(json) => json
    case Text(s) => s
    case Number(n) => IntText(n)
    case Flag(b) => if b then "true" else "false"
  }

  /** A payload object: its keys in `Object.keys` order. */
  type Payload = seq<(string, Value)>

  /** A form body: name/value pairs in append order. */
  type Form = seq<(string, string)>

  /** The form for a payload: one field per key, in key order. */
  function FormOf(p: Payload): (f: Form)
    ensures |f| == |p|
    ensures forall i :: 0 <= i < |p| ==> f[i].0 == p[i].0
  {
    seq(|p|, i requires 0 <= i < |p| => (p[i].0, FieldText(p[i].1)))
  }

  /** `{ action: 'save', ...offer }` for an offer built by `addOffer`, whose
      keys come in the creation form's order and then id, createdAt,
      status, reputation and verified. An absent optional key is left out. */
  function SavePayload(o: Offer): (p: Payload)
    ensures p != [] && p[0] == ("action", Text("save"))
  {
    [("action", Text("save")),
     ("type", Text(OfferTypeText(o.offerType))),
     ("title", Text(o.title)),
     ("asset", Text(o.asset)),
     ("price", Text(o.price)),
     ("location", Text(o.location)),
     ("category", Text(CategoryText(o.category))),
     ("description", Text(o.description)),
     ("contactInfo", Text(o.contactInfo)),
     ("nickname", Text(o.nickname)),
     ("id", Text(o.id)),
     ("createdAt", Text(o.createdAt)),
     ("status", Text(StatusText(o.status)))]
    + (if o.reputation.Some? then [("reputation", Number(o.reputation.value))] else [])
    + (if o.verified.Some? then [("verified", Flag(o.verified.value))] else [])
  }

  /** `{ action: 'delete', id }`. */
  function DeletePayload(id: string): Payload
  {
    [("action", Text("delete")), ("id", Text(id))]
  }

  /** `{ action: 'updateStatus', id, status: 'APPROVED' }`. */
  function ApprovePayload(id: string): Payload
  {
    [("action", Text("updateStatus")), ("id", Text(id)), ("status", Text(StatusText(Approved)))]
  }

  /** The connectivity probe `{ action: 'save', id: 'TEST', type: 'TEST', title: 'Test' }`. */
  function TestPayload(): Payload
  {
    [("action", Text("save")), ("id", Text("TEST")), ("type", Text("TEST")), ("title", Text("Test"))]
  }

  // ------------------------------------------------------------ outcomes

  /** How a POST ended: `fetch` rejected, or a response with `response.ok`. */
  datatype PostOutcome = Unreachable | Answered(ok: bool)

  /** How the read request ended: `fetch` rejected, the body was not JSON
      (an HTML error page, say), or a JSON object with a truthy or falsy
      `success` and a `data` member that is an array of offers or not. */
  datatype ReadReply = ReadUnreachable | NotJson | Json(success: bool, data: Option<seq<Offer>>)

  /** The offers a read reply brings: only `success` with an array does. */
  function Delivered(reply: ReadReply): (r: Option<seq<Offer>>)
    ensures r.Some? <==> reply.Json? && reply.success && reply.data.Some?
    ensures r.Some? ==> reply.data == r
  {
    if reply.Json? && reply.success && reply.data.Some? then reply.data else None
  }

  // ------------------------------------------------- reading a save back

  /** The first value a form holds for `key` (what `URLSearchParams.get`
      and a script's request parameters give). */
  function Get(f: Form, key: string): Option<string>
  {
    if f == [] then None else if f[0].0 == key then Some(f[0].1) else Get(f[1..], key)
  }

  /** `Get` finds the value of the first pair named `key`. */
  lemma {:induction false} GetFirst(f: Form, key: string, k: nat)
    requires k < |f| && f[k].0 == key
    requires forall j :: 0 <= j < k ==> f[j].0 != key
    ensures Get(f, key) == Some(f[k].1)
    decreases k
  {
    if k > 0 {
      GetFirst(f[1..], key, k - 1);
    }
  }

  /** `Get` finds nothing for a name no pair has. */
  lemma {:induction false} GetAbsent(f: Form, key: string)
    requires forall j :: 0 <= j < |f| ==> f[j].0 != key
    ensures Get(f, key) == None
    decreases |f|
  {
    if f != [] {
      GetAbsent(f[1..], key);
    }
  }

  function ParseFlag(s: string): Option<bool>
  {
    if s == "true" then Some(true) else if s == "false" then Some(false) else None
  }

  /** An optional key: absent is `Some(None)`, present and readable is
      `Some(Some(v))`, present and unreadable is `None`. */
  function OptionalField<T>(f: Form, key: string, parse: string -> Option<T>): Option<Option<T>>
  {
    match Get(f, key)
    case None => Some(None)
    case Some(text) => (match parse(text) case None => None case Some(v) => Some(Some(v)))
  }

  /** Reads a `save` form back into an offer. */
  function DecodeSave(f: Form): Option<Offer>
  {
    var action :- Get(f, "action");
    if action != "save" then None
    else
      var typeText :- Get(f, "type");
      var offerType :- ParseOfferType(typeText);
      var title :- Get(f, "title");
      var asset :- Get(f, "asset");
      var price :- Get(f, "price");
      var location :- Get(f, "location");
      var categoryText :- Get(f, "category");
      var category :- ParseCategory(categoryText);
      var description :- Get(f, "description");
      var contactInfo :- Get(f, "contactInfo");
      var nickname :- Get(f, "nickname");
      var id :- Get(f, "id");
      var createdAt :- Get(f, "createdAt");
      var statusText :- Get(f, "status");
      var status :- ParseStatus(statusText);
      var reputation :- OptionalField(f, "reputation", ParseInt);
      var verified :- OptionalField(f, "verified", ParseFlag);
      Some(Offer(id, offerType, title, description, asset, price, location, category,
                 createdAt, contactInfo, nickname, status, reputation, verified))
  }

  /** The keys every saved offer must carry. */
  const RequiredKeys: set<string> :=
    {"action", "type", "title", "asset", "price", "location", "category",
     "description", "contactInfo", "nickname", "id", "createdAt", "status"}

  /** Only `reputation` and `verified` may be absent: a form without any
      other key reads back as nothing. */
  lemma MissingRequiredKey(f: Form, key: string)
    requires key in RequiredKeys && Get(f, key) == None
    ensures DecodeSave(f) == None
  {
  }

  /** The form of an offer's save payload, by position. */
  function SaveForm(o: Offer): Form
  {
    FormOf(SavePayload(o))
  }

  lemma SaveFormHead(o: Offer)
    ensures |SaveForm(o)| >= 13
    ensures SaveForm(o)[0] == ("action", "save")
    ensures SaveForm(o)[1] == ("type", OfferTypeText(o.offerType))
    ensures SaveForm(o)[2] == ("title", o.title)
    ensures SaveForm(o)[3] == ("asset", o.asset)
    ensures SaveForm(o)[4] == ("price", o.price)
    ensures SaveForm(o)[5] == ("location", o.location)
    ensures SaveForm(o)[6] == ("category", CategoryText(o.category))
  {
  }

  lemma SaveFormMiddle(o: Offer)
    ensures |SaveForm(o)| >= 13
    ensures SaveForm(o)[7] == ("description", o.description)
    ensures SaveForm(o)[8] == ("contactInfo", o.contactInfo)
    ensures SaveForm(o)[9] == ("nickname", o.nickname)
    ensures SaveForm(o)[10] == ("id", o.id)
    ensures SaveForm(o)[11] == ("createdAt", o.createdAt)
    ensures SaveForm(o)[12] == ("status", StatusText(o.status))
  {
  }

  lemma SaveFormTail(o: Offer)
    ensures |SaveForm(o)| == 13 + (if o.reputation.Some? then 1 else 0) + (if o.verified.Some? then 1 else 0)
    ensures o.reputation.Some? ==> SaveForm(o)[13] == ("reputation", IntText(o.reputation.value))
    ensures o.verified.Some? ==> SaveForm(o)[|SaveForm(o)| - 1] == ("verified", if o.verified.value then "true" else "false")
  {
  }

  /** `Get` reads each fixed field of an offer's save form. */
  lemma SaveFormReadsListing(o: Offer)
    ensures Get(SaveForm(o), "action") == Some("save")
    ensures Get(SaveForm(o), "type") == Some(OfferTypeText(o.offerType))
    ensures Get(SaveForm(o), "title") == Some(o.title)
    ensures Get(SaveForm(o), "asset") == Some(o.asset)
  {
    var f := SaveForm(o);
    SaveFormHead(o);
    GetFirst(f, "action", 0);
    GetFirst(f, "type", 1);
    GetFirst(f, "title", 2);
    GetFirst(f, "asset", 3);
  }

  lemma SaveFormReadsTerms(o: Offer)
    ensures Get(SaveForm(o), "price") == Some(o.price)
    ensures Get(SaveForm(o), "location") == Some(o.location)
    ensures Get(SaveForm(o), "category") == Some(CategoryText(o.category))
  {
    var f := SaveForm(o);
    SaveFormHead(o);
    GetFirst(f, "price", 4);
    GetFirst(f, "location", 5);
    GetFirst(f, "category", 6);
  }

  lemma SaveFormReadsContact(o: Offer)
    ensures Get(SaveForm(o), "description") == Some(o.description)
    ensures Get(SaveForm(o), "contactInfo") == Some(o.contactInfo)
    ensures Get(SaveForm(o), "nickname") == Some(o.nickname)
  {
    var f := SaveForm(o);
    SaveFormHead(o);
    SaveFormMiddle(o);
    GetFirst(f, "description", 7);
    GetFirst(f, "contactInfo", 8);
    GetFirst(f, "nickname", 9);
  }

  lemma SaveFormReadsRecord(o: Offer)
    ensures Get(SaveForm(o), "id") == Some(o.id)
    ensures Get(SaveForm(o), "createdAt") == Some(o.createdAt)
    ensures Get(SaveForm(o), "status") == Some(StatusText(o.status))
  {
    var f := SaveForm(o);
    SaveFormHead(o);
    SaveFormMiddle(o);
    GetFirst(f, "id", 10);
    GetFirst(f, "createdAt", 11);
    GetFirst(f, "status", 12);
  }

  /** `OptionalField` reads each optional field of an offer's save form. */
  lemma SaveFormOptionals(o: Offer)
    ensures OptionalField(SaveForm(o), "reputation", ParseInt) == Some(o.reputation)
    ensures OptionalField(SaveForm(o), "verified", ParseFlag) == Some(o.verified)
  {
    var f := SaveForm(o);
    SaveFormHead(o);
    SaveFormMiddle(o);
    SaveFormTail(o);
    if o.reputation.Some? {
      IntTextRoundTrip(o.reputation.value);
      GetFirst(f, "reputation", 13);
    } else {
      GetAbsent(f, "reputation");
    }
    if o.verified.Some? {
      GetFirst(f, "verified", |f| - 1);
    } else {
      GetAbsent(f, "verified");
    }
  }

  /** Every offer survives the trip to the spreadsheet and back: the save
      form of `o` reads back as `o`, field for field, its integer
      reputation included. */
  lemma SaveRoundTrip(o: Offer)
    ensures DecodeSave(FormOf(SavePayload(o))) == Some(o)
  {
    SaveFormReadsListing(o);
    SaveFormReadsTerms(o);
    SaveFormReadsContact(o);
    SaveFormReadsRecord(o);
    SaveFormOptionals(o);
    OfferTypeTextRoundTrip(o.offerType);
    CategoryTextRoundTrip(o.category);
    StatusTextRoundTrip(o.status);
    assert FormOf(SavePayload(o)) == SaveForm(o);
  }
}
