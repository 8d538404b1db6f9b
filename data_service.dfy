/** The data service: the browser's persisted key-value store (offer
    cache, endpoint URL, admin contact, admin session flag, user profile)
    as the fields of one object, the operations that read-modify-write
    it, and the small validators beside them. An absent storage key reads
    as the default the service substitutes for it ("" for the URL, email
    and phone, [] for the offers, false for the session, no profile). */
module DataService {
  import opened Types
  import opened JsText
  import opened Offers
  import opened SheetWire
  import Seqs

  /** The only PIN the server check accepts. */
  const RescuePin: string := "1234"

  /** `verifyServerPin`: exact comparison with the rescue PIN, so a PIN it
      accepts neither starts nor ends with whitespace. */
  function VerifyServerPin(pin: string): (r: bool)
    ensures r ==> Unpadded(pin)
  {
    pin == RescuePin
  }

  /** The host every Apps Script endpoint URL contains. */
  const ScriptHost: string := "script.google.com"

  /** The outcome of `validateSheetUrl`. */
  datatype UrlCheck = UrlCheck(valid: bool, error: Option<string>)

  /** `validateSheetUrl`: an empty URL and a URL not naming the script host
      are refused, each with its own message; anything else passes. */
  function ValidateSheetUrl(url: string): (r: UrlCheck)
    ensures r.valid <==> url != "" && exists i :: OccursAt(url, ScriptHost, i)
    ensures r.valid <==> r.error == None
    ensures url == "" ==> r.error == Some("URL vacía")
    ensures url != "" && !r.valid ==> r.error == Some("No es un dominio de Google")
  {
    if url == "" then UrlCheck(false, Some("URL vacía"))
    else if !Includes(url, ScriptHost) then UrlCheck(false, Some("No es un dominio de Google"))
    else UrlCheck(true, None)
  }

  /** The phone as `saveAdminPhone` stores it: every `+` removed, then
      every whitespace character removed. */
  function NormalisePhone(phone: string): (r: string)
    ensures forall c :: c in r <==> c in phone && c != '+' && !IsJsWhitespace(c)
  {
    Seqs.Filter(Seqs.Filter(phone, (c: char) => c != '+'), (c: char) => !IsJsWhitespace(c))
  }

  /** A stored phone is the input with exactly its `+` and whitespace
      characters left out: every other character keeps all its
      occurrences, in order; normalising it again changes nothing. */
  lemma NormalisePhoneClean(phone: string)
    ensures Seqs.Subsequence(NormalisePhone(phone), phone)
    ensures forall c :: multiset(NormalisePhone(phone))[c] ==
              if c != '+' && !IsJsWhitespace(c) then multiset(phone)[c] else 0
    ensures NormalisePhone(NormalisePhone(phone)) == NormalisePhone(phone)
  {
    var plusless := Seqs.Filter(phone, (c: char) => c != '+');
    var n := NormalisePhone(phone);
    Seqs.SubsequenceTrans(n, plusless, phone);
    Seqs.FilterCounts(phone, (c: char) => c != '+');
    Seqs.FilterCounts(plusless, (c: char) => !IsJsWhitespace(c));
    Seqs.FilterKeepsAll(n, (c: char) => c != '+');
    Seqs.FilterKeepsAll(n, (c: char) => !IsJsWhitespace(c));
  }

  /** The payload form a request sends, built as `sendToSheet` builds it:
      one `append` per payload key, in key order. */
  method EncodeForm(payload: Payload) returns (form: Form)
    ensures form == FormOf(payload)
  {
    form := [];
    var i := 0;
    while i < |payload|
      invariant 0 <= i <= |payload|
      invariant form == FormOf(payload[..i])
    {
      var (key, value) := payload[i];
      form := form + [(key, FieldText(value))];
      i := i + 1;
      assert payload[..i] == payload[..i - 1] + [payload[i - 1]];
    }
    assert payload[..i] == payload;
  }

  class Store {
    var offers: seq<Offer>
    var sheetUrl: string
    var adminEmail: string
    var adminPhone: string
    var adminSession: bool
    var profile: Option<Profile>

    /** A browser whose storage holds none of the keys. */
    constructor ()
      ensures offers == [] && sheetUrl == "" && adminEmail == "" && adminPhone == ""
      ensures !adminSession && profile == None
    {
      offers := [];
      sheetUrl := "";
      adminEmail := "";
      adminPhone := "";
      adminSession := false;
      profile := None;
    }

    /** `getOffers`. */
    function GetOffers(): seq<Offer>
      reads this
    {
      offers
    }

    /** `isAdmin`. */
    predicate IsAdmin()
      reads this
    {
      adminSession
    }

    /** `getUserProfile`. */
    function GetUserProfile(): Option<Profile>
      reads this
    {
      profile
    }

    method SaveSheetUrl(url: string)
      modifies this`sheetUrl
      ensures sheetUrl == url
    {
      sheetUrl := url;
    }

    method SaveAdminEmail(email: string)
      modifies this`adminEmail
      ensures adminEmail == email
    {
      adminEmail := email;
    }

    /** Stores the phone without `+` and whitespace. */
    method SaveAdminPhone(phone: string)
      modifies this`adminPhone
      ensures adminPhone == NormalisePhone(phone)
      ensures forall c :: c in adminPhone ==> c != '+' && !IsJsWhitespace(c)
    {
      adminPhone := NormalisePhone(phone);
    }

    /** `setAdminSession`: after it, `IsAdmin()` is exactly `valid`. */
    method SetAdminSession(valid: bool)
      modifies this`adminSession
      ensures IsAdmin() == valid
    {
      adminSession := valid;
    }

    method SaveUserProfile(nickname: string, contactInfo: string)
      modifies this`profile
      ensures GetUserProfile() == Some(Profile(nickname, contactInfo))
    {
      profile := Some(Profile(nickname, contactInfo));
    }

    /** `addOffer`: builds the new offer from the caller's fields, the fresh
        `id` (the random UUID) and `createdAt` (the current time), and puts
        it in front of the cache. */
    method AddOffer(draft: OfferDraft, id: string, createdAt: string) returns (o: Offer)
      requires id !in Ids(offers)
      modifies this`offers
      ensures DraftOf(o) == draft && o.id == id && o.createdAt == createdAt
      ensures o.status == Pending && o.reputation == Some(0) && o.verified == Some(false)
      ensures offers == [o] + old(offers)
      ensures UniqueIds(old(offers)) ==> UniqueIds(offers)
    {
      o := NewOffer(draft, id, createdAt);
      if UniqueIds(offers) {
        PrependKeepsUnique(o, offers);
      }
      offers := [o] + offers;
    }

    /** `sendToSheet`: with no URL configured, reports failure and sends
        nothing; otherwise posts the payload's form and reports
        `response.ok`, or failure if the request could not be made. */
    method SendToSheet(payload: Payload, outcome: PostOutcome) returns (success: bool, sent: Option<Form>)
      ensures sheetUrl == "" ==> !success && sent == None
      ensures sheetUrl != "" ==> sent == Some(FormOf(payload))
      ensures success <==> sheetUrl != "" && outcome == Answered(true)
    {
      if sheetUrl == "" {
        return false, None;
      }
      var form := EncodeForm(payload);
      sent := Some(form);
      success := outcome.Answered? && outcome.ok;
    }

    /** `deleteOffer`: drops every cached offer with the id, then fires the
        remote delete without looking at its result. */
    method DeleteOffer(id: string, outcome: PostOutcome) returns (sent: Option<Form>)
      modifies this`offers
      ensures offers == WithoutId(old(offers), id)
      ensures sent == if sheetUrl == "" then None else Some(FormOf(DeletePayload(id)))
    {
      offers := WithoutId(offers, id);
      var _, s := SendToSheet(DeletePayload(id), outcome);
      sent := s;
    }

    /** `approveOffer`: marks every cached offer with the id APPROVED, then
        sends the status update. */
    method ApproveOffer(id: string, outcome: PostOutcome) returns (sent: Option<Form>)
      modifies this`offers
      ensures offers == ApproveAll(old(offers), id)
      ensures sent == if sheetUrl == "" then None else Some(FormOf(ApprovePayload(id)))
    {
      offers := ApproveAll(offers, id);
      var _, s := SendToSheet(ApprovePayload(id), outcome);
      sent := s;
    }

    /** `syncWithGoogleSheets`: posts a save of the offer; true only for an
        OK response to a configured URL. */
    method SyncWithGoogleSheets(o: Offer, outcome: PostOutcome) returns (ok: bool, sent: Option<Form>)
      ensures ok <==> sheetUrl != "" && outcome == Answered(true)
      ensures sent == if sheetUrl == "" then None else Some(FormOf(SavePayload(o)))
    {
      ok, sent := SendToSheet(SavePayload(o), outcome);
    }

    /** `testConnection`: a probe save whose outcome becomes a message. */
    method TestConnection(outcome: PostOutcome) returns (success: bool, message: string)
      ensures success <==> sheetUrl != "" && outcome == Answered(true)
      ensures message == if success then "Conexión exitosa" else "Error de conexión"
    {
      var sent;
      success, sent := SendToSheet(TestPayload(), outcome);
      message := if success then "Conexión exitosa" else "Error de conexión";
    }

    /** `fetchOffers`: with no URL, the cache as it is; with a reply that
        delivers an array, that array replaces the cache wholesale and is
        returned; any other reply (unreachable, not JSON, not `success`,
        `data` not an array) leaves the cache as it is and returns it. */
    method FetchOffers(reply: ReadReply) returns (result: seq<Offer>)
      modifies this`offers
      ensures sheetUrl == "" ==> offers == old(offers)
      ensures sheetUrl != "" && Delivered(reply).Some? ==> offers == Delivered(reply).value
      ensures Delivered(reply).None? ==> offers == old(offers)
      ensures result == offers
    {
      if sheetUrl == "" {
        return offers;
      }
      match reply
      case Json(success, data) =>
        if success && data.Some? {
          offers := data.value;
          return data.value;
        }
        return offers;
      case _ =>
        return offers;
    }

    /** `processMagicLink`: given the `setup` query parameter and the base64
        decoder (`None` where decoding throws), stores the decoded URL only
        when the parameter is non-empty and the text starts with "http". */
    method ProcessMagicLink(setup: Option<string>, decode: string -> Option<string>) returns (saved: bool)
      modifies this`sheetUrl
      ensures saved <==> setup.Some? && setup.value != "" && decode(setup.value).Some?
                         && "http" <= decode(setup.value).value
      ensures sheetUrl == if saved then decode(setup.value).value else old(sheetUrl)
    {
      if setup.Some? && setup.value != "" {
        var decoded := decode(setup.value);
        if decoded.Some? && "http" <= decoded.value {
          SaveSheetUrl(decoded.value);
          return true;
        }
      }
      return false;
    }
  }
}
