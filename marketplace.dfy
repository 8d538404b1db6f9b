/** The marketplace page: which offers the listing shows to whom, the
    WhatsApp contact link of an offer, the admin buttons on each card,
    and the page state its handlers update. */
module MarketplaceUi {
  import opened Types
  import opened JsText
  import opened Offers
  import opened SheetWire
  import opened DataService
  import Seqs

  /** The admin's toggle between published and waiting offers. */
  datatype ViewMode = PublicMode | PendingMode

  // ------------------------------------------------------------- listing

  /** The status half of the listing filter: a visitor sees published
      offers; an admin sees published offers in the public view and
      waiting ones in the pending view. */
  function StatusShown(o: Offer, adminMode: bool, mode: ViewMode): (r: bool)
    ensures r <==> o.status == if adminMode && mode == PendingMode then Pending else Approved
  {
    if adminMode then
      !(mode == PublicMode && o.status != Approved) && !(mode == PendingMode && o.status != Pending)
    else
      o.status == Approved
  }

  /** The search half: the lower-cased title or nickname contains the
      lower-cased term. An empty term matches every offer. */
  function MatchesSearch(o: Offer, term: string): (r: bool)
    ensures term == "" ==> r
  {
    var t := ToLower(term);
    assert term == "" ==> t == "";
    IncludesEmpty(ToLower(o.title));
    Includes(ToLower(o.title), t) || Includes(ToLower(o.nickname), t)
  }

  /** `filteredOffers`: exactly the cached offers that pass both halves,
      in cache order. */
  function FilteredOffers(offers: seq<Offer>, adminMode: bool, mode: ViewMode, term: string): (r: seq<Offer>)
    ensures forall o :: o in r <==> o in offers && StatusShown(o, adminMode, mode) && MatchesSearch(o, term)
    ensures Seqs.Subsequence(r, offers)
  {
    Seqs.Filter(offers, (o: Offer) => StatusShown(o, adminMode, mode) && MatchesSearch(o, term))
  }

  /** Who sees what: a visitor only published offers, an admin only
      published ones in the public view and only waiting ones in the
      pending view; the listing keeps the cache's order, and holds exactly
      the offers that pass both halves of the filter, each as often as the
      cache holds it. */
  lemma ListingVisibility(offers: seq<Offer>, adminMode: bool, mode: ViewMode, term: string)
    ensures !adminMode ==> forall o :: o in FilteredOffers(offers, adminMode, mode, term) ==> o.status == Approved
    ensures adminMode && mode == PublicMode ==>
              forall o :: o in FilteredOffers(offers, adminMode, mode, term) ==> o.status == Approved
    ensures adminMode && mode == PendingMode ==>
              forall o :: o in FilteredOffers(offers, adminMode, mode, term) ==> o.status == Pending
    ensures Seqs.Subsequence(FilteredOffers(offers, adminMode, mode, term), offers)
    ensures forall o :: o in FilteredOffers(offers, adminMode, mode, term) <==>
              o in offers && StatusShown(o, adminMode, mode) && MatchesSearch(o, term)
    ensures forall o :: multiset(FilteredOffers(offers, adminMode, mode, term))[o] ==
              if StatusShown(o, adminMode, mode) && MatchesSearch(o, term) then multiset(offers)[o] else 0
  {
    Seqs.FilterCounts(offers, (o: Offer) => StatusShown(o, adminMode, mode) && MatchesSearch(o, term));
  }

  /** The status filter alone. */
  function ByStatus(offers: seq<Offer>, adminMode: bool, mode: ViewMode): seq<Offer>
  {
    Seqs.Filter(offers, (o: Offer) => StatusShown(o, adminMode, mode))
  }

  /** An empty search box filters by status only. */
  lemma EmptySearchListsByStatus(offers: seq<Offer>, adminMode: bool, mode: ViewMode)
    ensures FilteredOffers(offers, adminMode, mode, "") == ByStatus(offers, adminMode, mode)
  {
    Seqs.FilterAgreeing(offers,
      (o: Offer) => StatusShown(o, adminMode, mode) && MatchesSearch(o, ""),
      (o: Offer) => StatusShown(o, adminMode, mode));
  }

  lemma ToLowerIdempotent(s: string)
    ensures ToLower(ToLower(s)) == ToLower(s)
  {
  }

  /** The search ignores the case of ASCII letters in the term. */
  lemma SearchIgnoresCase(offers: seq<Offer>, adminMode: bool, mode: ViewMode, term: string)
    ensures FilteredOffers(offers, adminMode, mode, ToLower(term)) == FilteredOffers(offers, adminMode, mode, term)
  {
    ToLowerIdempotent(term);
    Seqs.FilterAgreeing(offers,
      (o: Offer) => StatusShown(o, adminMode, mode) && MatchesSearch(o, ToLower(term)),
      (o: Offer) => StatusShown(o, adminMode, mode) && MatchesSearch(o, term));
  }

  // ------------------------------------------------------- contact link

  const WaPrefix: string := "https://wa.me/"
  const TextParam: string := "?text="

  /** The message the contact link pre-fills. */
  function Greeting(o: Offer): (r: string)
    ensures "Hola @" + o.nickname <= r
    ensures |o.title| + 2 <= |r| && r[|r| - |o.title| - 2..] == "\"" + o.title + "\""
  {
    "Hola @" + o.nickname + ", me interesa tu oferta \"" + o.title + "\""
  }

  /** `getWhatsAppLink`: no link when the contact holds no digit; otherwise
      the wa.me address of the contact's digits with the encoded greeting. */
  function WhatsAppLink(o: Offer): (r: Option<string>)
    ensures r.None? <==> forall c :: c in o.contactInfo ==> !IsDigit(c)
  {
    var phone := Digits(o.contactInfo);
    if phone == "" then None
    else
      assert phone[0] in phone;
      Some(WaPrefix + phone + TextParam + EncodeUriComponent(Greeting(o)))
  }

  /** The longest prefix of `s` without `c`. */
  function TakeUntil(s: string, c: char): (r: string)
    ensures |r| <= |s| && r == s[..|r|]
    ensures c !in r
    ensures |r| < |s| ==> s[|r|] == c
  {
    if s == [] || s[0] == c then [] else [s[0]] + TakeUntil(s[1..], c)
  }

  /** Reads a contact link back into its phone and its text parameter. */
  function LinkParts(link: string): Option<(string, string)>
  {
    if WaPrefix <= link then
      var rest := link[|WaPrefix|..];
      var phone := TakeUntil(rest, '?');
      var after := rest[|phone|..];
      if TextParam <= after then Some((phone, after[|TextParam|..])) else None
    else None
  }

  /** `TakeUntil` stops at the first `c`. */
  lemma {:induction false} TakeUntilFirst(a: string, c: char, b: string)
    requires c !in a
    ensures TakeUntil(a + [c] + b, c) == a
    decreases |a|
  {
    if a != [] {
      assert (a + [c] + b)[1..] == a[1..] + [c] + b;
      TakeUntilFirst(a[1..], c, b);
    }
  }

  /** A link, when there is one, reads back as the digits of the contact
      (see `DigitsExact`) and the encoded greeting. */
  lemma WhatsAppLinkReadsBack(o: Offer)
    requires WhatsAppLink(o).Some?
    ensures LinkParts(WhatsAppLink(o).value) == Some((Digits(o.contactInfo), EncodeUriComponent(Greeting(o))))
    ensures Digits(o.contactInfo) != [] && Seqs.Subsequence(Digits(o.contactInfo), o.contactInfo)
    ensures forall c :: c in Digits(o.contactInfo) ==> IsDigit(c)
  {
    var phone := Digits(o.contactInfo);
    var text := EncodeUriComponent(Greeting(o));
    var link := WaPrefix + phone + TextParam + text;
    assert link == WaPrefix + (phone + ['?'] + (TextParam[1..] + text));
    assert '?' !in phone;
    TakeUntilFirst(phone, '?', TextParam[1..] + text);
    assert link[|WaPrefix|..] == phone + ['?'] + (TextParam[1..] + text);
    assert link[|WaPrefix|..][|phone|..] == TextParam + text;
  }

  // ------------------------------------------------------- card controls

  datatype AdminAction = ApproveAction | DeleteAction

  /** The buttons on a card: none for a visitor; delete on every card for
      an admin, and approve as well on a waiting offer. */
  function AdminActions(o: Offer, adminMode: bool): (r: set<AdminAction>)
    ensures ApproveAction in r <==> adminMode && o.status == Pending
    ensures DeleteAction in r <==> adminMode
  {
    if !adminMode then {}
    else if o.status == Pending then {ApproveAction, DeleteAction}
    else {DeleteAction}
  }

  /** In the admin's pending view every card can be approved, in the public
      view none can; a visitor's cards carry no button. */
  lemma ActionsInListing(offers: seq<Offer>, adminMode: bool, mode: ViewMode, term: string)
    ensures !adminMode ==> forall o :: o in FilteredOffers(offers, adminMode, mode, term) ==> AdminActions(o, adminMode) == {}
    ensures adminMode && mode == PendingMode ==>
              forall o :: o in FilteredOffers(offers, adminMode, mode, term) ==> ApproveAction in AdminActions(o, adminMode)
    ensures adminMode && mode == PublicMode ==>
              forall o :: o in FilteredOffers(offers, adminMode, mode, term) ==> AdminActions(o, adminMode) == {DeleteAction}
  {
    ListingVisibility(offers, adminMode, mode, term);
  }

  /** The star count a card shows: `reputation`, with an absent one shown
      as 0. */
  function DisplayedRating(o: Offer): (r: int)
    ensures r == 0 <==> o.reputation == None || o.reputation == Some(0)
    ensures o.reputation.Some? ==> r == o.reputation.value
  {
    match o.reputation
    case None => 0
    case Some(n) => n
  }

  /** A freshly created offer shows no stars. */
  lemma NewOfferRating(d: OfferDraft, id: string, createdAt: string)
    ensures DisplayedRating(NewOffer(d, id, createdAt)) == 0
  {
  }

  /** After approving an id, no offer with it is left in the pending view. */
  lemma ApprovedLeavesPendingView(offers: seq<Offer>, id: string, term: string)
    ensures forall o :: o in FilteredOffers(ApproveAll(offers, id), true, PendingMode, term) ==> o.id != id
  {
    ApproveEffect(offers, id);
    ListingVisibility(ApproveAll(offers, id), true, PendingMode, term);
    forall o | o in FilteredOffers(ApproveAll(offers, id), true, PendingMode, term)
      ensures o.id != id
    {
      var k :| 0 <= k < |ApproveAll(offers, id)| && ApproveAll(offers, id)[k] == o;
    }
  }

  /** A created offer is listed at once in the admin's pending view
      (when it matches the search) and never to a visitor. */
  lemma CreatedListedAsPending(d: OfferDraft, id: string, createdAt: string, s: seq<Offer>, mode: ViewMode, term: string)
    ensures MatchesSearch(NewOffer(d, id, createdAt), term) ==>
              NewOffer(d, id, createdAt) in FilteredOffers([NewOffer(d, id, createdAt)] + s, true, PendingMode, term)
    ensures NewOffer(d, id, createdAt) !in FilteredOffers([NewOffer(d, id, createdAt)] + s, false, mode, term)
    ensures NewOffer(d, id, createdAt) !in FilteredOffers([NewOffer(d, id, createdAt)] + s, true, PublicMode, term)
  {
    assert NewOffer(d, id, createdAt) in [NewOffer(d, id, createdAt)] + s;
  }

  /** Once approved, an offer that matches the search is listed to
      visitors and in the admin's public view, with its status APPROVED
      and every other field as before. */
  lemma ApprovedListedPublicly(s: seq<Offer>, i: nat, term: string, mode: ViewMode)
    requires i < |s| && MatchesSearch(s[i], term)
    ensures s[i].(status := Approved) in FilteredOffers(ApproveAll(s, s[i].id), false, mode, term)
    ensures s[i].(status := Approved) in FilteredOffers(ApproveAll(s, s[i].id), true, PublicMode, term)
  {
    var r := ApproveAll(s, s[i].id);
    assert r[i] == s[i].(status := Approved);
    assert MatchesSearch(r[i], term) == MatchesSearch(s[i], term);
  }

  // ---------------------------------------------------------- page state

  class MarketplacePage {
    const store: Store
    var offers: seq<Offer>
    var loading: bool
    var searchTerm: string
    var adminMode: bool
    var viewMode: ViewMode

    /** The page's initial state, before it is mounted. */
    constructor (store: Store)
      ensures this.store == store
      ensures offers == [] && !loading && searchTerm == "" && !adminMode && viewMode == PublicMode
    {
      this.store := store;
      offers := [];
      loading := false;
      searchTerm := "";
      adminMode := false;
      viewMode := PublicMode;
    }

    /** What the page lists. */
    function Listing(): seq<Offer>
      reads this
    {
      FilteredOffers(offers, adminMode, viewMode, searchTerm)
    }

    /** `loadRemoteData`: shows the spinner, reads the offers through the
        store, lists them, hides the spinner. */
    method LoadRemoteData(reply: ReadReply)
      modifies this`offers, this`loading, store`offers
      ensures store.sheetUrl != "" && Delivered(reply).Some? ==> store.offers == Delivered(reply).value
      ensures store.sheetUrl == "" || Delivered(reply).None? ==> store.offers == old(store.offers)
      ensures offers == store.offers && !loading
    {
      loading := true;
      var data := store.FetchOffers(reply);
      offers := data;
      loading := false;
    }

    /** The mount effect: the cached offers and the session flag, then a
        remote reload. */
    method Mount(reply: ReadReply)
      modifies this`offers, this`loading, this`adminMode, store`offers
      ensures adminMode == store.IsAdmin()
      ensures store.sheetUrl != "" && Delivered(reply).Some? ==> store.offers == Delivered(reply).value
      ensures store.sheetUrl == "" || Delivered(reply).None? ==> store.offers == old(store.offers)
      ensures offers == store.offers && !loading
    {
      offers := store.GetOffers();
      adminMode := store.IsAdmin();
      LoadRemoteData(reply);
    }

    method SetSearchTerm(term: string)
      modifies this`searchTerm
      ensures searchTerm == term
      ensures Listing() == FilteredOffers(offers, adminMode, viewMode, term)
    {
      searchTerm := term;
    }

    method SetViewMode(mode: ViewMode)
      requires adminMode
      modifies this`viewMode
      ensures viewMode == mode
      ensures Listing() == FilteredOffers(offers, adminMode, mode, searchTerm)
    {
      viewMode := mode;
    }

    /** The approve button: approves the id in the store (and remotely),
        then reloads. With no remote copy to reload from, the offer leaves
        the pending view. */
    method ClickApprove(o: Offer, post: PostOutcome, reply: ReadReply) returns (sent: Option<Form>)
      requires o in Listing() && ApproveAction in AdminActions(o, adminMode)
      modifies this`offers, this`loading, store`offers
      ensures sent == if store.sheetUrl == "" then None else Some(FormOf(ApprovePayload(o.id)))
      ensures store.sheetUrl == "" || Delivered(reply).None? ==> store.offers == ApproveAll(old(store.offers), o.id)
      ensures store.sheetUrl != "" && Delivered(reply).Some? ==> store.offers == Delivered(reply).value
      ensures offers == store.offers && !loading
      ensures (store.sheetUrl == "" || Delivered(reply).None?) && viewMode == PendingMode ==>
                forall p :: p in Listing() ==> p.id != o.id
    {
      sent := store.ApproveOffer(o.id, post);
      LoadRemoteData(reply);
      ApprovedLeavesPendingView(old(store.offers), o.id, searchTerm);
    }

    /** The delete button: nothing unless the confirmation is accepted;
        then deletes the id in the store (and remotely) and reloads. */
    method ClickDelete(o: Offer, confirmed: bool, post: PostOutcome, reply: ReadReply) returns (sent: Option<Form>)
      requires o in Listing() && DeleteAction in AdminActions(o, adminMode)
      modifies this`offers, this`loading, store`offers
      ensures !confirmed ==>
                && sent == None && offers == old(offers) && store.offers == old(store.offers)
                && loading == old(loading)
      ensures confirmed ==> sent == if store.sheetUrl == "" then None else Some(FormOf(DeletePayload(o.id)))
      ensures confirmed && (store.sheetUrl == "" || Delivered(reply).None?) ==>
                store.offers == WithoutId(old(store.offers), o.id)
      ensures confirmed && store.sheetUrl != "" && Delivered(reply).Some? ==> store.offers == Delivered(reply).value
      ensures confirmed ==> offers == store.offers && !loading
      ensures confirmed && (store.sheetUrl == "" || Delivered(reply).None?) ==>
                forall p :: p in Listing() ==> p.id != o.id
    {
      sent := None;
      if confirmed {
        sent := store.DeleteOffer(o.id, post);
        LoadRemoteData(reply);
        DeleteEffect(old(store.offers), o.id);
      }
    }
  }
}
