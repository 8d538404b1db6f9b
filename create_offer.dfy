/** The offer-creation page: the form's state, how a field change and a
    saved profile update it, the guard on the description generator, and
    the order of effects when the form is submitted. */
module CreateOfferUi {
  import opened Types
  import opened Offers
  import opened SheetWire
  import opened DataService

  /** The form's inputs, by their `name` attribute. */
  datatype FormField =
    | TypeField | TitleField | AssetField | PriceField | LocationField
    | CategoryField | DescriptionField | ContactInfoField | NicknameField

  /** The value an input shows: the wire string for the two selects, the
      text for the others. */
  function FieldValue(f: OfferDraft, name: FormField): string
  {
    match name
    case TypeField => OfferTypeText(f.offerType)
    case TitleField => f.title
    case AssetField => f.asset
    case PriceField => f.price
    case LocationField => f.location
    case CategoryField => CategoryText(f.category)
    case DescriptionField => f.description
    case ContactInfoField => f.contactInfo
    case NicknameField => f.nickname
  }

  /** Two forms whose inputs all show the same values are the same form. */
  lemma {:induction false} FieldValuesDetermine(f: OfferDraft, g: OfferDraft)
    requires forall n :: FieldValue(f, n) == FieldValue(g, n)
    ensures f == g
  {
    assert FieldValue(f, TypeField) == FieldValue(g, TypeField);
    OfferTypeTextRoundTrip(f.offerType);
    assert FieldValue(f, CategoryField) == FieldValue(g, CategoryField);
    CategoryTextRoundTrip(f.category);
    assert FieldValue(f, TitleField) == FieldValue(g, TitleField);
    assert FieldValue(f, AssetField) == FieldValue(g, AssetField);
    assert FieldValue(f, PriceField) == FieldValue(g, PriceField);
    assert FieldValue(f, LocationField) == FieldValue(g, LocationField);
    assert FieldValue(f, DescriptionField) == FieldValue(g, DescriptionField);
    assert FieldValue(f, ContactInfoField) == FieldValue(g, ContactInfoField);
    assert FieldValue(f, NicknameField) == FieldValue(g, NicknameField);
  }

  /** The form as the page first renders it: selling, cryptocurrencies,
      every text input empty. */
  function InitialForm(): (f: OfferDraft)
    ensures FieldValue(f, TypeField) == "VENTA"
    ensures FieldValue(f, CategoryField) == "Criptomonedas"
    ensures forall n :: n != TypeField && n != CategoryField ==> FieldValue(f, n) == ""
  {
    OfferDraft(Sell, "", "", "", "", Crypto, "", "", "")
  }

  /** A select only offers its enumeration's strings. */
  predicate AcceptableValue(name: FormField, value: string)
  {
    (name == TypeField ==> ParseOfferType(value).Some?)
    && (name == CategoryField ==> ParseCategory(value).Some?)
  }

  /** `{ ...formData, [name]: value }`: the named input shows the new
      value, every other input keeps its value. */
  function WithField(f: OfferDraft, name: FormField, value: string): (r: OfferDraft)
    requires AcceptableValue(name, value)
    ensures FieldValue(r, name) == value
    ensures forall m :: m != name ==> FieldValue(r, m) == FieldValue(f, m)
  {
    match name
    case TypeField => f.(offerType := ParseOfferType(value).value)
    case TitleField => f.(title := value)
    case AssetField => f.(asset := value)
    case PriceField => f.(price := value)
    case LocationField => f.(location := value)
    case CategoryField => f.(category := ParseCategory(value).value)
    case DescriptionField => f.(description := value)
    case ContactInfoField => f.(contactInfo := value)
    case NicknameField => f.(nickname := value)
  }

  /** Writing back the value an input already shows changes nothing. */
  lemma WithFieldSame(f: OfferDraft, name: FormField)
    ensures AcceptableValue(name, FieldValue(f, name))
    ensures WithField(f, name, FieldValue(f, name)) == f
  {
    OfferTypeTextRoundTrip(f.offerType);
    CategoryTextRoundTrip(f.category);
    FieldValuesDetermine(WithField(f, name, FieldValue(f, name)), f);
  }

  /** The mount effect: a saved profile fills the nickname and contact. */
  function Prefill(f: OfferDraft, profile: Option<Profile>): (r: OfferDraft)
    ensures profile.None? ==> r == f
    ensures profile.Some? ==> FieldValue(r, NicknameField) == profile.value.nickname
                              && FieldValue(r, ContactInfoField) == profile.value.contactInfo
    ensures forall n :: n != NicknameField && n != ContactInfoField ==> FieldValue(r, n) == FieldValue(f, n)
  {
    match profile
    case None => f
    case Some(p) => f.(nickname := p.nickname, contactInfo := p.contactInfo)
  }

  /** The inputs marked `required`: the browser submits the form only
      when each of them is non-empty. */
  predicate RequiredFilled(f: OfferDraft)
  {
    f.nickname != "" && f.contactInfo != "" && f.title != "" && f.asset != ""
    && f.price != "" && f.location != "" && f.description != ""
  }

  class CreateOfferPage {
    const store: Store
    var formData: OfferDraft
    var loading: bool
    var aiLoading: bool
    var showSuccessModal: bool

    /** The page as mounted: the initial form, prefilled from the saved
        profile if there is one. */
    constructor (store: Store)
      ensures this.store == store
      ensures formData == Prefill(InitialForm(), store.GetUserProfile())
      ensures !loading && !aiLoading && !showSuccessModal
    {
      this.store := store;
      formData := Prefill(InitialForm(), store.GetUserProfile());
      loading := false;
      aiLoading := false;
      showSuccessModal := false;
    }

    /** `handleChange`. */
    method HandleChange(name: FormField, value: string)
      requires AcceptableValue(name, value)
      modifies this`formData
      ensures formData == WithField(old(formData), name, value)
    {
      formData := WithField(formData, name, value);
    }

    /** `handleAiGenerate`, given the text the generator returns: with an
        empty title the generator is not called and nothing changes;
        otherwise the description becomes the generated text. The
        category half of the guard never fires, as every category has a
        non-empty string. The button is disabled while a generation runs. */
    method HandleAiGenerate(generated: string) returns (called: bool)
      requires !aiLoading
      modifies this`formData, this`aiLoading
      ensures called <==> old(formData).title != ""
      ensures called ==> formData == old(formData).(description := generated) && !aiLoading
      ensures !called ==> formData == old(formData) && aiLoading == old(aiLoading)
    {
      CategoryTextRoundTrip(formData.category);
      if formData.title == "" || CategoryText(formData.category) == "" {
        return false;
      }
      aiLoading := true;
      formData := formData.(description := generated);
      aiLoading := false;
      return true;
    }

    /** `handleSubmit`, given the fresh id and time `addOffer` draws,
        whether `addOffer` throws (the browser refusing to store), and the
        sync's outcome. The profile is saved first, whatever follows. When
        the offer is stored, the sync's form is sent and the success modal
        opens whatever the sync reports, with the spinner left on; when
        storing throws, the cache is as before and the spinner stops. The
        browser submits only a filled form, the button is disabled while
        loading, and the modal replaces the page once it opens: a stored
        offer has every required input filled, and the page cannot submit
        again after storing one, so a mounted page publishes at most one
        offer. */
    method HandleSubmit(id: string, createdAt: string, storageFails: bool, post: PostOutcome)
      returns (sent: Option<Form>)
      requires !loading && !showSuccessModal && RequiredFilled(formData)
      requires id !in Ids(store.offers)
      modifies this`loading, this`showSuccessModal, store`profile, store`offers
      ensures store.GetUserProfile() == Some(Profile(formData.nickname, formData.contactInfo))
      ensures !storageFails ==>
                && store.offers == [NewOffer(formData, id, createdAt)] + old(store.offers)
                && sent == (if store.sheetUrl == "" then None else Some(FormOf(SavePayload(NewOffer(formData, id, createdAt)))))
                && showSuccessModal && loading
                && RequiredFilled(DraftOf(store.offers[0]))
      ensures storageFails ==>
                && store.offers == old(store.offers) && sent == None
                && showSuccessModal == old(showSuccessModal) && !loading
    {
      loading := true;
      store.SaveUserProfile(formData.nickname, formData.contactInfo);
      if storageFails {
        sent := None;
        loading := false;
      } else {
        var offer := store.AddOffer(formData, id, createdAt);
        var ok;
        ok, sent := store.SyncWithGoogleSheets(offer, post);
        showSuccessModal := true;
      }
    }
  }
}
