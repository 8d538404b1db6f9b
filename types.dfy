/** The marketplace's data model: offers, their enumerations, the
    user profile and the application's current view. Enumerations carry
    the exact wire strings the TypeScript enums use, with parsers that
    invert them (the remote spreadsheet stores offers as text). */
module Types {

  /** An optional value; usable with `:-`, where `None` is the failure. */
  datatype Option<+T> = None | Some(value: T) {
    predicate IsFailure() {
      None?
    }

    function PropagateFailure<U>(): Option<U>
      requires None?
    {
      None
    }

    function Extract(): T
      requires Some?
    {
      value
    }
  }

  /** What the poster wants to do; the enum's values are Spanish words. */
  datatype OfferType = Buy | Sell | Exchange

  function OfferTypeText(t: OfferType): string
  {
    match t
    case Buy => "COMPRA"
    case Sell => "VENTA"
    case Exchange => "INTERCAMBIO"
  }

  function ParseOfferType(s: string): (r: Option<OfferType>)
    ensures r.Some? ==> OfferTypeText(r.value) == s
  {
    if s == "COMPRA" then Some(Buy)
    else if s == "VENTA" then Some(Sell)
    else if s == "INTERCAMBIO" then Some(Exchange)
    else None
  }

  /** The three variants have pairwise distinct, non-empty wire strings,
      and the parser recovers each variant from its string. */
  lemma OfferTypeTextRoundTrip(t: OfferType)
    ensures OfferTypeText(t) != ""
    ensures ParseOfferType(OfferTypeText(t)) == Some(t)
    ensures forall u :: OfferTypeText(u) == OfferTypeText(t) ==> u == t
  {
  }

  /** The asset category; values are the Spanish display names. */
  datatype AssetCategory = Crypto | Fiat | Goods | Services | Digital

  function CategoryText(c: AssetCategory): string
  {
    match c
    case Crypto => "Criptomonedas"
    case Fiat => "Moneda Fiat"
    case Goods => "Bienes Físicos"
    case Services => "Servicios"
    case Digital => "Activos Digitales"
  }

  function ParseCategory(s: string): (r: Option<AssetCategory>)
    ensures r.Some? ==> CategoryText(r.value) == s
  {
    if s == "Criptomonedas" then Some(Crypto)
    else if s == "Moneda Fiat" then Some(Fiat)
    else if s == "Bienes Físicos" then Some(Goods)
    else if s == "Servicios" then Some(Services)
    else if s == "Activos Digitales" then Some(Digital)
    else None
  }

  lemma CategoryTextRoundTrip(c: AssetCategory)
    ensures CategoryText(c) != ""
    ensures ParseCategory(CategoryText(c)) == Some(c)
    ensures forall d :: CategoryText(d) == CategoryText(c) ==> d == c
  {
  }

  /** An offer is either waiting for moderation or published. */
  datatype OfferStatus = Pending | Approved

  function StatusText(s: OfferStatus): string
  {
    match s
    case Pending => "PENDING"
    case Approved => "APPROVED"
  }

  function ParseStatus(s: string): (r: Option<OfferStatus>)
    ensures r.Some? ==> StatusText(r.value) == s
  {
    if s == "PENDING" then Some(Pending)
    else if s == "APPROVED" then Some(Approved)
    else None
  }

  lemma StatusTextRoundTrip(s: OfferStatus)
    ensures ParseStatus(StatusText(s)) == Some(s)
    ensures s == Pending || s == Approved
    ensures forall u :: StatusText(u) == StatusText(s) ==> u == s
  {
  }

  /** An offer. Every field is required except `reputation` and
      `verified`, which are optional (`None` is an absent key). */
  datatype Offer = Offer(
    id: string,
    offerType: OfferType,
    title: string,
    description: string,
    asset: string,
    price: string,
    location: string,
    category: AssetCategory,
    createdAt: string,
    contactInfo: string,
    nickname: string,
    status: OfferStatus,
    reputation: Option<int>,
    verified: Option<bool>)

  /** What a poster supplies: an offer without id, creation time, status,
      reputation and verification flag. It is also the creation form's
      state, whose keys come in this order. */
  datatype OfferDraft = OfferDraft(
    offerType: OfferType,
    title: string,
    asset: string,
    price: string,
    location: string,
    category: AssetCategory,
    description: string,
    contactInfo: string,
    nickname: string)

  /** The poster's saved nickname and contact, reused by the next form. */
  datatype Profile = Profile(nickname: string, contactInfo: string)

  /** The screen the application shows. */
  datatype View = Home | Marketplace | Create | Config

  function ViewText(v: View): string
  {
    match v
    case Home => "HOME"
    case Marketplace => "MARKETPLACE"
    case Create => "CREATE"
    case Config => "CONFIG"
  }

  function ParseView(s: string): (r: Option<View>)
    ensures r.Some? ==> ViewText(r.value) == s
  {
    if s == "HOME" then Some(Home)
    else if s == "MARKETPLACE" then Some(Marketplace)
    else if s == "CREATE" then Some(Create)
    else if s == "CONFIG" then Some(Config)
    else None
  }

  /** A view is one of the four, each with its own string. */
  lemma ViewTextRoundTrip(v: View)
    ensures ParseView(ViewText(v)) == Some(v)
    ensures v == Home || v == Marketplace || v == Create || v == Config
    ensures forall u :: ViewText(u) == ViewText(v) ==> u == v
  {
  }
}
