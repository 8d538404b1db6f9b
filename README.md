# Cryptocagua marketplace core in Dafny

Cryptocagua is a browser marketplace for peer-to-peer offers. Posters
create offers (buy, sell or exchange of an asset). An administrator
approves them before they are listed publicly. Buyers contact a poster
over WhatsApp.

The browser's `localStorage` holds the offer cache and the settings. A
spreadsheet script endpoint receives saves, deletes and status updates,
and serves the offer list back.

This project models the sequential logic of that core:

- the data model (`types.ts`);
- the data service: offer cache lifecycle, settings store, validators, request encoding and remote reads (`services/dataService.ts`);
- who sees which offer in the listing, the contact link, and the admin buttons (`components/Marketplace.tsx`);
- the creation form and its submit sequence (`components/CreateOffer.tsx`);
- the PIN gate of the admin panel (`components/ConfigGuide.tsx`);
- the hidden five-tap gesture of the navigation bar (`components/Navbar.tsx`).

Modules, one per concern:

| module | file | models |
|---|---|---|
| `Types` | `types.dfy` | offers, enumerations with their wire strings and parsers, profile, views |
| `Seqs` | `seqs.dfy` | order-preserving filter and subsequence, shared by the cache, the listing and string clean-ups |
| `JsText` | `js_text.dfy` | the JavaScript string builtins the core relies on: `includes`, `trim` and `\s`, ASCII `toLowerCase`, `String(n)`, `encodeURIComponent` |
| `Offers` | `offers.dfy` | the list transforms on the offer cache: prepend, filter out an id, approve an id |
| `SheetWire` | `sheet_wire.dfy` | request payloads, their form fields, the endpoint's outcomes, and a reader for a saved offer's form |
| `DataService` | `data_service.dfy` | `class Store` (the persisted keys as fields) and the service's operations |
| `MarketplaceUi` | `marketplace.dfy` | listing filter, WhatsApp link, card buttons, `class MarketplacePage` |
| `CreateOfferUi` | `create_offer.dfy` | form state, field updates, profile prefill, `class CreateOfferPage` |
| `ConfigGuideUi` | `config_guide.dfy` | PIN check, `class ConfigPanel` |
| `NavbarUi` | `navbar.dfy` | logo-tap transition, `class Navbar` |

## How the model treats the environment

- **Storage.** The service's exported functions read and write `localStorage` keys. Here they are the fields of one `DataService.Store` object. A key that was never written reads as the service's default: `""` for the URL, email and phone, `[]` for the offers, `false` for the session, no profile.
- **Components.** Each component's `useState` variables are the fields of a class. The marketplace, creation and configuration classes each hold a reference to the store. `NavbarUi.Navbar` reads and writes no store key, so it holds none; it holds the tap count and the application's current view.
- **Inputs outside the program are parameters:**
  - the endpoint's answer to a POST (`PostOutcome`);
  - the endpoint's answer to a read (`ReadReply`);
  - `crypto.randomUUID()` and the current time, as `id` and `createdAt`;
  - `atob`, as a decoder function that may fail;
  - the user's answer to `confirm`;
  - the description generator's text;
  - whether `addOffer` throws.
- **Asynchrony.** Each `await` is taken to complete before the next statement runs.

## Model

| member | source | states |
|---|---|---|
| Types.OfferTypeTextRoundTrip | types.ts:1-5 | the three offer types have distinct, non-empty wire strings COMPRA/VENTA/INTERCAMBIO, and each string parses back to its type |
| Types.CategoryTextRoundTrip | types.ts:7-13 | the five categories have pairwise distinct, non-empty strings, and each parses back to its category |
| Types.StatusTextRoundTrip | types.ts:15 | a status is PENDING or APPROVED, the two strings differ, and each parses back |
| Types.ViewTextRoundTrip | types.ts:34-37 | a view is one of HOME, MARKETPLACE, CREATE, CONFIG, with distinct strings that parse back |
| SheetWire.MissingRequiredKey | types.ts:17-32 | a saved-offer form lacking any key other than `reputation` and `verified` does not read back as an offer |
| Seqs.Filter | services/dataService.ts:73 | the result holds exactly the input elements that pass, as a subsequence of the input, never longer |
| Seqs.FilterCounts | services/dataService.ts:73 | every passing element keeps all its occurrences; a failing one keeps none |
| JsText.Includes | services/dataService.ts:22 | `includes` is true iff the needle occurs at some index of the text |
| JsText.TrimShape | components/ConfigGuide.tsx:24 | `trim` removes a whitespace prefix and a whitespace suffix and nothing else; trimming again changes nothing |
| JsText.Trim | components/ConfigGuide.tsx:24 | the trimmed text is no longer than the input and neither starts nor ends with whitespace (`TrimShape` gives the rest) |
| JsText.TrimPadded | components/ConfigGuide.tsx:24 | any whitespace, of any length, on either side of a string without edge whitespace is trimmed away |
| JsText.IntTextRoundTrip | services/dataService.ts:37 | `String(n)` of an integer reads back as the same integer |
| JsText.EncodeUriComponent | components/Marketplace.tsx:60 | the encoded text holds only unreserved characters and `%`, and is at least as long as the input |
| JsText.DigitsExact | components/Marketplace.tsx:58 | the digits kept from a string are every digit it has, each as often, in order, and nothing else |
| DataService.ValidateSheetUrl | services/dataService.ts:20-24 | an empty URL is invalid with "URL vacía"; a URL not containing "script.google.com" is invalid with "No es un dominio de Google"; any other URL is valid with no error |
| DataService.VerifyServerPin | services/dataService.ts:114-117 | a PIN it accepts neither starts nor ends with whitespace (`ServerPinRefusesPadding` contrasts it with the panel's check) |
| DataService.NormalisePhone | services/dataService.ts:18 | a character is in the stored phone iff it is in the input and is neither `+` nor whitespace |
| DataService.NormalisePhoneClean | services/dataService.ts:18 | the stored phone is a subsequence of the input holding every occurrence of each character other than `+` and whitespace, and none of those; normalising it again changes nothing |
| DataService.EncodeForm | services/dataService.ts:35-38 | the loop appends one form field per payload key, in key order: the JSON text for object values and `String(v)` for the rest |
| DataService.Store.constructor | services/dataService.ts:13-17 | with no stored keys, the URL, email and phone are empty, the cache is empty, there is no session and no profile |
| DataService.Store.SaveSheetUrl | services/dataService.ts:14 | the URL is stored as given |
| DataService.Store.SaveAdminEmail | services/dataService.ts:16 | the email is stored as given |
| DataService.Store.SaveAdminPhone | services/dataService.ts:18 | the stored phone is the normalised phone, with no `+` and no whitespace |
| DataService.Store.SetAdminSession | services/dataService.ts:107-112 | afterwards `isAdmin()` equals the flag given |
| DataService.Store.SaveUserProfile | services/dataService.ts:119-125 | afterwards `getUserProfile()` gives the nickname and contact just saved |
| DataService.Store.AddOffer | services/dataService.ts:84-96 | the new offer copies every caller field, has the given id and time, is PENDING with reputation 0 and verified false; the cache becomes that offer followed by the old cache; unique ids stay unique |
| DataService.Store.SendToSheet | services/dataService.ts:31-49 | with no URL it fails and sends nothing; otherwise it sends the payload's form and succeeds iff the request is answered with `ok` |
| DataService.Store.DeleteOffer | services/dataService.ts:72-76 | the cache becomes the old cache without that id; the delete form is sent iff a URL is configured |
| DataService.Store.ApproveOffer | services/dataService.ts:78-82 | the cache becomes the old cache with that id approved; the status-update form is sent iff a URL is configured |
| DataService.Store.SyncWithGoogleSheets | services/dataService.ts:98-100 | sends the offer's save form when a URL is configured; true iff that request is answered with `ok` |
| DataService.Store.TestConnection | services/dataService.ts:102-105 | success iff a URL is configured and the probe is answered with `ok`; the message is "Conexión exitosa" or "Error de conexión" accordingly |
| DataService.Store.FetchOffers | services/dataService.ts:51-70 | with no URL the cache is kept; a successful reply with an array replaces the cache with it; any other reply keeps the cache; the result is the cache |
| DataService.Store.ProcessMagicLink | services/dataService.ts:126-139 | the URL is saved, and true returned, iff the `setup` parameter is non-empty, decodes, and the text starts with "http"; otherwise the stored URL is unchanged |
| Offers.NewOffer | services/dataService.ts:84-92 | a new offer keeps every caller field, has the given id and time, is PENDING, reputation 0 and verified false |
| Offers.PrependKeepsUnique | services/dataService.ts:93 | prepending an offer with a fresh id keeps ids unique and adds exactly that id |
| Offers.WithoutId | services/dataService.ts:73 | the result holds exactly the offers whose id differs, as a subsequence of the cache (`DeleteEffect` gives the rest) |
| Offers.ApproveAll | services/dataService.ts:79 | same length, every id in place, offers with the id APPROVED and every other status kept (`ApproveEffect` gives the rest) |
| Offers.SubsequenceKeepsUnique | services/dataService.ts:73 | leaving offers out of a list with unique ids keeps them unique |
| Offers.DeleteEffect | services/dataService.ts:72-74 | after the filter no offer has the id; every occurrence of every other offer remains, in its order; an absent id changes nothing; unique ids stay unique |
| Offers.ApproveEffect | services/dataService.ts:78-80 | length and order are kept; offers with the id become APPROVED with every other field unchanged; other offers are unchanged; the set of ids is unchanged; unique ids stay unique |
| Offers.ApproveIdempotent | services/dataService.ts:79 | approving twice equals approving once |
| Offers.ApproveAbsent | services/dataService.ts:79 | approving an id no offer has changes nothing |
| SheetWire.FormOf | services/dataService.ts:36-37 | one form field per payload key, same keys in the same order (`EncodeForm` builds it with the loop, `SaveRoundTrip` reads it back) |
| SheetWire.SavePayload | services/dataService.ts:99 | the save request's first key is `action` with `save`; the fields that follow are read back by `SaveRoundTrip` |
| SheetWire.Delivered | services/dataService.ts:63-67 | a read reply brings offers iff it is JSON with a truthy `success` and an array `data`, and then exactly that array |
| SheetWire.SaveRoundTrip | services/dataService.ts:98-100 | an offer's save form reads back as the same offer, optional fields included |
| MarketplaceUi.StatusShown | components/Marketplace.tsx:35-40 | an offer passes the status test iff its status is PENDING in the admin's pending view, and APPROVED in every other case |
| MarketplaceUi.MatchesSearch | components/Marketplace.tsx:41-42 | an empty search term matches every offer |
| MarketplaceUi.FilteredOffers | components/Marketplace.tsx:34-43 | the listing holds exactly the cached offers passing the status and search tests, in cache order |
| MarketplaceUi.ListingVisibility | components/Marketplace.tsx:34-43 | a visitor sees only APPROVED offers; an admin sees only APPROVED offers in the public view and only PENDING in the pending view; the listing is a subsequence of the cache holding exactly the offers that pass the status and search tests, each as often as the cache holds it |
| MarketplaceUi.EmptySearchListsByStatus | components/Marketplace.tsx:41-42 | with an empty search term the listing is the status filter alone |
| MarketplaceUi.SearchIgnoresCase | components/Marketplace.tsx:41-42 | lower-casing the search term does not change the listing |
| MarketplaceUi.Greeting | components/Marketplace.tsx:60 | the message starts with "Hola @" and the nickname, and ends with the title in double quotes |
| MarketplaceUi.WhatsAppLink | components/Marketplace.tsx:57-61 | there is no link iff the contact holds no digit |
| MarketplaceUi.WhatsAppLinkReadsBack | components/Marketplace.tsx:57-61 | a link reads back as the prefix "https://wa.me/", the contact's digits in order, "?text=", and the encoded greeting |
| MarketplaceUi.AdminActions | components/Marketplace.tsx:85-88 | approve is offered iff admin mode and the offer is PENDING; delete iff admin mode |
| MarketplaceUi.ActionsInListing | components/Marketplace.tsx:85-88 | a visitor's cards have no buttons; in the pending view every card can be approved; in the public view cards offer delete only |
| MarketplaceUi.DisplayedRating | components/Marketplace.tsx:94 | the card shows 0 stars iff the reputation is absent or 0; a present reputation is shown as it is |
| MarketplaceUi.NewOfferRating | components/Marketplace.tsx:94 | a freshly created offer shows 0 stars |
| MarketplaceUi.ApprovedLeavesPendingView | components/Marketplace.tsx:87 | after approving an id, no offer with it is in the pending view |
| MarketplaceUi.CreatedListedAsPending | services/dataService.ts:93 | a created offer heading the cache is listed at once in the admin's pending view when it matches the search, and never to a visitor or in the public view |
| MarketplaceUi.ApprovedListedPublicly | services/dataService.ts:79 | once approved, an offer matching the search is listed, APPROVED and otherwise unchanged, to visitors and in the admin's public view |
| MarketplaceUi.MarketplacePage.constructor | components/Marketplace.tsx:11-19 | no offers, not loading, empty search, visitor mode, public view |
| MarketplaceUi.MarketplacePage.Mount | components/Marketplace.tsx:21-25 | admin mode becomes the session flag; the page then reloads and lists the store's cache |
| MarketplaceUi.MarketplacePage.LoadRemoteData | components/Marketplace.tsx:27-32 | the page lists what the store's read returns, which is the new cache; loading ends false |
| MarketplaceUi.MarketplacePage.SetSearchTerm | components/Marketplace.tsx:71 | the listing becomes the filter with the new term |
| MarketplaceUi.MarketplacePage.SetViewMode | components/Marketplace.tsx:75-78 | available only in admin mode, where the view buttons render; the listing becomes the filter with the new view |
| MarketplaceUi.MarketplacePage.ClickApprove | components/Marketplace.tsx:87 | approves the id in the store, sends the status update, then reloads; when no remote list replaces the cache (no URL, or a reply without offers), the offer leaves the pending listing |
| MarketplaceUi.MarketplacePage.ClickDelete | components/Marketplace.tsx:88 | if not confirmed nothing changes; if confirmed, deletes the id, sends the delete, reloads; when no remote list replaces the cache (no URL, or a reply without offers), the id leaves the listing whatever the delete request's outcome |
| CreateOfferUi.InitialForm | components/CreateOffer.tsx:15-25 | the form starts as VENTA and Criptomonedas, with every text input empty |
| CreateOfferUi.FieldValuesDetermine | components/CreateOffer.tsx:15-25 | two forms whose inputs all show the same values are the same form |
| CreateOfferUi.WithField | components/CreateOffer.tsx:39-41 | the named input shows the new value and every other input keeps its value |
| CreateOfferUi.WithFieldSame | components/CreateOffer.tsx:39-41 | writing back the value an input shows leaves the form unchanged |
| CreateOfferUi.Prefill | components/CreateOffer.tsx:27-37 | a saved profile sets the nickname and contact, and every other input keeps its value; no profile changes nothing |
| CreateOfferUi.CreateOfferPage.constructor | components/CreateOffer.tsx:12-37 | the form is the initial form prefilled from the stored profile; nothing is loading and no modal is shown |
| CreateOfferUi.CreateOfferPage.HandleChange | components/CreateOffer.tsx:39-41 | the form is updated in the named field only |
| CreateOfferUi.CreateOfferPage.HandleAiGenerate | components/CreateOffer.tsx:43-52 | callable only while no generation runs, as the button is disabled then; the generator runs iff the title is non-empty, since every category string is non-empty; it then sets the description only, and otherwise nothing changes |
| CreateOfferUi.CreateOfferPage.HandleSubmit | components/CreateOffer.tsx:54-81 | callable only with the seven required inputs filled, not loading, and before the success modal replaces the page. The profile is saved whatever follows. When storing succeeds: the new offer, with every required input filled, heads the cache, its save form is sent if a URL is configured, and the success modal opens whatever the sync reports, with loading left on, so no second submit is possible. When storing throws: the cache is unchanged and loading stops |
| ConfigGuideUi.LoginAccepts | components/ConfigGuide.tsx:24 | every PIN `verifyServerPin` accepts also opens the panel |
| ConfigGuideUi.PaddedPinOpensPanel | components/ConfigGuide.tsx:24 | the rescue PIN with any whitespace before and after it opens the panel |
| ConfigGuideUi.ServerPinRefusesPadding | services/dataService.ts:114-117 | `verifyServerPin` accepts the rescue PIN with text around it iff there is none, so the panel and the server check differ on every padded PIN |
| ConfigGuideUi.ConfigPanel.constructor | components/ConfigGuide.tsx:7-20 | signed in iff the session flag is set; the inputs show the stored URL, email and phone; no spinner and no status |
| ConfigGuideUi.ConfigPanel.SetPin | components/ConfigGuide.tsx:55 | signed out only; the PIN input holds the typed value |
| ConfigGuideUi.ConfigPanel.SetUrl | components/ConfigGuide.tsx:80 | signed in only; the URL input holds the typed value |
| ConfigGuideUi.ConfigPanel.SetPhone | components/ConfigGuide.tsx:85 | signed in only; the phone input holds the typed value |
| ConfigGuideUi.ConfigPanel.SetEmail | components/ConfigGuide.tsx:89 | signed in only; the email input holds the typed value |
| ConfigGuideUi.ConfigPanel.HandleLogin | components/ConfigGuide.tsx:22-32 | from the signed-out view, the panel signs in iff the PIN is accepted, and then the session flag is set; a refused PIN leaves the flag alone; the PIN is cleared either way; panel and session flag keep agreeing |
| ConfigGuideUi.ConfigPanel.Logout | components/ConfigGuide.tsx:73 | signed in only; the session flag is cleared and the panel signs out |
| ConfigGuideUi.ConfigPanel.HandleSave | components/ConfigGuide.tsx:34-40 | signed in only, so a panel agreeing with the session flag writes settings only while the flag is set; URL and email are stored as typed; the phone is stored normalised; the confirmation status is shown |
| ConfigGuideUi.ConfigPanel.HandleTestConnection | components/ConfigGuide.tsx:98 | signed in only; the alert reads "Conexión exitosa" iff a URL is configured and the probe is answered with `ok`, and "Error de conexión" otherwise; the spinner is off afterwards |
| NavbarUi.LogoTap | components/Navbar.tsx:14-26 | on HOME a tap counts one more, and at five opens CONFIG with the count reset to 0; elsewhere a tap goes HOME with the count reset to 0 |
| NavbarUi.Taps | components/Navbar.tsx:14-26 | over any number of taps a count below five stays below five, and after a tap a non-zero count is only seen on HOME |
| NavbarUi.TapKeepsCountBelow | components/Navbar.tsx:16-24 | a count below five stays below five, and a non-zero count only on HOME |
| NavbarUi.TapsCountUp | components/Navbar.tsx:15-17 | from HOME, taps that stay below five count up one each and stay on HOME |
| NavbarUi.TapsSplit | components/Navbar.tsx:14-26 | m + n taps are m taps followed by n taps |
| NavbarUi.SecretGesture | components/Navbar.tsx:13-21 | from HOME with count 0, four taps stay on HOME with count 4, and five open CONFIG with count 0 |
| NavbarUi.Navbar.constructor | components/Navbar.tsx:11 | the count starts at 0 over the application's view |
| NavbarUi.Navbar.HandleLogoClick | components/Navbar.tsx:14-26 | the view and count change as one logo tap does; a count below five stays below five |
| NavbarUi.Navbar.NavButton | components/Navbar.tsx:59-63 | a button other than the hidden panel sets the view and leaves the count alone |

## Left out

- Asynchrony and races. The delete handler does not await `deleteOffer` before `loadRemoteData` (components/Marketplace.tsx:88). Other clients may also change the sheet between requests. The model runs each step to completion in order.
- `fetch`, `response.json()` and the HTTP exchange. These become the `PostOutcome` and `ReadReply` inputs.
- Serialisation of the request body by `URLSearchParams`. The model keeps the body as its ordered name/value pairs (`Form`).
- `JSON.stringify`/`JSON.parse`. The cache is kept as a sequence, not as JSON text. Corrupt stored JSON, and remote `data` arrays whose elements are not offers, are not modelled: `Delivered` takes the array's elements as offers.
- Number formatting. `reputation` is an unbounded integer here, always written in plain decimal digits; JavaScript's exponent notation for magnitudes from 1e21 on, the precision lost above 2^53, fractions, `NaN` and infinities are not modelled.
- Object values in a payload carry their JSON text as given. The model does not derive that text from the object.
- `JsText.ToLower`: lower-cases ASCII letters only. Unicode case mapping, as `toLowerCase` does it, is not modelled. `SearchIgnoresCase` is stated for that ASCII mapping.
- `JsText.EncodeUriComponent`: states only that the result is made of unreserved characters and `%` escapes and is no shorter than the input. It does not state that decoding gives the input back.
- `DataService.Store.ProcessMagicLink`: reading `window.location.search` and the base64 decoding of `atob` (RFC 4648 section 4) are outside the model. The query parameter and the decoder are inputs.
- `crypto.randomUUID()` and `new Date().toISOString()` are inputs. `Store.AddOffer` requires the id to be fresh, standing for the UUID's uniqueness. Unique ids are not an invariant of the store, because a remote read may replace the cache with any list. The lemmas say which operations keep ids unique.
- `CreateOfferUi.CreateOfferPage.HandleSubmit`: models `addOffer` throwing as an input. It does not model `saveUserProfile` throwing, which would reject the handler before the `try`.
- services/geminiService.ts is not part of this model. The description generator's text is an input. `handleAnalyze`, `isAiConfigured` and the analysis modal are left out, since their content is whatever the external generator returns.
- App.tsx is not part of this model. The application's current view is held by `NavbarUi.Navbar`.
- `ViewState.detailsId` (types.ts:36): no core component reads or sets it, so the view is modelled as the `current` value alone.
- Markup, styling, the trade modal's open/close state, the admin contact link of the success modal, and `handleFinish`/`onSuccess` navigation. These are presentation only.
- `alert` dialogs, other than the test-connection alert, whose text `HandleTestConnection` returns. `confirm` is an input.
- The `setTimeout` that clears the panel's status after three seconds.
- `getSheetUrl`, `getAdminEmail`, `getAdminPhone`, `getOffers`, `isAdmin` and `getUserProfile` are reads of the store's fields. `GLOBAL_SCRIPT_URL` is empty, so an absent URL reads as `""`.
