/** The admin configuration panel: a PIN gate in front of the endpoint
    URL, support email and admin phone settings. The panel's own
    `isAuthenticated` flag mirrors the persisted session flag. */
module ConfigGuideUi {
  import opened JsText
  import opened SheetWire
  import opened DataService

  /** The panel's login test: the PIN, trimmed, is the rescue PIN. Every
      PIN the server check accepts passes it. */
  function LoginAccepts(pin: string): (r: bool)
    ensures VerifyServerPin(pin) ==> r
  {
    Trim(pin) == RescuePin
  }

  /** The rescue PIN with any whitespace around it opens the panel. */
  lemma PaddedPinOpensPanel(a: string, b: string)
    requires AllWhitespace(a) && AllWhitespace(b)
    ensures LoginAccepts(a + RescuePin + b)
  {
    var pin := RescuePin;
    assert pin[0] == '1' && pin[|pin| - 1] == '4';
    TrimPadded(a, pin, b);
  }

  /** The server check, by contrast, accepts the rescue PIN only with
      nothing around it. */
  lemma ServerPinRefusesPadding(a: string, b: string)
    ensures VerifyServerPin(a + RescuePin + b) <==> a == [] && b == []
  {
    if a == [] && b == [] {
      assert a + RescuePin + b == RescuePin;
    } else {
      assert |a + RescuePin + b| != |RescuePin|;
    }
  }

  class ConfigPanel {
    const store: Store
    var isAuthenticated: bool
    var pin: string
    var url: string
    var email: string
    var phone: string
    var loading: bool
    var status: string

    /** The panel is signed in exactly when the stored session flag is set. */
    predicate SessionAgrees()
      reads this, store
    {
      isAuthenticated == store.IsAdmin()
    }

    /** The panel as mounted: signed in if the session flag is set, the
        inputs holding the stored settings. */
    constructor (store: Store)
      ensures this.store == store
      ensures isAuthenticated == store.IsAdmin() && SessionAgrees()
      ensures url == store.sheetUrl && email == store.adminEmail && phone == store.adminPhone
      ensures pin == "" && status == "" && !loading
    {
      this.store := store;
      isAuthenticated := store.IsAdmin();
      pin := "";
      url := store.sheetUrl;
      email := store.adminEmail;
      phone := store.adminPhone;
      loading := false;
      status := "";
    }

    /** The PIN input, shown only while signed out. */
    method SetPin(value: string)
      requires !isAuthenticated
      modifies this`pin
      ensures pin == value
    {
      pin := value;
    }

    method SetUrl(value: string)
      requires isAuthenticated
      modifies this`url
      ensures url == value
    {
      url := value;
    }

    method SetEmail(value: string)
      requires isAuthenticated
      modifies this`email
      ensures email == value
    {
      email := value;
    }

    method SetPhone(value: string)
      requires isAuthenticated
      modifies this`phone
      ensures phone == value
    {
      phone := value;
    }

    /** `handleLogin`, from the signed-out view: the panel signs in exactly
        when the PIN is accepted, and then the session flag is set; a
        refused PIN leaves the flag alone. The PIN input is cleared either
        way. */
    method HandleLogin()
      requires !isAuthenticated
      modifies this`isAuthenticated, this`pin, store`adminSession
      ensures pin == ""
      ensures isAuthenticated <==> LoginAccepts(old(pin))
      ensures isAuthenticated ==> store.IsAdmin()
      ensures !isAuthenticated ==> store.adminSession == old(store.adminSession)
      ensures old(SessionAgrees()) ==> SessionAgrees()
    {
      if LoginAccepts(pin) {
        store.SetAdminSession(true);
        isAuthenticated := true;
        pin := "";
      } else {
        pin := "";
      }
    }

    /** The logout button, shown while signed in: clears the session flag
        and signs the panel out. */
    method Logout()
      requires isAuthenticated
      modifies this`isAuthenticated, store`adminSession
      ensures !store.IsAdmin() && !isAuthenticated && SessionAgrees()
    {
      store.SetAdminSession(false);
      isAuthenticated := false;
    }

    /** `handleSave`, from the signed-in view: stores the three settings,
        the phone normalised, and shows the confirmation. A panel that
        agrees with the session flag writes settings only while that flag
        is set. */
    method HandleSave()
      requires isAuthenticated
      modifies store`sheetUrl, store`adminEmail, store`adminPhone, this`status
      ensures old(SessionAgrees()) ==> store.IsAdmin()
      ensures store.sheetUrl == url && store.adminEmail == email
      ensures store.adminPhone == NormalisePhone(phone)
      ensures forall c :: c in store.adminPhone ==> c != '+' && !IsJsWhitespace(c)
      ensures status == "✓ Configuración guardada"
    {
      store.SaveSheetUrl(url);
      store.SaveAdminEmail(email);
      store.SaveAdminPhone(phone);
      status := "✓ Configuración guardada";
    }

    /** The test-connection button, on the signed-in view: shows the spinner, probes the endpoint
        with the given outcome, and returns the text the alert shows; the
        spinner stops afterwards. */
    method HandleTestConnection(outcome: PostOutcome) returns (alerted: string)
      requires isAuthenticated
      modifies this`loading
      ensures !loading
      ensures alerted == if store.sheetUrl != "" && outcome == Answered(true) then "Conexión exitosa" else "Error de conexión"
    {
      loading := true;
      var success;
      success, alerted := store.TestConnection(outcome);
      loading := false;
    }
  }
}
