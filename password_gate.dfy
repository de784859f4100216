/**
 * The two `PasswordProtection` gates: src/components/PasswordProtection.tsx
 * (the report's, with required key and password) and
 * src/components/auth/PasswordProtection.tsx (the proposal's, with defaults).
 * Both read a flag from `localStorage` on mount, verify the typed password
 * after a 300 ms delay, and remember a success in `localStorage`. They
 * differ in two details, kept here as flags: the report's input also clears
 * the error when edited, and the proposal's input is disabled while
 * verifying.
 */
module PasswordGate {
  import opened Wrappers

  const ProposalStorageKey: string := "propuesta-access"
  const ProposalPassword: string := "NOR2026"
  const IncorrectPassword: string := "Contraseña incorrecta"
  /** The value a gate writes on success and looks for on mount. */
  const Granted: string := "true"

  /** The browser's `localStorage`, shared by every gate on the origin. */
  class LocalStorage {
    var items: map<string, string>

    constructor (items: map<string, string>)
      ensures this.items == items
    {
      this.items := items;
    }
  }

  /** `localStorage.getItem(key) === 'true'`: a missing key reads as `null`, so as no access. */
  function HasAccess(items: map<string, string>, key: string): (granted: bool)
    ensures granted <==> key in items && items[key] == Granted
  {
    key in items && items[key] == Granted
  }

  /** What the gate renders. */
  datatype Screen = Spinner | LoginForm | Protected

  class Gate {
    const store: LocalStorage
    const storageKey: string
    const password: string
    /** The report gate's `onChange` also runs `setError('')`. */
    const clearsErrorOnEdit: bool
    /** The proposal gate's input has `disabled={isLoading}`. */
    const locksInputWhileLoading: bool
    /** `null` until the mount effect has read `localStorage`. */
    var isAuthenticated: Option<bool>
    var inputPassword: string
    var error: string
    var isLoading: bool
    /** The password captured by the pending 300 ms timer, if one is pending. */
    var pending: Option<string>

    /** A timer is pending exactly while the gate shows "Verificando...". */
    predicate Valid()
      reads this
    {
      isLoading <==> pending.Some?
    }

    /** The render's three branches. */
    function View(): (s: Screen)
      reads this
      ensures s == Spinner <==> isAuthenticated == None
      ensures s == Protected <==> isAuthenticated == Some(true)
      ensures s == LoginForm <==> isAuthenticated == Some(false)
    {
      match isAuthenticated
      case None => Spinner
      case Some(true) => Protected
      case Some(false) => LoginForm
    }

    /** `disabled={isLoading || !inputPassword}` on the submit button. */
    predicate SubmitDisabled()
      reads this
    {
      isLoading || inputPassword == ""
    }

    /** The report's gate: key and password are required props. */
    constructor Report(store: LocalStorage, storageKey: string, password: string)
      ensures Valid() && View() == Spinner
      ensures this.store == store && this.storageKey == storageKey && this.password == password
      ensures clearsErrorOnEdit && !locksInputWhileLoading
      ensures inputPassword == "" && error == "" && !isLoading
    {
      this.store := store;
      this.storageKey := storageKey;
      this.password := password;
      clearsErrorOnEdit := true;
      locksInputWhileLoading := false;
      isAuthenticated := None;
      inputPassword := "";
      error := "";
      isLoading := false;
      pending := None;
    }

    /** The proposal's gate: key and password default to `'propuesta-access'` and `'NOR2026'`. */
    constructor Proposal(store: LocalStorage, storageKey: Option<string>, password: Option<string>)
      ensures Valid() && View() == Spinner
      ensures this.store == store
      ensures this.storageKey == storageKey.GetOr(ProposalStorageKey)
      ensures this.password == password.GetOr(ProposalPassword)
      ensures !clearsErrorOnEdit && locksInputWhileLoading
      ensures inputPassword == "" && error == "" && !isLoading
    {
      this.store := store;
      this.storageKey := storageKey.GetOr(ProposalStorageKey);
      this.password := password.GetOr(ProposalPassword);
      clearsErrorOnEdit := false;
      locksInputWhileLoading := true;
      isAuthenticated := None;
      inputPassword := "";
      error := "";
      isLoading := false;
      pending := None;
    }

    /** The mount effect: authenticated exactly when the stored flag is `'true'`. */
    method Mount()
      requires Valid()
      modifies this
      ensures Valid()
      ensures isAuthenticated == Some(HasAccess(store.items, storageKey))
      ensures View() == Protected <==> HasAccess(store.items, storageKey)
      ensures inputPassword == old(inputPassword) && error == old(error)
      ensures isLoading == old(isLoading) && pending == old(pending)
    {
      isAuthenticated := Some(HasAccess(store.items, storageKey));
    }

    /**
     * `handleSubmit`, reached from the login form while its submit button is
     * enabled: show the spinner, clear the error and start the timer with the
     * password as typed now. Otherwise nothing happens.
     */
    method Submit()
      requires Valid()
      modifies this
      ensures Valid()
      ensures isAuthenticated == old(isAuthenticated) && inputPassword == old(inputPassword)
      ensures old(View() != LoginForm || SubmitDisabled()) ==>
        error == old(error) && isLoading == old(isLoading) && pending == old(pending)
      ensures old(View() == LoginForm && !SubmitDisabled()) ==>
        isLoading && error == "" && pending == Some(old(inputPassword))
    {
      if View() != LoginForm || SubmitDisabled() {
        return;
      }
      isLoading := true;
      error := "";
      pending := Some(inputPassword);
    }

    /**
     * The 300 ms timer: the captured password either unlocks the gate and is
     * remembered in `localStorage`, or is refused with an error and an
     * emptied input. Either way the spinner stops.
     */
    method TimerFires()
      requires Valid() && pending.Some?
      modifies this, store
      ensures Valid() && !isLoading
      ensures old(pending.value) == password ==>
        && store.items == old(store.items)[storageKey := Granted]
        && HasAccess(store.items, storageKey)
        && View() == Protected
        && inputPassword == old(inputPassword) && error == old(error)
      ensures old(pending.value) != password ==>
        && store.items == old(store.items)
        && isAuthenticated == old(isAuthenticated)
        && error == IncorrectPassword && inputPassword == ""
    {
      if pending.value == password {
        store.items := store.items[storageKey := Granted];
        isAuthenticated := Some(true);
      } else {
        error := IncorrectPassword;
        inputPassword := "";
      }
      isLoading := false;
      pending := None;
    }

    /** Typing in the password field. */
    method Edit(value: string)
      requires Valid()
      modifies this
      ensures Valid()
      ensures isAuthenticated == old(isAuthenticated) && isLoading == old(isLoading) && pending == old(pending)
      ensures locksInputWhileLoading && old(isLoading) ==>
        inputPassword == old(inputPassword) && error == old(error)
      ensures !(locksInputWhileLoading && old(isLoading)) ==>
        && inputPassword == value
        && error == (if clearsErrorOnEdit then "" else old(error))
    {
      if locksInputWhileLoading && isLoading {
        return;
      }
      inputPassword := value;
      if clearsErrorOnEdit {
        error := "";
      }
    }
  }

  /**
   * A later visit to a page whose flag a successful unlock stored: once
   * mounted, the new gate shows the protected content straight away.
   */
  method ReturningVisit(store: LocalStorage, storageKey: string, password: string) returns (gate: Gate)
    requires HasAccess(store.items, storageKey)
    ensures gate.store == store && gate.View() == Protected
  {
    gate := new Gate.Report(store, storageKey, password);
    gate.Mount();
  }
}
