/** The password gate (`src/pages/PasswordGate.tsx`): the site stays behind a form until the
    visitor types the configured password; success is remembered in local storage under
    `as1889_auth`. The configured password is a parameter (`None` or `""` when the build has
    none), and local storage is a map that may be unavailable, in which case every access to
    it throws and the error is ignored. */
module PasswordGate {
  import opened Wrappers

  const StorageKey := "as1889_auth"
  const NotConfigured := "Password is not configured."
  const Incorrect := "Incorrect password. Please try again."

  /** Local storage, or `None` when accessing it throws. */
  type Storage = Option<map<string, string>>

  datatype Gate = Gate(authed: bool, input: string, error: string, storage: Storage)

  /** The state after the first render and the mount effect: authenticated iff the stored flag
      is exactly `"true"`. */
  function Mount(storage: Storage): (g: Gate)
    ensures g.authed <==> storage.Some? && StorageKey in storage.value && storage.value[StorageKey] == "true"
    ensures g.input == "" && g.error == "" && g.storage == storage
  {
    var stored := storage.Some? && StorageKey in storage.value && storage.value[StorageKey] == "true";
    Gate(stored, "", "", storage)
  }

  /** Typing into the field. */
  function Type(g: Gate, text: string): (r: Gate)
    ensures r == g.(input := text)
  {
    g.(input := text)
  }

  /** `handleSubmit`. */
  function Submit(g: Gate, password: Option<string>): (r: Gate)
    ensures password.None? || password.value == "" ==> r == g.(error := NotConfigured)
    ensures password.Some? && password.value != "" && g.input == password.value ==>
      (r.authed && r.error == "" && r.input == g.input
      && (g.storage.Some? ==> r.storage == Some(g.storage.value[StorageKey := "true"]))
      && (g.storage.None? ==> r.storage.None?))
    ensures password.Some? && password.value != "" && g.input != password.value ==> r == g.(error := Incorrect)
  {
    if password.None? || password.value == "" then g.(error := NotConfigured)
    else if g.input == password.value then
      var storage := match g.storage
        case Some(m) => Some(m[StorageKey := "true"])
        case None => None;
      Gate(true, g.input, "", storage)
    else g.(error := Incorrect)
  }

  /** The children are shown exactly when authenticated; otherwise the form. */
  predicate ShowsChildren(g: Gate) {
    g.authed
  }

  /** A submit never logs out. */
  lemma SubmitKeepsAuth(g: Gate, password: Option<string>)
    ensures g.authed ==> Submit(g, password).authed
  {
  }

  /** A submit authenticates iff a password is configured and the input equals it. */
  lemma SubmitAuthenticates(g: Gate, password: Option<string>)
    requires !g.authed
    ensures Submit(g, password).authed <==> password.Some? && password.value != "" && g.input == password.value
  {
  }

  /** A successful submit is remembered: mounting again on the storage it left authenticates
      at once, provided local storage is available. */
  lemma RememberedAfterReload(g: Gate, password: Option<string>)
    requires g.storage.Some?
    requires password.Some? && password.value != "" && g.input == password.value
    ensures Mount(Submit(g, password).storage).authed
  {
  }

  /** Without local storage nothing is remembered: a reload shows the form again. */
  lemma ForgottenWithoutStorage(g: Gate, password: Option<string>)
    requires g.storage.None?
    ensures !Mount(Submit(g, password).storage).authed
  {
  }
}
