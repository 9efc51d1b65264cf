/**
 * The license handling of com.python.pydev.PydevPlugin: where the license and
 * the e-mail come from, how a license is validated into the preference
 * store, and the plugin's validated / checked-once state.
 */
module Plugin {
  import opened Wrappers
  import opened JavaStrings
  import opened License
  import opened Preferences

  const COULD_NOT_FIND_MESSAGE := "Could not find a suitable license."

  /** A license and the e-mail (or user name) to use it with; either may be null. */
  datatype UserAndLicense = UserAndLicense(emailOrUser: Option<string>, license: Option<string>)

  /**
   * The files the two license sources read, as found when they are read:
   * None is a file that does not exist (or, in the plugin location, any
   * failure while looking for it).
   */
  datatype Installation = Installation(
    /** features/com.python.pydev/pydev_ext (or the copy beside the bundle). */
    pluginLicenseFile: Option<string>,
    /** pydev_ext_email, next to it. */
    pluginEmailFile: Option<string>,
    /** The file "license" in the plugin's state location. */
    stateLicenseFile: Option<string>,
    /** That file's path, as the error message shows it. */
    stateLicensePath: string)

  /**
   * getLicenseKeyAndEmailFromPluginLocation: null unless both files exist;
   * otherwise the license text with every '\n', '\r' and ' ' removed and the
   * e-mail trimmed.
   */
  function LicenseFromPluginLocation(inst: Installation): (r: Option<UserAndLicense>)
    ensures r.Some? <==> inst.pluginLicenseFile.Some? && inst.pluginEmailFile.Some?
    ensures r.Some? ==> r.value.license.Some? && r.value.emailOrUser.Some?
    ensures r.Some? ==> var text := r.value.license.value;
      '\n' !in text && '\r' !in text && ' ' !in text &&
      forall c :: c !in "\n\r " ==> multiset(text)[c] == multiset(inst.pluginLicenseFile.value)[c]
    ensures r.Some? ==> Trim(r.value.emailOrUser.value) == r.value.emailOrUser.value
    ensures r.Some? ==> r.value == UserAndLicense(Some(Trim(inst.pluginEmailFile.value)), Some(StripLicenseText(inst.pluginLicenseFile.value)))
  {
    if inst.pluginLicenseFile.Some? && inst.pluginEmailFile.Some? then
      TrimIdempotent(inst.pluginEmailFile.value);
      Some(UserAndLicense(Some(Trim(inst.pluginEmailFile.value)), Some(StripLicenseText(inst.pluginLicenseFile.value))))
    else
      None
  }

  /**
   * getLicenseKeyAndEmailFromPreferences: the state-location license file and
   * the USER_EMAIL preference, never null; a missing file throws.
   */
  function LicenseFromPreferences(inst: Installation, values: map<string, string>): (r: Result<UserAndLicense, LicenseError>)
    ensures r.Err? <==> inst.stateLicenseFile.None?
    ensures r.Err? ==> r.error == LicenseFileNotFound("The license file: " + inst.stateLicensePath + " was not found.")
    ensures r.Ok? ==> r.value.license == inst.stateLicenseFile && r.value.emailOrUser == Some(GetString(values, USER_EMAIL))
  {
    match inst.stateLicenseFile
    case None => Err(LicenseFileNotFound("The license file: " + inst.stateLicensePath + " was not found."))
    case Some(text) => Ok(UserAndLicense(Some(GetString(values, USER_EMAIL)), Some(text)))
  }

  /**
   * hasContentsForKeyAndEmail: the pair and both its strings are non-null and
   * neither string is blank after trim.
   */
  predicate HasContentsForKeyAndEmail(k: Option<UserAndLicense>): (b: bool)
    ensures b <==> k.Some? && k.value.emailOrUser.Some? && k.value.license.Some? &&
                   !AllBlank(k.value.emailOrUser.value) && !AllBlank(k.value.license.value)
  {
    k.Some? && k.value.emailOrUser.Some? && k.value.license.Some? &&
    |Trim(k.value.emailOrUser.value)| > 0 && |Trim(k.value.license.value)| > 0
  }

  /**
   * getLicenseKeyAndEmail: the plugin-location pair if it has contents, else
   * the preferences pair if it has contents, else null. Reading the
   * preferences source throws when its license file is missing.
   */
  function GetLicenseKeyAndEmail(inst: Installation, values: map<string, string>): (r: Result<Option<UserAndLicense>, LicenseError>)
    ensures r.Ok? && r.value.Some? ==> HasContentsForKeyAndEmail(r.value)
    ensures HasContentsForKeyAndEmail(LicenseFromPluginLocation(inst)) ==> r == Ok(LicenseFromPluginLocation(inst))
    ensures !HasContentsForKeyAndEmail(LicenseFromPluginLocation(inst)) ==>
      match LicenseFromPreferences(inst, values)
      case Err(e) => r == Err(e)
      case Ok(k) => r.Ok? && (r.value.Some? <==> HasContentsForKeyAndEmail(Some(k))) && (r.value.Some? ==> r.value.value == k)
    ensures r.Err? <==> !HasContentsForKeyAndEmail(LicenseFromPluginLocation(inst)) && inst.stateLicenseFile.None?
  {
    var fromPlugin := LicenseFromPluginLocation(inst);
    if HasContentsForKeyAndEmail(fromPlugin) then Ok(fromPlugin)
    else
      match LicenseFromPreferences(inst, values)
      case Err(e) => Err(e)
      case Ok(k) => if HasContentsForKeyAndEmail(Some(k)) then Ok(Some(k)) else Ok(None)
  }

  /** The answer of one validation attempt and the store it leaves behind. */
  datatype Attempt = Attempt(result: Result<bool, LicenseError>, store: map<string, string>)

  /**
   * tryToValidateKeyAndEmail on a store: a null pair throws a
   * NullPointerException, a pair with a null string is not valid, and any
   * other pair is handed to isLicenseValid with the details shown.
   */
  function TryKeyAndEmail(k: Option<UserAndLicense>, values: map<string, string>, env: Environment): (a: Attempt)
    ensures a.result == Err(NullPointer) <==> k.None?
    ensures a.result == Ok(true) <==>
      k.Some? && k.value.emailOrUser.Some? && k.value.license.Some? &&
      LicenseValidity(k.value.license.value, k.value.emailOrUser, false, env).Ok?
    ensures a.result.Ok? && !a.result.value ==> a.store == values
    ensures a.result == Ok(true) ==>
      a.store == ShowPrefs(ClearShownFields(values), LicenseValidity(k.value.license.value, k.value.emailOrUser, false, env).value)
    ensures a.result.Err? && k.Some? ==> a.store == ClearShownFields(values)
    ensures k.Some? && (k.value.emailOrUser.None? || k.value.license.None?) ==> a == Attempt(Ok(false), values)
    ensures a.result.Err? && k.Some? ==>
      k.value.emailOrUser.Some? && k.value.license.Some? &&
      a.result.error == LicenseValidity(k.value.license.value, k.value.emailOrUser, false, env).error
    ensures GetString(a.store, USER_EMAIL) == GetString(values, USER_EMAIL)
  {
    if k.None? then Attempt(Err(NullPointer), values)
    else if k.value.emailOrUser.None? || k.value.license.None? then Attempt(Ok(false), values)
    else
      var outcome := LicenseValidity(k.value.license.value, k.value.emailOrUser, false, env);
      Attempt(if outcome.Ok? then Ok(true) else Err(outcome.error), StoreAfterValidation(values, outcome))
  }

  /** The second try of loadLicense: read the preferences source, then validate what it gives. */
  function PreferencesAttempt(inst: Installation, values: map<string, string>, env: Environment): (a: Attempt)
    ensures a.result != Err(NullPointer) && a.result != Ok(false)
    ensures inst.stateLicenseFile.None? ==> a == Attempt(Err(LicenseFileNotFound("The license file: " + inst.stateLicensePath + " was not found.")), values)
    ensures inst.stateLicenseFile.Some? ==>
      var outcome := LicenseValidity(inst.stateLicenseFile.value, Some(GetString(values, USER_EMAIL)), false, env);
      && (a.result == Ok(true) <==> outcome.Ok?)
      && (outcome.Err? ==> a.result == Err(outcome.error))
      && a.store == StoreAfterValidation(values, outcome)
  {
    match LicenseFromPreferences(inst, values)
    case Err(e) => Attempt(Err(e), values)
    case Ok(k) => TryKeyAndEmail(Some(k), values, env)
  }

  /** What loadLicense returns, the validated flag it leaves, and the store. */
  datatype LoadOutcome = LoadOutcome(message: Option<string>, validated: bool, store: map<string, string>)

  /**
   * loadLicense: try the plugin-location source, swallowing whatever it
   * throws; then the preferences source, keeping the message of what it
   * throws. Null (None) when one of them validated.
   */
  function LoadLicenseOutcome(inst: Installation, values: map<string, string>, env: Environment): (o: LoadOutcome)
    ensures o.validated <==> o.message.None?
  {
    var first := TryKeyAndEmail(LicenseFromPluginLocation(inst), values, env);
    if first.result == Ok(true) then LoadOutcome(None, true, first.store)
    else
      var second := PreferencesAttempt(inst, first.store, env);
      if second.result == Ok(true) then LoadOutcome(None, true, second.store)
      else
        var message := if second.result.Err? then Message(second.result.error) else Some(COULD_NOT_FIND_MESSAGE);
        LoadOutcome(message, false, second.store)
  }

  /** The answer of the preferences attempt depends on the store only through USER_EMAIL. */
  lemma PreferencesAttemptReadsOnlyEmail(inst: Installation, m1: map<string, string>, m2: map<string, string>, env: Environment)
    requires GetString(m1, USER_EMAIL) == GetString(m2, USER_EMAIL)
    ensures PreferencesAttempt(inst, m1, env).result == PreferencesAttempt(inst, m2, env).result
  {
  }

  /**
   * loadLicense tries the plugin location first and falls back to the
   * preferences on ANY failure there, including a license that decrypted but
   * was for another e-mail or had expired. It validates exactly when one of the
   * two sources validates; otherwise its message is that of the exception
   * from the preferences source, so "Could not find a suitable license." is
   * never returned and nothing thrown by the plugin-location source surfaces.
   */
  lemma LoadLicenseFallsBackToPreferences(inst: Installation, values: map<string, string>, env: Environment)
    ensures var o := LoadLicenseOutcome(inst, values, env);
      var fromPlugin := TryKeyAndEmail(LicenseFromPluginLocation(inst), values, env).result;
      var fromPrefs := PreferencesAttempt(inst, values, env).result;
      && (o.validated <==> fromPlugin == Ok(true) || fromPrefs == Ok(true))
      && (!o.validated ==> fromPrefs.Err? && o.message == Message(fromPrefs.error) && o.message.Some?)
  {
  }

  /**
   * When the plugin-location source validates, what the preferences hold
   * plays no part.
   */
  lemma PluginLocationFirst(inst1: Installation, inst2: Installation, values: map<string, string>, env: Environment)
    requires inst1.pluginLicenseFile == inst2.pluginLicenseFile && inst1.pluginEmailFile == inst2.pluginEmailFile
    requires TryKeyAndEmail(LicenseFromPluginLocation(inst1), values, env).result == Ok(true)
    ensures LoadLicenseOutcome(inst1, values, env) == LoadLicenseOutcome(inst2, values, env)
    ensures LoadLicenseOutcome(inst1, values, env).validated
  {
  }

  /** setPrefsToShow: write the fields of an accepted license into the store. */
  method SetPrefsToShow(p: PrefsToShow, store: PreferenceStore)
    modifies store
    ensures store.values == ShowPrefs(old(store.values), p)
  {
    store.SetValue(USER_NAME, p.name);
    store.SetValue(LIC_TIME, p.time);
    store.SetValue(LIC_TYPE, p.licenseType);
    store.SetValue(LIC_DEVS, p.devs);
    store.SetValue(LIC_PROVIDER, PROVIDER_PYDEV);
    if p.hideDetails {
      store.SetValue(USER_EMAIL, VALIDATED_PREFIX + p.name);
      store.SetValue(LICENSE, VALIDATED_PREFIX + p.name);
    }
  }

  /**
   * isLicenseValid: empty USER_NAME, LIC_TIME and LIC_TYPE, decrypt and check
   * the license, and show its fields. It returns true or throws, never false.
   * A null store is replaced by one whose writes go nowhere.
   */
  method IsLicenseValid(encLicense: string, enteredEmail: Option<string>, hideDetails: bool,
                        prefsStore: PreferenceStore?, env: Environment)
    returns (r: Result<bool, LicenseError>)
    modifies prefsStore
    ensures r.Ok? ==> r.value
    ensures var outcome := LicenseValidity(encLicense, enteredEmail, hideDetails, env);
      && (r.Ok? <==> outcome.Ok?)
      && (outcome.Err? ==> r == Err(outcome.error))
    ensures prefsStore != null ==>
      prefsStore.values == StoreAfterValidation(old(prefsStore.values), LicenseValidity(encLicense, enteredEmail, hideDetails, env))
  {
    var store: PreferenceStore;
    if prefsStore == null {
      store := new PreferenceStore();
    } else {
      store := prefsStore;
    }
    store.SetValue(USER_NAME, "");
    store.SetValue(LIC_TIME, "");
    store.SetValue(LIC_TYPE, "");

    var decrypted := env.decrypt(encLicense);
    if decrypted.Err? {
      return Err(DecryptionFailed(decrypted.error));
    }
    var shown := PrefsToShowFromPydevLicense(enteredEmail, hideDetails, decrypted.value, env);
    match shown {
      case Ok(p) =>
        SetPrefsToShow(p, store);
        r := Ok(true);
      case Err(PropertiesIO(m)) =>
        r := Err(InvalidLicense(m, false));
      case Err(e) =>
        // rethrown whether or not the license was correctly decrypted
        r := Err(e);
    }
  }

  /** The plugin object, as far as licensing is concerned. */
  class PydevPlugin {
    var validated: bool
    var checkedValidOnce: bool
    /** Whether the PydevExtensionNotifier thread has been created and started. */
    var notifierStarted: bool
    /** getPreferenceStore(). */
    const prefs: PreferenceStore

    constructor (prefs: PreferenceStore)
      ensures this.prefs == prefs
      ensures !validated && !checkedValidOnce && !notifierStarted
    {
      this.prefs := prefs;
      validated := false;
      checkedValidOnce := false;
      notifierStarted := false;
    }

    /**
     * tryToValidateKeyAndEmail: validate a pair with the plugin's store,
     * setting validated when it is accepted.
     */
    method TryToValidateKeyAndEmail(k: Option<UserAndLicense>, env: Environment) returns (r: Result<bool, LicenseError>)
      modifies this, prefs
      ensures var a := TryKeyAndEmail(k, old(prefs.values), env);
        r == a.result && prefs.values == a.store
      ensures validated == (old(validated) || r == Ok(true))
      ensures checkedValidOnce == old(checkedValidOnce) && notifierStarted == old(notifierStarted)
    {
      if k.None? {
        return Err(NullPointer);
      }
      var pair := k.value;
      if pair.emailOrUser.None? || pair.license.None? {
        return Ok(false);
      }
      var valid := IsLicenseValid(pair.license.value, pair.emailOrUser, false, prefs, env);
      if valid.Err? {
        return Err(valid.error);
      }
      validated := true;
      r := Ok(true);
    }

    /**
     * loadLicense: null when a source validated (validated stays true);
     * otherwise validated is false and the message says why.
     */
    method LoadLicense(inst: Installation, env: Environment) returns (msg: Option<string>)
      modifies this, prefs
      ensures var o := LoadLicenseOutcome(inst, old(prefs.values), env);
        msg == o.message && validated == o.validated && prefs.values == o.store
      ensures checkedValidOnce == old(checkedValidOnce) && notifierStarted == old(notifierStarted)
    {
      msg := Some(COULD_NOT_FIND_MESSAGE);

      var first := TryToValidateKeyAndEmail(LicenseFromPluginLocation(inst), env);
      if first == Ok(true) {
        return None;
      }
      // whatever the plugin-location source threw is dropped here

      var second: Result<bool, LicenseError>;
      match LicenseFromPreferences(inst, prefs.values) {
        case Err(e) => second := Err(e);
        case Ok(k) => second := TryToValidateKeyAndEmail(Some(k), env);
      }
      if second == Ok(true) {
        return None;
      }
      if second.Err? {
        msg := Message(second.error);
      }
      validated := false;
    }

    /** checkValidStr: load the license and make sure the notifier thread runs. */
    method CheckValidStr(inst: Installation, env: Environment) returns (msg: Option<string>)
      modifies this, prefs
      ensures var o := LoadLicenseOutcome(inst, old(prefs.values), env);
        msg == o.message && validated == o.validated && prefs.values == o.store
      ensures notifierStarted && checkedValidOnce == old(checkedValidOnce)
    {
      msg := LoadLicense(inst, env);
      if !notifierStarted {
        notifierStarted := true;
      }
    }

    /**
     * checkValid: load the license the first time only; every later call just
     * answers the current validated flag and changes nothing.
     */
    method CheckValid(inst: Installation, env: Environment) returns (v: bool)
      modifies this, prefs
      ensures checkedValidOnce && v == validated
      ensures old(checkedValidOnce) ==>
        validated == old(validated) && prefs.values == old(prefs.values) && notifierStarted == old(notifierStarted)
      ensures !old(checkedValidOnce) ==>
        var o := LoadLicenseOutcome(inst, old(prefs.values), env);
        validated == o.validated && prefs.values == o.store && notifierStarted
    {
      if !checkedValidOnce {
        var _ := CheckValidStr(inst, env);
        checkedValidOnce := true;
      }
      v := validated;
    }
  }
}
