/**
 * The license check of the Pydev extensions plugin: decrypting a license,
 * loading it as properties and deciding whether it holds for the entered
 * e-mail at the current time (PydevPlugin.getPrefsToShowFromPydevLicense and
 * the decrypting part of PydevPlugin.isLicenseValid).
 *
 * Decryption, Properties.load, the one-year calendar addition, date
 * formatting and the clock are inputs (see Environment).
 */
module License {
  import opened Wrappers
  import opened JavaStrings

  // Keys of the decrypted license properties.
  const EMAIL_KEY := "e-mail"
  const NAME_KEY := "name"
  const TIME_KEY := "time"
  const LICENSE_TYPE_KEY := "licenseType"
  const DEVS_KEY := "devs"

  const NOT_CORRECT_MESSAGE := "The license is not correct, please re-paste it. If this error persists, please request a new license."
  const WRONG_EMAIL_MESSAGE := "The e-mail specified is different from the e-mail this license was generated for."
  const EXPIRED_PREFIX := "The current license expired at: "

  /** The fields of an accepted license that are shown to the user. */
  datatype PrefsToShow = PrefsToShow(
    name: string,
    time: string,
    licenseType: string,
    devs: string,
    hideDetails: bool,
    isPydevLicense: bool)

  /** What the license code can throw. */
  datatype LicenseError =
      /** InvalidLicenseException, with its wasLicenseCorrectlyDecrypted flag. */
    | InvalidLicense(message: string, wasLicenseCorrectlyDecrypted: bool)
      /** NumberFormatException from Long.parseLong on the time field. */
    | NumberFormat(message: string)
      /** IOException from Properties.load. */
    | PropertiesIO(message: string)
      /** IllegalArgumentException from Properties.load (a malformed \uXXXX escape). */
    | MalformedProperties(message: string)
      /** The RuntimeException ClientEncryption.decrypt throws on a bad license. */
    | DecryptionFailed(message: string)
      /** The RuntimeException thrown when the license file in the state location is missing. */
    | LicenseFileNotFound(message: string)
      /** NullPointerException, whose message is null. */
    | NullPointer

  /** Throwable.getMessage(). */
  function Message(e: LicenseError): (m: Option<string>)
    ensures m.None? <==> e.NullPointer?
  {
    match e
    case InvalidLicense(msg, _) => Some(msg)
    case NumberFormat(msg) => Some(msg)
    case PropertiesIO(msg) => Some(msg)
    case MalformedProperties(msg) => Some(msg)
    case DecryptionFailed(msg) => Some(msg)
    case LicenseFileNotFound(msg) => Some(msg)
    case NullPointer => None
  }

  /** The outcome of Properties.load on a decrypted license text. */
  datatype PropertiesLoad =
    | Parsed(entries: map<string, string>)
    | ReadFailed(message: string)
    | BadEscape(message: string)

  /** What the license check reads from outside the plugin. */
  datatype Environment = Environment(
    /** ClientEncryption.getInstance().decrypt: the plain text, or the message of what it throws. */
    decrypt: string -> Result<string, string>,
    /** Properties.load on the bytes of a text. */
    load: string -> PropertiesLoad,
    /** getExpTime(long): the issue time plus one calendar year, in milliseconds. */
    expiryOf: int -> int,
    /** formatDate: an expiry time as yyyy-MM-dd. */
    formatDate: int -> string,
    /** Calendar.getInstance(): the current time, in milliseconds. */
    now: int)

  /** All five license entries are there and the entered e-mail is not null. */
  predicate FieldsPresent(entries: map<string, string>, enteredEmail: Option<string>) {
    && EMAIL_KEY in entries
    && NAME_KEY in entries
    && TIME_KEY in entries
    && LICENSE_TYPE_KEY in entries
    && DEVS_KEY in entries
    && enteredEmail.Some?
  }

  /**
   * The checks of getPrefsToShowFromPydevLicense on the loaded properties, in
   * their order: every field present, then the e-mail (ignoring case), then the
   * time field read as a long, then the expiry (strictly after it is expired).
   */
  function CheckFields(enteredEmail: Option<string>, hideDetails: bool, entries: map<string, string>, env: Environment)
    : (r: Result<PrefsToShow, LicenseError>)
    ensures !FieldsPresent(entries, enteredEmail) ==> r == Err(InvalidLicense(NOT_CORRECT_MESSAGE, false))
    ensures FieldsPresent(entries, enteredEmail) && LowerCase(enteredEmail.value) != LowerCase(entries[EMAIL_KEY]) ==>
      r == Err(InvalidLicense(WRONG_EMAIL_MESSAGE, true))
    ensures FieldsPresent(entries, enteredEmail) && LowerCase(enteredEmail.value) == LowerCase(entries[EMAIL_KEY]) ==>
      match ParseLong(entries[TIME_KEY])
      case Err(m) => r == Err(NumberFormat(m))
      case Ok(time) =>
        if env.now > env.expiryOf(time)
        then r == Err(InvalidLicense(EXPIRED_PREFIX + env.formatDate(env.expiryOf(time)), true))
        else r == Ok(PrefsToShow(entries[NAME_KEY], entries[TIME_KEY], entries[LICENSE_TYPE_KEY], entries[DEVS_KEY], hideDetails, true))
    ensures r.Err? && r.error.InvalidLicense? ==> (r.error.wasLicenseCorrectlyDecrypted <==> FieldsPresent(entries, enteredEmail))
  {
    if !FieldsPresent(entries, enteredEmail) then
      Err(InvalidLicense(NOT_CORRECT_MESSAGE, false))
    else
      EqualsIgnoreCaseIffSameLowerCase(enteredEmail.value, entries[EMAIL_KEY]);
      if !EqualsIgnoreCase(enteredEmail.value, entries[EMAIL_KEY]) then
        Err(InvalidLicense(WRONG_EMAIL_MESSAGE, true))
      else
        match ParseLong(entries[TIME_KEY])
        case Err(m) => Err(NumberFormat(m))
        case Ok(time) =>
          var expiry := env.expiryOf(time);
          if env.now > expiry then
            Err(InvalidLicense(EXPIRED_PREFIX + env.formatDate(expiry), true))
          else
            Ok(PrefsToShow(entries[NAME_KEY], entries[TIME_KEY], entries[LICENSE_TYPE_KEY], entries[DEVS_KEY], hideDetails, true))
  }

  /** getPrefsToShowFromPydevLicense: load the decrypted text as properties, then check them. */
  function PrefsToShowFromPydevLicense(enteredEmail: Option<string>, hideDetails: bool, license: string, env: Environment)
    : (r: Result<PrefsToShow, LicenseError>)
    ensures r.Ok? ==> env.load(license).Parsed? && FieldsPresent(env.load(license).entries, enteredEmail)
    ensures r.Ok? ==> r.value.isPydevLicense && r.value.hideDetails == hideDetails
    ensures env.load(license).ReadFailed? ==> r == Err(PropertiesIO(env.load(license).message))
    ensures env.load(license).BadEscape? ==> r == Err(MalformedProperties(env.load(license).message))
    ensures env.load(license).Parsed? ==> r == CheckFields(enteredEmail, hideDetails, env.load(license).entries, env)
  {
    match env.load(license)
    case ReadFailed(m) => Err(PropertiesIO(m))
    case BadEscape(m) => Err(MalformedProperties(m))
    case Parsed(entries) => CheckFields(enteredEmail, hideDetails, entries, env)
  }

  /**
   * What isLicenseValid decides, before it touches the store: decrypt the
   * license, then check it; an IOException while loading is turned into an
   * InvalidLicenseException that did not decrypt, and every other failure
   * propagates unchanged, whatever its wasLicenseCorrectlyDecrypted flag.
   */
  function LicenseValidity(encLicense: string, enteredEmail: Option<string>, hideDetails: bool, env: Environment)
    : (r: Result<PrefsToShow, LicenseError>)
    ensures env.decrypt(encLicense).Err? ==> r == Err(DecryptionFailed(env.decrypt(encLicense).error))
    ensures r.Err? ==> !r.error.PropertiesIO? && !r.error.NullPointer? && !r.error.LicenseFileNotFound?
    ensures r.Err? && r.error.InvalidLicense? && r.error.wasLicenseCorrectlyDecrypted ==>
      env.decrypt(encLicense).Ok? && env.load(env.decrypt(encLicense).value).Parsed?
    ensures r.Ok? ==> env.decrypt(encLicense).Ok? && r == PrefsToShowFromPydevLicense(enteredEmail, hideDetails, env.decrypt(encLicense).value, env)
    ensures env.decrypt(encLicense).Ok? ==>
      match env.load(env.decrypt(encLicense).value)
      case ReadFailed(m) => r == Err(InvalidLicense(m, false))
      case BadEscape(m) => r == Err(MalformedProperties(m))
      case Parsed(entries) => r == CheckFields(enteredEmail, hideDetails, entries, env)
  {
    match env.decrypt(encLicense)
    case Err(m) => Err(DecryptionFailed(m))
    case Ok(license) =>
      match PrefsToShowFromPydevLicense(enteredEmail, hideDetails, license, env)
      case Err(PropertiesIO(m)) => Err(InvalidLicense(m, false))
      case other => other
  }

  /**
   * The case of the entered e-mail does not matter: two entries that are
   * equalsIgnoreCase get the same answer, so a license for "a@b.com" accepts
   * "A@B.COM" exactly as it accepts "a@b.com".
   */
  lemma EnteredEmailCaseIrrelevant(a: string, b: string, hideDetails: bool, encLicense: string, env: Environment)
    requires EqualsIgnoreCase(a, b)
    ensures LicenseValidity(encLicense, Some(a), hideDetails, env) == LicenseValidity(encLicense, Some(b), hideDetails, env)
  {
    EqualsIgnoreCaseIffSameLowerCase(a, b);
  }

  /**
   * The expiry comparison is strict: a license is still accepted at the very
   * millisecond it expires and rejected, as decrypted, one millisecond later.
   */
  lemma ExpiryIsStrict(enteredEmail: string, hideDetails: bool, entries: map<string, string>, env: Environment, time: int)
    requires FieldsPresent(entries, Some(enteredEmail))
    requires EqualsIgnoreCase(enteredEmail, entries[EMAIL_KEY])
    requires ParseLong(entries[TIME_KEY]) == Ok(time)
    ensures env.now == env.expiryOf(time) ==> CheckFields(Some(enteredEmail), hideDetails, entries, env).Ok?
    ensures env.now == env.expiryOf(time) + 1 ==>
      CheckFields(Some(enteredEmail), hideDetails, entries, env) == Err(InvalidLicense(EXPIRED_PREFIX + env.formatDate(env.expiryOf(time)), true))
  {
  }

  /**
   * A license that decrypts and loads to the entries e-mail=a@b.com, name=Ann,
   * time=1000000000000, licenseType=pro, devs=5, and has not expired, is
   * accepted for the entered e-mail "A@B.COM" with those fields.
   */
  lemma AcceptsMixedCaseEmail(encLicense: string, text: string, env: Environment)
    requires env.decrypt(encLicense) == Ok(text)
    requires env.load(text) == Parsed(map[EMAIL_KEY := "a@b.com", NAME_KEY := "Ann", TIME_KEY := "1000000000000",
                                          LICENSE_TYPE_KEY := "pro", DEVS_KEY := "5"])
    requires env.now <= env.expiryOf(1000000000000)
    ensures LicenseValidity(encLicense, Some("A@B.COM"), false, env) == Ok(PrefsToShow("Ann", "1000000000000", "pro", "5", false, true))
  {
    var entries := env.load(text).entries;
    assert FieldsPresent(entries, Some("A@B.COM"));
    assert entries[EMAIL_KEY] == "a@b.com" && entries[TIME_KEY] == "1000000000000";
    ExampleEmailsLowerCaseAlike();
    TimeFieldParses();
    assert CheckFields(Some("A@B.COM"), false, entries, env) == Ok(PrefsToShow("Ann", "1000000000000", "pro", "5", false, true));
  }

  lemma ExampleEmailsLowerCaseAlike()
    ensures LowerCase("A@B.COM") == LowerCase("a@b.com")
  {
    assert LowerCase("A@B.COM") == "a@b.com";
    assert LowerCase("a@b.com") == "a@b.com";
  }

  lemma TimeFieldParses()
    ensures ParseLong("1000000000000") == Ok(1000000000000)
  {
    NatToStringOfPow10(12);
    assert Pow10(12) == 1000000000000;
    assert "1" + Zeros(12) == "1000000000000";
    ParseLongOfLongToString(1000000000000);
  }

}
