# Pydev extensions license check, in Dafny

This project models the license handling of `com.python.pydev.PydevPlugin`,
the plugin class of the Pydev extensions for Eclipse. The plugin accepts a
license (an encrypted properties text) together with the e-mail or user name
it was issued for. The model covers the following:

- **Field check** (`getPrefsToShowFromPydevLicense`). The decrypted license is
  loaded as properties. All of `e-mail`, `name`, `time`, `licenseType` and
  `devs` must be present and the entered e-mail must not be null. The e-mail
  must match ignoring case. The `time` field is read with `Long.parseLong`.
  The license must not be strictly past its expiry (issue time plus one year).
- **Result sink** (`isLicenseValid`, `setPrefsToShow`). A string preference
  store is updated in place. `USER_NAME`, `LIC_TIME` and `LIC_TYPE` are
  emptied first. On success the license fields and the provider `"Pydev"` are
  written. With `hideDetails`, the e-mail and license are also replaced by
  `"Install validated for: <name>"`.
- **Sources and state** (`getLicenseKeyAndEmail`, `hasContentsForKeyAndEmail`,
  `loadLicense`, `tryToValidateKeyAndEmail`, `checkValidStr`, `checkValid`).
  There are two license sources. The plugin location comes first. Its text has
  newlines, carriage returns and spaces removed, and its e-mail is trimmed. The
  preferences come second. The plugin keeps a `validated` flag and loads the
  license at most once through `checkValid`.
- **Occurrence annotations** (`getOccurrenceAnnotationsInPyEdit`). This keeps,
  in order, the cached annotations of the mark-occurrences type.

The Java library calls the code relies on are modelled in `JavaStrings`:
`String.trim`, `replaceAll` with a one-character pattern, `equalsIgnoreCase`
and `Long.parseLong`. `Long.toString` is not called by the plugin; it is
modelled only as the writer in the round-trip lemma for `Long.parseLong`. A Java `null` is `Option.None`. A thrown
exception is `Result.Err` carrying a `License.LicenseError`. Decryption,
`Properties.load`, the calendar arithmetic, date formatting and the clock are
the fields of `License.Environment`. The files the two sources read are
`Plugin.Installation`.

Behaviours of the code worth knowing, all followed by the model:

- Any failure of the plugin-location license leads to the preferences source,
  including a license that decrypted but named another e-mail or had expired.
  `loadLicense` catches every exception of its first try (PydevPlugin.java:213-219),
  and `isLicenseValid` rethrows in both branches of its
  `wasLicenseCorrectlyDecrypted` test (:382-391), so the flag changes nothing.
- A `time` field that is not a decimal long makes `Long.parseLong` (:494) throw
  `NumberFormatException`, not an `InvalidLicenseException`. It is reached only
  after the e-mail has matched (:416-422).
- Empty field values pass the test at :413, which only rejects missing keys. An empty `time`, though, then fails `Long.parseLong` (:494) and the license is rejected.
- `getLicenseKeyAndEmail` throws, rather than returning null, when the
  plugin-location pair has no contents and the state-location license file is
  missing: `getLicenseKeyAndEmailFromPreferences` throws a `RuntimeException`
  (:265-274) that :193 does not catch.
- `getLicenseKeyAndEmailFromPreferences` never returns null and never a pair
  with a null string (:269-271). So `tryToValidateKeyAndEmail` on it either
  returns true or throws (:245-250), and `loadLicense` either validates or
  returns the message of that exception (:223-229). It never returns
  `"Could not find a suitable license."` (:210); see
  `Plugin.LoadLicenseFallsBackToPreferences`.

## Model

| member | source | states |
|---|---|---|
| `JavaStrings.Trim` | plugins/com.python.pydev/src/com/python/pydev/PydevPlugin.java:307 | the result is a slice of the input with only blanks (chars up to U+0020) cut from each end; its ends are not blank; it is empty exactly when the input is all blank |
| `JavaStrings.TrimIdempotent` | plugins/com.python.pydev/src/com/python/pydev/PydevPlugin.java:307 | trimming a trimmed e-mail changes nothing |
| `JavaStrings.RemoveAll` | plugins/com.python.pydev/src/com/python/pydev/PydevPlugin.java:306 | the removed character no longer occurs; every other character occurs as often as before |
| `JavaStrings.RemoveAllConcat` | plugins/com.python.pydev/src/com/python/pydev/PydevPlugin.java:306 | removal distributes over concatenation, so the kept characters keep their order |
| `JavaStrings.RemoveAllAbsent` | plugins/com.python.pydev/src/com/python/pydev/PydevPlugin.java:306 | a text without the character is unchanged |
| `JavaStrings.StripLicenseText` | plugins/com.python.pydev/src/com/python/pydev/PydevPlugin.java:306 | the plugin-location license text has no newline, carriage return or space and keeps every other character with its count |
| `JavaStrings.StripLicenseTextIdempotent` | plugins/com.python.pydev/src/com/python/pydev/PydevPlugin.java:306 | stripping an already stripped text changes nothing |
| `JavaStrings.EqualsIgnoreCaseIffSameLowerCase` | plugins/com.python.pydev/src/com/python/pydev/PydevPlugin.java:416 | equalsIgnoreCase holds exactly when both strings lower-case to the same string |
| `JavaStrings.ParseLong` | plugins/com.python.pydev/src/com/python/pydev/PydevPlugin.java:493-495 | a value is returned exactly for an optional sign followed by decimal digits (leading zeros and "+" allowed) whose value fits in 64 bits, and it is that value; otherwise the NumberFormatException names the input |
| `JavaStrings.ParseLongOfLongToString` | plugins/com.python.pydev/src/com/python/pydev/PydevPlugin.java:493-495 | every 64-bit value written by Long.toString parses back to itself |
| `License.Message` | plugins/com.python.pydev/src/com/python/pydev/PydevPlugin.java:227-228 | getMessage is null exactly for a NullPointerException |
| `License.CheckFields` | plugins/com.python.pydev/src/com/python/pydev/PydevPlugin.java:407-429 | a missing field or null entered e-mail rejects as not decrypted; then an e-mail differing other than in case rejects as decrypted; then a non-numeric time throws NumberFormatException; then now strictly after the expiry rejects as decrypted with the formatted expiry; otherwise the name, time, type and developers are accepted; the decrypted flag is set exactly when all fields were present |
| `License.PrefsToShowFromPydevLicense` | plugins/com.python.pydev/src/com/python/pydev/PydevPlugin.java:402-430 | a loaded text gets exactly the field check's outcome; load failures become the matching errors; an accepted result keeps hideDetails and is a Pydev license |
| `License.LicenseValidity` | plugins/com.python.pydev/src/com/python/pydev/PydevPlugin.java:361-396 | a decryption failure propagates; for a decrypted text, an IOException while loading becomes InvalidLicense(message, not decrypted), a malformed escape propagates and loaded properties get exactly the field check's outcome; a "decrypted" rejection implies the text decrypted and loaded |
| `License.EnteredEmailCaseIrrelevant` | plugins/com.python.pydev/src/com/python/pydev/PydevPlugin.java:416-418 | two entered e-mails that are equalsIgnoreCase get the same validation outcome |
| `License.ExpiryIsStrict` | plugins/com.python.pydev/src/com/python/pydev/PydevPlugin.java:421-425 | with fields and e-mail right, a license is accepted at its expiry instant and rejected as decrypted, with the expiry message, one millisecond later |
| `License.AcceptsMixedCaseEmail` | plugins/com.python.pydev/src/com/python/pydev/PydevPlugin.java:361-430 | a license that decrypts and loads to e-mail a@b.com, name Ann, time 1000000000000, type pro, 5 developers, and has not expired, is accepted for "A@B.COM" with those fields |
| `License.TimeFieldParses` | plugins/com.python.pydev/src/com/python/pydev/PydevPlugin.java:494 | the time "1000000000000" parses to that number |
| `Preferences.PreferenceStore.constructor` | plugins/com.python.pydev/src/com/python/pydev/PydevPlugin.java:364-366 | a store created in place of a null one starts empty and is dropped afterwards |
| `Preferences.PreferenceStore.SetValue` | plugins/com.python.pydev/src/com/python/pydev/PydevPlugin.java:367-369 | setValue maps the key to the value and changes no other key |
| `Preferences.GetString` | plugins/com.python.pydev/src/com/python/pydev/PydevPlugin.java:270 | getString gives the stored value, or "" for a key never set |
| `Preferences.ClearShownFields` | plugins/com.python.pydev/src/com/python/pydev/PydevPlugin.java:367-369 | USER_NAME, LIC_TIME and LIC_TYPE hold ""; every other key is untouched |
| `Preferences.ShowPrefs` | plugins/com.python.pydev/src/com/python/pydev/PydevPlugin.java:436-454 | name, time, type, developers and "Pydev" are stored; with hideDetails the e-mail and license hold "Install validated for: " + name; no other key changes, and without hideDetails the e-mail and license are untouched |
| `Preferences.StoreAfterValidation` | plugins/com.python.pydev/src/com/python/pydev/PydevPlugin.java:361-396 | on failure only the three cleared keys change (LIC_DEVS included among the untouched); on success the accepted fields are shown over the cleared store; USER_EMAIL changes only when details are hidden |
| `Plugin.LicenseFromPluginLocation` | plugins/com.python.pydev/src/com/python/pydev/PydevPlugin.java:283-314 | a pair exists exactly when both files do; its license text has no newline, carriage return or space and keeps every other character; the pair is exactly the e-mail file trimmed and the license file stripped of those three characters |
| `Plugin.LicenseFromPreferences` | plugins/com.python.pydev/src/com/python/pydev/PydevPlugin.java:256-276 | the state-location file and the USER_EMAIL preference, never null; a missing file throws "The license file: <path> was not found." |
| `Plugin.PreferencesAttemptReadsOnlyEmail` | plugins/com.python.pydev/src/com/python/pydev/PydevPlugin.java:256-276 | the preferences attempt depends on the store only through USER_EMAIL |
| `Plugin.HasContentsForKeyAndEmail` | plugins/com.python.pydev/src/com/python/pydev/PydevPlugin.java:322-325 | holds exactly when the pair and both strings are non-null and each string has a non-blank character |
| `Plugin.GetLicenseKeyAndEmail` | plugins/com.python.pydev/src/com/python/pydev/PydevPlugin.java:187-200 | a returned pair always has contents; the plugin-location pair wins when it has contents; otherwise the preferences pair if it has contents, else null; it throws exactly when neither has contents and the state license file is missing |
| `Plugin.TryKeyAndEmail` | plugins/com.python.pydev/src/com/python/pydev/PydevPlugin.java:244-251 | a null pair throws NullPointerException; true exactly when both strings are non-null and the license validates with details shown, and the store then shows the accepted fields over the cleared store; a pair with a null string answers false and leaves the store alone; anything thrown is exactly the license check's error, and leaves the cleared store; USER_EMAIL is never changed |
| `Plugin.PreferencesAttempt` | plugins/com.python.pydev/src/com/python/pydev/PydevPlugin.java:222-229 | the preferences try never throws NullPointerException and never answers false; a missing file throws the not-found message and leaves the store; an existing file's text is validated against the USER_EMAIL preference, answering true exactly when that check passes, throwing its error otherwise, and leaving the store the check leaves |
| `Plugin.LoadLicenseOutcome` | plugins/com.python.pydev/src/com/python/pydev/PydevPlugin.java:209-236 | the returned message is null exactly when validated is left true |
| `Plugin.LoadLicenseFallsBackToPreferences` | plugins/com.python.pydev/src/com/python/pydev/PydevPlugin.java:209-236 | loadLicense validates exactly when the plugin-location or the preferences source validates; otherwise its message is that of the exception from the preferences source, never null and never from the plugin location |
| `Plugin.PluginLocationFirst` | plugins/com.python.pydev/src/com/python/pydev/PydevPlugin.java:212-219 | when the plugin-location source validates, the preferences source plays no part |
| `Plugin.SetPrefsToShow` | plugins/com.python.pydev/src/com/python/pydev/PydevPlugin.java:436-454 | the store afterwards is the accepted fields shown over the store before |
| `Plugin.IsLicenseValid` | plugins/com.python.pydev/src/com/python/pydev/PydevPlugin.java:361-396 | returns true exactly when the license validates and throws its error otherwise, never false; the store ends as the cleared store, with the fields shown on success |
| `Plugin.PydevPlugin.constructor` | plugins/com.python.pydev/src/com/python/pydev/PydevPlugin.java:78-80 | a new plugin is not validated, not yet checked and has no notifier (the Java field defaults of :70-71 and :124) |
| `Plugin.PydevPlugin.TryToValidateKeyAndEmail` | plugins/com.python.pydev/src/com/python/pydev/PydevPlugin.java:244-251 | the answer and store of the attempt; validated is set when it answers true and otherwise kept |
| `Plugin.PydevPlugin.LoadLicense` | plugins/com.python.pydev/src/com/python/pydev/PydevPlugin.java:209-236 | message, validated flag and store are those of the loadLicense outcome |
| `Plugin.PydevPlugin.CheckValidStr` | plugins/com.python.pydev/src/com/python/pydev/PydevPlugin.java:114-122 | loads the license and leaves the notifier started |
| `Plugin.PydevPlugin.CheckValid` | plugins/com.python.pydev/src/com/python/pydev/PydevPlugin.java:124-131 | the first call loads the license and marks it checked; later calls change nothing and return the current validated flag |
| `Annotations.Occurrences` | plugins/com.python.pydev/src/com/python/pydev/PydevPlugin.java:480-489 | only occurrence annotations are kept, each as often as it occurs in the input |
| `Annotations.OccurrencesConcat` | plugins/com.python.pydev/src/com/python/pydev/PydevPlugin.java:482-489 | filtering distributes over concatenation, so the order is kept |
| `Annotations.GetOccurrenceAnnotationsInPyEdit` | plugins/com.python.pydev/src/com/python/pydev/PydevPlugin.java:472-491 | no cache or no cached list gives an empty list; otherwise exactly the occurrence annotations of the cached list, in order |

## Left out

- Decryption (`ClientEncryption.decrypt`) is an input function. Its source is not part of this model, and its failure is modelled only by a message.
- `Properties.load` is an input function: the properties text format and its escapes are not modelled.
- `getExpTime` (a calendar year added in the default time zone, with leap days), `formatDate` (`SimpleDateFormat` "yyyy-MM-dd") and `Calendar.getInstance()` are inputs. The model keeps only the strict "after" comparison of milliseconds.
- The search for the plugin-location files and the state-location path are left out (Eclipse install and state locations). `Plugin.Installation` holds the file contents as they are found.
- `saveLicense` writes a file in the state location (file I/O). Its one store write, USER_EMAIL, is not modelled.
- `start`, `stop`, `getDefault`, `isValidated` (a read of the validated field), the version-mismatch dialog, `getImageDescriptor` and `getPluginID` are platform lifecycle and UI. The `PydevExtensionNotifier` thread is only the flag `notifierStarted`.
- The strings behind the preference keys are declared in `PydevExtensionInitializer`, which is not part of this model. The model uses distinct stand-ins.
- JavaStrings.EqualsIgnoreCase: only the letters A to Z and a to z change case. Java's full Unicode case mapping is not modelled.
- JavaStrings.ParseLong: only the ASCII digits 0 to 9 are accepted. `Character.digit` also accepts other Unicode decimal digits.
- Annotations.GetOccurrenceAnnotationsInPyEdit: annotations are values, not objects, so two equal annotations cannot be told apart. A cache entry that is not a list, which would raise a ClassCastException, is not modelled.
- Exception messages other than a NullPointerException's are taken to be non-null strings.
- A failure to read an existing state-location license file (`REF.getFileContents` at PydevPlugin.java:269) is not modelled: `Installation.stateLicenseFile` is either the file's text or absent. Such a failure would throw an uncaught RuntimeException whose message loadLicense would return.
- A null result from decryption is ruled out by the type of `Environment.decrypt`. In the code it would make `license.getBytes()` (:405) throw a NullPointerException, and loadLicense would then return a null message with validated false.
- A null annotation type, which would make the test at :485 throw a NullPointerException, is ruled out by `Annotation.annotationType` being a string.
- Annotations.GetOccurrenceAnnotationsInPyEdit: a null editor (`pyEdit.cache`, :474) and a null element of the cached list (`annotation.getType()`, :485) would each throw a NullPointerException. The model rules both out: the editor is its `Option` cache and each element is an `Annotation` value.
- Preferences.GetString: `IPreferenceStore.getString` returns the default registered for a key when the key is unset. Those defaults are registered in `PydevExtensionInitializer`, which is not part of this model, so every default is taken to be "".
