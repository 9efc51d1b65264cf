/**
 * The preference store the license code writes what it shows to the user
 * into (an IPreferenceStore), and the effect isLicenseValid has on it.
 */
module Preferences {
  import opened Wrappers
  import opened License

  // Keys declared in PydevExtensionInitializer, which is not part of this model;
  // only their being distinct matters here.
  const USER_NAME := "USER_NAME"
  const USER_EMAIL := "USER_EMAIL"
  const LICENSE := "LICENSE"
  const LIC_TIME := "LIC_TIME"
  const LIC_TYPE := "LIC_TYPE"
  const LIC_DEVS := "LIC_DEVS"
  const LIC_PROVIDER := "LIC_PROVIDER"

  const PROVIDER_PYDEV := "Pydev"
  const VALIDATED_PREFIX := "Install validated for: "

  /** A string preference store, updated in place. */
  class PreferenceStore {
    var values: map<string, string>

    constructor ()
      ensures values == map[]
    {
      values := map[];
    }

    /** setValue(key, value). */
    method SetValue(key: string, value: string)
      modifies this
      ensures values == old(values)[key := value]
    {
      values := values[key := value];
    }
  }

  /** getString(key): the stored value, or the empty string when there is none. */
  function GetString(values: map<string, string>, key: string): (v: string)
    ensures key in values ==> v == values[key]
    ensures key !in values ==> v == ""
  {
    if key in values then values[key] else ""
  }

  /** The three fields isLicenseValid empties before it decrypts anything. */
  predicate IsClearedKey(k: string) {
    k == USER_NAME || k == LIC_TIME || k == LIC_TYPE
  }

  /** Every key isLicenseValid may write on success. */
  predicate IsShownKey(k: string, hideDetails: bool) {
    k == USER_NAME || k == LIC_TIME || k == LIC_TYPE || k == LIC_DEVS || k == LIC_PROVIDER ||
    (hideDetails && (k == USER_EMAIL || k == LICENSE))
  }

  /** The store once USER_NAME, LIC_TIME and LIC_TYPE are set to "". */
  function ClearShownFields(values: map<string, string>): (r: map<string, string>)
    ensures forall k :: IsClearedKey(k) ==> k in r && r[k] == ""
    ensures forall k :: !IsClearedKey(k) ==> (k in r <==> k in values)
    ensures forall k :: !IsClearedKey(k) && k in values ==> r[k] == values[k]
  {
    values[USER_NAME := ""][LIC_TIME := ""][LIC_TYPE := ""]
  }

  /**
   * The store once setPrefsToShow has written an accepted license's fields:
   * name, time, type, developers and the provider "Pydev", and, only when the
   * details are hidden, "Install validated for: <name>" as e-mail and license.
   */
  function ShowPrefs(values: map<string, string>, p: PrefsToShow): (r: map<string, string>)
    ensures USER_NAME in r && r[USER_NAME] == p.name
    ensures LIC_TIME in r && r[LIC_TIME] == p.time
    ensures LIC_TYPE in r && r[LIC_TYPE] == p.licenseType
    ensures LIC_DEVS in r && r[LIC_DEVS] == p.devs
    ensures LIC_PROVIDER in r && r[LIC_PROVIDER] == PROVIDER_PYDEV
    ensures p.hideDetails ==>
      USER_EMAIL in r && r[USER_EMAIL] == VALIDATED_PREFIX + p.name && LICENSE in r && r[LICENSE] == VALIDATED_PREFIX + p.name
    ensures forall k :: !IsShownKey(k, p.hideDetails) ==> (k in r <==> k in values)
    ensures forall k :: !IsShownKey(k, p.hideDetails) && k in values ==> r[k] == values[k]
  {
    var shown := values[USER_NAME := p.name][LIC_TIME := p.time][LIC_TYPE := p.licenseType]
                       [LIC_DEVS := p.devs][LIC_PROVIDER := PROVIDER_PYDEV];
    if p.hideDetails then
      shown[USER_EMAIL := VALIDATED_PREFIX + p.name][LICENSE := VALIDATED_PREFIX + p.name]
    else
      shown
  }

  /**
   * The store after isLicenseValid: on failure only the three cleared fields
   * differ from before (LIC_DEVS included, nothing else is written); on success
   * the accepted fields are shown over the cleared store.
   */
  function StoreAfterValidation(values: map<string, string>, outcome: Result<PrefsToShow, LicenseError>)
    : (r: map<string, string>)
    ensures outcome.Err? ==> forall k :: IsClearedKey(k) ==> k in r && r[k] == ""
    ensures outcome.Err? ==> forall k :: !IsClearedKey(k) ==> (k in r <==> k in values) && (k in values ==> r[k] == values[k])
    ensures outcome.Ok? ==> r == ShowPrefs(ClearShownFields(values), outcome.value)
    ensures outcome.Ok? ==> forall k :: !IsShownKey(k, outcome.value.hideDetails) ==> (k in r <==> k in values) && (k in values ==> r[k] == values[k])
    ensures GetString(r, USER_EMAIL) == GetString(values, USER_EMAIL) || (outcome.Ok? && outcome.value.hideDetails)
  {
    var cleared := ClearShownFields(values);
    if outcome.Ok? then ShowPrefs(cleared, outcome.value) else cleared
  }
}
