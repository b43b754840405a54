/** The Amazon MWS order settings form: the validation of the submitted cron
    limit and the normalisation of the six submitted values into the
    `commerce_amws_order.settings` configuration. */
module OrderSettings {
  import opened Php
  import opened ConfigStore

  /** The two options of the billing profile source radios. */
  const BILLING_PROFILE_SOURCE_SHIPPING_INFORMATION: string := "shipping_information"
  const BILLING_PROFILE_SOURCE_CUSTOM: string := "custom"

  /** The form element the validator reports on, and its one message. */
  const CRON_LIMIT_FIELD: string := "cron_limit"
  const CRON_LIMIT_ERROR: string :=
    "The limit of orders to import must be a positive integer number or empty."

  /** The configuration keys the submission writes. */
  const CONVERT_STATES_KEY: string := "general.address_convert_states"
  const PROFILE_STATUS_KEY: string := "billing_profile.status"
  const PROFILE_SOURCE_KEY: string := "billing_profile.source"
  const PROFILE_ADDRESS_KEY: string := "billing_profile.custom_address"
  const CRON_STATUS_KEY: string := "cron.status"
  const CRON_LIMIT_KEY: string := "cron.limit"

  const SETTING_KEYS: set<string> :=
    {CONVERT_STATES_KEY, PROFILE_STATUS_KEY, PROFILE_SOURCE_KEY,
     PROFILE_ADDRESS_KEY, CRON_STATUS_KEY, CRON_LIMIT_KEY}

  /** The six values of the form, either as submitted (the form elements
      general_address_convert_states, billing_profile_status,
      billing_profile_source, billing_profile_custom_address, cron_status
      and cron_limit) or as stored under the six configuration keys. A
      missing submitted value reads as NULL; the cron limit is a string or
      NULL. */
  datatype Values = Values(
    convertStates: Value,
    profileStatus: Value,
    profileSource: Value,
    customAddress: Value,
    cronStatus: Value,
    cronLimit: Option<string>)

  /** A cron limit containing nothing but decimal digits (vacuously so for
      the empty string). */
  predicate AllDigits(s: string)
  {
    forall i :: 0 <= i < |s| ==> IsDigit(s[i])
  }

  /** The form errors, keyed by element name, that validation reports. A
      cron limit is accepted when it is PHP-empty (NULL, "" or "0") or passes
      `ctype_digit`; anything else gets the one fixed message. */
  function ValidateForm(input: Values): (errors: map<string, string>)
    ensures errors.Keys <= {CRON_LIMIT_FIELD}
    ensures errors != map[] ==> errors == map[CRON_LIMIT_FIELD := CRON_LIMIT_ERROR]
    ensures errors == map[] <==> (input.cronLimit.None? || AllDigits(input.cronLimit.value))
  {
    var cronLimit := Nullable(input.cronLimit);
    match input.cronLimit
    // ctype_digit(NULL) is false, but empty(NULL) holds.
    case None => map[]
    case Some(s) =>
      if !CtypeDigit(s) && !Empty(cronLimit)
      then
        var e := map[CRON_LIMIT_FIELD := CRON_LIMIT_ERROR];
        assert CRON_LIMIT_FIELD in e;
        e
      else map[]
  }

  /** The values the submission stores, computed from the submitted ones:
      the source is kept only while a billing profile is enabled, the custom
      address only while the kept source is exactly 'custom', and the limit
      only while cron is enabled and the limit is not PHP-empty. */
  function Normalize(input: Values): (stored: Values)
    ensures stored.convertStates == input.convertStates
    ensures stored.profileStatus == input.profileStatus
    ensures stored.cronStatus == input.cronStatus
    ensures !Truthy(input.profileStatus) ==> stored.profileSource == Null && stored.customAddress == Null
    ensures Truthy(input.profileStatus) ==> stored.profileSource == input.profileSource
    ensures stored.customAddress != Null ==> stored.profileSource == Str(BILLING_PROFILE_SOURCE_CUSTOM)
    ensures stored.profileSource == Str(BILLING_PROFILE_SOURCE_CUSTOM) ==> stored.customAddress == input.customAddress
    ensures stored.cronLimit.Some? <==>
              Truthy(input.cronStatus) && input.cronLimit !in {None, Some(""), Some("0")}
    ensures stored.cronLimit.Some? ==> stored.cronLimit == input.cronLimit
  {
    var profileSource :=
      if Truthy(input.profileStatus) then input.profileSource else Null;
    var customAddress :=
      if profileSource == Str(BILLING_PROFILE_SOURCE_CUSTOM) then input.customAddress else Null;
    var cronLimit :=
      if !Truthy(input.cronStatus) || Empty(Nullable(input.cronLimit)) then None else input.cronLimit;
    Values(input.convertStates, input.profileStatus, profileSource, customAddress,
           input.cronStatus, cronLimit)
  }

  /** The four dependency rules a stored record obeys. */
  predicate Consistent(v: Values)
  {
    && (!Truthy(v.profileStatus) ==> v.profileSource == Null)
    && (v.profileSource != Str(BILLING_PROFILE_SOURCE_CUSTOM) ==> v.customAddress == Null)
    && (!Truthy(v.cronStatus) ==> v.cronLimit.None?)
    && v.cronLimit !in {Some(""), Some("0")}
  }

  /** The six configuration entries holding a record. */
  function ConfigEntries(v: Values): (entries: map<string, Value>)
    ensures entries.Keys == SETTING_KEYS
    ensures entries[CONVERT_STATES_KEY] == v.convertStates
    ensures entries[PROFILE_STATUS_KEY] == v.profileStatus
    ensures entries[PROFILE_SOURCE_KEY] == v.profileSource
    ensures entries[PROFILE_ADDRESS_KEY] == v.customAddress
    ensures entries[CRON_STATUS_KEY] == v.cronStatus
    ensures entries[CRON_LIMIT_KEY] == Nullable(v.cronLimit)
  {
    map[CONVERT_STATES_KEY := v.convertStates,
        PROFILE_STATUS_KEY := v.profileStatus,
        PROFILE_SOURCE_KEY := v.profileSource,
        PROFILE_ADDRESS_KEY := v.customAddress,
        CRON_STATUS_KEY := v.cronStatus,
        CRON_LIMIT_KEY := Nullable(v.cronLimit)]
  }

  /** The configuration object's `get`: a key never set reads as NULL. */
  function Lookup(data: map<string, Value>, key: string): Value
  {
    if key in data then data[key] else Null
  }

  /** The six stored values as the form reads them back for its defaults;
      none when the stored cron limit is neither a string nor NULL. */
  function StoredValues(data: map<string, Value>): (r: Option<Values>)
    ensures r.Some? <==> (Lookup(data, CRON_LIMIT_KEY).Null? || Lookup(data, CRON_LIMIT_KEY).Str?)
    ensures r.Some? ==> forall k :: k in SETTING_KEYS ==> ConfigEntries(r.value)[k] == Lookup(data, k)
  {
    var limit := Lookup(data, CRON_LIMIT_KEY);
    if !(limit.Null? || limit.Str?) then None
    else
      Some(Values(
        Lookup(data, CONVERT_STATES_KEY),
        Lookup(data, PROFILE_STATUS_KEY),
        Lookup(data, PROFILE_SOURCE_KEY),
        Lookup(data, PROFILE_ADDRESS_KEY),
        Lookup(data, CRON_STATUS_KEY),
        if limit.Str? then Some(limit.s) else None))
  }

  /** `get` after `set`: the key just set reads as the value set, NULL
      included, and every other key reads as before. */
  lemma LookupAfterSet(data: map<string, Value>, key: string, value: Value, other: string)
    ensures Lookup(data[key := value], key) == value
    ensures other != key ==> Lookup(data[key := value], other) == Lookup(data, other)
  {
  }

  /** Setting the six keys one after another, in the order the form does,
      leaves the old entries overlaid with the record's. */
  lemma WritesAreUnion(data: map<string, Value>, v: Values)
    ensures data[CONVERT_STATES_KEY := v.convertStates]
                [PROFILE_STATUS_KEY := v.profileStatus]
                [PROFILE_SOURCE_KEY := v.profileSource]
                [PROFILE_ADDRESS_KEY := v.customAddress]
                [CRON_STATUS_KEY := v.cronStatus]
                [CRON_LIMIT_KEY := Nullable(v.cronLimit)]
            == data + ConfigEntries(v)
  {
  }

  class SettingsForm {
    /** The editable `commerce_amws_order.settings` configuration. */
    const config: Config

    constructor (config: Config)
      ensures this.config == config
    {
      this.config := config;
    }

    /** Stores the normalised submitted values under the six keys, leaving
        every other key as it was, and saves the configuration. */
    method SubmitForm(input: Values)
      // The object is loaded afresh from storage for each submission.
      requires config.data == config.saved
      modifies config
      ensures config.data == old(config.data) + ConfigEntries(Normalize(input))
      ensures config.data.Keys == old(config.data).Keys + SETTING_KEYS
      ensures forall k :: k in old(config.data) && k !in SETTING_KEYS ==> config.data[k] == old(config.data)[k]
      ensures config.saved == config.data
    {
      ghost var before := config.data;

      // General import settings.
      var convertStates := input.convertStates;
      config.Set(CONVERT_STATES_KEY, convertStates);

      // Billing profile settings: the source only while a profile is added,
      // the custom address only while that source is 'custom'.
      var profileStatus := input.profileStatus;
      var profileSource := Null;
      if Truthy(profileStatus) {
        profileSource := input.profileSource;
      }
      var profileCustomAddress := Null;
      if profileSource == Str(BILLING_PROFILE_SOURCE_CUSTOM) {
        profileCustomAddress := input.customAddress;
      }
      config.Set(PROFILE_STATUS_KEY, profileStatus);
      config.Set(PROFILE_SOURCE_KEY, profileSource);
      config.Set(PROFILE_ADDRESS_KEY, profileCustomAddress);

      // Cron settings: an empty limit, or any limit while cron is off, is NULL.
      var cronStatus := input.cronStatus;
      var cronLimit := input.cronLimit;
      if !Truthy(cronStatus) || Empty(Nullable(cronLimit)) {
        cronLimit := None;
      }
      config.Set(CRON_STATUS_KEY, cronStatus);
      config.Set(CRON_LIMIT_KEY, Nullable(cronLimit));

      ghost var stored := Values(convertStates, profileStatus, profileSource,
                                 profileCustomAddress, cronStatus, cronLimit);
      assert stored == Normalize(input);
      WritesAreUnion(before, stored);
      config.Save();
    }
  }
}
