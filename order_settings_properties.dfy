/** What the settings form promises across calls: which cron limits pass
    validation, the dependency rules every stored record obeys, that
    normalising twice changes nothing, and that the stored record read back
    and submitted again leaves the configuration as it was. */
module OrderSettingsProperties {
  import opened Php
  import opened OrderSettings

  /** Validation looks at the cron limit and at nothing else. */
  lemma ValidationReadsOnlyCronLimit(a: Values, b: Values)
    requires a.cronLimit == b.cronLimit
    ensures ValidateForm(a) == ValidateForm(b)
    ensures |ValidateForm(a)| <= 1
  {
  }

  /** A missing limit, "", "0" and every string passing `ctype_digit` are
      accepted. */
  lemma EmptyOrDigitLimitAccepted(input: Values)
    requires || input.cronLimit.None?
             || input.cronLimit.value in {"", "0"}
             || CtypeDigit(input.cronLimit.value)
    ensures ValidateForm(input) == map[]
  {
  }

  /** A limit with any character that is not a decimal digit gets exactly the
      one error on `cron_limit`. */
  lemma NonDigitLimitRejected(input: Values, i: int)
    requires input.cronLimit.Some?
    requires 0 <= i < |input.cronLimit.value|
    requires !IsDigit(input.cronLimit.value[i])
    ensures ValidateForm(input) == map[CRON_LIMIT_FIELD := CRON_LIMIT_ERROR]
  {
  }

  /** Typical limits: digits, zeros, a sign, a decimal point, a leading space,
      letters. */
  lemma ValidationExamples(input: Values)
    ensures ValidateForm(input.(cronLimit := Some(""))) == map[]
    ensures ValidateForm(input.(cronLimit := Some("0"))) == map[]
    ensures ValidateForm(input.(cronLimit := Some("10"))) == map[]
    ensures ValidateForm(input.(cronLimit := Some("00"))) == map[]
    ensures ValidateForm(input.(cronLimit := Some("-5"))) == map[CRON_LIMIT_FIELD := CRON_LIMIT_ERROR]
    ensures ValidateForm(input.(cronLimit := Some("1.5"))) == map[CRON_LIMIT_FIELD := CRON_LIMIT_ERROR]
    ensures ValidateForm(input.(cronLimit := Some(" 7"))) == map[CRON_LIMIT_FIELD := CRON_LIMIT_ERROR]
    ensures ValidateForm(input.(cronLimit := Some("abc"))) == map[CRON_LIMIT_FIELD := CRON_LIMIT_ERROR]
  {
  }

  /** A limit that passed validation is stored, if at all, as a non-empty
      string of digits other than "0". */
  lemma ValidatedLimitIsStoredAsDigits(input: Values)
    requires ValidateForm(input) == map[]
    ensures Normalize(input).cronLimit.Some? ==>
              CtypeDigit(Normalize(input).cronLimit.value) && Normalize(input).cronLimit.value != "0"
  {
  }

  /** "00" is not PHP-empty, so with cron enabled it is kept as it is. */
  lemma DoubleZeroLimitIsKept(input: Values)
    requires Truthy(input.cronStatus) && input.cronLimit == Some("00")
    ensures ValidateForm(input) == map[]
    ensures Normalize(input).cronLimit == Some("00")
  {
  }

  /** The source is stored as submitted, without checking it against the two
      options of the radios. */
  lemma SourceIsNotCheckedAgainstOptions(input: Values)
    requires Truthy(input.profileStatus)
    requires input.profileSource !in {Str(BILLING_PROFILE_SOURCE_SHIPPING_INFORMATION),
                                      Str(BILLING_PROFILE_SOURCE_CUSTOM)}
    ensures ValidateForm(input) == ValidateForm(input.(profileSource := Str(BILLING_PROFILE_SOURCE_CUSTOM)))
    ensures Normalize(input).profileSource == input.profileSource
    ensures Normalize(input).customAddress == Null
  {
  }

  /** Every normalised record obeys the dependency rules. */
  lemma NormalizedIsConsistent(input: Values)
    ensures Consistent(Normalize(input))
  {
  }

  /** The records normalisation leaves alone are exactly the consistent ones. */
  lemma NormalizeFixesExactlyConsistent(v: Values)
    ensures Normalize(v) == v <==> Consistent(v)
  {
  }

  /** Normalising a normalised record changes nothing. */
  lemma NormalizeIdempotent(input: Values)
    ensures Normalize(Normalize(input)) == Normalize(input)
  {
  }

  /** The six entries written for a record read back as that record, whatever
      the configuration held before. */
  lemma StoredValuesRoundTrip(data: map<string, Value>, v: Values)
    ensures StoredValues(data + ConfigEntries(v)) == Some(v)
  {
  }

  /** Submitting again the six values a submission stored, as the form shows
      them by default, leaves the configuration exactly as it was. */
  lemma ResubmissionIsStable(data: map<string, Value>, input: Values)
    ensures StoredValues(data + ConfigEntries(Normalize(input))).Some?
    ensures var after := data + ConfigEntries(Normalize(input));
            after + ConfigEntries(Normalize(StoredValues(after).value)) == after
  {
    var after := data + ConfigEntries(Normalize(input));
    StoredValuesRoundTrip(data, Normalize(input));
    NormalizeIdempotent(input);
    assert after + ConfigEntries(Normalize(input)) == after;
  }

  /** With a billing profile and cron enabled, a custom source keeps its
      address and a zero limit means no limit. */
  lemma CustomProfileZeroLimitScenario(convertStates: Value, address: Value)
    ensures var input := Values(convertStates, Bool(true), Str("custom"), address,
                                Bool(true), Some("0"));
            && ValidateForm(input) == map[]
            && Normalize(input) == Values(convertStates, Bool(true), Str("custom"), address,
                                          Bool(true), None)
  {
  }
}
