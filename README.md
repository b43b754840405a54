# Amazon MWS order settings form — verified model

This project models the settings form of the Amazon MWS order import module
for Drupal Commerce (`commerce_amws_order`). The form accepts six values:
- a "convert US states" flag,
- a "billing profile" flag with its source and custom address,
- a "cron import" flag with an order limit.

The model covers what the form does with them:

- **Validation** (`validateForm`). The submitted `cron_limit` passes when it
  is PHP-empty or when `ctype_digit` holds for it. PHP-empty here means
  absent, `""` or `"0"`. Any other limit gets exactly one error, keyed
  `cron_limit`, with the fixed message "The limit of orders to import must be
  a positive integer number or empty." No other field is validated.
- **Submission** (`submitForm`). The form writes six keys of the
  `commerce_amws_order.settings` configuration object, then saves it. Each
  dependent value is cleared to NULL by the flag that governs it:
  - the billing profile source is kept only while the profile flag is truthy;
  - the custom address is kept only while the kept source is exactly
    `'custom'` (compared with `===`);
  - the cron limit is kept only while cron is enabled and the limit is not
    PHP-empty.

Modules:

- `Php` (`php.dfy`): PHP's loosely typed values. It defines their conversion
  to bool (`if ($v)`, `empty($v)`) and `ctype_digit` on strings.
- `ConfigStore` (`config_store.dfy`): the editable configuration object, a
  class holding a key→value map. It has `Set` and an atomic `Save`.
- `OrderSettings` (`order_settings.dfy`): the form's constants and the record
  of the six values (`Values`). It defines:
  - the validator `ValidateForm`, a function;
  - `Normalize`, the function that specifies the submission;
  - the class `SettingsForm`, whose `SubmitForm` method performs the `set`
    calls one after another, as the source does. It starts from an object
    whose values equal the saved ones, because the form loads the editable
    configuration afresh from storage on every submission;
  - `StoredValues`, which reads the six stored values back the way the form
    shows them as defaults.
- `OrderSettingsProperties` (`order_settings_properties.dfy`): lemmas that
  relate several calls. They cover validation examples, the dependency rules,
  idempotence and re-submission.

Three behaviours of the code worth noting:

- `billing_profile_source` is stored as submitted. It is not checked against
  its two options, `shipping_information` and `custom`. All the form
  constrains is that a source other than `'custom'` drops the address
  (`SourceIsNotCheckedAgainstOptions`).
- Only NULL, `""` and `"0"` count as "no limit". `"00"` passes validation and,
  with cron enabled, is stored as `"00"` (`DoubleZeroLimitIsKept`).
- The limit `"0"` passes validation, even though the message asks for a
  positive number.

## Model

| member | source | states |
|---|---|---|
| `Php.CtypeDigit` | modules/order/src/Form/SettingsForm.php:115 | `ctype_digit` on a string holds exactly when the string is non-empty and every character is a decimal digit |
| `Php.StringTruthy` | modules/order/src/Form/SettingsForm.php:138 | a string converts to true exactly when it has more than one character, or is one character other than `0` |
| `Php.Truthy` | modules/order/src/Form/SettingsForm.php:138 | a value converts to false exactly when it is NULL, `false`, `0`, `""`, `"0"` or the empty array |
| `Php.Empty` | modules/order/src/Form/SettingsForm.php:159 | `empty()` holds for a string exactly when it is `""` or `"0"`, for an integer exactly when it is `0`, for a boolean exactly when it is `false`, for an array exactly when it has no entries, and always for NULL |
| `OrderSettings.ValidateForm` | modules/order/src/Form/SettingsForm.php:113-121 | any error is keyed `cron_limit` with the one fixed message; there is none exactly when the limit is absent or made of digits only (which covers `""` and `"0"`) |
| `OrderSettings.Normalize` | modules/order/src/Form/SettingsForm.php:130-164 | the three flags pass through unchanged; with the profile flag falsy, source and address are NULL; otherwise the source is the submitted one; the address is non-NULL only when the stored source is exactly `'custom'`, and then it is the submitted address; the limit is kept, unchanged, exactly when cron is truthy and the limit is not absent, `""` or `"0"` |
| `OrderSettings.ConfigEntries` | modules/order/src/Form/SettingsForm.php:131-164 | a record is written under exactly the six configuration keys, each holding its own value; an absent limit is written as NULL |
| `OrderSettings.LookupAfterSet` | modules/order/src/Form/SettingsForm.php:131-164 | `Lookup` is Drupal's `get` on a flat key: the stored value, or NULL for a key never set; after `set`, the key reads as the value set (NULL included), and every other key reads as before |
| `OrderSettings.StoredValues` | modules/order/src/Form/SettingsForm.php:46-99 | the configuration is read back as a record (a missing key reads as NULL) exactly when the stored limit is a string or NULL; the record's entries then agree with the stored values on all six keys |
| `OrderSettings.WritesAreUnion` | modules/order/src/Form/SettingsForm.php:131-164 | the six `set` calls, in the form's order, overlay the record's six entries on the old configuration |
| `OrderSettings.SettingsForm.constructor` | modules/order/src/Form/SettingsForm.php:127 | the form works on the given editable configuration object |
| `OrderSettings.SettingsForm.SubmitForm` | modules/order/src/Form/SettingsForm.php:126-166 | starting from a freshly loaded object (what it holds equals what is saved), afterwards the configuration is the old one overlaid with the normalised record's six entries; the key set gains exactly those six keys; every other key keeps its value; what is saved equals what was set |
| `ConfigStore.Config.constructor` | modules/order/src/Form/SettingsForm.php:127 | a loaded configuration object holds, and has saved, the stored values |
| `ConfigStore.Config.Set` | modules/order/src/Form/SettingsForm.php:148-150 | `set` changes the one key, stores NULL as a value, and changes nothing that was saved |
| `ConfigStore.Config.Save` | modules/order/src/Form/SettingsForm.php:166 | `save` makes every value set so far durable at once and does not change them |
| `OrderSettingsProperties.ValidationReadsOnlyCronLimit` | modules/order/src/Form/SettingsForm.php:113-121 | two submissions with the same limit get the same errors, whatever the other fields hold; at most one error is reported |
| `OrderSettingsProperties.EmptyOrDigitLimitAccepted` | modules/order/src/Form/SettingsForm.php:115 | an absent limit, `""`, `"0"` and any string passing `ctype_digit` produce no error |
| `OrderSettingsProperties.NonDigitLimitRejected` | modules/order/src/Form/SettingsForm.php:115-119 | a limit with any non-digit character produces exactly the one `cron_limit` error |
| `OrderSettingsProperties.ValidationExamples` | modules/order/src/Form/SettingsForm.php:115-119 | `""`, `"0"`, `"10"`, `"00"` are accepted; `"-5"`, `"1.5"`, `" 7"`, `"abc"` get the `cron_limit` error |
| `OrderSettingsProperties.ValidatedLimitIsStoredAsDigits` | modules/order/src/Form/SettingsForm.php:115-161 | after validation passes, a stored limit is a non-empty digit string other than `"0"` |
| `OrderSettingsProperties.DoubleZeroLimitIsKept` | modules/order/src/Form/SettingsForm.php:158-161 | `"00"` passes validation and, with cron enabled, is set as `"00"` |
| `OrderSettingsProperties.SourceIsNotCheckedAgainstOptions` | modules/order/src/Form/SettingsForm.php:137-146 | a source outside the two options raises no error; with the profile enabled it is stored as submitted, and the address is dropped |
| `OrderSettingsProperties.NormalizedIsConsistent` | modules/order/src/Form/SettingsForm.php:137-161 | every stored record obeys the dependency rules: no source without the profile flag, no address without source `'custom'`, no limit without cron, never a limit of `""` or `"0"` |
| `OrderSettingsProperties.NormalizeFixesExactlyConsistent` | modules/order/src/Form/SettingsForm.php:137-161 | normalisation leaves a record unchanged exactly when the record obeys the dependency rules |
| `OrderSettingsProperties.NormalizeIdempotent` | modules/order/src/Form/SettingsForm.php:137-164 | normalising a normalised record changes nothing |
| `OrderSettingsProperties.StoredValuesRoundTrip` | modules/order/src/Form/SettingsForm.php:46-99 | the six entries written for a record read back as that same record, whatever else the configuration holds |
| `OrderSettingsProperties.ResubmissionIsStable` | modules/order/src/Form/SettingsForm.php:126-164 | submitting the six values a submission stored, read back as the form's defaults, leaves the configuration exactly as it was |
| `OrderSettingsProperties.CustomProfileZeroLimitScenario` | modules/order/src/Form/SettingsForm.php:137-161 | with the profile enabled and source `'custom'`, the address is kept; with cron enabled, the limit `"0"` passes validation and is stored as NULL |

## Left out

- `buildForm` is not modelled. Its render arrays, widget types, titles,
  descriptions and `#states` visibility toggles are presentation, handled by
  Drupal's form API. Its `#default_value` reads appear only as
  `StoredValues`.
- `$this->t()` translation is not modelled. The error message is a fixed
  string.
- `parent::submitForm` is not modelled. It only sends the framework's status
  message.
- Durable storage through `$config->save()` is the framework's. `Save` only
  records the values as saved, all at once.
- `getFormId` and `getEditableConfigNames` are not modelled. They return
  constant strings and have no behaviour.
- The US-state conversion is not modelled. The flag is only stored here; the
  conversion happens elsewhere in the module.
- The internals of the address element are not modelled. Its value is an
  opaque PHP array of strings.
- Drupal's dotted configuration keys are treated as flat keys. The nesting
  (`general.x` lives inside `general`) is not modelled, because the form never
  reads the parent arrays.
- Floats and objects are not PHP values of this model. No form element of this
  form submits them.
- `ValidateForm`: the limit is typed as a string or absent, so the model leaves
  out `ctype_digit`'s special handling of integer arguments. The number widget
  always submits a string.
- `SubmitForm`: it has no precondition that validation passed. Drupal's form
  API calls it only after `validateForm` reports no errors, and the model does
  not model that ordering.
- `BILLING_PROFILE_SOURCE_SHIPPING_INFORMATION` is declared but never compared
  against by the submission code. The model uses it only to state that the
  source is not checked against the two options.
- `ConfigStore.Config.Save`: casting values to the types of a configuration
  schema on save is not modelled. The saved values are the values as set.
  So a limit "kept as it is" (`DoubleZeroLimitIsKept`) means the value set,
  not necessarily the type that is persisted.
