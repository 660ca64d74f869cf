# Clinical documentation engine — a Dafny model

This project models the clinical-documentation engine of a multi-tenant EHR
back end and proves properties about the model. It covers five parts.

- **Submission status workflow.** The five statuses are DRAFT, COMPLETED,
  SIGNED, ARCHIVED and VOIDED. The model holds their transition table, their
  descriptions and the display metadata that says while which statuses a
  form may be edited.
- **Submission store** (`FormDataStore.FormDataService`). `submit` pins a
  form to the template's current version. It rejects data that the schema
  validator refuses, runs the version's processing rules and stores the
  result, DRAFT unless the caller names a status. `updateStatus` moves only
  along the table. `void` is always allowed and hides the submission from
  every read.
- **Template store** (`TemplateStore.TemplateService`). It holds templates
  and their numbered schema versions and keeps each template's pointer to its
  current version. It also covers update, publish and unpublish with their
  Conflict guards, and soft retirement.
- **Form data utilities.**
  - The processing pipeline: a left fold of transform, calculate and
    validate rules.
  - The recursive sanitizer.
  - The per-field rule validator and its stock rules.
  - The schema validator's `time` and `phone` formats, the required check and
    the range checks. The validator itself is held lazily.
- **Form component library** (`FormComponentStore.FormComponentService`).
  It is a soft-delete store. Every change appends one entry to an audit
  history, which is read newest first, a page at a time.

## Modelling choices

- Each service is a class, and its tables are `map` fields.
  - Every public operation is one atomic step, as its database transaction
    makes it.
  - Reads through the cache are modelled as reads of the tables. The cache is
    taken to be coherent.
- Row ids are handed out from a counter (`nextId`) rather than as UUIDs.
- The clock (`new Date()`) is a parameter `now` holding a timestamp.
- JavaScript values are the `JsonValues.Json` datatype.
  - Numbers are reals.
  - `Boolean(v)`, `String.prototype.trim` and the ECMAScript whitespace set
    are written out exactly.
  - `String(v)` of a non-string value, `toUpperCase`, `toLowerCase`,
    `Number(v)` and `new Date(v)` go through a `FormProcessor.Host` record of
    uninterpreted functions.
- Caller-supplied functions are Dafny function values wrapped in `Option`.
  `None` stands for `typeof f !== 'function'`. This covers custom
  transforms, calculations, validate rules and custom validation rules.
- A regular expression carried by a PATTERN rule is a matcher function.
  - The `time`, `phone`, `numeric` and `decimal` patterns are written out as
    predicates.
  - The e-mail pattern stays a matcher.
- JSON Schema validation (Ajv) is a `SchemaValidation.SchemaOracle` function.
  It takes the configured validator, the schema and the data. The model
  checks that the configuration is the one the source builds and that the
  verdict and error list are passed through unchanged.
- A failing processing rule throws in the source. In the model it returns a
  `ProcessingError`, and `submit` reports it as
  `FormDataError.ProcessingFailure`.
- The source's `enums/form-status.enum` is not part of this model. The five
  statuses are taken from the transition table in
  `types/form-status.types.ts`.
- `update-template.dto.ts` and `update-form-component.dto.ts` are not part of
  this model. Their DTOs are modelled as the create DTOs with every field
  optional.
- The source's `enums/form-component.enum` is not part of this model. The
  twelve component types and their stored values are taken from the
  `FormComponentType` enum in
  `src/common/interfaces/form-component.interface.ts:16-29`.
- `create` and `createNewVersion` never copy processing rules into a
  version, and `submit` reads them with a `[]` default.
  - The model keeps `processingRules` on versions, and both operations store
    `None` there.
  - The template store's invariant includes that no stored version carries
    rules (`TemplateStore.NoStoredRules`).
  - `FormDataStore.UnruledVersionsKeepData` states the consequence: in every
    state the store can reach, the stored data is the data as sent.
- A MIN or MAX rule's `value` is untyped in the source. The model gives the
  rule an optional `FieldValidation.Bound`:
  - the number the value compares as, which may be fractional;
  - the text `${rule.value}` prints for it in the default message.
  An absent bound, or one that does not compare as a number, is `None`. Every
  comparison with it is false, so the rule never fails.
- String lengths are JavaScript's `length`: UTF-16 code units
  (`JsonValues.Utf16Length`). A character outside the Basic Multilingual
  Plane counts as two.

## Model

Source paths are relative to the repository root.

| member | source | states |
|---|---|---|
| FormStatusTypes.Transitions | src/modules/clinical-documentation/types/form-status.types.ts:7-13 | No status lists itself as a target. VOIDED, and only VOIDED, has no targets. |
| FormStatusTypes.Description | src/modules/clinical-documentation/types/form-status.types.ts:15-21 | The description text of each status. `MetadataDescriptionsAgree` ties it to the display metadata. |
| FormStatusTypes.VoidedIsTerminal | src/modules/clinical-documentation/types/form-status.types.ts:12 | No transition leaves VOIDED. |
| FormStatusTypes.LiveStatusesCanVoid | src/modules/clinical-documentation/types/form-status.types.ts:8-12 | A status may move straight to VOIDED exactly when it is not VOIDED. |
| FormStatusTypes.OnlyBackwardEdgeIsReopen | src/modules/clinical-documentation/types/form-status.types.ts:8-12 | Every transition moves forward along DRAFT, COMPLETED, SIGNED, ARCHIVED, VOIDED, except COMPLETED to DRAFT. So SIGNED to COMPLETED and ARCHIVED to SIGNED do not exist. |
| FormStatusTypes.SignedNeverReopens | src/modules/clinical-documentation/types/form-status.types.ts:10-12 | On any path that starts at SIGNED, ARCHIVED or VOIDED, every status is one of those three. DRAFT and COMPLETED never come back. |
| FormStatusTypes.ReachableFromSigned | src/modules/clinical-documentation/types/form-status.types.ts:10-12 | Any path of one or more steps from SIGNED ends in ARCHIVED or VOIDED. |
| FormStatusTypes.SignedReachesArchivedAndVoided | src/modules/clinical-documentation/types/form-status.types.ts:10 | SIGNED reaches both ARCHIVED and VOIDED. |
| FormStatusTypes.SigningGoesThroughCompleted | src/modules/clinical-documentation/types/form-status.types.ts:8-10 | Every path from DRAFT to SIGNED has COMPLETED strictly between its ends. |
| FormStatusTypes.ArchivedOnlyViaSigned | src/modules/clinical-documentation/types/form-status.types.ts:10-11 | A path that enters ARCHIVED enters it from SIGNED. |
| FormStatusTypes.VoidedEndsEveryPath | src/modules/clinical-documentation/types/form-status.types.ts:12 | VOIDED can only be the last status of a path. |
| FormConstants.EditableExactlyBeforeSigning | src/modules/clinical-documentation/constants/form-constants.ts:4-40 | `editable` holds exactly for DRAFT and COMPLETED. |
| FormConstants.Metadata | src/modules/clinical-documentation/constants/form-constants.ts:4-40 | The label, colour, icon, editable flag and description of each status. The lemmas that follow state editability, description agreement and label distinctness. |
| FormConstants.MetadataDescriptionsAgree | src/modules/clinical-documentation/constants/form-constants.ts:4-40 | Each status's metadata repeats that status's description from the transition module. |
| FormConstants.LabelsAreDistinct | src/modules/clinical-documentation/constants/form-constants.ts:4-40 | Distinct statuses have distinct labels. |
| FormConstants.NoTransitionRestoresEditing | src/modules/clinical-documentation/constants/form-constants.ts:19-40 | No allowed transition leads from a non-editable status to an editable one. |
| FormConstants.EditingNeverRestored | src/modules/clinical-documentation/constants/form-constants.ts:4-40 | Along any path, once a form is not editable it stays that way. |
| JsonValues.Truthy | src/modules/clinical-documentation/utils/form-processor.ts:55-57 | `Boolean(v)` is false exactly for undefined, null, false, 0 and the empty string. |
| JsonValues.TrimStart | src/modules/clinical-documentation/utils/form-processor.ts:49-51 | The result is a suffix of the input. Only whitespace was dropped, and it does not start with whitespace. |
| JsonValues.TrimEnd | src/modules/clinical-documentation/utils/form-processor.ts:49-51 | The result is a prefix of the input. Only whitespace was dropped, and it does not end with whitespace. |
| JsonValues.Trim | src/modules/clinical-documentation/utils/form-processor.ts:49-51 | `trim` leaves no whitespace at either end. |
| JsonValues.TrimKeepsMiddle | src/modules/clinical-documentation/utils/form-processor.ts:99-100 | `trim` keeps one contiguous slice of the input and removes only whitespace before and after it. |
| JsonValues.TrimFixesTrimmed | src/modules/clinical-documentation/utils/form-processor.ts:99-100 | A string without whitespace at either end is its own trim. |
| JsonValues.TrimIdempotent | src/modules/clinical-documentation/utils/form-processor.ts:99-104 | Trimming twice is trimming once. |
| JsonValues.NatText | src/modules/clinical-documentation/utils/validation.ts:40-53 | A number is printed as one or more decimal digits. With `NatTextValue`, they spell that number. It appears in the NotFound messages and the MIN/MAX texts. |
| JsonValues.NatTextValue | src/modules/clinical-documentation/utils/validation.ts:93-103 | The digits `NatText(n)` prints read back as n, with no leading zero for n > 0. |
| JsonValues.NatTextInjective | src/modules/clinical-documentation/services/tempate.service.ts:170 | Distinct ids print differently, so a NotFound message names exactly one id. |
| JsonValues.IntText | src/modules/clinical-documentation/utils/validation.ts:93-103 | `String(n)` is non-empty and starts with '-' exactly for negative n. |
| JsonValues.IntTextValue | src/modules/clinical-documentation/utils/validation.ts:93-103 | The text after the sign reads back as the magnitude of n. |
| JsonValues.Utf16Length | src/modules/clinical-documentation/utils/validation.ts:42-53 | A string's `length` lies between its number of characters and twice that. It is at least 1 for a non-empty string. |
| JsonValues.Utf16LengthOfBmpText | src/modules/clinical-documentation/utils/validation.ts:42-53 | A string inside the Basic Multilingual Plane has one code unit per character. |
| JsonValues.Utf16LengthExamples | src/modules/clinical-documentation/utils/validation.ts:42-53 | U+1F600 is two code units long, and "abc" is three. |
| FormProcessor.ApplyTransformation | src/modules/clinical-documentation/utils/form-processor.ts:34-69 | An undefined field leaves the data unchanged. So do an unknown transform type and a custom transform without a function. Otherwise the field is set to the transform's value of its current value (`TransformedValue`), and every other key keeps its presence and value. |
| FormProcessor.TransformedValue | src/modules/clinical-documentation/utils/form-processor.ts:40-66 | The value a known transform writes. The text transforms give a string, and a trimmed one for `trim`. `number` gives a number and `date` a date. `boolean` gives the value's truthiness. |
| FormProcessor.TextTransformsStoreText | src/modules/clinical-documentation/utils/form-processor.ts:42-51 | On a defined field, `uppercase`, `lowercase` and `trim` store the upper-cased, lower-cased and trimmed `String(v)`. |
| FormProcessor.TrimTransformIdempotent | src/modules/clinical-documentation/utils/form-processor.ts:48-51 | Applying the `trim` transform to a field a second time changes nothing. |
| FormProcessor.TrimKeepsTrimmedField | src/modules/clinical-documentation/utils/form-processor.ts:48-51 | A field that already holds its own trim is left unchanged by the `trim` transform. |
| FormProcessor.ApplyCalculation | src/modules/clinical-documentation/utils/form-processor.ts:71-80 | Only the named field changes. It gets the function's value on the snapshot taken before the rule. Without a function the data is unchanged. |
| FormProcessor.ApplyValidation | src/modules/clinical-documentation/utils/form-processor.ts:82-89 | The rule fails exactly when it has a function and the function rejects the field's value. The error names that field. |
| FormProcessor.Step | src/modules/clinical-documentation/utils/form-processor.ts:17-28 | A successful rule changes at most its own field. Only a validate rule can fail, and its error names its field. |
| FormProcessor.ProcessFormData | src/modules/clinical-documentation/utils/form-processor.ts:13-32 | The loop computes the left fold `Process` of the rules over the data, an absent rule list being empty. |
| FormProcessor.Process | src/modules/clinical-documentation/utils/form-processor.ts:13-32 | The left fold of `Step` over the rules, stopping at the first failure. `ProcessConcat`, `ProcessKeepsUnnamedFields` and `FailureNamesValidateRule` state its properties. |
| FormProcessor.ProcessEmpty | src/modules/clinical-documentation/utils/form-processor.ts:14-15 | With no rules the result equals the input. |
| FormProcessor.ProcessConcat | src/modules/clinical-documentation/utils/form-processor.ts:17-29 | Running `first + rest` is running `first`, then `rest` on its result. Rules apply strictly in list order. |
| FormProcessor.ProcessSnoc | src/modules/clinical-documentation/utils/form-processor.ts:17-29 | An appended rule applies to the snapshot the earlier rules produced. |
| FormProcessor.ProcessKeepsUnnamedFields | src/modules/clinical-documentation/utils/form-processor.ts:13-89 | A field that no rule names keeps its presence and value through the whole pipeline. |
| FormProcessor.ValidationOnlyKeepsData | src/modules/clinical-documentation/utils/form-processor.ts:25-27 | A pipeline of validate rules either fails or returns the data unchanged. |
| FormProcessor.FailureNamesValidateRule | src/modules/clinical-documentation/utils/form-processor.ts:82-89 | A failed pipeline names the field of one of its validate rules that has a function. |
| FormProcessor.NoOpRules | src/modules/clinical-documentation/utils/form-processor.ts:18-28 | A transform of an undefined field changes nothing. Neither do an unknown transform type and an unknown rule type. |
| FormProcessor.BooleanTransformIsTruthiness | src/modules/clinical-documentation/utils/form-processor.ts:55-57 | The boolean transform stores the field's truthiness. |
| FormProcessor.SanitizeItem | src/modules/clinical-documentation/utils/form-processor.ts:102-104 | An array item is a string after sanitizing exactly when it was one before. |
| FormProcessor.SanitizeValue | src/modules/clinical-documentation/utils/form-processor.ts:99-109 | Sanitizing never makes a value null or undefined. A sanitized object keeps only keys of the input. |
| FormProcessor.Sanitize | src/modules/clinical-documentation/utils/form-processor.ts:91-113 | A key survives exactly when its value is neither null nor undefined. Each surviving value is that value sanitized. |
| FormProcessor.SanitizeValueIdempotent | src/modules/clinical-documentation/utils/form-processor.ts:91-113 | Sanitizing a value twice is sanitizing it once. |
| FormProcessor.SanitizeIdempotent | src/modules/clinical-documentation/utils/form-processor.ts:91-113 | `sanitizeFormData` is idempotent. |
| FormProcessor.SanitizedPartStep | src/modules/clinical-documentation/utils/form-processor.ts:94-110 | Visiting one more key adds its sanitized entry, unless the value is null or undefined. |
| FormProcessor.SanitizeFormData | src/modules/clinical-documentation/utils/form-processor.ts:91-113 | The entry-by-entry loop, recursing into objects, builds exactly `Sanitize(data)`. |
| SchemaValidation.DigitChar | src/modules/clinical-documentation/utils/form-validator.ts:22 | A number below ten is written as the digit of that value. |
| SchemaValidation.IsTime | src/modules/clinical-documentation/utils/form-validator.ts:22 | An accepted time is five characters, with digits around a ':'. `TimeIsClockReading` shows it holds exactly for 24-hour HH:MM readings. |
| SchemaValidation.TwoDigits | src/modules/clinical-documentation/utils/form-validator.ts:22 | A number below 100 is written with exactly two characters. |
| SchemaValidation.ClockReadingIsTime | src/modules/clinical-documentation/utils/form-validator.ts:22 | Every reading 00:00 to 23:59, written with two-digit hours and minutes, is a `time`. |
| SchemaValidation.TimeIsWrittenReading | src/modules/clinical-documentation/utils/form-validator.ts:22 | Every `time` is such a reading: hours below 24 and minutes below 60. |
| SchemaValidation.TimeIsClockReading | src/modules/clinical-documentation/utils/form-validator.ts:22 | The `time` format accepts exactly the 24-hour readings `HH:MM`. |
| SchemaValidation.TimeExamples | src/modules/clinical-documentation/utils/form-validator.ts:22 | "23:59", "00:00" and "19:05" pass. "24:00", "9:30", "12:60" and "12:30 " fail. |
| SchemaValidation.PlusOnlyInFront | src/modules/clinical-documentation/utils/form-validator.ts:23 | A phone number has no '+' except possibly the first character. |
| SchemaValidation.IsPhone | src/modules/clinical-documentation/utils/form-validator.ts:23 | A phone number has at least ten characters. Without a leading '+', every character is a digit, whitespace or '-'. |
| SchemaValidation.PhoneExamples | src/modules/clinical-documentation/utils/form-validator.ts:23 | International, hyphenated and spaced numbers pass. Too few characters, a bare '+' with nine digits, and a letter fail. |
| SchemaValidation.ConfiguredAjv | src/modules/clinical-documentation/utils/form-validator.ts:12-26 | The validator collects all errors, is not strict, checks formats and registers exactly the `time` and `phone` formats. Its `time` format accepts exactly the clock readings, and its `phone` format exactly the phone numbers. |
| SchemaValidation.FormValidator.GetValidator | src/modules/clinical-documentation/utils/form-validator.ts:12-26 | The validator is built on the first call with the configuration above. Every later call returns the same one. |
| SchemaValidation.FormValidator.ValidateFormData | src/modules/clinical-documentation/utils/form-validator.ts:28-38 | The result is the oracle's verdict and error list for the configured validator, schema and data. |
| SchemaValidation.ValidateNumericRange | src/modules/clinical-documentation/utils/form-validator.ts:44-48 | True exactly when every given bound holds. Both bounds are inclusive. |
| SchemaValidation.ValidateRequired | src/modules/clinical-documentation/utils/form-validator.ts:40-42 | Every truthy value passes. Of the falsy values, exactly 0 and false pass. |
| SchemaValidation.InvertedRangeRejectsAll | src/modules/clinical-documentation/utils/form-validator.ts:44-48 | When min is above max, no value passes. |
| SchemaValidation.RangeBoundsInclusive | src/modules/clinical-documentation/utils/form-validator.ts:44-48 | Without bounds every value passes, and each bound lies inside the range. |
| SchemaValidation.ValidateDateRange | src/modules/clinical-documentation/utils/form-validator.ts:50-55 | True exactly when every given bound holds on the timestamps. Both bounds are inclusive. |
| SchemaValidation.DateRangeIsNumericRange | src/modules/clinical-documentation/utils/form-validator.ts:44-55 | The date range check is the numeric range check on timestamps. |
| FieldValidation.MessageOr | src/modules/clinical-documentation/utils/validation.ts:33-68 | A present, non-empty message wins. Otherwise the non-empty default is used. |
| FieldValidation.ValidateRule | src/modules/clinical-documentation/utils/validation.ts:14-29 | A reported error is never the empty string. |
| FieldValidation.PassesIffEveryRulePasses | src/modules/clinical-documentation/utils/validation.ts:4-12 | A value passes the field exactly when it passes every rule. An empty rule list passes. |
| FieldValidation.ValidateField | src/modules/clinical-documentation/utils/validation.ts:4-12 | A reported error is non-empty and is the error of one of the rules. |
| FieldValidation.FirstFailureWins | src/modules/clinical-documentation/utils/validation.ts:5-10 | When rule i is the first to fail, the field's error is rule i's error. Later rules are not consulted. |
| FieldValidation.ErrorComesFromFirstFailingRule | src/modules/clinical-documentation/utils/validation.ts:5-10 | A reported error comes from a failing rule that every earlier rule passes. |
| FieldValidation.RequiredFailsExactly | src/modules/clinical-documentation/utils/validation.ts:31-36 | REQUIRED fails exactly for null, undefined and ''. 0 and false pass. |
| FieldValidation.RequiredAgreesWithRequiredCheck | src/modules/clinical-documentation/utils/form-validator.ts:40-42 | The REQUIRED rule passes exactly when the schema module's `validateRequired` holds. |
| FieldValidation.WholeBound | src/modules/clinical-documentation/utils/validation.ts:93-103 | A whole-number bound compares as that number and prints as `IntText(n)`, which spells n (`IntTextValue`). |
| FieldValidation.MinFailsExactly | src/modules/clinical-documentation/utils/validation.ts:38-46 | MIN fails exactly when there is a bound and the value is a number below it, or a string with fewer UTF-16 code units. The bound itself passes, and so does everything when the bound is absent. |
| FieldValidation.MaxFailsExactly | src/modules/clinical-documentation/utils/validation.ts:48-56 | MAX fails exactly when there is a bound and the value is a number above it, or a string with more UTF-16 code units. The bound itself passes, and so does everything when the bound is absent. |
| FieldValidation.BoundExamples | src/modules/clinical-documentation/utils/validation.ts:38-56 | With MIN 35.5, 35.2 fails with "Value must be at least 35.5" and 35.5 passes. An emoji passes MIN 2 and fails MAX 1. |
| FieldValidation.TypedRulesIgnoreOtherValues | src/modules/clinical-documentation/utils/validation.ts:26-63 | MIN and MAX pass for anything but numbers and strings, and PATTERN passes non-strings. An unrecognised rule always passes. |
| FieldValidation.MessageOverridesDefault | src/modules/clinical-documentation/utils/validation.ts:31-71 | A failing rule with a non-empty message reports that message. |
| FieldValidation.RequiredRule | src/modules/clinical-documentation/utils/validation.ts:76-79 | `required()` is a REQUIRED rule with its message. |
| FieldValidation.MinLength | src/modules/clinical-documentation/utils/validation.ts:93-97 | `minLength(n)` is a MIN rule with bound n and the message "Must be at least n characters". On every string it reports exactly what MIN n with the default message reports. |
| FieldValidation.MaxLength | src/modules/clinical-documentation/utils/validation.ts:99-103 | `maxLength(n)` is a MAX rule with bound n and the message "Must be at most n characters". On every string it reports exactly what MAX n with the default message reports. |
| FieldValidation.PhoneRule | src/modules/clinical-documentation/utils/validation.ts:87-91 | `phone()` is a PATTERN rule with the message 'Invalid phone number'. |
| FieldValidation.EmailRule | src/modules/clinical-documentation/utils/validation.ts:81-85 | `email()` is a PATTERN rule with its message. |
| FieldValidation.NumericRule | src/modules/clinical-documentation/utils/validation.ts:105-109 | `numeric()` is a PATTERN rule with its message. |
| FieldValidation.DecimalRule | src/modules/clinical-documentation/utils/validation.ts:111-115 | `decimal()` is a PATTERN rule with its message. |
| FieldValidation.NumericIsDecimalWithoutPoint | src/modules/clinical-documentation/utils/validation.ts:105-115 | A text is numeric exactly when it is decimal and has no '.'. |
| FieldValidation.IsNumericText | src/modules/clinical-documentation/utils/validation.ts:105-109 | A numeric text has no '.'. |
| FieldValidation.IsDecimalText | src/modules/clinical-documentation/utils/validation.ts:111-115 | In a decimal text, every '.' is followed by a digit. |
| FieldValidation.DecimalExamples | src/modules/clinical-documentation/utils/validation.ts:111-115 | "3.14", ".5" and "42" are decimal. "3.", "1.2.3", "" and "-1" are not. |
| FieldValidation.MinLengthFailsExactlyWhenShort | src/modules/clinical-documentation/utils/validation.ts:93-97 | A string fails `[minLength(n)]` exactly when it has fewer than n UTF-16 code units. |
| FieldValidation.MaxLengthFailsExactlyWhenLong | src/modules/clinical-documentation/utils/validation.ts:99-103 | A string fails `[maxLength(n)]` exactly when it has more than n UTF-16 code units. |
| FieldValidation.NumericRuleAcceptsDigits | src/modules/clinical-documentation/utils/validation.ts:105-109 | A value passes `[numeric()]` exactly when it is not a string or is all digits. |
| FieldValidation.DecimalRuleAcceptsDecimals | src/modules/clinical-documentation/utils/validation.ts:111-115 | A string passes `[decimal()]` exactly when it is a decimal text. |
| FieldValidation.PhoneRuleIsPhoneFormat | src/modules/clinical-documentation/utils/validation.ts:87-91 | A string passes `[phone()]` exactly when the schema's `phone` format accepts it. Otherwise the error is 'Invalid phone number'. |
| TemplateStore.VersionNumbersAreOneToN | src/modules/clinical-documentation/services/tempate.service.ts:68-98 | In every store state, a template's version numbers are exactly 1..n, where n is its number of versions. |
| TemplateStore.VersionNumbersAreUnique | src/modules/clinical-documentation/services/tempate.service.ts:68-98 | No two versions of a template share a number. |
| TemplateStore.NewestIsHighest | src/modules/clinical-documentation/services/tempate.service.ts:201-217 | The newest version of a template is numbered n. No version of it is numbered higher. |
| TemplateStore.MergeTemplateUpdate | src/modules/clinical-documentation/services/tempate.service.ts:228-234 | Every field the DTO carries replaces the stored one, and the editor and time are recorded. Id, tenant, version pointer, creation and retirement data are kept. |
| TemplateStore.MergeIgnoresPointer | src/modules/clinical-documentation/services/tempate.service.ts:228-234 | Merging commutes with moving the version pointer. |
| TemplateStore.StaleMergeRevertsPointer | src/modules/clinical-documentation/services/tempate.service.ts:219-238 | Merging onto a snapshot taken before the pointer moved yields the old pointer. Merging onto the current row keeps the new one. |
| TemplateStore.TemplateService.FindOne | src/modules/clinical-documentation/services/tempate.service.ts:152-175 | Found exactly when the id exists in the tenant and is not retired. Otherwise the error is NotFound with the source's message. |
| TemplateStore.TemplateService.GetVersion | src/modules/clinical-documentation/services/tempate.service.ts:177-199 | Succeeds exactly when version id, template id and tenant all match. Retirement is not consulted. |
| TemplateStore.TemplateService.GetLatestVersion | src/modules/clinical-documentation/services/tempate.service.ts:201-217 | Returns a version of the template in the tenant whose number no other such version exceeds. Fails with NotFound exactly when there is none. |
| TemplateStore.TemplateService.Create | src/modules/clinical-documentation/services/tempate.service.ts:21-66 | Adds the template and exactly one version, numbered 1, with no processing rules, and points the template at it. The store invariant holds afterwards, and the new template is found. |
| TemplateStore.TemplateService.AddTemplate | src/modules/clinical-documentation/services/tempate.service.ts:35-54 | Stores both rows under their ids and advances the id counter past them. |
| TemplateStore.TemplateService.CreateNewVersion | src/modules/clinical-documentation/services/tempate.service.ts:68-98 | Fails exactly when the template is not found, changing nothing. Otherwise it adds one version numbered one past the count, without processing rules, and points the template at it. Other templates and all earlier versions are unchanged. |
| TemplateStore.TemplateService.AddVersion | src/modules/clinical-documentation/services/tempate.service.ts:90-94 | Stores the next-numbered version, moves the pointer and keeps the store invariant. |
| TemplateStore.TemplateService.SaveTemplate | src/modules/clinical-documentation/services/tempate.service.ts:243-249 | Overwriting one template row that points into its own versions keeps the store invariant and changes nothing else. |
| TemplateStore.TemplateService.Update | src/modules/clinical-documentation/services/tempate.service.ts:219-238 | Corrected `update`. It fails exactly when the template is not found. The saved row is the DTO merged onto the stored row. With a new version, the row points at that version, whose number is the new count. That version is stored under a fresh id, and every earlier version keeps its contents. Without one, the pointer and versions are unchanged. |
| TemplateStore.TemplateService.SaveMerged | src/modules/clinical-documentation/services/tempate.service.ts:228-234 | Saves the DTO merged onto the row as stored now. |
| TemplateStore.TemplateService.UpdateAsWritten | src/modules/clinical-documentation/services/tempate.service.ts:219-238 | `update` as written: the saved row is the DTO merged onto the snapshot read first. With a version update, a new version is added but the template still points at the previous one. |
| TemplateStore.TemplateService.Remove | src/modules/clinical-documentation/services/tempate.service.ts:240-252 | Retires the template with who, when and why. Afterwards it is found in no tenant, so later updates, publishes and new versions fail with NotFound. A template that is not found is left alone. |
| TemplateStore.TemplateService.Publish | src/modules/clinical-documentation/services/tempate.service.ts:254-270 | NotFound passes through, and Conflict is returned when already published; nothing changes in either case. Otherwise it sets `isPublished` and records the editor. |
| TemplateStore.TemplateService.Unpublish | src/modules/clinical-documentation/services/tempate.service.ts:272-288 | The mirror image of publish: Conflict when not published, otherwise it clears the flag. |
| FormDataStore.FromHttp | src/modules/clinical-documentation/dto/update-form-status.dto.ts:4-9 | No API status value stands for VOIDED. |
| FormDataStore.HttpStatusesAreTheLiveOnes | src/modules/clinical-documentation/dto/update-form-status.dto.ts:4-9 | The API values are exactly the statuses other than VOIDED. |
| FormDataStore.IsValidStatusTransition | src/modules/clinical-documentation/services/form-data.service.ts:206-208 | True exactly when the table lists the new status for the current one. It is never true from VOIDED or to the same status. |
| FormDataStore.FormDataService.FindOne | src/modules/clinical-documentation/services/form-data.service.ts:136-159 | Found exactly when the id exists in the tenant and is not voided. Otherwise the error is NotFound with the source's message. |
| FormDataStore.FormDataService.FindAll | src/modules/clinical-documentation/services/form-data.service.ts:102-122 | Lists exactly the tenant's non-voided submissions that match every filter that is set. |
| FormDataStore.FormDataService.PinnedVersion | src/modules/clinical-documentation/services/form-data.service.ts:25-31 | On success, the result is the version the template's `currentVersionId` points at, for that template and tenant. A missing template gives NotFound. |
| FormDataStore.FormDataService.Submit | src/modules/clinical-documentation/services/form-data.service.ts:24-80 | A template or version failure, a schema rejection with the validator's error list, and a failing processing rule each store nothing. On success it stores one new row pinned to the current version. The row holds the data processed with that version's rules (none when absent) and the requested status, DRAFT by default. The row is then found. |
| FormDataStore.FormDataService.Insert | src/modules/clinical-documentation/services/form-data.service.ts:69 | Writes one row under its id. |
| FormDataStore.FormDataService.UpdateStatus | src/modules/clinical-documentation/services/form-data.service.ts:161-185 | Succeeds exactly when the submission is found and the table allows the move. Otherwise it gives NotFound or BadRequest with the source's message and changes nothing. A success changes only status, editor and time. |
| FormDataStore.FormDataService.Void | src/modules/clinical-documentation/services/form-data.service.ts:187-204 | Succeeds from any status of a found submission. It records who, when and why and leaves the status as it was. Afterwards the submission is found in no tenant, so updateStatus and void on it fail. |
| FormDataStore.ListedIffFound | src/modules/clinical-documentation/services/form-data.service.ts:102-106 | A submission is in the unfiltered listing exactly when `findOne` finds it. |
| FormDataStore.VoidedIsInvisible | src/modules/clinical-documentation/services/form-data.service.ts:106 | A voided submission is found by neither `findOne` nor any listing. |
| FormDataStore.UnruledVersionsKeepData | src/modules/clinical-documentation/services/form-data.service.ts:47-50 | In every valid template store, `submit` processes with no rules and keeps the data as sent. |
| FormComponentStore.TypeValuesAreDistinct | src/common/interfaces/form-component.interface.ts:16-29 | Distinct component types have distinct stored values. |
| FormComponentStore.GetComponentTypes | src/modules/clinical-documentation/services/form-component.service.ts:140-142 | Twelve types, none repeated. The values come from `src/common/interfaces/form-component.interface.ts:16-29`. |
| FormComponentStore.EveryTypeListed | src/modules/clinical-documentation/services/form-component.service.ts:140-142 | Every component type is listed. |
| FormComponentStore.MergeComponentUpdate | src/modules/clinical-documentation/services/form-component.service.ts:112-117 | Exactly the DTO's fields replace the stored ones, and the editor and time are recorded. Every other field keeps its value. |
| FormComponentStore.EmptyUpdateOnlyRecordsEditor | src/modules/clinical-documentation/services/form-component.service.ts:112-117 | An update without fields changes only the editor and time. |
| FormComponentStore.NewestFirst | src/modules/clinical-documentation/services/form-component.service.ts:150-157 | Lists only entries of that component in that tenant. |
| FormComponentStore.NewestFirstIsComplete | src/modules/clinical-documentation/services/form-component.service.ts:150-154 | Lists every entry of that component in that tenant. |
| FormComponentStore.NewestFirstIsDescending | src/modules/clinical-documentation/services/form-component.service.ts:155-157 | Over a log whose ids grow, the listing runs from the newest entry to the oldest. |
| FormComponentStore.Window | src/modules/clinical-documentation/services/form-component.service.ts:158-159 | At most `limit` items, taken consecutively from position `skip`. As many as remain, up to `limit`. |
| FormComponentStore.FormComponentService.FindOne | src/modules/clinical-documentation/services/form-component.service.ts:80-102 | Found exactly when the id exists in the tenant and is not retired. Otherwise NotFound. |
| FormComponentStore.FormComponentService.GetHistory | src/modules/clinical-documentation/services/form-component.service.ts:144-163 | `total` counts the component's entries in the tenant. `data` is the items (page-1)*limit onward of the newest-first listing, at most `limit` of them. |
| FormComponentStore.FormComponentService.Record | src/modules/clinical-documentation/services/form-component.service.ts:165-183 | Saves the component row and appends exactly one history entry. |
| FormComponentStore.FormComponentService.Create | src/modules/clinical-documentation/services/form-component.service.ts:23-36 | Stores a new component, not required unless asked, and appends exactly one CREATE entry holding it. |
| FormComponentStore.FormComponentService.Update | src/modules/clinical-documentation/services/form-component.service.ts:104-123 | Fails exactly when not found, changing nothing. Otherwise it stores the merged component and appends exactly one UPDATE entry holding it. |
| FormComponentStore.FormComponentService.Remove | src/modules/clinical-documentation/services/form-component.service.ts:125-138 | Fails exactly when not found, changing nothing. Otherwise it retires the component with reason, and it is then found in no tenant. It appends exactly one RETIRE entry with the component as it was before and the reason. |
| FormComponentStore.HistoryIsNewestFirst | src/modules/clinical-documentation/services/form-component.service.ts:155-157 | In a well-formed store, a component's history listing has strictly decreasing entry ids. |
| FormComponentStore.EveryEntryOnItsPage | src/modules/clinical-documentation/services/form-component.service.ts:158-159 | Entry j of the listing is item `j % limit` of page `j / limit + 1`, so the pages tile the listing. |

## Left out

- Caching: `cacheService` reads and invalidation are not modelled, and the cache is taken to be coherent. The known gap is that template invalidation does not clear the template list keys.
- The `findAll` listings are not modelled in these respects:
  - For submissions, ordering by `dateCreated`, SQL paging and the joined relations. `FormDataService.FindAll` returns the set of matching ids.
  - For components, the LIKE search and paging.
  - For templates, the whole listing.
- Concurrency: calls are sequential. The race between two `createNewVersion` calls that read the same latest number is not modelled.
- Persistence failures, such as a failing save or a rollback, are not modelled. `create` and `submit` therefore always commit once their checks pass. The all-or-nothing promise is met trivially, because each operation is one atomic step.
- Ajv schema compilation and JSON Schema semantics are an uninterpreted oracle.
- The e-mail regular expression is an uninterpreted matcher, and so is the regular expression of a user-defined PATTERN rule.
- JavaScript coercions other than `Boolean` and `trim` go through `Host` functions: `String`, `toUpperCase`, `toLowerCase`, `Number` and `new Date`. NaN, infinities and floating-point rounding are not represented.
- `utils/form-calculator.ts` uses floating-point formulas and reads the system clock, so it is not modelled.
- Authentication, controllers, DTO validation decorators and entities are not modelled; DTOs and entities are only record shapes.
- DTO fields that are not columns of the stored row are not modelled. These are the component DTO's `description`, `validationRules` and `options`. The component's `validation` column is stored as absent on create.
- FormComponentStore.FormComponentService.Update: the source saves `{...component, ...dto}` and records that same object as the UPDATE entry's `changes` (`form-component.service.ts:112-119` and 177). So the source's entry also holds any `description`, `validationRules` or `options` the request carried. The model's entry holds only the merged row. `create` is unaffected, because the repository's `create` copies only columns.
- Statuses outside the five-value enum are not modelled. The submit DTO declares `status` as any string; the model takes an optional `FormStatus`.
- Ids are counters instead of UUIDs, and the clock is the `now` parameter.
- Component history is ordered by insertion. The source orders by `dateCreated` and leaves the order of equal timestamps to the database.
- FormProcessor.ProcessingRule: a rule entry's `rule` member is untyped and read from a JSON column. Two kinds of entry are not represented:
  - entries with no `rule` object: a `calculate` or `validate` rule, or a `transform` rule whose field is defined;
  - `null` entries in the rule list.
  The source throws a TypeError on these (`form-processor.ts:18`, 42, 75 and 86) before `submit` opens its transaction, so the request fails with an internal error. The model's nearest rules, with no function, change nothing.
- Input records are values. `processFormData` copying its input before changing it is therefore implicit rather than a stated property.
- TemplateStore.TemplateService.GetLatestVersion: requires that every version row is stored under its own id. This is part of the store invariant and always holds for the store's own state.
- FormComponentStore.FormComponentService.GetHistory: requires `page >= 1` and `limit >= 1`. The source's defaults are 1 and 10. A page below 1 would give a negative offset, which the database rejects. A `limit` of 0 is passed to the ORM as `take: 0`, and the query builder's treatment of it is not part of this model.
- FormProcessor.TransformedValue: `Number(v)` and `new Date(v)` results come from `Host`, so the model does not state their values.
- FieldValidation.Bound: the text of a bound is carried with it rather than computed from its number, since JavaScript's number-to-text conversion is not modelled. `WholeBound` computes it for whole numbers.
- Template creation saves the template row before its `currentVersionId` is set (the save at `tempate.service.ts:35`; the id is set at line 53). The entity declares that column as a plain, non-nullable `@Column()` (`template.entity.ts:35-36`). The migrations are not part of this model, so whether that first save is refused cannot be settled here. The model assumes it succeeds.

## Findings

| source | as written | input that shows it | evidently intended | confidence | as-written member | corrected member |
|---|---|---|---|---|---|---|
| src/modules/clinical-documentation/services/tempate.service.ts:219-238 | `update` reads the template, then `createNewVersion` moves its `currentVersionId` to the new version. It then saves `{...template, ...dto}` built from the snapshot read before, which puts the old `currentVersionId` back. | Any `update` with a `version` payload on an existing, non-retired template. A new version numbered n+1 is stored, but the template still points at version n. | The template points at the version the update just created. | high, not executed (the ORM may also save relations of the snapshot; not modelled) | TemplateStore.TemplateService.UpdateAsWritten | TemplateStore.TemplateService.Update |
