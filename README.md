# daehwa-register in Dafny

A model of the core of daehwa-register, an administration tool for a book club's roster of
participants, leaders, administrators and meetings. The model covers:

- the participant query service: filters, sort, page window and page count (`ParticipantQuery`);
- the zod record validators, with the phone and `YYYY-MM` regular expressions written out as
  recognisers (`SchemaFields`, `Patterns`, `ParticipantSchema`, `LeaderSchema`,
  `AdministratorSchema`, `MeetingSchema`);
- the filter panel's translation between slider/text state and a filter (`FilterPanel`);
- the spreadsheet row mapping and its empty-input guard (`ExcelExport`);
- the two list pages' sort/page/delete/export controller (`ParticipantsPage`, `LeaderDashboard`);
- the shared client state cells (`ParticipantStore`, `AuthStore`);
- the access decisions: role lookup (`RoleRoute`), route guard (`ProtectedRoute`), OAuth callback
  redirect (`AuthCallback`) and leader provisioning (`LeadersRoute`).

The database is modelled as an in-memory sequence of typed rows, in the order a query happens to read
them. A query filters it, sorts it and takes the inclusive window `[from, to]`. The store's error, the auth service's answers, the table
lookups and zod's library string formats (`uuid`, `email`, `datetime`) are parameters.

Mutable state takes the source's own form. The jotai atoms are fields of `ListState` and
`AuthState`. The React component state of the panel and the two list pages are fields of
`Panel`, `ListPage` and `DashboardPage`, and their handlers are methods with `modifies` clauses.
Each method states its complete new state. Everything else is functions and lemmas.

Main results:

- `ParticipantQuery.Search` states what a page holds. Every row of a page matches all active
  filters and is a valid row of the table. The page is sorted in the requested direction, holds
  at most `limit` rows, and reports `total` and `totalPages = ceil(total / limit)`.
- `ParticipantQuery.SearchPagesCoverMatches` shows that paging through pages `1..totalPages`
  shows every matching row exactly once, when no two matches share the sort key. Each page is a
  query of its own, and the store may read the table in a different order each time. With tied
  keys this fails: `ParticipantQuery.TiedKeysRepeatRow` gives two pages that show the same row.
- `ParticipantSchema.ParseToJson` (and the same lemma for leaders, administrators and meetings):
  re-validating a stored row succeeds exactly when the row is well formed, and gives it back.
- `Patterns.PhoneRoundTrip`: the phone recogniser accepts exactly the language of
  `^01[0-9]-?\d{3,4}-?\d{4}$` and reads it unambiguously.
- `FilterPanel.LocalRoundTrip` and `FilterPanel.FilterRoundTrip`: the panel state and the filter
  it builds translate back and forth.

## Model

| member | source | states |
|---|---|---|
| Text.IsJsSpace | app/api/leaders/route.ts:34 | the white space `trim()` removes contains no digit |
| Text.JsSpacesListed | app/api/leaders/route.ts:34 | a code point is white space for `trim()` exactly when it is one of the 25 code points of the WhiteSpace and LineTerminator productions of ECMA-262 |
| Text.TrimStart | app/api/auth/role/route.ts:21 | (the start half of `trim`) the result is a suffix of the input, does not start with a JS white-space code point, and only white space was removed |
| Text.TrimEnd | app/api/leaders/route.ts:34 | (the end half of `trim`) the result is a prefix of the input, does not end with white space, and only white space was removed |
| Text.Trim | app/api/leaders/route.ts:34 | `trim()` removes white space and only white space at both ends: the result sits inside the input with nothing but white space before and after it, and neither starts nor ends with white space |
| Text.TrimUnique | app/api/leaders/route.ts:34 | those two properties determine the result: any part of the input that satisfies them is `trim()`'s result |
| Text.TrimPadded | app/api/leaders/route.ts:34 | trimming the start and then the end leaves a part with only white space around it in the input |
| Text.PaddedOfParts | app/api/leaders/route.ts:34 | a prefix of a suffix, with only white space cut on each side, sits in the input with only white space around it |
| Text.NormalizeEmail | app/api/auth/role/route.ts:21 | `email.trim().toLowerCase()` leaves no upper-case ASCII letter and no longer text than it was given |
| Text.NormalizeEitherOrder | app/api/leaders/route.ts:78 | lower-casing first and trimming afterwards gives the same normalised address |
| Text.LowerChar | app/api/leaders/route.ts:34 | `toLowerCase` on one code point keeps white space and digits as they are and leaves no upper-case ASCII letter |
| Text.Lower | app/api/leaders/route.ts:34 | lower-casing keeps the length and folds every position |
| Text.LowerIdempotent | app/api/leaders/route.ts:34 | lower-casing twice is lower-casing once |
| Text.NormalizeEmailIdempotent | app/api/auth/role/route.ts:21 | `email.trim().toLowerCase()` normalises an already normalised address to itself |
| Text.NormalizeIgnoresCase | app/api/auth/role/route.ts:21 | addresses that differ only in ASCII letter case normalise alike |
| Text.LowerTrimStart | app/api/auth/role/route.ts:21 | trimming the start commutes with lower-casing |
| Text.LowerTrimEnd | app/api/auth/role/route.ts:21 | trimming the end commutes with lower-casing |
| Text.TrimStartOfTrimmed | app/api/auth/role/route.ts:21 | a string that does not start with white space is its own start-trim |
| Text.TrimEndOfTrimmed | app/api/auth/role/route.ts:21 | a string that does not end with white space is its own end-trim |
| Text.StartsWith | app/auth/callback/route.ts:9 | `startsWith(prefix)`, compared character by character, holds exactly when the prefix is the slice of the string's first `|prefix|` characters |
| Text.Contains | app/api/leaders/route.ts:44-45 | `includes(part)` holds exactly when `part` occurs at some index |
| Text.Join | lib/utils/excel.ts:49 | `join` of no items is `''`, of one item is that item, and of two items puts the separator between them |
| Text.JoinAppend | lib/utils/excel.ts:49 | joining one more item appends the separator and that item, so the separator stands between every two neighbours |
| Patterns.MatchTail | lib/validations/participant.ts:4 | a match of the part after the first dash is 3-4 digits, an optional dash and 4 digits, and spells the input |
| Patterns.MatchPhone | lib/validations/participant.ts:4 | a matched phone is made of valid pieces that spell the input: sound with respect to the regular expression |
| Patterns.IsPhone | lib/validations/participant.ts:4 | `phoneRegex.test(s)`: a match has 10 to 13 characters and starts with `01` and a digit |
| Patterns.PhoneLanguage | lib/validations/participant.ts:4 | `phoneRegex.test(s)` holds exactly when `s` is written from valid pieces: `01`, a carrier digit, an optional dash, 3 or 4 digits, an optional dash and 4 digits |
| Patterns.TailRoundTrip | lib/validations/participant.ts:4 | every valid tail is matched, and matching gives back its pieces |
| Patterns.PhoneRoundTrip | lib/validations/participant.ts:4-13 | every string built from valid pieces is accepted and read back as exactly those pieces: complete and unambiguous |
| Patterns.PhoneAcceptsDashed | lib/validations/participant.ts:4 | `010-1234-5678` is accepted |
| Patterns.PhoneAcceptsCompact | lib/validations/participant.ts:4 | `01012345678` and `0111234567` (three-digit middle group) are accepted |
| Patterns.PhoneRejectedExamples | lib/validations/participant.ts:4 | `invalid-phone`, `020-1234-5678` and `010-1234-567` are rejected |
| Patterns.DigitChar | lib/validations/participant.ts:12 | a digit value is written as a decimal digit character |
| Patterns.DigitValue | lib/validations/participant.ts:12 | a digit character denotes a value below 10 that is written back as the same character |
| Patterns.Digits | lib/validations/participant.ts:12 | fixed-width decimal writing gives exactly `width` digits |
| Patterns.Pow10 | lib/validations/participant.ts:12 | powers of ten are positive |
| Patterns.DigitsValue | lib/validations/participant.ts:12 | reading a written number gives the number back |
| Patterns.ValueDigits | lib/validations/participant.ts:12 | writing a read digit string gives the string back, and the value fits the width |
| Patterns.IsYearMonth | lib/validations/participant.ts:12 | `/^\d{4}-\d{2}$/` (also used at line 16) holds exactly for seven characters with a dash at index 4 and a digit at every other index |
| Patterns.YearMonthLanguage | lib/validations/participant.ts:12 | the accepted months are exactly a four-digit number, a dash and a two-digit number |
| Patterns.FormatYearMonth | lib/validations/participant.ts:12-16 | a formatted year and month is accepted by `^\d{4}-\d{2}$` |
| Patterns.ReadYearMonth | lib/validations/participant.ts:12-16 | an accepted month string denotes a four-digit year and a two-digit month |
| Patterns.YearMonthRoundTrip | lib/validations/participant.ts:12-16 | the accepted strings are exactly the formatted ones; reading and formatting are inverse |
| Patterns.YearMonthExamples | lib/validations/participant.ts:12-16 | the month is not range-checked (`2024-13` and `2024-00` pass); `2024-1`, `2512` and `2024/01` fail |
| SchemaFields.IsInteger | lib/validations/participant.ts:9 | `.int()` accepts a number exactly when some integer denotes it |
| SchemaFields.GenderField | lib/validations/participant.ts:8 | `z.enum(['male','female'])` passes exactly those two strings and maps them to the matching gender |
| SchemaFields.NonEmptyString | lib/validations/participant.ts:10 | `z.string().min(1, msg)` passes exactly non-empty strings; the empty string fails with the schema's message |
| SchemaFields.FormattedString | lib/validations/participant.ts:12-13 | a regex or format check passes exactly the strings the format accepts |
| SchemaFields.IntegerField | lib/validations/participant.ts:9-14 | `z.number().int().positive()` / `.min(0)` with optional default: passes exactly the integers in range (or a missing key with a default) and keeps the value |
| SchemaFields.BooleanField | lib/validations/participant.ts:15 | `z.boolean().default(d)` passes booleans and the missing key, and keeps the value or the default |
| SchemaFields.ElementIssues | lib/validations/participant.ts:19 | an array has no element issue exactly when all its elements are strings |
| SchemaFields.StringArrayField | lib/validations/participant.ts:19 | `z.array(z.string()).default([])` passes exactly arrays of strings (or a missing key) and returns their strings in order |
| SchemaFields.OptionalString | lib/validations/participant.ts:7-21 | an optional string field accepts a missing key as `undefined` and otherwise the strings the format accepts |
| SchemaFields.NullableString | lib/validations/participant.ts:17-18 | a nullable optional field accepts a missing key, `null` and accepted strings, and tells the three apart |
| SchemaFields.Optional | lib/validations/participant.ts:30-34 | a `.partial()` field passes a missing key as unset without applying the default, and otherwise checks as before |
| SchemaFields.OptionalStringOfJson | lib/validations/participant.ts:7-21 | an optional string written as JSON checks back to itself when the format accepts it |
| SchemaFields.NullableStringOfJson | lib/validations/participant.ts:17-18 | a nullable string written as JSON checks back to itself when the format accepts it |
| SchemaFields.GenderOfText | lib/validations/participant.ts:8 | a gender written as its enum member checks back to itself |
| ParticipantSchema.KeyNameInjective | lib/validations/participant.ts:6-22 | the declared keys have distinct names |
| ParticipantSchema.IdCheck | lib/validations/participant.ts:7 | a missing `id` passes as unset; a passed `id` is a UUID copied from the input; a string that is not a UUID fails |
| ParticipantSchema.GenderCheck | lib/validations/participant.ts:8 | `gender` passes as male exactly for `'male'` and as female exactly for `'female'` |
| ParticipantSchema.AgeCheck | lib/validations/participant.ts:9 | `age` is required; a passed age is a positive integer equal to the input number |
| ParticipantSchema.NameCheck | lib/validations/participant.ts:10 | `name` is required; a passed name is the non-empty input string; `''` fails with 이름은 필수입니다 only |
| ParticipantSchema.MonthsCheck | lib/validations/participant.ts:11 | a missing `months` passes as 0; a passed value is a non-negative integer equal to the input number |
| ParticipantSchema.FirstRegistrationCheck | lib/validations/participant.ts:12 | `first_registration_month` is required; a passed value is a `YYYY-MM` input string; any other string fails with the format message only |
| ParticipantSchema.PhoneCheck | lib/validations/participant.ts:13 | `phone` is required; a passed value matches the phone pattern; any other string fails with the phone message only |
| ParticipantSchema.FeeCheck | lib/validations/participant.ts:14 | `fee` is required; a passed fee is a non-negative integer equal to the input number |
| ParticipantSchema.ReRegistrationCheck | lib/validations/participant.ts:15 | a missing `re_registration` passes as false; a present one passes exactly when it is a boolean, and keeps it |
| ParticipantSchema.LatestRegistrationCheck | lib/validations/participant.ts:16 | `latest_registration` is required; a passed value is a `YYYY-MM` input string; any other string fails with the format message only |
| ParticipantSchema.CurrentMeetingCheck | lib/validations/participant.ts:17 | a missing `current_meeting_id` passes as absent and `null` as null; a present id is a UUID copied from the input |
| ParticipantSchema.NotesCheck | lib/validations/participant.ts:18 | `notes` accepts a missing key, `null` and any string, keeping which one it was, and fails on every other JSON value |
| ParticipantSchema.PastMeetingsCheck | lib/validations/participant.ts:19 | a missing `past_meetings` passes as `[]`; otherwise it passes exactly for an array of strings, and keeps those strings in order |
| ParticipantSchema.CreatedAtCheck | lib/validations/participant.ts:20 | a missing `created_at` passes as unset; a passed one satisfies the `datetime()` format and is copied from the input; a string that does not fails |
| ParticipantSchema.UpdatedAtCheck | lib/validations/participant.ts:21 | the same for `updated_at` |
| ParticipantSchema.CheckFields | lib/validations/participant.ts:6-22 | every field check that fails reports at least one issue |
| ParticipantSchema.AllIssues | lib/validations/participant.ts:6-22 | no issues when every field passes; at least one when a field fails |
| ParticipantSchema.Parse | lib/validations/participant.ts:6-22 | a rejection always carries issues; a non-object is rejected with the single top-level type issue |
| ParticipantSchema.ParseCreate | lib/validations/participant.ts:24-28 | an accepted create body has no `id` and no timestamps; a rejection carries issues |
| ParticipantSchema.BuildAt | lib/validations/participant.ts:6-22 | the stored object holds exactly the record's present values under the declared keys |
| ParticipantSchema.ToJsonAt | lib/validations/participant.ts:6-22 | a stored row holds each field's value under its key |
| ParticipantSchema.ChecksOfToJsonA | lib/validations/participant.ts:7-11 | on a stored row, the id, gender, age, name and months checks pass exactly under the schema's rules and give the values back |
| ParticipantSchema.ChecksOfToJsonB | lib/validations/participant.ts:12-13 | on a stored row, the first-registration month and phone checks pass exactly when the recognisers accept them |
| ParticipantSchema.ChecksOfToJsonE | lib/validations/participant.ts:14-16 | on a stored row, fee, re-registration and latest-registration checks pass exactly under the schema's rules |
| ParticipantSchema.ChecksOfToJsonC | lib/validations/participant.ts:17-18 | on a stored row, the meeting id and notes checks pass exactly under the schema's rules |
| ParticipantSchema.ChecksOfToJsonD | lib/validations/participant.ts:19-21 | on a stored row, past meetings and the timestamps check back to themselves |
| ParticipantSchema.ParseToJson | lib/validations/participant.ts:6-22 | parsing a stored row succeeds exactly when the record is well formed, and gives the record back |
| ParticipantSchema.Revalidate | lib/services/participant.ts:77 | `participantSchema.parse(row)` returns the row exactly when it is well formed |
| ParticipantSchema.ParseReadsDeclaredKeys | lib/validations/participant.ts:6-22 | the parse depends on nothing but the declared keys |
| ParticipantSchema.UnknownKeyIgnored | lib/validations/participant.ts:6-22 | an undeclared key (for example `participation_month`) is stripped and changes nothing |
| ParticipantSchema.IssueReported | lib/validations/participant.ts:6-22 | every field issue makes the parse fail and is among the reported issues |
| ParticipantSchema.AgeMustBePositive | lib/validations/participant.ts:9 | an age of 0 or below is rejected with a too-small issue on `age` |
| ParticipantSchema.FeeAndMonthsNonNegative | lib/validations/participant.ts:11-14 | an accepted record has non-negative fee and months; a fee of -1 is reported |
| ParticipantSchema.EmptyNameRejected | lib/validations/participant.ts:10 | an empty name is rejected with `이름은 필수입니다` |
| ParticipantSchema.GenderMustBeListed | lib/validations/participant.ts:8 | any gender other than `male` and `female` is rejected as an invalid enum value |
| ParticipantSchema.BadPhoneRejected | lib/validations/participant.ts:4-13 | a phone the recogniser refuses, `invalid-phone` among them, is rejected with the phone message |
| ParticipantSchema.ParsedIsWellFormed | lib/validations/participant.ts:6-22 | every accepted record satisfies the schema's constraints |
| ParticipantSchema.DefaultsApply | lib/validations/participant.ts:11-19 | missing `months`, `re_registration` and `past_meetings` become 0, false and [] |
| ParticipantSchema.NullsAccepted | lib/validations/participant.ts:17-18 | `null` meeting id and notes are accepted and kept as `null` |
| ParticipantSchema.CreateIgnoresServerKeys | lib/validations/participant.ts:24-28 | the create schema's outcome does not depend on `id`, `created_at` or `updated_at` |
| ParticipantSchema.CreateAgreesWithFull | lib/validations/participant.ts:24-28 | without those keys, the create schema and the full schema agree |
| ParticipantSchema.ParseUpdate | lib/validations/participant.ts:30-34 | an update rejection carries issues |
| ParticipantSchema.EmptyUpdate | lib/validations/participant.ts:30-34 | an empty update is valid and sets nothing |
| ParticipantSchema.UpdateAppliesNoDefaults | lib/validations/participant.ts:30-34 | an update leaves unsent defaulted fields unset |
| ParticipantSchema.UpdateRejectsEmptyName | lib/validations/participant.ts:10-34 | a sent empty name is still rejected with its message |
| ParticipantSchema.CreateThenUpdate | lib/validations/participant.ts:24-34 | whatever the create schema accepts, the update schema accepts with the same values for every sent field: the required ones always, `months`, `re_registration` and `past_meetings` when they were sent |
| LeaderSchema.KeyNameInjective | lib/validations/leader.ts:5-14 | the declared keys have distinct names |
| LeaderSchema.IdCheck | lib/validations/leader.ts:6 | a missing `id` passes as unset; a passed `id` is a UUID copied from the input; a string that is not a UUID fails |
| LeaderSchema.GenderCheck | lib/validations/leader.ts:7 | `gender` passes as male exactly for `'male'` and as female exactly for `'female'` |
| LeaderSchema.NameCheck | lib/validations/leader.ts:8 | `name` is required; a passed name is the non-empty input string; `''` fails with 이름은 필수입니다 only |
| LeaderSchema.PhoneCheck | lib/validations/leader.ts:9 | `phone` is required; a passed value matches the phone pattern; any other string fails with the phone message only |
| LeaderSchema.AssignedMeetingCheck | lib/validations/leader.ts:10 | a missing `assigned_meeting_id` passes as absent and `null` as null; a present id is a UUID copied from the input |
| LeaderSchema.GoogleEmailCheck | lib/validations/leader.ts:11 | `google_email` is required; a passed value satisfies the `email()` format; any other string fails with the e-mail message only |
| LeaderSchema.CreatedAtCheck | lib/validations/leader.ts:12 | a missing `created_at` passes as unset; a passed one satisfies `datetime()` and is copied from the input; a string that does not fails |
| LeaderSchema.UpdatedAtCheck | lib/validations/leader.ts:13 | the same for `updated_at` |
| LeaderSchema.Parse | lib/validations/leader.ts:5-14 | a rejection carries issues; a non-object gets the single top-level issue |
| LeaderSchema.ParseCreate | lib/validations/leader.ts:16-20 | an accepted create body has no `id` and no timestamps |
| LeaderSchema.ParseUpdate | lib/validations/leader.ts:22-26 | an update rejection carries issues |
| LeaderSchema.BuildAt | lib/validations/leader.ts:5-14 | the stored object holds the record's present values under the declared keys |
| LeaderSchema.ChecksOfToJsonA | lib/validations/leader.ts:6-7 | on a stored row, the id and gender checks pass exactly under the schema's rules |
| LeaderSchema.ChecksOfToJsonC | lib/validations/leader.ts:8-9 | on a stored row, the name and phone checks pass exactly under the schema's rules |
| LeaderSchema.ChecksOfToJsonB | lib/validations/leader.ts:10-11 | on a stored row, the assigned meeting and e-mail checks pass exactly under the schema's rules |
| LeaderSchema.ChecksOfToJsonD | lib/validations/leader.ts:12-13 | on a stored row, the timestamps check back to themselves when the format accepts them |
| LeaderSchema.ParseToJson | lib/validations/leader.ts:5-14 | parsing a stored leader succeeds exactly when it is well formed, and gives it back |
| LeaderSchema.GenderAndNameRules | lib/validations/leader.ts:7-8 | an accepted leader has a listed gender; an empty name is rejected with its message |
| LeaderSchema.PhoneRule | lib/validations/leader.ts:3-9 | the phone is accepted only if the shared recogniser accepts it, else reported with the phone message |
| LeaderSchema.EmailRule | lib/validations/leader.ts:11 | the Google address must be accepted by the e-mail format, else reported with its message |
| LeaderSchema.AssignedMeetingOptional | lib/validations/leader.ts:10 | a missing or `null` assigned meeting never fails |
| LeaderSchema.CreateIgnoresServerKeys | lib/validations/leader.ts:16-20 | the create schema's outcome does not depend on `id` or the timestamps |
| LeaderSchema.UpdateFieldsOptional | lib/validations/leader.ts:22-26 | an empty update is valid; a sent field is checked as on create |
| AdministratorSchema.KeyNameInjective | lib/validations/administrator.ts:5-12 | the declared keys have distinct names |
| AdministratorSchema.IdCheck | lib/validations/administrator.ts:6 | a missing `id` passes as unset; a passed `id` is a UUID copied from the input; a string that is not a UUID fails |
| AdministratorSchema.GenderCheck | lib/validations/administrator.ts:7 | `gender` passes as male exactly for `'male'` and as female exactly for `'female'` |
| AdministratorSchema.NameCheck | lib/validations/administrator.ts:8 | `name` is required; a passed name is the non-empty input string; `''` fails with 이름은 필수입니다 only |
| AdministratorSchema.PhoneCheck | lib/validations/administrator.ts:9 | `phone` is required; a passed value matches the phone pattern; any other string fails with the phone message only |
| AdministratorSchema.CreatedAtCheck | lib/validations/administrator.ts:10 | a missing `created_at` passes as unset; a passed one satisfies `datetime({ offset: true })` and is copied from the input; a string that does not fails |
| AdministratorSchema.UpdatedAtCheck | lib/validations/administrator.ts:11 | the same for `updated_at` |
| AdministratorSchema.Parse | lib/validations/administrator.ts:5-12 | a rejection carries issues; a non-object gets the single top-level issue |
| AdministratorSchema.ParseCreate | lib/validations/administrator.ts:14-18 | an accepted create body has no `id` and no timestamps |
| AdministratorSchema.ParseUpdate | lib/validations/administrator.ts:20-24 | an update rejection carries issues |
| AdministratorSchema.BuildAt | lib/validations/administrator.ts:5-12 | the stored object holds the record's present values under the declared keys |
| AdministratorSchema.ChecksOfToJsonA | lib/validations/administrator.ts:6-7 | on a stored row, the id and gender checks pass exactly under the schema's rules |
| AdministratorSchema.ChecksOfToJsonC | lib/validations/administrator.ts:8-9 | on a stored row, the name and phone checks pass exactly under the schema's rules |
| AdministratorSchema.ChecksOfToJsonB | lib/validations/administrator.ts:10-11 | on a stored row, the offset date-time timestamps check back to themselves |
| AdministratorSchema.ParseToJson | lib/validations/administrator.ts:5-12 | parsing a stored administrator succeeds exactly when it is well formed, and gives it back |
| AdministratorSchema.FieldRules | lib/validations/administrator.ts:3-9 | listed gender, non-empty name and a recognised phone are required |
| AdministratorSchema.TimestampsOptional | lib/validations/administrator.ts:10-11 | missing timestamps pass and stay missing |
| AdministratorSchema.CreateIgnoresServerKeys | lib/validations/administrator.ts:14-18 | the create schema's outcome does not depend on `id` or the timestamps |
| AdministratorSchema.UpdateFieldsOptional | lib/validations/administrator.ts:20-24 | an empty update is valid; a sent field is checked as on create |
| MeetingSchema.KeyNameInjective | lib/validations/meeting.ts:3-9 | the declared keys have distinct names |
| MeetingSchema.IdCheck | lib/validations/meeting.ts:4 | a missing `id` passes as unset; a passed `id` is a UUID copied from the input; a string that is not a UUID fails |
| MeetingSchema.NameCheck | lib/validations/meeting.ts:5 | `name` is required; a passed name is the non-empty input string; `''` fails with 모임 이름은 필수입니다 only |
| MeetingSchema.DescriptionCheck | lib/validations/meeting.ts:6 | `description` accepts a missing key, `null` and any string, keeping which one it was, and fails on every other JSON value |
| MeetingSchema.CreatedAtCheck | lib/validations/meeting.ts:7 | a missing `created_at` passes as unset; a passed one satisfies `datetime()` and is copied from the input; a string that does not fails |
| MeetingSchema.UpdatedAtCheck | lib/validations/meeting.ts:8 | the same for `updated_at` |
| MeetingSchema.Parse | lib/validations/meeting.ts:3-9 | a rejection carries issues; a non-object gets the single top-level issue |
| MeetingSchema.ParseCreate | lib/validations/meeting.ts:11-15 | an accepted create body has no `id` and no timestamps |
| MeetingSchema.ParseUpdate | lib/validations/meeting.ts:17-21 | an update rejection carries issues |
| MeetingSchema.BuildAt | lib/validations/meeting.ts:3-9 | the stored object holds the record's present values under the declared keys |
| MeetingSchema.ParseToJson | lib/validations/meeting.ts:3-9 | parsing a stored meeting succeeds exactly when it is well formed, and gives it back |
| MeetingSchema.EmptyNameRejected | lib/validations/meeting.ts:5 | an empty name is rejected with `모임 이름은 필수입니다` |
| MeetingSchema.DescriptionOptional | lib/validations/meeting.ts:6 | a missing, `null` or string description passes |
| MeetingSchema.CreateIgnoresServerKeys | lib/validations/meeting.ts:11-15 | the create schema's outcome does not depend on `id` or the timestamps |
| MeetingSchema.UpdateFieldsOptional | lib/validations/meeting.ts:17-21 | an empty update is valid; a sent empty name is still rejected with its message |
| Ordering.StrLeTotal | lib/services/participant.ts:204-205 | text order is total |
| Ordering.StrLeTransitive | lib/services/participant.ts:204-205 | text order is transitive |
| Ordering.StrLeAntisymmetric | lib/services/participant.ts:204-205 | text order is antisymmetric |
| Ordering.KeyLeTotal | lib/services/participant.ts:204-205 | the order on sort keys is total |
| Ordering.KeyLeTransitive | lib/services/participant.ts:204-205 | the order on sort keys is transitive |
| Ordering.BeforeTotal | lib/services/participant.ts:204-205 | the order in either direction is total |
| Ordering.BeforeTransitive | lib/services/participant.ts:204-205 | the order in either direction is transitive |
| Ordering.NullPlacement | lib/services/participant.ts:204-205 | `NULL` sorts last in ascending order and first in descending order |
| Ordering.Insert | lib/services/participant.ts:204-205 | inserting into a sorted list keeps it sorted and adds exactly the element |
| Ordering.SortOn | lib/services/participant.ts:204-205 | the query's order is sorted on the column and a permutation of the rows it read |
| Ordering.KeyLeAntisymmetric | lib/services/participant.ts:204-205 | sort keys that are each at most the other are the same key |
| Ordering.BeforeAntisymmetric | lib/services/participant.ts:204-205 | in either direction, keys that may each come before the other are the same key |
| Ordering.SortedPermutationUnique | lib/services/participant.ts:204-205 | when no two rows share the sort key, `order(column)` leaves no choice: any two sorted arrangements of the same rows are equal |
| ParticipantQuery.PageLimit | lib/services/participant.ts:155 | `limit || 15` is never 0 |
| ParticipantQuery.CeilDiv | lib/services/participant.ts:219 | `Math.ceil(total / limit)` is the least multiple count covering `total` |
| ParticipantQuery.PageNumber | lib/services/participant.ts:154 | `page || 1`: 1 when absent or 0, otherwise the given page, never 0 |
| ParticipantQuery.From | lib/services/participant.ts:156 | the first page starts at row 0, and no window of a page from 1 on starts before row 0 |
| ParticipantQuery.To | lib/services/participant.ts:157 | the window `[from, to]` holds exactly `limit` slots |
| ParticipantQuery.SortColumn | lib/services/participant.ts:158 | the requested column, or `created_at` without a sort |
| ParticipantQuery.Ascending | lib/services/participant.ts:159 | ascending exactly when the direction asked for is `asc`, so descending by default |
| ParticipantQuery.PageDefaults | lib/services/participant.ts:154-155 | page and limit fall back to 1 and 15 when absent or 0, and pass through otherwise, negatives included |
| ParticipantQuery.WindowSpan | lib/services/participant.ts:156-157 | the window `[from, to]` spans exactly `limit` slots, and page k+1 starts right after page k |
| ParticipantQuery.TotalPagesBounds | lib/services/participant.ts:214-220 | `totalPages` is 0 exactly when there are no rows, and the last page holds the last row |
| ParticipantQuery.TextActive | lib/services/participant.ts:173-174 | a text filter applies exactly when it is set to a non-empty string, the only falsy string |
| ParticipantQuery.ContainsFolded | lib/services/participant.ts:173-174 | `ilike '%needle%'` holds exactly when the lower-cased needle occurs in the lower-cased field; an empty needle matches every field and no needle longer than the field matches |
| ParticipantQuery.AtLeast | lib/services/participant.ts:167-168 | a missing lower bound admits every value; a given one, 0 included, admits exactly the values at or above it |
| ParticipantQuery.AtMost | lib/services/participant.ts:170-171 | a missing upper bound admits every value; a given one, 0 included, admits exactly the values at or below it |
| ParticipantQuery.FilterRows | lib/services/participant.ts:164-202 | the filtered rows are exactly the matching rows of the table, with their multiplicities |
| ParticipantQuery.Matches | lib/services/participant.ts:164-202 | with no filter every row matches; a matching row contains the name and phone filters as case-insensitive substrings |
| ParticipantQuery.EmptyTextFiltersInactive | lib/services/participant.ts:164-202 | empty strings in the text and select filters do not constrain |
| ParticipantQuery.ZeroAndFalseConstrain | lib/services/participant.ts:176-202 | bound 0 and `re_registration = false` still constrain |
| ParticipantQuery.BoundsInclusiveAndCaseInsensitive | lib/services/participant.ts:167-193 | min/max bounds are inclusive and name search ignores letter case |
| ParticipantQuery.KeyOf | lib/services/participant.ts:204-205 | `order(column)` compares `created_at` and `name` as text and `age`, `months` and `fee` as numbers; only a missing `created_at` gives the null key |
| ParticipantQuery.ColumnKey | lib/services/participant.ts:204-205 | a query orders every row by its `KeyOf` key on the chosen column, which is never null except on `created_at` |
| ParticipantQuery.SortDefaults | lib/services/participant.ts:158-159 | no sort means `created_at` descending; ascending only for exactly `asc` |
| ParticipantQuery.Clip | lib/services/participant.ts:206 | a window bound below 0 becomes 0, one past the table's end becomes its length, and any other is kept |
| ParticipantQuery.Window | lib/services/participant.ts:206 | `range(from, to)` returns exactly the rows at indices `from..to` that exist, in order |
| ParticipantQuery.WindowSorted | lib/services/participant.ts:204-206 | a window of a sorted list is sorted |
| ParticipantQuery.WindowSlice | lib/services/participant.ts:204-206 | a non-negative window is a slice of the table |
| ParticipantQuery.PrefixThenWindow | lib/services/participant.ts:204-206 | the rows before position m followed by the window from m are the rows before m + limit |
| ParticipantQuery.PagesUpToPrefix | lib/services/participant.ts:156-157 | pages 1..k laid end to end are the first `k * limit` rows |
| ParticipantQuery.PagesCoverAll | lib/services/participant.ts:214-220 | pages 1..totalPages laid end to end are the whole list |
| ParticipantQuery.ValidateRows | lib/services/participant.ts:212 | `data.map(participantSchema.parse)` succeeds exactly when every row is well formed, and returns them unchanged |
| ParticipantQuery.Search | lib/services/participant.ts:149-221 | a store error throws; otherwise every row of the page matches all filters, is a valid table row, the page is sorted, holds at most `limit` rows and reports `total`, page, limit and `ceil(total/limit)` |
| ParticipantQuery.GetAll | lib/services/participant.ts:59-86 | a store error throws; otherwise newest first, `total` is the table size and every row is a valid table row |
| ParticipantQuery.AllMatch | lib/services/participant.ts:59-86 | filtering with no filter keeps every row |
| ParticipantQuery.WindowRowMatches | lib/services/participant.ts:164-206 | every row of a window of the sorted matches matches and is in the table |
| ParticipantQuery.Respond | lib/services/participant.ts:204-220 | answering fails only on an invalid stored row; an answer reports the match count, the requested page and limit, and ⌈total / limit⌉ pages |
| ParticipantQuery.RespondRows | lib/services/participant.ts:204-212 | the answered rows match, are sorted and valid; the answer succeeds when all matches are valid |
| ParticipantQuery.RespondFigures | lib/services/participant.ts:206-220 | an answered page holds at most `limit` rows |
| ParticipantQuery.RespondIsWindow | lib/services/participant.ts:204-212 | an answered page is window `[from, to]` of the matches sorted in the order the store read the table in |
| ParticipantQuery.FilterRowsPermutation | lib/services/participant.ts:164-202 | filtering keeps the same matching rows whatever order the table is read in |
| ParticipantQuery.SortedMatchesAgree | lib/services/participant.ts:204-205 | when no two matches share the sort key, two readings of the same table sort their matches into the same order |
| ParticipantQuery.RespondIgnoresReadOrder | lib/services/participant.ts:204-220 | when no two matches share the sort key, a query answers the same whatever order the store reads the table in |
| ParticipantQuery.GetAllIsUnfilteredSearch | lib/services/participant.ts:59-86 | `getAll` and an unfiltered `search` with the default sort, each a query of its own over the same table, report the same figures; each shows its window of some newest-first arrangement of the table; with no two rows sharing `created_at` they answer the same |
| ParticipantQuery.FaultNeverEmptyPage | lib/services/participant.ts:208-210 | a store error never shows as a page |
| ParticipantQuery.ConcatWindows | lib/services/participant.ts:156-157 | reading pages that are windows gives the windows laid end to end |
| ParticipantQuery.SearchPageOfScan | lib/services/participant.ts:204-212 | page k of a search is window k of the matches sorted in the order the store read them |
| ParticipantQuery.SearchPageIsSortedWindow | lib/services/participant.ts:204-212 | whatever order the store reads the table in, page k is window k of some sorted arrangement of the table's matches |
| ParticipantQuery.SearchPageIsWindow | lib/services/participant.ts:204-212 | when no two matches share the sort key, page k is window k of the one sorted order of the matches, whatever order the store reads the table in |
| ParticipantQuery.PagesAreWindows | lib/services/participant.ts:204-212 | when no two matches share the sort key, every page, each fetched by its own query, is its window of that one sorted order |
| ParticipantQuery.SearchPagesCoverMatches | lib/services/participant.ts:149-221 | when no two matches share the sort key, paging through pages 1..totalPages, each its own query, shows every matching row exactly once and in sorted order |
| ParticipantQuery.TiedKeysRepeatRow | lib/services/participant.ts:204-206 | with two matching rows sharing the sort key and a limit of 1, a store that reads the table in one order for page 1 and the other for page 2 shows one row twice and the other never |
| ParticipantStore.ListState.constructor | lib/store/participant.ts:5-11 | filters start empty and pagination at page 1, limit 15 |
| ParticipantStore.ListState.SetFilters | lib/store/participant.ts:5 | writing the filter cell leaves pagination alone |
| ParticipantStore.ListState.SetPagination | lib/store/participant.ts:8-11 | writing the pagination cell leaves the filters alone |
| ParticipantStore.ListState.FirstPage | lib/store/participant.ts:8-11 | going to page 1 keeps the limit and the filters |
| ParticipantStore.ListState.Reset | lib/store/participant.ts:14-17 | reset sets `{}` and `{1, 15}` whatever the prior state |
| ParticipantStore.ResetIdempotent | lib/store/participant.ts:14-17 | resetting twice is resetting once, and afterwards every row matches |
| ParticipantStore.ResetPagination | lib/store/participant.ts:8-11 | the initial pagination reads as page 1, limit 15 |
| AuthStore.AuthState.constructor | lib/store/auth.ts:12-15 | the user starts null and the state uninitialised |
| AuthStore.AuthState.Role | lib/store/auth.ts:18-21 | the role is null exactly when the user is, else the user's role |
| AuthStore.AuthState.IsAuthenticated | lib/store/auth.ts:24-27 | authenticated exactly when a user is set, and exactly when a role is |
| AuthStore.AuthState.SetUser | lib/store/auth.ts:12 | setting the user updates role and flag, and not the initialised flag |
| AuthStore.AuthState.SetInitialized | lib/store/auth.ts:15 | setting the flag leaves the user alone |
| AuthStore.SignInThenOut | lib/store/auth.ts:12-27 | setting the user back to null clears the role and the flag |
| FilterPanel.ClampRange | components/participants/participant-filters.tsx:57-62 | the clamped range lies within the limits and runs forward; missing ends take the limits; in-range ends are kept |
| FilterPanel.ClampIdempotent | components/participants/participant-filters.tsx:57-62 | clamping twice is clamping once |
| FilterPanel.ClampFixesExactlyWithin | components/participants/participant-filters.tsx:57-62 | clamping changes nothing exactly when the range already lies within the limits |
| FilterPanel.IsFullRange | components/participants/participant-filters.tsx:64-65 | a range equal to the limits lies within them, so it filters nothing |
| FilterPanel.TextOr | components/participants/participant-filters.tsx:67-86 | `s || d`: missing or empty text falls back to the default and any other text is kept, so the result is the default or the given text |
| FilterPanel.NumberOrElse | components/participants/participant-filters.tsx:67-86 | `v ?? d`: only a missing number falls back to the default; 0 is kept |
| FilterPanel.BuildLocalFilters | components/participants/participant-filters.tsx:67-86 | missing text becomes empty, a missing select becomes `all`, and unbounded ranges become full |
| FilterPanel.NonEmpty | components/participants/participant-filters.tsx:144-175 | `s || undefined`: the empty string becomes unset and any other string is kept, and `s || ''` gives the string back |
| FilterPanel.BuildFilters | components/participants/participant-filters.tsx:144-175 | empty text and `all` map to unset, `re_registration` is never set, and each range's min and max are set together exactly when it is not full |
| FilterPanel.Canonical | components/participants/participant-filters.tsx:144-175 | a canonical stored filter comes back unchanged when it is shown in the panel and built again (`FilterRoundTrip` proves the converse) |
| FilterPanel.LocalRoundTrip | components/participants/participant-filters.tsx:67-86 | showing a built filter gives the panel state back whenever the meeting id is not empty |
| FilterPanel.FilterRoundTrip | components/participants/participant-filters.tsx:144-175 | building from a shown filter gives it back exactly when the filter is one `buildFilters` can produce |
| FilterPanel.EmptyFilterShowsDefaults | components/participants/participant-filters.tsx:67-86 | the empty filter shows empty text, `all` selects and full ranges, and builds back to itself |
| FilterPanel.Panel.constructor | components/participants/participant-filters.tsx:140-142 | the panel opens showing the stored filter |
| FilterPanel.Panel.SetName | components/participants/participant-filters.tsx:177-179 | only the name field changes |
| FilterPanel.Panel.SetPhone | components/participants/participant-filters.tsx:181-183 | only the phone field changes |
| FilterPanel.Panel.SetGender | components/participants/participant-filters.tsx:185-187 | only the gender field changes |
| FilterPanel.Panel.SetMeeting | components/participants/participant-filters.tsx:189-191 | only the meeting field changes |
| FilterPanel.Panel.SetFirstRegistrationMonth | components/participants/participant-filters.tsx:193-195 | only the first-registration field changes |
| FilterPanel.Panel.SetLatestRegistration | components/participants/participant-filters.tsx:197-199 | only the latest-registration field changes |
| FilterPanel.Panel.SetAgeRange | components/participants/participant-filters.tsx:201-206 | the age range is stored clamped and lies within its limits |
| FilterPanel.Panel.SetFeeRange | components/participants/participant-filters.tsx:208-213 | the fee range is stored clamped and lies within its limits |
| FilterPanel.Panel.SetMonthsRange | components/participants/participant-filters.tsx:215-220 | the months range is stored clamped and lies within its limits |
| FilterPanel.Panel.Search | components/participants/participant-filters.tsx:222-227 | the built filter is published and the page goes back to 1, keeping the limit |
| FilterPanel.Panel.Reset | components/participants/participant-filters.tsx:229-234 | default panel state, empty filters and page 1 |
| ExcelExport.ParticipantToExcelRow | lib/utils/excel.ts:30-54 | a row has exactly the thirteen header labels, in order (the cell contents are stated by `TextCells`, `WordCells`, `NumberCells`, `EmptyCells` and `MeetingAndPastCells`) |
| ExcelExport.NullishText | lib/utils/excel.ts:48 | `notes || ''` on a nullable string: `null` and a missing value show as empty, present text as it is |
| ExcelExport.MeetingCell | lib/utils/excel.ts:45-47 | the resolver's name when it gives one, else the raw meeting id, else empty |
| ExcelExport.TextCells | lib/utils/excel.ts:35-51 | name, phone, both month columns and present notes are copied unchanged; a creation date is shown through the locale's date formatting |
| ExcelExport.HeadersDistinct | lib/utils/excel.ts:11-25 | the thirteen labels are distinct |
| ExcelExport.CellOf | lib/utils/excel.ts:34-53 | a label is missing from a row exactly when no column carries it, and a found cell is the cell of some column with that label |
| ExcelExport.CellOfFirst | lib/utils/excel.ts:30-54 | a label is looked up at its first position |
| ExcelExport.RowCell | lib/utils/excel.ts:30-54 | every column is found under its own label |
| ExcelExport.WordCells | lib/utils/excel.ts:36-43 | `male` becomes 남성 and anything else 여성; true becomes 예 and false 아니오 |
| ExcelExport.NumberCells | lib/utils/excel.ts:37-42 | age, months and fee are exported unchanged as numbers |
| ExcelExport.EmptyCells | lib/utils/excel.ts:48-52 | each column falls back to an empty cell on its own: notes missing, null or empty; no past meetings; a creation date missing or empty (falsy) |
| ExcelExport.MeetingAndPastCells | lib/utils/excel.ts:45-49 | the meeting cell is the resolver's answer, else the raw id, else empty; the past-meetings cell is the list joined with `, ` (one meeting as it is, two with `, ` between them) |
| ExcelExport.ExportRows | lib/utils/excel.ts:124-135 | an empty list is refused with the no-data message; otherwise one row per participant, in order |
| ExcelExport.ExportAppends | lib/utils/excel.ts:72-74 | appending a participant appends its row and changes no earlier row |
| ParticipantsPage.NextSort | app/participants/page.tsx:149-156 | the clicked column becomes the sort column; ascending exactly when it was the active column sorted descending |
| ParticipantsPage.SortClicks | app/participants/page.tsx:149-156 | from the initial order two clicks on `created_at` come back; another column always starts descending |
| ParticipantsPage.CurrentPage | app/participants/page.tsx:76 | the page the screen compares is the page the service fetches (`page || 1`): never 0, and 1 when unset or 0 |
| ParticipantsPage.AcceptsPage | app/participants/page.tsx:144-147 | a page change is accepted exactly for pages 1 to `totalPages`, never when there are no pages, and an accepted page is read back unchanged |
| ParticipantsPage.ClampAfterFetch | app/participants/page.tsx:76-79 | a page past the last is pulled back to `totalPages`; the pagination changes only then, and the limit never |
| ParticipantsPage.PageGuards | app/participants/page.tsx:144-147 | no page is accepted without pages; an accepted page survives the clamp; the clamped page is accepted |
| ParticipantsPage.FindMeeting | app/participants/page.tsx:164 | `find`: the first option with that id; none is found only when no option has it |
| ParticipantsPage.ThrownMessage | app/participants/page.tsx:180-182 | an `Error`'s own message, and the generic delete failure message for any other thrown value |
| ParticipantsPage.MeetingName | app/participants/page.tsx:162-165 | `-` without a meeting id; otherwise the name of the first option with that id, or the id itself when no option has it or its name is empty; never empty |
| ParticipantsPage.DeleteTarget | app/participants/page.tsx:167-168 | a delete targets an id exactly when a participant with a non-empty id is selected |
| ParticipantsPage.ListPage.constructor | app/participants/page.tsx:50-66 | the page opens sorted by `created_at` descending, with no rows, no pages and search version 1 |
| ParticipantsPage.ListPage.Fetch | app/participants/page.tsx:68-85 | the shown rows and page count are those of the search; the page is clamped; a failure changes nothing |
| ParticipantsPage.ListPage.ShowPage | app/participants/page.tsx:74-79 | shows the page's rows and count, clamps the pagination and changes nothing else |
| ParticipantsPage.ListPage.SetMeetingOptions | app/participants/page.tsx:65 | only the meeting options change |
| ParticipantsPage.ListPage.HandleSearch | app/participants/page.tsx:110-113 | page 1 and a strictly newer search version |
| ParticipantsPage.ListPage.HandleDeleteClick | app/participants/page.tsx:125-129 | the participant is selected, the error cleared and the dialog opened |
| ParticipantsPage.ListPage.HandlePageChange | app/participants/page.tsx:144-147 | a page outside `1..totalPages` is ignored, any other is taken |
| ParticipantsPage.ListPage.HandleSort | app/participants/page.tsx:149-160 | the click rule, and back to page 1 unless already there |
| ParticipantsPage.ListPage.ConfirmDelete | app/participants/page.tsx:167-186 | nothing happens without a selected id; a success closes the dialog; a failure keeps it open with the error's message, or the generic message when the thrown value is not an `Error` |
| ParticipantsPage.ListPage.ExportCurrentPage | app/participants/page.tsx:208-234 | an empty page is refused; otherwise one row per shown participant, meeting names resolved |
| LeaderDashboard.DashboardPage.constructor | app/leader-dashboard/page.tsx:46-50 | the dashboard opens sorted by `created_at` descending, with no rows and search version 1 |
| LeaderDashboard.DashboardPage.Fetch | app/leader-dashboard/page.tsx:53-74 | the shown rows are the search's, with no filtering by leader; a failure raises a toast and changes nothing |
| LeaderDashboard.DashboardPage.ShowPage | app/leader-dashboard/page.tsx:62-67 | shows the page's rows and count, clamps the pagination and changes nothing else |
| LeaderDashboard.DashboardPage.HandleSearch | app/leader-dashboard/page.tsx:81-84 | page 1 and a strictly newer search version |
| LeaderDashboard.DashboardPage.HandlePageChange | app/leader-dashboard/page.tsx:86-89 | a page outside `1..totalPages` is ignored |
| LeaderDashboard.DashboardPage.HandleSort | app/leader-dashboard/page.tsx:91-102 | the same click rule, and back to page 1 |
| LeaderDashboard.DashboardPage.ExportCurrentPage | app/leader-dashboard/page.tsx:124-135 | an empty page is refused; otherwise one row per participant, meeting cells holding the raw id |
| RoleRoute.ReadEmail | app/api/auth/role/route.ts:12-19 | an unreadable or `null` body throws; a missing or empty e-mail is "no e-mail" |
| RoleRoute.ResolveRole | app/api/auth/role/route.ts:10-78 | no e-mail is exactly the 400; an unreadable body is a 500; a role only for an e-mail; denials use 400, 403 or 500 |
| RoleRoute.LookupRole | app/api/auth/role/route.ts:23-70 | an administrator match always answers `admin`; the only denials are 403 (no match) and 500 (a failed lookup) |
| RoleRoute.ReadEmailBody | app/api/auth/role/route.ts:12-19 | a body with a non-empty e-mail reads as that e-mail |
| RoleRoute.AdminTakesPrecedence | app/api/auth/role/route.ts:23-40 | an administrator match answers `admin` and the leader table is never consulted |
| RoleRoute.LeaderMatchAnswers | app/api/auth/role/route.ts:42-62 | a leader match answers `leader` with profile and meeting ids |
| RoleRoute.DenialStatuses | app/api/auth/role/route.ts:29-70 | no match is 403 with the unregistered message; a failed lookup is 500 |
| RoleRoute.SameNormalFormSameReply | app/api/auth/role/route.ts:21-45 | addresses with the same normal form resolve alike |
| RoleRoute.NormalizedLookup | app/api/auth/role/route.ts:21-45 | letter case and surrounding spaces make no difference |
| ProtectedRoute.RoleHome | components/auth/protected-route.tsx:24-27 | home is null exactly without a user; admin goes to `/participants`, leader to `/leader-dashboard` |
| ProtectedRoute.IsAllowed | components/auth/protected-route.tsx:29-33 | no or an empty role list admits any signed-in user; otherwise exactly the listed roles |
| ProtectedRoute.Effect | components/auth/protected-route.tsx:35-54 | nothing before initialisation; to login exactly when signed out; to another page only for a signed-in user who is not allowed; an allowed user stays |
| ProtectedRoute.View | components/auth/protected-route.tsx:56-68 | the placeholder exactly before initialisation; the content exactly for an allowed signed-in user |
| ProtectedRoute.WaitsForInitialization | components/auth/protected-route.tsx:36-62 | before initialisation nothing navigates and only the placeholder shows |
| ProtectedRoute.SignedOutGoesToLogin | components/auth/protected-route.tsx:17-43 | without a user, to `redirectTo` when given and to `/login` otherwise, with the path or `/` as the `redirect` parameter |
| ProtectedRoute.DisallowedGoesHome | components/auth/protected-route.tsx:24-52 | a disallowed user goes to their role's home; the unauthorised-login branch is unreachable |
| ProtectedRoute.ChildrenOnlyWhenAllowed | components/auth/protected-route.tsx:56-68 | children show exactly when initialised, signed in and allowed, and then nothing navigates |
| AuthCallback.StripTabsAndNewlines | app/auth/callback/route.ts:16 | the URL parser's first step: no tab, line feed or carriage return is left, a string without them is unchanged, and a first character that is none of them stays first |
| AuthCallback.StripKeepsOthers | app/auth/callback/route.ts:16 | stripping keeps every other character exactly as often as it occurs |
| AuthCallback.Authority | app/auth/callback/route.ts:16 | the authority of a scheme-relative reference (user information, host and port): the longest prefix with no slash, `?` or `#` |
| AuthCallback.AuthorityOfHost | app/auth/callback/route.ts:16 | a bare host name is its own authority |
| AuthCallback.SkipSlashes | app/auth/callback/route.ts:16 | further slashes after `//` are skipped: the rest starts with no slash and only slashes were dropped |
| AuthCallback.Resolve | app/auth/callback/route.ts:16 | after tabs and newlines are removed, a target stays on the origin exactly when its second character is not a slash or backslash, and is then that stripped path |
| AuthCallback.PathStaysHome | app/auth/callback/route.ts:16 | a slash-prefixed target without tabs or newlines and without a second slash is a path on the origin, unchanged |
| AuthCallback.DefaultTargetStaysHome | app/auth/callback/route.ts:9 | `/participants` is a path on the application origin |
| AuthCallback.ResolveToHost | app/auth/callback/route.ts:16 | a target whose stripped form is `//host` leads off the origin to that host |
| AuthCallback.StripBetweenSlashes | app/auth/callback/route.ts:16 | `//host` is kept, and a tab or newline between the two slashes is dropped |
| AuthCallback.SafeRedirect | app/auth/callback/route.ts:8-9 | (as written) a parameter starting with `/` is used unchanged; anything else becomes `/participants` |
| AuthCallback.SafeRedirectLeavesOrigin | app/auth/callback/route.ts:8-16 | (as written) `//host` and `/`, tab, `/host` both pass and lead off the origin to `host` |
| AuthCallback.SameOriginRedirect | app/auth/callback/route.ts:8-9 | (corrected) the target always stays on the origin; a parameter that resolves on the origin is used unchanged; anything else becomes `/participants` |
| AuthCallback.SameOriginRedirectStaysHome | app/auth/callback/route.ts:8-16 | (corrected) always on the origin, and equal to the as-written target wherever that one stays on it |
| AuthCallback.SameOriginRedirectRefuses | app/auth/callback/route.ts:8-16 | (corrected) `//host` and `/`, tab, `/host` both fall back to `/participants` |
| AuthCallback.Callback | app/auth/callback/route.ts:4-17 | the code is exchanged exactly when present and non-empty; the redirect always happens and stays on the origin |
| LeadersRoute.MapLeader | app/api/leaders/route.ts:19-31 | scalar fields are copied; `meeting_name` is the joined name or null |
| LeadersRoute.IsDuplicateUser | app/api/leaders/route.ts:42-46 | a duplicate exactly when the status is 422 or the lower-cased message contains `registered` |
| LeadersRoute.EnsureAuthUser | app/api/leaders/route.ts:33-53 | success exactly when the account was created or is a duplicate; any other error raises the failure message |
| LeadersRoute.DuplicateExamples | app/api/leaders/route.ts:42-46 | status 422 alone, or `registered` in any case, is a duplicate; other errors are not |
| LeadersRoute.CreateLeader | app/api/leaders/route.ts:74-114 | the stored address is normalised and the account ensured for it; a created reply maps the inserted row; failures are 400 or 500 |
| LeadersRoute.CreateSteps | app/api/leaders/route.ts:78-99 | the account is ensured for the normalised address before the insert; an account error stops with 400; an insert failure is 500 |
| LeadersRoute.InvalidBodyRejected | app/api/leaders/route.ts:77-112 | an invalid body is a 400 with the issues, and nothing reaches the auth service or the table |
| LeadersRoute.ListLeaders | app/api/leaders/route.ts:55-72 | a store error is 500; otherwise each row mapped, in store order |

## Left out

- The Supabase store is an in-memory sequence. The model does not cover the network or `count: 'exact'` as a separate
  query. The order the store reads the table in is a parameter of each query, so rows with equal sort keys may come
  back in a different order from one query to the next; nothing is stated that depends on that order.
- `ParticipantQuery.SearchPagesCoverMatches`, `ParticipantQuery.PagesAreWindows` and `ParticipantQuery.SearchPageIsWindow`
  hold only when no two matching rows share the sort key. `order(sortColumn)` has no second, unique key, and with ties
  a row can appear on two pages or on none (`ParticipantQuery.TiedKeysRepeatRow`).
- Text comparison in the database is modelled as code-point order; collation settings are not modelled.
- `ParticipantQuery.KeyOf` orders `created_at` as text, by code point, not as a `timestamptz` instant. The two orders
  agree on timestamps written in one uniform format, as the store returns them, but differ in general: as text
  `…T00:00:00.5Z` sorts before `…T00:00:00Z` although it is the later instant, and one instant written with two
  different offsets gives two unequal keys.
  So "newest first" means greatest text first.
- `ilike '%x%'` is modelled as substring search after ASCII lower-casing. `%` and `_` typed by the user are taken literally, and Unicode case folding beyond
  ASCII is not modelled. `Text.LowerChar` does the same for JavaScript's `toLowerCase`.
- A negative page or limit passes through as in the source. `range` with a negative start is clipped to the table
  (`ParticipantQuery.Clip`), since what the store does with it is not part of this model.
- zod's `uuid()`, `email()`, `datetime()` and `datetime({ offset: true })` formats are opaque predicates (`Formats`).
- The `ZodError` issue objects keep only path, kind and custom message; zod's default messages are not modelled.
- Spreadsheet output: `XLSX` workbooks, blobs, column widths and `downloadExcelFile` are left out. The creation date's
  `toLocaleDateString('ko-KR')` is passed in as `localeDate`.
- Toasts other than the messages returned by `LeaderDashboard.DashboardPage.Fetch` (the failure toast) and by both
  `ExportCurrentPage` methods (the no-data message) are not modelled, nor are loading flags, `console.error`, router
  navigation and the panel's `onSearch` callback. The
  React effect that refetches when `searchVersion`, `sort` or the pagination change is left out; `Fetch` is the
  fetch itself.
- `ParticipantsPage.ListPage.ConfirmDelete` takes the delete call's outcome as a parameter; the refetch after a delete
  is left out.
- The page's "export all" button calls a `searchAll` that `lib/services/participant.ts` does not define, so it is
  not part of this model. The service's `getById`, `create`, `update` and `delete` are thin store calls, also left out.
- The leader dashboard reads the signed-in `user` but never uses it to filter; the model reflects that by not taking a user.
- `RoleRoute.ResolveRole`: each `maybeSingle` lookup is an input `Lookup` (failed, none, a row). The store's
  "more than one row" error is one way a lookup fails.
- `LeadersRoute.CreateLeader`: `request.json()` failures are given as the error message they carry. An exception inside
  `ensureAuthUser` is the one failure path modelled.
- The validator tests at `lib/validations/participant.test.ts:118-160` expect a `participation_month` check that
  `participantSchema` does not have. The model follows the schema: an unknown key is stripped
  (`ParticipantSchema.UnknownKeyIgnored`).
- Numbers in JSON are reals; the model does not cover JavaScript's 64-bit float rounding or `NaN`.
- `AuthCallback.Resolve` models the steps of URL parsing that decide the origin: removing tabs and newlines, a second
  slash or backslash, skipping further slashes, and the authority ending at a slash, `?` or `#`. Dot-segment removal,
  percent-encoding, trimming of trailing control characters and the split of the authority into user information,
  host and port are not modelled. A target with an empty or malformed authority makes the URL constructor throw; the
  model reports it as leaving the origin.
- `ProtectedRoute.Effect` gives the login path as `redirectTo` is written; how the browser resolves it against the
  window origin is not modelled.
- `ParticipantQuery.Matches`: its own contract states the no-filter case and the substring meaning of the two `ilike`
  filters; the other conditions are stated through `FilterRows`, `WindowRowMatches` and the search lemmas.
- `ExcelExport.TextCells`: the month columns are required strings in the model, so their `|| ''` fallback never applies.
- `AuthCallback.Callback` uses the corrected redirect check (see Findings); the session exchange itself is an I/O call, modelled only as the code it is given.

## Findings

| source | as written | input that shows it | evidently intended | confidence | as-written member | corrected member |
|---|---|---|---|---|---|---|
| app/auth/callback/route.ts:8-9 | any `redirect` parameter starting with `/` is used as the target | `?redirect=//evil.example`, and `?redirect=/%09/evil.example` (whose tab the URL parser drops), resolve to `https://evil.example/` | only targets that resolve to a path on the application's own origin | not executed | AuthCallback.SafeRedirectLeavesOrigin | AuthCallback.SameOriginRedirectStaysHome |
