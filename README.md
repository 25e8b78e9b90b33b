# nano-brand core, modelled in Dafny

nano-brand is a SvelteKit application for brand-consistent image generation. Organisations describe their brand (voice, logo, palette), add products with reference images, segment their leads with rule trees, and receive leads through webhooks. Beside the application sits a script that migrates one company's data from a legacy database. This project models the parts of the repository that decide things, with the databases, the clock, the random id generator, the auth service and the storage bucket reduced to the answers they give:

- **Legacy-data migration** (`scripts/db/migration/`). This covers:
  - the field-key normaliser and its three tables;
  - the rule-JSON rewriter, a recursive walk over JSON trees;
  - the webhook-mapping inverter, which fills section dictionaries in place;
  - command-line parsing and table selection;
  - SQL literal escaping, tag-array literals and `$placeholder` substitution;
  - the conversion batches of 200 and the paged custom-field loop;
  - the SQL text built for each row;
  - the runner's life cycle as a class: dry run, fatal validation rows, integrity check, cleanup on every way out;
  - how the analysis script picks its backup.
- **Segments**. This covers:
  - the recursive rule tree and its type guards;
  - the operator and field catalogues of the rule builder;
  - the relative-period calendar (weeks, months, quarters, the wrap into the previous year) on an integer calendar with "today" as a parameter;
  - the period parameters sent to the stored procedures;
  - the rule-document checks of `createSegment`/`updateSegment`;
  - the lead-listing pagination.
- **Validation**. The valibot schemas (organisation, onboarding, product, segment, webhook, custom field, image generation) are predicates over the parsed input object. Each accepts exactly the documented inputs and yields the documented values and defaults. The two helpers that turn validation failures into form errors are modelled too.
- **Request guards and page actions**. This covers:
  - the hooks' session lookup and auth guard table;
  - login, verify and organisation creation;
  - the organisation picker;
  - the logo and product onboarding steps: extensions, storage paths, the cap of six uploads, the palette that is written only when non-empty.
- **Builders**. This covers the image-generation system prompts, the storage URLs, and the logo palette picker. The picker has a hex formatter and a greedy choice of up to three mutually dissimilar colours with fixed fallbacks.

Pure code is modelled as functions and lemmas. Code that updates state step by step is modelled as methods with loop invariants, each proved equal to a specification function. This covers the webhook-mapping inverter, `parseRemoteValidationErrors`, the palette loops, the upload loop, the batch loops, the `dbParams` dictionary and the period extraction. The runner, whose methods update `currentOrgId` and append to a log of database actions, is a class.

## Model

| member | source | states |
|---|---|---|
| AuthHooks.SafeGetSession | src/hooks.server.ts:8-44 | a failed or empty user lookup means nobody is signed in, with no session and no memberships; otherwise the user and session are handed on, and a missing memberships answer counts as none |
| AuthHooks.SignedOutHasNothing | src/hooks.server.ts:19-21 | without a user there is never a session or a membership |
| AuthHooks.GuardMatchesTable | src/hooks.server.ts:53-84 | the guard lets a request through exactly when the page is allowed for a signed-out visitor, a user without an organisation, or a member, and otherwise redirects to that visitor's landing page (`/auth/login`, `/new-org` or `/`) |
| AuthHooks.LandingIsAllowed | src/hooks.server.ts:58-80 | every redirect target is a page the guard lets the same visitor stay on, so the guard never redirects twice |
| AuthHooks.HandleValidationError | src/hooks.server.ts:86-96 | the answer is `Validation failed` with one formatted error per issue, in order, each with a non-empty message |
| BackupSelection.FirstPg | scripts/db/migration/analyze-origin-db.ts:65 | the position found is the leftmost from which `pg` followed by a digit starts, and none means there is no such position |
| BackupSelection.DetectPgVersionSpec | scripts/db/migration/analyze-origin-db.ts:64-67 | the version is a non-empty digit run: the whole run after the leftmost `pg<digit>`, or `16` when the name has none |
| BackupSelection.PgVersionAt | scripts/db/migration/analyze-origin-db.ts:65-66 | the version taken at a `pg` occurrence sits right after the `pg` and stops at a non-digit or at the end of the name |
| BackupSelection.PgVersionExample | scripts/db/migration/analyze-origin-db.ts:64-67 | `pg15.dump` gives `15` and a name without `pg<digit>` gives `16` |
| BackupSelection.FirstDate | scripts/db/migration/analyze-origin-db.ts:88 | the position found is the leftmost where a `dddd-dd-ddTdd-dd-dd` timestamp starts, and none means there is none |
| BackupSelection.DateFromName | scripts/db/migration/analyze-origin-db.ts:87-88 | the date is empty exactly when the name holds no timestamp; otherwise it is the leftmost timestamp, of the timestamp's shape |
| BackupSelection.ToBackup | scripts/db/migration/analyze-origin-db.ts:80-90 | an entry keeps its name and its modification time |
| BackupSelection.Head | scripts/db/migration/analyze-origin-db.ts:91-98 | the head of the sorted list is one of the files |
| BackupSelection.HeadOfDated | scripts/db/migration/analyze-origin-db.ts:93-95 | among dated files no file's date sorts after the head's |
| BackupSelection.HeadOfUndated | scripts/db/migration/analyze-origin-db.ts:96-97 | among undated files none was modified after the head |
| BackupSelection.NotBeforeTransitive | scripts/db/migration/analyze-origin-db.ts:94 | "not before" in the date order is transitive, so the comparator is consistent among dated files |
| BackupSelection.LatestOfDated | scripts/db/migration/analyze-origin-db.ts:91-98 | when all files are dated, the head carries the latest date |
| BackupSelection.LatestOfUndated | scripts/db/migration/analyze-origin-db.ts:91-98 | when no file is dated, the head has the newest modification time |
| BackupSelection.FindLatestBackupErrors | scripts/db/migration/analyze-origin-db.ts:73-102 | a missing directory, and only that, gives the first error; a directory with no `.dump` entry, and only that, gives the second |
| BackupSelection.FindLatestBackupIsDump | scripts/db/migration/analyze-origin-db.ts:76-107 | the path returned is `data/db-dumps/` followed by the name of a `.dump` entry of the directory |
| BackupSelection.ChosenEntry | scripts/db/migration/analyze-origin-db.ts:76-107 | the path returned is that of the dump entry whose backup heads the sorted list |
| BackupSelection.FileOfEntry | scripts/db/migration/analyze-origin-db.ts:76-90 | every dump entry of the directory is among the sorted files |
| BackupSelection.EntryOfFile | scripts/db/migration/analyze-origin-db.ts:76-90 | every sorted file comes from a dump entry of the directory |
| BackupSelection.AllDatedPicksLatestDate | scripts/db/migration/analyze-origin-db.ts:91-107 | when every dump's name carries a timestamp, the chosen dump has the latest timestamp |
| BackupSelection.NoneDatedPicksNewestMtime | scripts/db/migration/analyze-origin-db.ts:91-107 | when no dump's name carries a timestamp, the chosen dump was modified last |
| Calendar.YearStartStep | src/lib/remote/segments.remote.ts:60-61 | consecutive years start a year's length of days apart, 366 in a leap year |
| Calendar.MonthsFillYear | src/lib/remote/segments.remote.ts:60-61 | the twelve months' lengths add up to the year's length |
| Calendar.NextMonthStart | src/lib/remote/segments.remote.ts:60-67 | the first of the next month, with a month past December rolling into the next year, is the month's length of days after the first of this month |
| Calendar.MakeDayYearBack | src/lib/remote/segments.remote.ts:66-104 | a month index twelve lower is the same month of the year before, as `new Date(y, m - 1, 1)` relies on in January |
| Calendar.MonthEnd | src/lib/remote/segments.remote.ts:61-104 | day 0 of the next month is the last day of the month |
| Calendar.MakeDayFirst | src/lib/remote/segments.remote.ts:60-103 | the first of a month is its year's start plus the days of the months before it |
| Calendar.WeekDay | src/lib/remote/segments.remote.ts:47-54 | `getDay` is a weekday number from 0 (Sunday) to 6 |
| Calendar.DayTimes | src/lib/remote/segments.remote.ts:33-55 | days are 86400000 ms apart, a day's `23:59:59.999` is one millisecond before the next midnight, and both times fall on that day |
| Calendar.CivilOf | src/lib/remote/segments.remote.ts:28 | every day number has a valid year, month and date whose day number it is |
| Calendar.CivilRoundTrip | src/lib/remote/segments.remote.ts:28-75 | reading a valid date back from its day number gives the date |
| Calendar.DayOfInjective | src/lib/remote/segments.remote.ts:28-75 | distinct valid dates have distinct day numbers |
| Calendar.PadDigits | src/lib/remote/segments.remote.ts:347-348 | the padded text is all decimal digits, reads back as the number, and is as long as the width or the number's own digits, whichever is longer |
| Calendar.IsoDateFields | src/lib/remote/segments.remote.ts:347-348 | for years 0..9999 the date text is `YYYY-MM-DD`: digit fields around two dashes reading back as the year, the month counted from 1 and the day |
| ColorExtraction.HexDigitChar | src/routes/setup/logo/utils/color-extraction.ts:7 | a digit below 16 becomes a lower-case hexadecimal character that reads back as the digit |
| ColorExtraction.ToHexDigits | src/routes/setup/logo/utils/color-extraction.ts:7 | `toString(16)` gives a non-empty run of lower-case hex digits, with no leading zero, that reads back as the number |
| ColorExtraction.PadStartSpec | src/routes/setup/logo/utils/color-extraction.ts:7 | `padStart` leaves a string that is long enough unchanged, and otherwise puts fill characters on its left up to the width |
| ColorExtraction.ChannelHexValue | src/routes/setup/logo/utils/color-extraction.ts:7 | a component below 256 becomes exactly two hex digits that read back as the component |
| ColorExtraction.RgbToHexShape | src/routes/setup/logo/utils/color-extraction.ts:6-8 | `rgbToHex` gives `#` and six lower-case hex digits, whose three pairs read back as red, green and blue |
| ColorExtraction.PickFrom | src/routes/setup/logo/utils/color-extraction.ts:76-92 | the picks start with the ones already made, stay within the palette and never exceed three |
| ColorExtraction.PickFromOrder | src/routes/setup/logo/utils/color-extraction.ts:76-92 | the picks keep palette order |
| ColorExtraction.PickFromDiverse | src/routes/setup/logo/utils/color-extraction.ts:81-91 | no pick is similar to a pick made before it |
| ColorExtraction.PickFromTakes | src/routes/setup/logo/utils/color-extraction.ts:88-91 | a colour unlike every pick, met while fewer than three are picked, is picked |
| ColorExtraction.PickFromStops | src/routes/setup/logo/utils/color-extraction.ts:76 | the choice ends at the end of the palette or once three colours are picked |
| ColorExtraction.PickStep | src/routes/setup/logo/utils/color-extraction.ts:77-91 | one turn of the loop picks the candidate exactly when it is unlike every colour picked so far |
| ColorExtraction.PickFromMaximal | src/routes/setup/logo/utils/color-extraction.ts:76-92 | while fewer than three colours are picked, every colour passed over is similar to an earlier pick |
| ColorExtraction.HexOfPicks | src/routes/setup/logo/utils/color-extraction.ts:72-90 | one hex colour per pick |
| ColorExtraction.HexOfPicksAt | src/routes/setup/logo/utils/color-extraction.ts:72-90 | each hex colour is that of its pick |
| ColorExtraction.NotSimilarToAny | src/routes/setup/logo/utils/color-extraction.ts:78-86 | the inner loop with its `break` decides whether the candidate is unlike every colour selected so far |
| ColorExtraction.SimilarToSelected | src/routes/setup/logo/utils/color-extraction.ts:73-89 | the selected colours stand for the picked palette positions in the similarity test |
| ColorExtraction.SelectionStep | src/routes/setup/logo/utils/color-extraction.ts:76-92 | one turn of the outer loop keeps the loop state, taking the candidate exactly when it is unlike every kept colour |
| ColorExtraction.SelectColors | src/routes/setup/logo/utils/color-extraction.ts:72-92 | the loop yields the dominant colour and then the greedy picks, as hex, in order |
| ColorExtraction.ExtractColorsFromImage | src/routes/setup/logo/utils/color-extraction.ts:64-111 | the method returns the colours the specification function gives, including the fallback |
| ColorExtraction.FillUpShape | src/routes/setup/logo/utils/color-extraction.ts:95-101 | topping up gives three colours, keeps those already there, and adds `#DDDDDD` and then `#333333` |
| ColorExtraction.ExtractedColorsShape | src/routes/setup/logo/utils/color-extraction.ts:71-103 | a palette of at least three colours gives three colours: the dominant one first, then the picks as hex, then the grey tones |
| ColorExtraction.ExtractedColorsFallback | src/routes/setup/logo/utils/color-extraction.ts:68-110 | no palette (or a failure) or fewer than three colours give `#3B82F6`, `#8B5CF6`, `#EC4899` |
| ColorExtraction.PicksDiverse | src/routes/setup/logo/utils/color-extraction.ts:76-92 | the picks keep palette order and none is similar to an earlier one; with symmetric similarity, no two picks are similar |
| CustomFieldSchemas.FetchAccepts | src/lib/schemas/custom-fields.ts:15-22 | the listing accepts exactly an input with an organisation id whose optional properties, when present, have their types |
| CustomFieldSchemas.CreateAccepts | src/lib/schemas/custom-fields.ts:24-38 | creation accepts exactly an organisation id, a non-empty label, a key matching `^[a-z_][a-z0-9_]*$`, one of the four types and a boolean `isRequired`, and hands on the input's own values |
| CustomFieldSchemas.EmptyKeyIssues | src/lib/schemas/custom-fields.ts:27-31 | an empty key is reported twice, as missing and as not matching the pattern; a non-empty key is reported only when it does not match |
| CustomFieldSchemas.AcceptedKeyShape | src/lib/schemas/custom-fields.ts:30 | an accepted key is non-empty, does not start with a digit, and holds only lower-case letters, digits and underscores |
| CustomFieldSchemas.UpdateIgnoresOtherProps | src/lib/schemas/custom-fields.ts:40-46 | properties the update schema does not name change neither its verdict nor its value |
| CustomFieldSchemas.UpdateDropsKeyAndType | src/lib/schemas/custom-fields.ts:40-46 | a `fieldKey` or a `type` sent with an update is dropped |
| CustomFieldSchemas.UpdateAccepts | src/lib/schemas/custom-fields.ts:40-46 | the update accepts exactly the two ids, a non-empty label, an optional description and a boolean `isRequired` |
| CustomFieldSchemas.DeleteAccepts | src/lib/schemas/custom-fields.ts:48-51 | deletion accepts exactly a field id and an organisation id, and hands both on |
| FieldDefinitions.BuildLeadsCustomFieldDefinition | src/lib/components/segment/rule-builder/field-definitions.ts:509-545 | the definition's id and key are `custom_fields.` plus the field key, its caption gets ` (Personalizado)`, it is a number field exactly when the column type is `integer` or `number` and a string field otherwise, and it offers all and only the operators of its type |
| FieldDefinitions.TemplateOperators | src/lib/components/segment/rule-builder/field-definitions.ts:490-506 | the template offers exactly the string operators |
| FieldDefinitions.LeadFieldsWellFormed | src/lib/components/segment/rule-builder/field-definitions.ts:4-325 | every lead field is in the lead group and offers only operators its type allows |
| FieldDefinitions.ConversionFieldsWellFormed | src/lib/components/segment/rule-builder/field-definitions.ts:328-487 | every conversion field is in the conversion group and offers only operators its type allows |
| FieldMappings.NormalizeKeepsExactlyUnmapped | scripts/db/migration/field-mappings.ts:62-73 | with own-property lookups, a key normalises to itself exactly when the entity's table does not list it; a listed key always changes |
| FieldMappings.MappedNamesAreTargets | scripts/db/migration/field-mappings.ts:15-45 | every name a table produces is one of that table's listed targets |
| FieldMappings.TargetsAreNotKeys | scripts/db/migration/field-mappings.ts:15-45 | no target name is itself a legacy key of either table |
| FieldMappings.MappingRenames | scripts/db/migration/field-mappings.ts:15-45 | a renamed key is non-empty and its new name differs from it |
| FieldMappings.KeySetsDisjoint | scripts/db/migration/field-mappings.ts:15-45 | no key is a legacy name in both the conversion and the lead table |
| FieldMappings.NormalizeIdempotent | scripts/db/migration/field-mappings.ts:62-73 | normalising a normalised key changes nothing |
| FieldMappings.NormalizeIdentityOutsideTables | scripts/db/migration/field-mappings.ts:51-71 | the custom-field entity type and every unknown entity type leave the key unchanged |
| FieldMappings.ConcreteEntries | scripts/db/migration/field-mappings.ts:16-73 | `mobile_phone` becomes `phone` for leads but stays for conversions; `traffic_source_channel` becomes `utm_channel`; `payload_raw_json` becomes `raw_payload` |
| FieldMappings.NormalizeFieldKeyAsWritten | scripts/db/migration/field-mappings.ts:62-73 | read with JavaScript property lookup, a key that is not an inherited `Object.prototype` member normalises as the intended function says |
| FieldMappings.AsWrittenConstructorCounterexample | scripts/db/migration/field-mappings.ts:65-69 | the key `constructor` yields the inherited `Object` function instead of a string, while the intended function gives `constructor` back |
| ImageGenPrompts.LogoPolicyTexts | src/lib/constants/image-gen-prompts.ts:120-134 | `always`, `usually` and `rarely` get three different texts, and a policy gets the default text exactly when it is none of the three |
| ImageGenPrompts.JoinLinesAppend | src/lib/constants/image-gen-prompts.ts:114 | joining two runs of sections is joining each and putting one line break between them |
| ImageGenPrompts.JoinLinesOpening | src/lib/constants/image-gen-prompts.ts:114 | the joined text opens with the first section |
| ImageGenPrompts.JoinLinesFrame | src/lib/constants/image-gen-prompts.ts:114 | the joined text opens with the first section and ends with a line break and the last run |
| ImageGenPrompts.JoinLinesContains | src/lib/constants/image-gen-prompts.ts:114 | every section's text occurs in the joined text |
| ImageGenPrompts.BrandPromptOpening | src/lib/constants/image-gen-prompts.ts:72 | the brand prompt opens with the fixed image-generation preamble |
| ImageGenPrompts.BrandPromptNamesBrand | src/lib/constants/image-gen-prompts.ts:76 | the brand prompt always contains `Brand: ` and the brand's name |
| ImageGenPrompts.BrandSectionsClosing | src/lib/constants/image-gen-prompts.ts:107-112 | the brand prompt's last five sections are the visual standards, whatever else it holds |
| ImageGenPrompts.BrandPromptClosing | src/lib/constants/image-gen-prompts.ts:107-114 | the brand prompt ends with a line break and the visual standards |
| ImageGenPrompts.InBrandSections | src/lib/constants/image-gen-prompts.ts:71-114 | a section of the brand prompt is the preamble, an identity line, part of the voice, logo or colour block, or a visual standard, and each of those is in it |
| ImageGenPrompts.BrandLabelOrigin | src/lib/constants/image-gen-prompts.ts:75-84 | a labelled line other than the voice and colour lines comes from the identity block |
| ImageGenPrompts.BrandPromptIndustryLine | src/lib/constants/image-gen-prompts.ts:78-80 | the industry line appears exactly when the industry is set and non-empty, and carries it |
| ImageGenPrompts.BrandPromptDescriptionLine | src/lib/constants/image-gen-prompts.ts:82-84 | the description line appears exactly when the description is set and non-empty, and carries it |
| ImageGenPrompts.BrandPromptVoiceBlock | src/lib/constants/image-gen-prompts.ts:87-91 | the voice block appears exactly when the voice list is non-empty, and lists the qualities joined by `, ` |
| ImageGenPrompts.BrandPromptLogoBlock | src/lib/constants/image-gen-prompts.ts:94-98 | the logo block appears exactly when a logo policy is set, and carries that policy's text |
| ImageGenPrompts.BrandPromptPaletteBlock | src/lib/constants/image-gen-prompts.ts:101-105 | the colour block appears exactly when the palette is non-empty, and lists the colours joined by `, ` |
| ImageGenPrompts.ProductPromptShape | src/lib/constants/image-gen-prompts.ts:41-66 | the product prompt names the product second, has a context line exactly when the description is set and a characteristics line exactly when tags are given, and ends with the atmosphere guidelines |
| ImageGenPrompts.ComprehensivePromptParts | src/lib/constants/image-gen-prompts.ts:173-185 | without a product the prompt is the brand prompt; with one it is the brand prompt followed directly, with no separator, by the product prompt |
| LoginPage.IsEmailSplits | src/routes/auth/login/+page.server.ts:13-14 | an address the direct test accepts can be cut into the three runs of `[^\s@]+` the pattern asks for |
| LoginPage.SplitIsEmail | src/routes/auth/login/+page.server.ts:13-14 | an address the pattern matches passes the direct test |
| LoginPage.IsEmailMatchesPattern | src/routes/auth/login/+page.server.ts:13-14 | the direct test accepts exactly the addresses `^[^\s@]+@[^\s@]+\.[^\s@]+$` matches |
| LoginPage.EmailHasOneAt | src/routes/auth/login/+page.server.ts:13-14 | an accepted address has no whitespace and exactly one `@`, not at the start |
| LoginPage.LoginGuards | src/routes/auth/login/+page.server.ts:9-16 | a missing or empty e-mail gives 400 `Email is required`, one the pattern rejects gives 400 `Invalid email`, and a code is requested exactly for addresses the pattern matches |
| LoginPage.LoginAnswers | src/routes/auth/login/+page.server.ts:20-47 | the code request and the cookie carry the lower-cased address and the request returns to `/auth/verify`; a service error gives 500 `Error sending verification code`, a throw 500 `Internal server error`; only success writes the ten-minute, HTTP-only `auth_email` cookie for `/auth/verify`, secure exactly over `https:`, and redirects to `/auth/verify` |
| VerifyPage.Load | src/routes/auth/verify/+page.server.ts:5-15 | without a non-empty `auth_email` cookie the page redirects to `/auth/login`; otherwise it hands on that non-empty address |
| LoginPage.LoginFeedsVerify | src/routes/auth/login/+page.server.ts:34-47 | the cookie a successful login writes makes the verify page's load hand on exactly the lower-cased address |
| VerifyPage.VerifyGuards | src/routes/auth/verify/+page.server.ts:21-34 | a missing code gives 400 `Code is required`, a code not six characters long 400 `Code must be 6 digits`, a missing e-mail 400 `Email not found`, and the auth service is asked exactly when all three checks pass |
| VerifyPage.VerifyAnswers | src/routes/auth/verify/+page.server.ts:38-66 | an error whose message says `invalid` or `expired` gives 400 `Invalid or expired code`, any other error or a throw gives 500, and only success clears the `auth_email` cookie and redirects to `/new-org` |
| NewOrgPage.Load | src/routes/auth/new-org/+page.server.ts:4-20 | a signed-out visitor goes to `/auth/login`, a user with an organisation to `/orgs`, and only a user without one sees the page |
| NewOrgPage.CreateOutcomes | src/routes/auth/new-org/+page.server.ts:22-76 | no user gives 401; a missing, blank or (trimmed) over-50-character name gives 400 and nothing else does; the procedure is called, with the trimmed name and the user's id, exactly when both checks pass; any database error gives 500 and success redirects to `/orgs/` and the new id |
| NewOrgPage.DashboardFollowsOrganization | src/routes/auth/new-org/+page.server.ts:54-62 | the default dashboard is inserted only for a created organisation, owned by the user and filtered to this month |
| NewOrgPage.NameLimitBoundary | src/routes/auth/new-org/+page.server.ts:37-41 | a name with nothing to trim is accepted at 50 characters and refused at 51 |
| OrgsPage.Load | src/routes/orgs/+page.server.ts:4-28 | a signed-out visitor goes to `/auth/login`, a user without organisations to `/setup`, a user with exactly one organisation straight to it, and otherwise the page lists the memberships unchanged |
| SetupUploads.SetupLoad | src/routes/setup/logo/+page.server.ts:5-25 | a signed-out visitor goes to `/auth/login`, a URL without an `org` to `/setup`, and otherwise the page gets the URL's organisation id; the product step's `load` (src/routes/setup/product/+page.server.ts:5-25) is the same guard |
| SetupUploads.OrgIdOf | src/routes/setup/logo/+page.server.ts:39-40 | the form's non-empty `orgId` wins, then the URL's non-empty `org`, and an id found is never empty |
| SetupUploads.FileExtensionShape | src/routes/setup/logo/+page.server.ts:58 | the extension is never empty and never holds a `.`, and unless it is the fallback it has no upper-case letter |
| SetupUploads.FileExtensionReadBack | src/routes/setup/logo/+page.server.ts:58 | a name ending in `.` and a lower-case, dot-free extension gives that extension back |
| LogoPage.SkipFeedsProductLoad | src/routes/setup/logo/+page.server.ts:5-35 | skipping with an `org` in the URL lands where a submission without a logo does, and the product step it opens hands that organisation on to a signed-in user |
| LogoPage.ProductStepReadsBack | src/routes/setup/logo/+page.server.ts:28-33 | the product step's location gives the organisation back under its `org` parameter |
| LogoPage.BuildUpdateData | src/routes/setup/logo/+page.server.ts:79-85 | the method builds the record the specification function describes |
| LogoPage.UpdateDataShape | src/routes/setup/logo/+page.server.ts:79-85 | the record always holds the logo path, holds the palette exactly when the palette is non-empty, and holds nothing else |
| LogoPage.Continue | src/routes/setup/logo/+page.server.ts:37-102 | the action's answer, upload and update are those the specification function gives |
| LogoPage.ContinueGuards | src/routes/setup/logo/+page.server.ts:39-52 | without an organisation id the answer is 400 `Organization ID is required`, without a logo file or with an empty one it goes on to the product step, and in both cases nothing is uploaded or updated |
| LogoPage.ContinueUpload | src/routes/setup/logo/+page.server.ts:54-99 | a non-empty logo file is uploaded to its `logos` path; a storage error answers 500 `Failed to upload logo: ` with the service's message, a throw 500 `An error occurred during logo upload`, and only a stored file leads to an update |
| LogoPage.ContinueUpdate | src/routes/setup/logo/+page.server.ts:78-101 | after the upload the organisation is updated with the uploaded path as its logo and with the palette exactly when there is one; success goes on to the product step and an update error answers 500 `Failed to save logo information` |
| LogoPage.ContinueSucceeds | src/routes/setup/logo/+page.server.ts:37-102 | the action goes on to the product step exactly when there is an organisation id and either nothing to upload or both the upload and the update succeed; otherwise it fails with 400 exactly when the id is missing, and else with 500 |
| LogoPage.LogoPathShape | src/routes/setup/logo/+page.server.ts:58-61 | the stored path starts with the organisation's `/logos/logo-` folder prefix and ends with `.` and a non-empty, dot-free extension |
| LogoPage.LogoPathKeepsExtension | src/routes/setup/logo/+page.server.ts:58-61 | a file named `stem.ext`, with a lower-case extension, is stored under that extension |
| Storage.GetStorageUrl | src/lib/utils/storage.ts:8-11 | a URL exists exactly for a non-empty path, and starts with the storage base and `/` |
| Storage.StoragePathReadBack | src/lib/utils/storage.ts:8-11 | the stored path can be read back from its URL |
| Storage.GetOrganizationLogoUrl | src/lib/utils/storage.ts:13-20 | an organisation without a logo path (null or empty) has no logo URL; otherwise the URL lies under the storage base and gives the stored path back |
| ProductPage.SkipEndsLikeContinue | src/routes/setup/product/+page.server.ts:28-130 | skipping with an `org` in the URL lands on the page a successful submission for that organisation redirects to |
| ProductPage.UploadBatch | src/routes/setup/product/+page.server.ts:75-77 | the batch is the first six non-empty files, in form order (all of them when there are at most six) |
| ProductPage.UploadPaths | src/routes/setup/product/+page.server.ts:79-103 | one path per upload attempted |
| ProductPage.UploadPathsAt | src/routes/setup/product/+page.server.ts:83-86 | upload k goes to the `_references` path built from file k's name, the k-th clock reading and the k-th id |
| ProductPage.FirstFailure | src/routes/setup/product/+page.server.ts:79-101 | the index found is the first upload that returns an error or throws, and none means every upload in range succeeded |
| ProductPage.FirstFailureAt | src/routes/setup/product/+page.server.ts:79-101 | an upload that fails after earlier ones all succeeded is the first failure |
| ProductPage.TrimmedOrNull | src/routes/setup/product/+page.server.ts:52-114 | the description stored is the trimmed text when that is non-empty, and null exactly when it is missing or blank |
| ProductPage.Continue | src/routes/setup/product/+page.server.ts:37-131 | the action's answer, uploads and insert are those the specification function gives, the `catch` answers included |
| ProductPage.UploadReferences | src/routes/setup/product/+page.server.ts:79-104 | the loop stops at the first upload that returns an error or throws, having attempted exactly the paths up to and including it, or attempts every path when none fails |
| ProductPage.UploadAndInsert | src/routes/setup/product/+page.server.ts:67-130 | the uploads followed by the insert give the answer the specification function describes, a thrown upload or insert answering the `catch`'s 500 |
| ProductPage.RefusalIffGuards | src/routes/setup/product/+page.server.ts:39-65 | the action goes on to the uploads exactly when the form passes every check, and a refusal is always a failure |
| ProductPage.ContinueGuards | src/routes/setup/product/+page.server.ts:39-65 | the checks run in order (organisation id 400, user 401, product name 400, at least one non-empty file 400), and a refused form uploads and inserts nothing |
| ProductPage.UploadedPrefix | src/routes/setup/product/+page.server.ts:73-104 | the uploads attempted are a non-empty prefix of the batch's paths, all but the last of them successful |
| ProductPage.ContinueUploads | src/routes/setup/product/+page.server.ts:73-104 | at most six files are uploaded, never more than the non-empty ones, in form order, stopping after the first failure |
| ProductPage.ContinueUploadFailure | src/routes/setup/product/+page.server.ts:79-128 | when upload k fails after the earlier ones succeeded, the answer is 500 naming image k + 1 with the service's message for an error return, and 500 `An error occurred while creating the product` for a throw; no product row is inserted |
| ProductPage.ContinueInsert | src/routes/setup/product/+page.server.ts:107-130 | when every upload succeeds, the row carries the organisation id, the trimmed name, the trimmed description or null, the tags or null when there are none, and the uploaded paths in order; the user then goes on to the organisation on success, gets 500 `Failed to create product` for an error return and 500 `An error occurred while creating the product` for a throw |
| ProductPage.ContinueSucceeds | src/routes/setup/product/+page.server.ts:37-131 | the action redirects to the organisation exactly when the form passes the checks, every upload succeeds and the insert succeeds; every other run answers a failure |
| ProductPage.ReferencePathShape | src/routes/setup/product/+page.server.ts:83-86 | a reference path sits in the product's `_references` folder and ends with `.` and the file's extension (`jpg` by default) |
| MigrationArgs.AvailableTablesDistinct | scripts/db/migration/run-migration.ts:30-38 | the available tables are distinct and none is called `all` |
| MigrationArgs.SelectWantedIsFilter | scripts/db/migration/run-migration.ts:464-466 | the selection is the filter of the available tables by "requested, or `all` requested" |
| MigrationArgs.OrderedTablesSpec | scripts/db/migration/run-migration.ts:464-466 | a table runs exactly when it is available and requested (or `all` is), the tables run in dependency order, and none runs twice |
| MigrationArgs.AllSelectsEverything | scripts/db/migration/run-migration.ts:464-466 | requesting `all` runs every table, in dependency order |
| MigrationArgs.KeepEverything | scripts/db/migration/run-migration.ts:464-466 | a filter that keeps everything changes nothing |
| MigrationArgs.RequestOrderIrrelevant | scripts/db/migration/run-migration.ts:464-466 | requests naming the same tables, in any order or with repeats, run the same tables |
| MigrationArgs.SameWantedSameFilter | scripts/db/migration/run-migration.ts:464-466 | two requests naming the same tables select the same tables from any list |
| MigrationArgs.SelfRequestKeepsAll | scripts/db/migration/run-migration.ts:464-466 | filtering a list by itself as the request keeps the whole list |
| MigrationArgs.FindArg | scripts/db/migration/run-migration.ts:794-795 | no argument is found exactly when none starts with the prefix; otherwise the one found is the first that does |
| MigrationArgs.ParseArgsNeedsSource | scripts/db/migration/run-migration.ts:794-809 | the run stops for a missing source company exactly when no `--source-company=` argument carries a non-empty value |
| MigrationArgs.ParseArgsOk | scripts/db/migration/run-migration.ts:791-831 | accepted options carry the non-empty company id, the requested tables (all tables when no list is given), only valid table names or `all`, and dry-run mode exactly when `--dry-run` is given |
| MigrationArgs.ParseArgsInvalid | scripts/db/migration/run-migration.ts:815-822 | a refusal for bad table names reports every invalid name, and only those, in request order |
| MigrationArgs.NoTablesFlagMeansAll | scripts/db/migration/run-migration.ts:811-813 | without a `--tables=` list, or with an empty one, every available table is migrated, in dependency order |
| MigrationArgs.LaunchFor | scripts/db/migration/run-migration.ts:872-891 | `--help` or `-h` shows the help whatever else is given; otherwise a parse error ends the process; a parsed run ends with the runner's missing-target error exactly when `DATABASE_URL` is unset or empty, and runs exactly when it is non-empty, against that database |
| MigrationBatches.Slice | scripts/db/migration/run-migration.ts:498 | a slice from past the end is empty, and one from inside the rows is non-empty and at most the batch size |
| MigrationBatches.BatchesSpec | scripts/db/migration/run-migration.ts:496-540 | the batches, joined, are exactly the rows in order; each is non-empty and at most the batch size, and there are as few as the rows allow |
| MigrationBatches.ConversionBatchCount | scripts/db/migration/run-migration.ts:539 | with batches of 200 there are `Math.ceil(n / 200)` of them |
| MigrationBatches.SplitIntoBatches | scripts/db/migration/run-migration.ts:496-498 | the `for` loop with `i += size` yields exactly the batches of the specification function |
| MigrationBatches.ResumeStep | scripts/db/migration/run-migration.ts:686-708 | a page that holds rows and commits moves from the rest of the run to the committed pages, its rows added to the total |
| MigrationBatches.MigrateCustomFields | scripts/db/migration/run-migration.ts:679-717 | the loop commits the pages and reports the total (or the failing offset) that the specification function describes |
| MigrationBatches.PageRunWithoutFailures | scripts/db/migration/run-migration.ts:686-716 | when no page fails, the committed pages are exactly the batches of the view, so every row is migrated once and in order, and the total is the number of rows |
| MigrationBatches.PageRunFailure | scripts/db/migration/run-migration.ts:710-713 | a failing page stops the loop at its offset, inside the view, with exactly the rows before it committed |
| MigrationRows.TextCells | scripts/db/migration/run-migration.ts:500-593 | one cell per text column |
| MigrationRows.TextCellsHold | scripts/db/migration/run-migration.ts:500-593 | each text cell is NULL for a falsy value and otherwise a literal that reads back as the value |
| MigrationRows.ConversionCellsSpec | scripts/db/migration/run-migration.ts:500-535 | the conversion tuple has one value for each of its 22 columns; the text columns read back as their values or are NULL, `value` is its text when truthy and NULL otherwise, and the raw payload reads back as its JSON text |
| MigrationRows.LeadCellsSpec | scripts/db/migration/run-migration.ts:553-594 | the lead tuple has one value for each of its 31 columns; contact, UTM and notes columns read back as their values or are NULL, and a falsy interest or conversion total is written as 0 |
| MigrationRows.LeadTagsCell | scripts/db/migration/run-migration.ts:553-594 | the tags column reads back as the tag list parsed from `tags_json`, in order |
| MigrationRows.NullExternalIdBecomesText | scripts/db/migration/run-migration.ts:563-594 | a null external id is written as the text `'null'`, not as SQL NULL, because the column is quoted without a null check |
| MigrationRunner.ValidateSourceData | scripts/db/migration/run-migration.ts:216-266 | the run stops with the critical-issues error exactly when some `source_company_exists` row has count 0; otherwise the report holds the other rows with records as data-quality issues and the positive company rows |
| MigrationRunner.ValidateTargetData | scripts/db/migration/run-migration.ts:722-777 | a missing or empty organisation id fails before any query; otherwise the check passes exactly when no integrity row has records, and a failure carries those rows, never none |
| MigrationRunner.TableMigrationsAdvance | scripts/db/migration/run-migration.ts:462-476 | one turn of `executeMigration`'s loop: the failing table ends it with that table reported, any other table is migrated and the loop moves on |
| MigrationRunner.RunTables | scripts/db/migration/run-migration.ts:98-156 | a run migrates the tables `executeMigration` reached when it gets that far, and none otherwise |
| MigrationRunner.SetupTables | scripts/db/migration/run-migration.ts:116-121 | a rejected transformation setup migrates no table; otherwise the tables are those of the later stages |
| MigrationRunner.ValidationTables | scripts/db/migration/run-migration.ts:120-130 | a critical source row or a dry run migrates no table; otherwise the tables are those of the migration stage |
| MigrationRunner.MigrationTables | scripts/db/migration/run-migration.ts:139-143 | the migration stage migrates what `executeMigration` migrates, target validation adding none |
| MigrationRunner.MigrationResult | scripts/db/migration/run-migration.ts:98-143 | a run that reaches `executeMigration` ends with the result of the migration stage |
| MigrationRunner.TableMigrationsComplete | scripts/db/migration/run-migration.ts:462-476 | when no table fails, every requested table is migrated, in order |
| MigrationRunner.TableMigrationsStop | scripts/db/migration/run-migration.ts:462-476 | the tables up to and including the failing one were attempted, in order, all but the failing one successfully |
| MigrationRunner.TableMigrationsFailsOnMember | scripts/db/migration/run-migration.ts:462-476 | a failing table among the requested ones is the one reported |
| MigrationRunner.CleanupRunsLast | scripts/db/migration/run-migration.ts:150-152 | the `finally` clause makes the cleanup script the last action of every run, whatever happened before |
| MigrationRunner.DryRunNeverMigrates | scripts/db/migration/run-migration.ts:126-129 | a dry run migrates nothing and, when it gets that far, ends without error as a dry run |
| MigrationRunner.CriticalRowAborts | scripts/db/migration/run-migration.ts:254-257 | a `source_company_exists` row with count 0 fails the run with the critical-issues error before any table is written |
| MigrationRunner.OrphanAborts | scripts/db/migration/run-migration.ts:761-768 | an orphaned lead or conversion fails a run that migrated every requested table, with the rows that have records |
| MigrationRunner.SuccessfulRunMigratesRequestedTables | scripts/db/migration/run-migration.ts:98-147 | a live run that succeeds migrated exactly the requested tables in dependency order under the generated organisation id, and saw neither critical source rows nor orphans |
| MigrationRunner.SelectiveMigrationRunner.constructor | scripts/db/migration/run-migration.ts:79-96 | a new runner has no organisation id and has done nothing; it is built only with a non-empty `DATABASE_URL`, and the throw on an unset or empty one is the missing-target outcome of `MigrationArgs.LaunchFor` |
| MigrationRunner.SelectiveMigrationRunner.RunMigration | scripts/db/migration/run-migration.ts:98-156 | the method appends exactly the actions of the run's specification and returns its result; the organisation id is the generated one once the company was found |
| MigrationRunner.SelectiveMigrationRunner.RunSteps | scripts/db/migration/run-migration.ts:101-146 | the `try` body appends the actions of its specification and returns its result |
| MigrationRunner.SelectiveMigrationRunner.SetupAndValidate | scripts/db/migration/run-migration.ts:116-137 | setup, source validation, statistics and the dry-run stop append the actions of their specification and return its result |
| MigrationRunner.SelectiveMigrationRunner.MigrateAndCheck | scripts/db/migration/run-migration.ts:139-143 | the migration and the target check append the actions of their specification and return its result |
| MigrationRunner.SelectiveMigrationRunner.ValidateTarget | scripts/db/migration/run-migration.ts:722-777 | target validation against the stored id appends its queries and returns what `ValidateTargetData` decides |
| MigrationRunner.SelectiveMigrationRunner.ExecuteMigration | scripts/db/migration/run-migration.ts:462-476 | the loop appends exactly the migrations of `TableMigrations` and reports the same failing table |
| MigrationRunner.SelectiveMigrationRunner.Cleanup | scripts/db/migration/run-migration.ts:779-789 | cleanup appends the cleanup script and nothing else; its own failure is swallowed |
| SegmentTypes.GuardsExclusive | src/lib/types/segments.ts:145-151 | no item passes both `isRule` and `isRuleGroup` |
| SegmentTypes.PeriodGuardsExclusive | src/lib/types/segments.ts:132-138 | no period value is both relative and absolute |
| SegmentTypes.GuardsClassify | src/lib/types/segments.ts:102-151 | on the stored JSON of a rule tree, `isRule` holds exactly for a rule and `isRuleGroup` exactly for a group, at any depth |
| SegmentTypes.GroupMembers | src/lib/types/segments.ts:105-112 | a stored group is an object whose `combinator` is `'and'` or `'or'` as written and whose `rules` are its children's stored forms, in order |
| SegmentTypes.TemporalFilterClassify | src/lib/types/segments.ts:140-142 | `hasTemporalFilter` holds on a stored group exactly when it has a period filter |
| SegmentTypes.RelativePeriodClassify | src/lib/types/segments.ts:132-138 | `isRelativePeriod` holds exactly for type `'relative'` with a non-empty relative value, and `isAbsolutePeriod` exactly for type `'absolute'` with a date range |
| SegmentForms.OptionsMatchTypes | src/lib/types/segment-forms.ts:210-232 | the relative-period choices are exactly the 11 `RelativePeriodValue` members and the time-filter choices exactly the 6 `TimeFilterType` members, in order |
| SegmentForms.BuildDynamicFieldOptions | src/lib/types/segment-forms.ts:242-253 | the custom options, unchanged and in order, when the feature is on and there are any; otherwise no options |
| SegmentForms.BuildDefaultFieldOptions | src/lib/types/segment-forms.ts:242-245 | called with its defaults it returns no options |
| SegmentForms.OperatorDefined | src/lib/types/segment-forms.ts:74-196 | every operator has a definition in `OPERATORS` |
| SegmentForms.OperatorsDistinct | src/lib/types/segment-forms.ts:74-196 | no operator is defined twice |
| SegmentForms.DedicatedOperators | src/lib/types/segment-forms.ts:165-194 | the JSON-path and lead-conversion types offer only their own operators: no other type lists them, and their definitions support that one type |
| SegmentForms.DateEqualsUndeclared | src/lib/types/segment-forms.ts:66-80 | the two catalogues disagree: date fields offer `equals`, whose definition does not list the date type |
| SegmentsRemote.QuarterFirst | src/lib/remote/segments.remote.ts:86-87 | the first month of a month's quarter is ⌊m/3⌋·3, written case by case |
| SegmentsRemote.DaySpans | src/lib/remote/segments.remote.ts:31-113 | `today` and every value the `switch` does not know span the whole of today, from midnight to the next midnight less 1 ms; `yesterday` is the same span a day earlier |
| SegmentsRemote.WeekSpans | src/lib/remote/segments.remote.ts:45-57 | `thisWeek` starts on the Sunday on or before today, which it holds, and spans seven days less 1 ms; `lastWeek` is the seven days before it |
| SegmentsRemote.ThisMonthSpan | src/lib/remote/segments.remote.ts:59-63 | `thisMonth` runs from the first of today's month to the end of its last day, and holds today |
| SegmentsRemote.LastMonthSpan | src/lib/remote/segments.remote.ts:65-69 | `lastMonth` runs from the first of the previous month, December of the year before in January, to the instant before the current month begins |
| SegmentsRemote.MonthEndDate | src/lib/remote/segments.remote.ts:59-63 | the dates written for `thisMonth` are the month's first day and its last day |
| SegmentsRemote.ThisQuarterSpan | src/lib/remote/segments.remote.ts:85-90 | `thisQuarter` starts on the first of month ⌊m/3⌋·3, ends at the end of the quarter's third month, and holds today |
| SegmentsRemote.LastQuarterSpanBounds | src/lib/remote/segments.remote.ts:92-106 | the explicit wrap of `lastQuarter` to October of the year before gives the same span as counting three months back from the current quarter |
| SegmentsRemote.LastQuarterSpan | src/lib/remote/segments.remote.ts:92-106 | `lastQuarter` is the three months ending the instant before `thisQuarter` begins |
| SegmentsRemote.SameDaySpans | src/lib/remote/segments.remote.ts:71-83 | `automatic`, `none` and `absolute` give today's midnight at both ends |
| SegmentsRemote.ExtractPeriodParams | src/lib/remote/segments.remote.ts:332-365 | the time filter defaults to `lead.createdAt` and is the filter's own when a filter is present; a relative period gives the dates of its span, an absolute one its `from` and `to` cut at `T`; the extraction throws a `TypeError` exactly on the property reads that fail |
| SegmentsRemote.BuildDbParams | src/lib/remote/segments.remote.ts:367-377 | the parameters hold the organisation, the rule JSON, the time filter and, for a lead listing, limit, offset and order; the two period bounds are added exactly when both are non-empty |
| UrlQuery.SearchParam | src/lib/remote/segments.remote.ts:448-451 | a query value found is one of the query's pairs, and none is found exactly when the key is absent |
| UrlQuery.SearchParamFirst | src/lib/remote/segments.remote.ts:448-451 | the value found is that of the first pair with the key, as `URLSearchParams.get` returns it: every earlier pair has another key |
| UrlQuery.SingleParamReadBack | src/routes/setup/logo/+page.server.ts:15-16 | a location `path?key=value` free of the query's delimiters and of characters that decoding would change reads back `value` under `key` |
| SegmentsRemote.PagingDefaults | src/lib/remote/segments.remote.ts:449-451 | a missing or empty `limit`, `offset` or `orderBy` becomes 100, 0 or `created_at DESC` |
| SegmentsRemote.PagingLimitReadBack | src/lib/remote/segments.remote.ts:449 | a `limit` written as a decimal integer is read back as that integer |
| SegmentsRemote.HasMoreIff | src/lib/remote/segments.remote.ts:476-482 | the total is the number of rows returned, and `hasMore` holds exactly when that number equals the limit |
| SegmentsRemote.StoredDescription | src/lib/remote/segments.remote.ts:184 | the stored description is null exactly when the form's is missing or blank, and otherwise is its trimmed text |
| SegmentsRemote.CreateRulesCheck | src/lib/remote/segments.remote.ts:148-163 | `createSegment` passes a rule document exactly when it is an object with a truthy `combinator` and a non-empty `rules` array |
| SegmentsRemote.CreateSegmentAsWrittenHidesClientErrors | src/lib/remote/segments.remote.ts:117-204 | as written, every HTTP error of `createSegment` reaches the client as a 500, and so does every invalid form |
| SegmentsRemote.BlankNameAsWritten | src/lib/remote/segments.remote.ts:129-204 | a blank name makes the `try` block answer 400, and the handler as written answers 500 |
| SegmentsRemote.CreateSegmentOutcomes | src/lib/remote/segments.remote.ts:117-196 | with the corrected `catch`, `createSegment` answers 400 exactly on a missing organisation, a blank name, missing, unparseable or malformed rules, or a duplicate name; it writes the trimmed row and redirects to the segment list exactly when none of these holds and the insert succeeds |
| SegmentsRemote.EncodedGroupPassesCreateChecks | src/lib/remote/segments.remote.ts:148-163 | the stored form of any rule group with at least one rule passes the rule checks of `createSegment` |
| SegmentsRemote.UpdateRulesCheck | src/lib/remote/segments.remote.ts:240-244 | `updateSegment` refuses a rule document exactly when it is null, which throws, or when both `combinator` and `rules` are falsy |
| SegmentsRemote.UpdateAcceptsWhatCreateAccepts | src/lib/remote/segments.remote.ts:148-244 | every rule document `createSegment` accepts `updateSegment` accepts too, and an empty `rules` array separates them |
| SegmentsRemote.UpdateSegmentAsWrittenHidesClientErrors | src/lib/remote/segments.remote.ts:207-285 | as written, every HTTP error of `updateSegment` reaches the client as a 500 |
| SegmentsRemote.UpdateSegmentRejectsEmptyRules | src/lib/remote/segments.remote.ts:240-244 | with the corrected `catch`, an otherwise valid update whose rules have neither `combinator` nor `rules` is refused with 400 and writes nothing |
| RuleRewriter.TransformKeepsSkeleton | scripts/db/migration/run-migration.ts:391-420 | the rewrite changes nothing but `field` values: the tree with every `field` value blanked out is the same before and after |
| RuleRewriter.TransformKeepsKeys | scripts/db/migration/run-migration.ts:396-416 | an array keeps its length, and an object keeps exactly its property names, each once |
| RuleRewriter.TransformKeepsStringForm | scripts/db/migration/run-migration.ts:391-420 | the rewrite keeps every value's string form, its truthiness and whether it is null |
| RuleRewriter.MappedNamesNonEmpty | scripts/db/migration/field-mappings.ts:15-53 | a new field name is never empty and is itself never renamed |
| RuleRewriter.TransformIdempotent | scripts/db/migration/run-migration.ts:391-420 | rewriting a rewritten tree changes nothing |
| RuleRewriter.RewriteRuleJsonIdempotent | scripts/db/migration/run-migration.ts:383-430 | migrating an already migrated rule gives the same rule |
| RuleRewriter.StringFieldRewritten | scripts/db/migration/run-migration.ts:399-409 | a string `field` becomes its conversion name when the conversion table renames it, and its lead name otherwise |
| RuleRewriter.SingleRuleRenamed | scripts/db/migration/run-migration.ts:399-409 | a rule on the legacy lead field `mobile_phone` is renamed to `phone` |
| RuleRewriter.NestedRuleExample | scripts/db/migration/run-migration.ts:391-420 | a rule nested in a group's `rules` array is renamed too, the group around it unchanged |
| RuleRewriter.ConstructorFieldDropped | scripts/db/migration/run-migration.ts:399-423 | as written, a rule on the field `constructor` loses its `field` property once the tree is serialised |
| RuleRewriter.ConstructorFieldKept | scripts/db/migration/run-migration.ts:399-409 | with own-property lookups, a rule on the field `constructor` is kept as it is |
| SqlLiterals.EscapeQuotes | scripts/db/migration/run-migration.ts:505 | doubling the quotes never shortens the text |
| SqlLiterals.EscapeReadsBack | scripts/db/migration/run-migration.ts:505-521 | a reader of SQL string bodies reads the escaped text followed by the closing quote back as the original text, and stops there |
| SqlLiterals.QuoteReadsBack | scripts/db/migration/run-migration.ts:505-588 | every quoted literal the runner writes is read back by SQL as exactly the original text, whatever quotes it holds |
| SqlLiterals.TextOrNull | scripts/db/migration/run-migration.ts:505-588 | a missing or empty text becomes `NULL`; any other text becomes a literal read back as that text |
| SqlLiterals.TagsArrayReadsBack | scripts/db/migration/run-migration.ts:555-560 | the tags array literal is read back by SQL as exactly the tag list, in order, the empty list included |
| SqlLiterals.ParameterizeInstantiates | scripts/db/migration/run-migration.ts:195-208 | on a script whose only `$` signs are the two placeholders, and ids without `$`, the two replacements put each id, quoted, at every placeholder of its own |
| ValidationErrors.FormatValidationErrors | src/lib/utils/validation-errors.ts:21-40 | one structured error per issue, in the same order, each with a non-empty message and the path of its issue's first segment |
| ValidationErrors.FormatIssue | src/lib/utils/validation-errors.ts:22-38 | the message is the issue's own when non-empty and `Validation error` otherwise, so never empty; the code is the issue's kind, or `validation_error` without one |
| ValidationErrors.KeyedSegmentPath | src/lib/utils/validation-errors.ts:26-28 | a first segment with a `key` names the field by that key |
| ValidationErrors.BodyIssues | src/lib/utils/validation-errors.ts:50-58 | issues are found exactly when the error is an object whose `body` is an object holding an `issues` array, and they are that array's items |
| ValidationErrors.ParseRemoteValidationErrors | src/lib/utils/validation-errors.ts:46-84 | the loop over the body's issues builds exactly the dictionary of the specification function |
| ValidationErrors.CollectedKeys | src/lib/utils/validation-errors.ts:59-70 | the dictionary has an entry for a path exactly when some issue with a string path and a string message names it |
| ValidationErrors.CollectedLastWins | src/lib/utils/validation-errors.ts:59-70 | the message kept for a path is that of the last such issue naming it |
| ValidationErrors.NoIssuesNoErrors | src/lib/utils/validation-errors.ts:72-83 | without an issues array in the error body the dictionary is empty |
| WebhookMapping.BuildFullWebhookPath | scripts/db/migration/run-migration.ts:358-371 | an empty field stays empty; any other field becomes the base path, a dot, then the field |
| WebhookMapping.TransformFieldMappings | scripts/db/migration/run-migration.ts:307-353 | the loops filling the section dictionaries compute exactly the specification function, a null section included |
| WebhookMapping.NonObjectsUnchanged | scripts/db/migration/run-migration.ts:308-310 | null and non-object values are returned unchanged |
| WebhookMapping.OutputShape | scripts/db/migration/run-migration.ts:315-323 | a migrated mapping has exactly the three sections and `_structure`, which is the old one when truthy and otherwise points at `data.leads[0]` |
| WebhookMapping.FlipAllLookup | scripts/db/migration/run-migration.ts:332-349 | filling a section leaves each key once, holding the path of the last entry that wrote it and its old value otherwise |
| WebhookMapping.ProcessSectionsResult | scripts/db/migration/run-migration.ts:326-351 | after the outer loop each section holds the flips of its own old entries, and an absent section stays empty |
| WebhookMapping.NullSectionThrows | scripts/db/migration/run-migration.ts:330-332 | a null section makes the migration throw |
| WebhookMapping.InvertedEntry | scripts/db/migration/run-migration.ts:307-353 | each pair `w -> t` of a section ends up as `out[s][normalize(t, s)] = base + "." + w`, the later of two colliding pairs winning, and no other key is written |
| WebhookMapping.LeadPhoneExample | scripts/db/migration/run-migration.ts:307-353 | `{leads: {cel: "mobile_phone"}}` becomes `{leads: {phone: "data.leads[0].cel"}}` with empty other sections and the default structure |
| OrganizationSchemas.CreateAccepts | src/lib/schemas/organization.ts:13-27 | creating an organisation is accepted exactly with a name of 1 to 50 characters, an industry, a description of 1 to 140 characters, at least one brand voice and a logo policy, and parses to those values |
| OrganizationSchemas.PaletteIssuesNone | src/lib/schemas/organization.ts:33-38 | the palette raises no issue exactly when every item is a string matching `^#[0-9A-Fa-f]{6}$` |
| OrganizationSchemas.PaletteIssuesCount | src/lib/schemas/organization.ts:33-38 | one issue per palette item that is not such a string |
| OrganizationSchemas.LogoAccepts | src/lib/schemas/organization.ts:30-39 | the logo update is accepted exactly with the organisation id, the file and a palette of hex colours, an empty palette included, and keeps the palette as given |
| OrganizationSchemas.FetchByIdAccepts | src/lib/schemas/organization.ts:41-43 | the lookup needs only the organisation id, which it hands on |
| OrganizationSchemas.ExtractedColorsAreHex | src/lib/schemas/organization.ts:33-38 | every colour the logo page extracts, fallbacks and fill-ins included, is one the logo update schema accepts |
| OnboardingSchemas.SameAsOrganizationSchema | src/lib/schemas/organization-onboarding.ts:12-26 | the onboarding schema accepts exactly what the organisation creation schema accepts, with the same value, and reports issues on the same properties in the same order; only the messages differ |
| OnboardingSchemas.CreateAccepts | src/lib/schemas/organization-onboarding.ts:12-26 | the onboarding form needs a name of 1 to 50 characters, an industry, a description of 1 to 140 characters, at least one brand voice and a logo policy |
| ProductSchemas.FormAccepts | src/lib/schemas/product.ts:15-19 | the create form needs a name of 1 to 100 characters; a missing description becomes `''` and missing tags `[]`, present ones must be a string and an array of strings and are kept |
| ProductSchemas.FormNameNotText | src/lib/schemas/product.ts:15-16 | a name that is present but not a string is reported first, with the form's own message; an absent name is reported first as a missing key, with the default message |
| ProductSchemas.FormsAgree | src/lib/schemas/product.ts:15-25 | the create and update forms give the same answer on every input |
| ProductSchemas.CreateRemoteAccepts | src/lib/schemas/product.ts:41-47 | the remote create needs the organisation id and a name of any length; description, tags and reference images may be absent and are handed on as given |
| ProductSchemas.UpdateRemoteAccepts | src/lib/schemas/product.ts:49-56 | the remote update needs the product id besides what the remote create needs, and parses to the id and the create's value |
| ProductSchemas.IdsAccepted | src/lib/schemas/product.ts:36-61 | lookup and delete accept exactly the inputs with a product id and an organisation id, and hand both on |
| ProductSchemas.FetchAccepts | src/lib/schemas/product.ts:28-34 | the listing needs only the organisation id; page, size, search and count may be absent |
| SegmentSchemas.FormsAccept | src/lib/schemas/segment.ts:15-25 | the create form needs a name of at least two characters and the update form one of at least one; the description defaults to `''`, and the `rules` key must be present but its value passes through unchecked |
| SegmentSchemas.CreateFormStricter | src/lib/schemas/segment.ts:15-25 | whatever the create form accepts the update form accepts with the same value, and a one-character name is where they part |
| SegmentSchemas.RulesUnconstrained | src/lib/schemas/segment.ts:42-55 | any two `rules` values give the remote create and update the same verdict, and the value is handed on; without the key both refuse with a missing-key issue |
| SegmentSchemas.RemoteAccepts | src/lib/schemas/segment.ts:42-55 | the remote create needs the organisation id, a non-empty name and a `rules` key, whose value it hands on; the remote update also needs the segment id |
| SegmentSchemas.IdsAccepted | src/lib/schemas/segment.ts:37-60 | lookup and delete accept exactly the inputs with a segment id and an organisation id |
| SegmentSchemas.QueriesAccept | src/lib/schemas/segment.ts:63-74 | the preview and the lead query need the organisation id and the rules as text; the lead query's limit, offset and order may be absent |
| SegmentSchemas.FetchAccepts | src/lib/schemas/segment.ts:28-35 | the listing needs only the organisation id |
| WebhookSchemas.FormsAccept | src/lib/schemas/webhook.ts:15-24 | the create form needs a name of at least two characters and the update form one of at least one; the update's `isActive` is true only when given as true |
| WebhookSchemas.IsActiveMessage | src/lib/schemas/webhook.ts:23 | an `isActive` that is present but not a boolean is reported with the form's own message |
| WebhookSchemas.ActiveDefaults | src/lib/schemas/webhook.ts:20-54 | absent `isActive` and `is_active` default to false; the remote update refuses an input without a boolean `is_active` |
| WebhookSchemas.CreateRemoteAccepts | src/lib/schemas/webhook.ts:41-46 | the remote create needs the organisation id and a name of any length |
| WebhookSchemas.MappingsAccepts | src/lib/schemas/webhook.ts:66-71 | saving mappings needs the two ids and a `mappings` key; the mappings and the optional sample payload pass through unchecked |
| WebhookSchemas.CaptureNextAccepts | src/lib/schemas/webhook.ts:73-77 | the capture-next switch needs the two ids and a boolean, which it hands on |
| WebhookSchemas.IdsAccepted | src/lib/schemas/webhook.ts:36-64 | lookup, delete and secret rotation accept exactly the inputs with a webhook id and an organisation id, and agree on every input |
| WebhookSchemas.FetchAccepts | src/lib/schemas/webhook.ts:27-34 | the listing needs only the organisation id |
| GeminiSchemas.GenerateAccepts | src/lib/schemas/gemini.ts:12-25 | generation needs the organisation id, the product id and the prompt; the parsed ratio is always one of the five, `1:1` when absent |
| GeminiSchemas.OtherRatioRefused | src/lib/schemas/gemini.ts:17-23 | a ratio outside the five is refused with an issue on `aspectRatio` |
| GeminiSchemas.EditAccepts | src/lib/schemas/gemini.ts:28-41 | editing needs the image id as well; a mask, when present, is an array of rectangles with four string coordinates, parsed item by item in order |
| GeminiSchemas.EditNeedsMore | src/lib/schemas/gemini.ts:12-41 | every input editing accepts, with an acceptable ratio, generation accepts too, with the same prompt and negative prompt |

## Left out

- The databases are reduced to the answers they give. This covers the SQL client calls, `ON CONFLICT` handling, transactions, and the reading of the SQL files (the view scripts are parameters). The migration statistics are only recorded as a read, and `process.exit`/SIGINT and the coloured log lines are not modelled. Segment evaluation happens inside stored procedures that are not part of this model.
- `confirmMigration` always answers yes in the source, so the runner goes straight from the statistics to `executeMigration`.
- The clock, `nanoid` and `Date.now()` become parameters: "today" as a day number, timestamps and random ids as given strings. The auth service, the storage bucket, the RPCs and `JSON.parse` also become parameters (outcomes, or a `string -> Option<Json>` parser). `JSON.stringify` is not modelled: the rule rewriter returns the rewritten tree, not its text.
- Time zones, daylight saving and the UTC shift of `toISOString()` are not modelled. The calendar is a single-zone proleptic Gregorian one, and dates are rendered as `YYYY-MM-DD` only for years 0 to 9999.
- JSON numbers are integers. Floating point is left out.
- The palette similarity test (`rgbToHsl`, `areColorsSimilar`) works on floating-point HSL, so it is an arbitrary predicate parameter, assumed symmetric only where a lemma says so. ColorThief is a parameter that yields the palette or a failure.
- Strings are sequences of characters. Lengths count characters, not UTF-16 code units. `toLowerCase()` is modelled on ASCII letters only, and the `\s` class and `trim()` use the JavaScript whitespace set over single characters.
- Valibot's default messages are written as "no message" (`None`), and only messages the schemas spell out are modelled. Each schema reports at most one issue per property, except the palette, which reports one per bad item, so nested issue paths are not modelled. Schemas are modelled on object inputs only. The object check follows valibot 1.x: a missing key whose entry is not `optional` (an `unknown()` entry included) is reported with the default message, and the entry's own type message is not used for it.
- ValidationErrors.FormatIssue: a `kind` property that is present but `undefined` (which gives the code `'undefined'`) is not told apart from an absent one.
- The page actions read form values as strings. A `File` given where text is expected, such as `orgId`, is not modelled.
- Cookie plumbing and Supabase client creation (`supabaseHandle`, `sequence`) are not modelled. Only the session lookup's result and the guard are.
- The thin query wrappers of `segments.remote.ts` (`deleteSegment` and the listing and lookup queries) are not modelled. Only the checks, the period extraction and the pagination of the handlers are.
- The Docker and `pg_restore` steps and the report writing of `analyze-origin-db.ts` are left out. For backups, JavaScript's sort with the source's comparator is not a consistent order when dated and undated names are mixed. The model's pick is a left-to-right scan that keeps the current pick unless a later entry sorts strictly before it. It proves that this is the promised choice when all names are dated or none is.
- SqlLiterals.Parameterize: JavaScript's `.replace` expands `$$`, `$&`, `` $` `` and `$'` inside the replacement text; those replacement patterns are not modelled, so `ParameterizeInstantiates` takes the two ids to be free of `$` (the organisation id is drawn from `[0-9a-z]`; the source company id comes from the command line).
- WebhookMapping.TransformFieldMappings: keys named after `Object.prototype` members, such as `constructor`, are treated as ordinary keys. It normalises them through the corrected `NormalizeFieldKey`, so `constructor` stays `constructor`; as written, the source would produce the text of `Object`'s constructor.
- ValidationErrors.ParseRemoteValidationErrors: a field named `__proto__` gets its own entry in the model, whereas `errors['__proto__'] = msg` on a plain JavaScript object changes the prototype and adds no entry.
- JavaScript lists integer-like object keys first, in ascending order, before the other keys in insertion order. Objects here keep insertion order only, so where two keys of one object collide (the webhook mapping's "last entry wins"), the model's order can differ for integer-like keys.
- URL parsing covers the query between the first `?` and the first `#`, split at `&` and then at the first `=`. Percent-decoding and `+` as a space are not modelled, which is why the read-back lemmas exclude `%` and `+` from the values.
- The field picker's UI constants (`FIELD_GROUPS`, `OPERATOR_LABELS`, and `TIME_PERIODS`, which nothing reads) are not modelled.

## Findings

| source | as written | input that shows it | evidently intended | confidence | as-written member | corrected member |
|---|---|---|---|---|---|---|
| src/lib/remote/segments.remote.ts:197-204 | the `catch` of `createSegment` rethrows only objects with both `status` and `location` (redirects), so the `error(400, …)` raised inside the `try` becomes a 500 `Erro interno do servidor` | a form with `organizationId = "o1"` and `name = " "` | validation failures reach the client as the 400 raised for them | not executed | SegmentsRemote.CreateSegmentAsWrittenHidesClientErrors | SegmentsRemote.CreateSegmentOutcomes |
| src/lib/remote/segments.remote.ts:278-285 | the same `catch` in `updateSegment` turns every 400, such as rules without `combinator` or `rules`, into a 500 | a valid update whose rules parse to `{}` | the 400 `Pelo menos uma regra deve ser definida` | not executed | SegmentsRemote.UpdateSegmentAsWrittenHidesClientErrors | SegmentsRemote.UpdateSegmentRejectsEmptyRules |
| scripts/db/migration/field-mappings.ts:62-73 | `MAP[key] \|\| key` on plain object literals also finds inherited `Object.prototype` members, so a key such as `constructor` gives back a function, not a string | `normalizeFieldKey("constructor", "leads")` | a key missing from the table normalises to itself | not executed | FieldMappings.AsWrittenConstructorCounterexample | FieldMappings.NormalizeKeepsExactlyUnmapped |
| scripts/db/migration/run-migration.ts:399-423 | through that lookup, a rule on the field `constructor` gets a function as its `field`, and `JSON.stringify` then drops the property | the rule `{"field": "constructor"}` | the rule is kept as it is | not executed | RuleRewriter.ConstructorFieldDropped | RuleRewriter.ConstructorFieldKept |
