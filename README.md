# ecxia-safety, modelled in Dafny

ecxia-safety is a fleet-safety system for small delivery companies. Drivers send their statutory
reports (pre-work roll call, post-work roll call, daily vehicle inspection, accident report) from a
LINE mini-app; administrators manage drivers, vehicles, shifts and staff from a web console; Deno
edge functions on Supabase authenticate LINE users, store reports, send scheduled LINE reminders and
summaries, and link LINE accounts to drivers and staff.

This project models the core of that system and proves properties of the model:

- the input schemas (`src/lib/validations`), on a small model of zod's object parsing (`Zod`): each
  schema accepts exactly the objects that are valid key by key and satisfy its refinement, strips
  unknown keys, and applies its defaults, and the unit tests' sample records are accepted or
  rejected as the tests expect;
- the edge functions as request handlers over table values: `submit-report` (whitelisting, the
  server-set columns, retention), `submit-shift` (routing, upsert, emergency alerts), `check-submissions`
  and `morning-reminder` (who is pushed which message), `create-admin-user` (no auth user left
  without a staff row), `link-driver` and `line-webhook` (single-use registration tokens, one driver
  per LINE account while the lookups succeed), the in-memory rate limiter, and the edge PII masking of log lines;
- the client libraries: key renaming between camelCase and snake_case (`src/lib/supabase.ts`), PII
  masking (`src/lib/pii-mask.ts`), the admin-users and notification-settings services, and the
  in-memory demo store (`src/lib/demo-store.ts`) as a class whose methods update its tables;
- the screens' logic: the shift calendar (dates, weekdays, the shift map, daily counts), the CSV
  export (escaping that reads back, row order), the post-work form's rest periods, the inspection
  checklist, the notification settings, the drivers list and the shift request page.

Tables of the database are values (sequences of rows) that a handler receives and returns; a
`.single()` read is exactly one matching row, and null when the read fails where the handler looks at that. The LINE platform, the clock, random UUIDs, HMAC and
the e-mail regex are parameters of the functions that use them. Only state the source keeps in
process memory is a class: the rate limiter's store (`RateLimit.RateLimiter`), the demo store
(`DemoStore.Store`) and the demo notification settings (`NotificationSettingsService.DemoSettings`).

## Model

| member | source | states |
|---|---|---|
| Zod.ParseCheck | src/lib/validations/post-work-report.ts:3-7 | a scalar check passes exactly when the value has the scalar's type and bounds and is returned unchanged; an array of objects passes exactly when every item passes, and each item comes back with exactly the item shape's keys |
| Zod.ParseField | src/lib/validations/driver.ts:4-15 | a missing key passes exactly when it is optional or has a default that passes, and is then left out or given the default; a present key passes exactly when it is null on a nullable key or passes its check |
| Zod.Parse | src/lib/validations/pre-work-report.ts:3-14 | `z.object(...).safeParse` succeeds exactly when every key of the shape passes; the output has only shape keys, keeps every given scalar value, leaves out absent optional keys and fills absent defaulted keys with the default |
| Zod.Partial | src/lib/validations/driver.ts:18 | `.partial()` keeps every key and makes each optional, changing nothing else |
| Zod.PartialAcceptsMore | src/lib/validations/vehicle.ts:12 | every object the full schema accepts is accepted by its partial version; the partial schema accepts the empty object as itself and its output never holds a key that was not given |
| Zod.PartialField | src/lib/validations/driver.ts:18 | a key of a partial schema passes exactly when it is absent or passes as the full key would |
| Zod.RequiredText | src/lib/validations/pre-work-report.ts:5 | `z.string().min(n)` passes exactly when the key holds a string of at least `n` characters |
| Zod.RequiredUuid | src/lib/validations/pre-work-report.ts:4 | `z.string().uuid()` passes exactly when the key holds a string of the 8-4-4-4-12 hexadecimal form |
| Zod.RequiredEmail | src/lib/validations/admin-user.ts:4 | `z.string().email()` passes exactly when the key holds a string the e-mail check accepts |
| Zod.RequiredBool | src/lib/validations/daily-inspection.ts:6 | `z.boolean()` passes exactly when the key holds a boolean |
| Zod.RequiredOption | src/lib/validations/pre-work-report.ts:7 | `z.enum([...])` passes exactly when the key holds one of the listed strings |
| Zod.RequiredNumber | src/lib/validations/post-work-report.ts:13 | `z.number().min(lo)` passes exactly when the key holds a number of at least `lo` |
| Zod.NullishText | src/lib/validations/pre-work-report.ts:11 | `z.string().nullable().optional()` passes exactly when the key is absent, null or a string |
| Zod.NullishUuid | src/lib/validations/driver.ts:15 | a nullable, optional UUID passes exactly when the key is absent, null or a UUID string |
| Zod.NullishNumber | src/lib/validations/pre-work-report.ts:13-14 | a nullable, optional number with bounds (and `.int()`) passes exactly when the key is absent, null or a number within the bounds (and whole) |
| Zod.DefaultedBool | src/lib/validations/driver.ts:12-13 | `z.boolean().default(b)` passes exactly when the key is absent or a boolean |
| Zod.DefaultedOption | src/lib/validations/driver.ts:14 | `z.enum([...]).default(d)` with `d` among the options passes exactly when the key is absent or one of the options |
| Zod.SampleUuid | tests/unit/validations.test.ts:79 | the UUID of the unit tests' sample records has the UUID form |
| PreWorkReportSchema.ShapeEntries | src/lib/validations/pre-work-report.ts:3-14 | the schema has exactly the eleven keys, each with the check, optionality and bounds of the source |
| PreWorkReportSchema.KeysValid | src/lib/validations/pre-work-report.ts:4-14 | the key-by-key description of a valid report is the conjunction of the eleven keys' checks |
| PreWorkReportSchema.ShapeAccepts | src/lib/validations/pre-work-report.ts:3-14 | the object schema accepts exactly the objects valid key by key |
| PreWorkReportSchema.RefinementOnInput | src/lib/validations/pre-work-report.ts:15-18 | on an accepted object the refinement reads the same on the parsed output as on the input |
| PreWorkReportSchema.ParseReport | src/lib/validations/pre-work-report.ts:3-18 | `preWorkReportSchema.safeParse` succeeds exactly when every key is valid and a `poor` health condition comes with a non-empty note; the output holds only schema keys |
| PreWorkReportSchema.SampleAccepted | tests/unit/validations.test.ts:79-93 | the unit tests' valid report passes |
| PreWorkReportSchema.PoorWithoutNoteRejected | tests/unit/validations.test.ts:94-99 | the report with `poor` health and an empty note fails |
| PreWorkReportSchema.PoorWithNoteAccepted | tests/unit/validations.test.ts:100-105 | the report with `poor` health and a note passes |
| PostWorkReportSchema.ShapeEntries | src/lib/validations/post-work-report.ts:3-20 | the schema has exactly the ten keys, the rest periods being a nullable, optional array of `{start, end, location}` |
| PostWorkReportSchema.ItemIsRest | src/lib/validations/post-work-report.ts:3-7 | a rest-period item passes exactly when it is an object whose start and end are `\d{2}:\d{2}` and whose location is a string |
| PostWorkReportSchema.RestsValid | src/lib/validations/post-work-report.ts:14 | the rest-period key passes exactly when it is absent, null or an array of valid rest periods |
| PostWorkReportSchema.KeysValid | src/lib/validations/post-work-report.ts:9-20 | the key-by-key description of a valid report is the conjunction of the ten keys' checks |
| PostWorkReportSchema.KeysCover | src/lib/validations/post-work-report.ts:9-20 | the ten keys' checks together are all of the schema's checks |
| PostWorkReportSchema.ParseReport | src/lib/validations/post-work-report.ts:9-20 | `postWorkReportSchema.safeParse` succeeds exactly when the report is valid; the output holds only schema keys and every rest period comes back with exactly its three keys |
| PostWorkReportSchema.SampleCases | tests/unit/validations.test.ts:107-133 | the unit tests' valid report passes and a negative distance fails |
| DailyInspectionSchema.SameItemsAsForm | src/lib/validations/daily-inspection.ts:5-21 | the schema checks the same thirteen items, in the same order, as the inspection form |
| DailyInspectionSchema.ShapeEntries | src/lib/validations/daily-inspection.ts:3-24 | the schema has the vehicle, the thirteen boolean items and the nullable, optional note, and nothing else |
| DailyInspectionSchema.KeysValid | src/lib/validations/daily-inspection.ts:3-24 | an inspection is valid key by key exactly when every key of the schema passes |
| DailyInspectionSchema.ParseInspection | src/lib/validations/daily-inspection.ts:3-24 | `dailyInspectionSchema.safeParse` succeeds exactly when the inspection is valid; the thirteen items come back unchanged and nothing else is kept |
| DailyInspectionSchema.SampleAccepted | tests/unit/validations.test.ts:136-155 | the unit tests' all-true inspection passes |
| AccidentReportSchema.ShapeEntries | src/lib/validations/accident-report.ts:3-12 | the schema has exactly the nine keys: an optional vehicle, five non-empty texts, two booleans and optional injury details |
| AccidentReportSchema.KeysValid | src/lib/validations/accident-report.ts:4-12 | the key-by-key description of a valid report is the conjunction of the nine keys' checks |
| AccidentReportSchema.KeysCover | src/lib/validations/accident-report.ts:4-12 | those checks together are all of the schema's checks |
| AccidentReportSchema.RefinementOnInput | src/lib/validations/accident-report.ts:13-16 | on an accepted object the injury refinement reads the same on the output as on the input |
| AccidentReportSchema.ParseReport | src/lib/validations/accident-report.ts:3-16 | `accidentReportSchema.safeParse` succeeds exactly when every key is valid and injuries come with non-empty details; the output holds only schema keys |
| AccidentReportSchema.SampleAccepted | tests/unit/validations.test.ts:157-172 | the unit tests' valid accident report passes |
| AccidentReportSchema.InjuriesWithoutDetailsRejected | tests/unit/validations.test.ts:173-178 | the report with injuries and no details fails |
| AccidentReportSchema.InjuriesWithDetailsAccepted | tests/unit/validations.test.ts:179-184 | the report with injuries and details passes |
| AdminUserSchema.ShapeEntries | src/lib/validations/admin-user.ts:3-8 | the schema has exactly e-mail, password of at least 8, non-empty name and a role defaulting to `manager` |
| AdminUserSchema.ParseAdmin | src/lib/validations/admin-user.ts:3-8 | `createAdminSchema.safeParse` succeeds exactly when the object is valid; the output keeps the given schema keys, holds no other key, and has role `manager` when none was given |
| DriverSchema.ShapeEntries | src/lib/validations/driver.ts:3-16 | the create schema has exactly the twelve keys, the name required, seven nullable texts, two booleans defaulting to false, the status defaulting to `active` and a nullable UUID vehicle |
| DriverSchema.CreateKeysValid | src/lib/validations/driver.ts:3-16 | a driver is valid for creation exactly when the non-text keys pass and every optional text key passes |
| DriverSchema.KeysCover | src/lib/validations/driver.ts:3-18 | for the create schema and its partial version, those checks are all of the schema's checks |
| DriverSchema.ParseCreate | src/lib/validations/driver.ts:3-16 | `createDriverSchema.safeParse` succeeds exactly when the driver is valid; the output holds only schema keys and the defaults false, false and `active` when those keys were not given |
| DriverSchema.UpdateKeysValid | src/lib/validations/driver.ts:18 | a driver update is valid exactly when its non-text keys pass and every text key passes, on the partial schema |
| DriverSchema.UpdateTextKeys | src/lib/validations/driver.ts:5-11 | on the partial schema the text keys pass exactly when each is absent, null or a string |
| DriverSchema.UpdateOtherKeys | src/lib/validations/driver.ts:18 | on the partial schema the other keys pass exactly when each is absent or valid, the name being non-empty when given |
| DriverSchema.UpdateAccepts | src/lib/validations/driver.ts:18 | the partial schema accepts exactly the valid updates |
| DriverSchema.ParseUpdate | src/lib/validations/driver.ts:18 | `updateDriverSchema.safeParse` succeeds exactly when the update is valid, and its output holds only keys that were given, so no default is applied |
| DriverSchema.NameCases | tests/unit/validations.test.ts:29-39 | a name alone passes and an empty name fails |
| DriverSchema.FullRecordAccepted | tests/unit/validations.test.ts:40-53 | the unit tests' fully filled driver passes |
| DriverSchema.UnknownStatusRejected | tests/unit/validations.test.ts:54-58 | an unknown status fails |
| DriverSchema.UpdateCases | src/lib/validations/driver.ts:18 | the full driver is a valid update and the empty update parses to itself |
| VehicleSchema.ShapeEntries | src/lib/validations/vehicle.ts:3-10 | the create schema has exactly the six keys, a whole year from 1990 to 2030 and the status defaulting to `active` |
| VehicleSchema.CreateKeysValid | src/lib/validations/vehicle.ts:3-10 | a vehicle is valid for creation exactly when all six keys pass |
| VehicleSchema.KeysCover | src/lib/validations/vehicle.ts:3-12 | for the create schema and its partial version, the six keys' checks are all of the schema's checks |
| VehicleSchema.ParseCreate | src/lib/validations/vehicle.ts:3-10 | `createVehicleSchema.safeParse` succeeds exactly when the vehicle is valid; the output holds only schema keys and status `active` when none was given |
| VehicleSchema.UpdateKeysValid | src/lib/validations/vehicle.ts:12 | a vehicle update is valid exactly when all six keys pass on the partial schema |
| VehicleSchema.ParseUpdate | src/lib/validations/vehicle.ts:12 | `updateVehicleSchema.safeParse` succeeds exactly when the update is valid, and its output holds only keys that were given |
| VehicleSchema.PlateCases | tests/unit/validations.test.ts:61-70 | a plate alone passes and an empty plate fails |
| VehicleSchema.YearInRange | tests/unit/validations.test.ts:71-76 | a whole year within 1990 to 2030 passes |
| VehicleSchema.YearOutOfRange | tests/unit/validations.test.ts:71-76 | the years 1980 and 2035 fail |
| Common.OrNull | src/liff/pages/PostWorkFormPage.tsx:61 | `text \|\| null` is null exactly for the empty text and otherwise the text itself |
| Common.LowerAscii | supabase/functions/submit-report/index.ts:110 | lower-casing keeps the length and maps each character on its own |
| Common.TrimSpec | supabase/functions/create-admin-user/index.ts:79 | `trim()` returns an infix of its input that neither starts nor ends with white space, and the empty string exactly when the input is all white space |
| Common.Filter | src/app/routes/ShiftsPage.tsx:39 | `filter` keeps exactly the elements that satisfy the predicate, and no more than there were |
| Common.FilterAppend | src/app/routes/ExportPage.tsx:65-73 | filtering distributes over concatenation, so it keeps the input order |
| Common.FindIndex | src/lib/demo-store.ts:67 | `findIndex` gives the first position that satisfies the predicate, or none when no position does |
| Common.FilterExactlyOne | supabase/functions/line-webhook/index.ts:121-127 | when exactly one position satisfies the predicate, the filter is that element alone |
| Common.Join | src/app/routes/ExportPage.tsx:87 | `join` of no parts is empty and of one part is that part |
| Records.AssignLaws | supabase/functions/submit-report/index.ts:96-102 | `obj[key] = value` on an object with unique keys keeps them unique, gives the key its value, leaves every other key as it was, and appends a new key at the end |
| Records.AssignAppends | supabase/functions/submit-report/index.ts:208-213 | assigning a key that is not yet there appends it |
| Records.AssignAt | src/lib/supabase.ts:35-37 | assigning a key that is there overwrites its entry and no other |
| Tables.Single | supabase/functions/submit-report/index.ts:38-49 | `.single()` gives a row exactly when exactly one row matches, and that row is the one matching row |
| Tables.UpdateWhere | src/services/admin-users.service.ts:79-83 | an UPDATE replaces each matching row by its update and leaves every other row in place |
| Tables.SubmitterIds | supabase/functions/check-submissions/index.ts:112 | the set of submitter ids holds exactly the driver ids of the reports |
| Tables.NotIn | supabase/functions/check-submissions/index.ts:113 | the missing drivers are exactly the roster drivers whose id is not among the submitters |
| Bytes.XorDiffZero | supabase/functions/line-webhook/index.ts:30-35 | the OR of the XORs of the first `n` byte pairs is zero exactly when those pairs agree |
| Bytes.SameLengthDiff | supabase/functions/line-webhook/index.ts:30-35 | for buffers of equal length, the constant-time comparison finds no difference exactly when they are equal |
| Messaging.PushesMembers | supabase/functions/morning-reminder/index.ts:64-77 | a push is attempted exactly for each recipient with a LINE id, with the organisation's token and that recipient's own text |
| Messaging.DeliveredAppend | supabase/functions/morning-reminder/index.ts:64-77 | the sent counter over two runs of pushes is the sum of the two counters |
| Messaging.SendAll | supabase/functions/morning-reminder/index.ts:64-77 | the inner loop attempts exactly the pushes of `Pushes`, in order, and counts exactly those that did not throw |
| RateLimit.Swept | supabase/functions/_shared/rate-limit.ts:21-23 | a sweep keeps exactly the entries whose window has not ended before `now`, unchanged |
| RateLimit.Sweep | supabase/functions/_shared/rate-limit.ts:17-24 | `cleanup` does nothing before the interval of 60000 ms has passed since the last sweep, and otherwise sweeps and records `now` |
| RateLimit.Admit | supabase/functions/_shared/rate-limit.ts:39-58 | a key without an open window gets a new window of one request and is allowed with `max - 1` left; a key at the maximum is refused with the time left until its window ends; otherwise the count goes up by one and the request is allowed; no other key changes |
| RateLimit.SweepIrrelevant | supabase/functions/_shared/rate-limit.ts:17-58 | the sweep never changes the decision for the calling key nor the entry left for it |
| RateLimit.RunInsideWindow | supabase/functions/_shared/rate-limit.ts:42-57 | while a window with `c` requests stays open, the `i`-th further call is allowed exactly when `c + i < max`, with the remaining count going down by one each time, and refused calls report the time left |
| RateLimit.ExactlyMaxPerWindow | supabase/functions/_shared/rate-limit.ts:42-57 | from a key with no open window, within one window the first call and then exactly the first `max` calls are allowed |
| RateLimit.RateLimiter.constructor | supabase/functions/_shared/rate-limit.ts:11-15 | the module starts with an empty store and the load instant as the last sweep |
| RateLimit.RateLimiter.Cleanup | supabase/functions/_shared/rate-limit.ts:17-24 | the in-place sweep over the map leaves the store and instant of `Sweep` |
| RateLimit.RateLimiter.CheckRateLimit | supabase/functions/_shared/rate-limit.ts:33-58 | the in-place check leaves the store and instant, and returns the decision, of the value-level check |
| RateLimit.FirstField | supabase/functions/_shared/rate-limit.ts:62 | `split(',')[0]` is a prefix without a comma that ends at the first comma or at the end |
| RateLimit.GetClientIp | supabase/functions/_shared/rate-limit.ts:61-65 | the client address is the trimmed first field of `x-forwarded-for` when that header is present, else `x-real-ip`, else `unknown` |
| Calendar.DaysInMonth | src/app/routes/ShiftsPage.tsx:45 | `new Date(y, m, 0).getDate()` is between 28 and 31, and 29 exactly for February of a leap year |
| Calendar.IsoDate | supabase/functions/submit-report/index.ts:119 | `toISOString().split('T')[0]` of a date is a `YYYY-MM-DD` string |
| Calendar.AddYears | supabase/functions/submit-report/index.ts:117-118 | `setFullYear(y + n)` moves the date `n` years on, the same day and month, except that 29 February of a year that lands on a common year becomes 1 March |
| Calendar.TwoDigitOrder | supabase/functions/submit-shift/index.ts:99-100 | on two-digit strings, string order is numeric order |
| Calendar.NatToStringValue | src/app/routes/ShiftsPage.tsx:49 | the decimal digits of a number read back as the number |
| Calendar.DayNumberCounts | src/app/routes/ShiftsPage.tsx:46-52 | the day count from 1970-01-01 goes up by exactly one from each day to the next, across month ends, leap days and year ends |
| Calendar.WeekdayAdvances | src/app/routes/ShiftsPage.tsx:51 | `getDay()` moves on by one each day, Saturday being followed by Sunday |
| ShiftsPage.PrevMonth | src/app/routes/ShiftsPage.tsx:72-75 | the previous month is one month earlier, January going back to December of the year before |
| ShiftsPage.NextMonth | src/app/routes/ShiftsPage.tsx:77-80 | the next month is one month later, December going on to January of the next year |
| ShiftsPage.Dates | src/app/routes/ShiftsPage.tsx:45-53 | there is one cell per day of the month, cell `i` being day `i + 1` |
| ShiftsPage.DatesListEachDayOnce | src/app/routes/ShiftsPage.tsx:45-53 | the cells are the days 1, 2, ... in order, their date strings are pairwise different, and each weekday is one more than the one before, modulo 7 |
| ShiftsPage.CellDatesDiffer | src/app/routes/ShiftsPage.tsx:49 | two cells of one month carry different date strings |
| ShiftsPage.CellWeekdayAdvances | src/app/routes/ShiftsPage.tsx:47-51 | the next cell's weekday is one more, modulo 7 |
| ShiftsPage.ActiveDrivers | src/app/routes/ShiftsPage.tsx:39 | the drivers listed are exactly the active ones |
| ShiftsPage.TemplateAt | src/app/routes/ShiftsPage.tsx:83-92 | the template holds one entry per driver and day, driver by driver, day `j` of driver `i` at position `i * days + j` |
| ShiftsPage.TemplateMembers | src/app/routes/ShiftsPage.tsx:84-90 | every template entry is that of a listed driver on a day of the month |
| ShiftsPage.TemplateOnlyActive | src/app/routes/ShiftsPage.tsx:83-92 | only active drivers are templated, each on a day of the month, with `day_off` on Saturday and Sunday and `working` otherwise |
| ShiftsPage.ShiftKeyInjective | src/app/routes/ShiftsPage.tsx:59 | the key `${driverId}-${date}` of two shifts is the same only for the same driver and date, dates being of one length |
| ShiftsPage.BuildShiftMap | src/app/routes/ShiftsPage.tsx:56-62 | the loop builds the map of `ShiftMapOf` |
| ShiftsPage.LastRowWins | src/app/routes/ShiftsPage.tsx:56-66 | a key is in the shift map exactly when some shift has it, and it maps to the last such shift |
| ShiftsPage.CountOnDuty | src/app/routes/ShiftsPage.tsx:98-102 | the inner loop counts exactly the listed drivers that are working, or working half a day, on the date |
| ShiftsPage.DailyCounts | src/app/routes/ShiftsPage.tsx:95-106 | every day of the month gets the count of drivers on duty, and the counts hold no other dates and never exceed the number of drivers |
| ShiftsPage.OnSelect | src/app/routes/ShiftsPage.tsx:227-241 | choosing a status upserts that status for the cell's driver and date; the empty option upserts nothing |
| AdminUsers.Remove | src/services/admin-users.service.ts:46-70 | a failed read throws its error; removing the organisation's only org_admin throws the last-admin message; otherwise, unless the delete fails, the table loses exactly the rows with that id in that organisation |
| AdminUsers.RemoveKeepsAnOrgAdmin | src/services/admin-users.service.ts:52-64 | an organisation with an org_admin still has one after any successful removal |
| AdminUsers.GenerateLineToken | src/services/admin-users.service.ts:73-86 | the addressed rows, and no others, now hold the new token, which is returned; a failed write throws its error |
| AdminUsers.UnlinkLine | src/services/admin-users.service.ts:89-101 | the addressed rows, and no others, lose their LINE id and pending token; a failed write throws its error |
| AdminUsers.UnlinkClearsLink | src/services/admin-users.service.ts:95-99 | after unlinking, the addressed admin neither receives LINE summaries nor holds a claimable token |
| AdminUsers.IssuedTokenHasOneHolder | src/services/admin-users.service.ts:78-83 | a fresh token issued to one admin of a table with unique ids is held by that admin alone |
| AdminUsers.IssuedTokenIsClaimed | supabase/functions/line-webhook/index.ts:112-133 | sending the issued token from LINE links that admin: the webhook replies with the admin's name and performs the guarded update on that row |
| AdminUsers.Create | src/services/admin-users.service.ts:16-44 | without a session `create` throws the login-required message; a response that is not ok throws its message or the default one; otherwise the result is the reply's created row passed through `fromDb`, every column renamed to camelCase |
| AdminUsers.CreateKeepsRow | src/services/admin-users.service.ts:38-43 | a created row whose column names are distinct and lower case comes back with the same values in the same order, each under the camelCase form of its column name |
| LineWebhook.VerifySignature | supabase/functions/line-webhook/index.ts:14-38 | without a channel secret the signature is refused; a signature that does not decode throws; otherwise it is valid exactly when the HMAC of the body equals the decoded bytes |
| LineWebhook.FollowReply | supabase/functions/line-webhook/index.ts:80-101 | a follow from a LINE id held by exactly one driver is greeted with that driver's name, any other follow with the registration hint |
| LineWebhook.HandleEvent | supabase/functions/line-webhook/index.ts:78-151 | an event throws exactly when it is null; the admins table changes only through a found claim whose guarded update succeeds; a found claim always replies, linked or failed; the help reply is sent exactly for a text message that is not a claim and asks for help; a follow event replies exactly when it has a sender |
| LineWebhook.HandleEventCases | supabase/functions/line-webhook/index.ts:78-151 | each branch exactly: a follow with a sender gets the follow reply for that sender and no write; a found claim whose update succeeds on the one guarded row writes the claim and replies linked with the holder's name, and any other found claim writes nothing and replies failed; a text message that is not a claim writes nothing and gets the help reply or none; a follow without a sender and every other event do nothing |
| LineWebhook.ClaimConsumesToken | supabase/functions/line-webhook/index.ts:121-127 | after a successful claim no admin holds the token any more, and the holder is linked to the sender |
| LineWebhook.RepeatCannotClaim | supabase/functions/line-webhook/index.ts:112-125 | the same message sent again after a claim finds no holder and changes nothing |
| LineWebhook.AbortIsFinal | supabase/functions/line-webhook/index.ts:78-157 | once an event throws, no later event has any effect |
| LineWebhook.ProcessEvents | supabase/functions/line-webhook/index.ts:78-154 | the event loop returns 200 when every event completes and 500 when one throws, with the table and replies of the events before it |
| LineWebhook.HandleRequest | supabase/functions/line-webhook/index.ts:53-158 | non-POST is 405; no channel secret is 503; a signature that does not decode is 500 and one that does not match is 403; an unparsable body is 500 and one without an events array is 200; only then are the events processed; no refused request changes the table or replies |
| LinkDriver.Handle | supabase/functions/link-driver/index.ts:35-119 | a preflight is answered with 200 and changes nothing; 401 exactly for a missing bearer token or one the LINE check refuses; 500 when that check throws or the body is unreadable; 400 exactly for a missing registration token; with a token, no unbound holder or a failed token lookup is 404, a caller whose LINE id a successful lookup finds bound is 409, a failed update is 500, and otherwise (also when the lookup of `existing` failed) the reply is 200 with the holder's name and the holder is bound to the caller; only that 200 changes the table |
| LinkDriver.AuthFailureReadsNothing | supabase/functions/link-driver/index.ts:44-56 | authentication failures are decided before any table is read: the reply is 401, or 500 when the LINE check throws, the table is unchanged, and the reply depends neither on the table nor on how the database calls fare |
| LinkDriver.UnboundLineId | supabase/functions/link-driver/index.ts:81-91 | with unique LINE ids, a LINE id the `.single()` check does not find is held by no driver |
| LinkDriver.BindKeepsUnique | supabase/functions/link-driver/index.ts:94-101 | binding a LINE id nobody holds keeps LINE ids unique |
| LinkDriver.NoDoubleBinding | supabase/functions/link-driver/index.ts:35-119 | when the lookup of `existing` succeeds, no request binds one LINE id to two drivers |
| LinkDriver.FailedReadBindsTwice | supabase/functions/link-driver/index.ts:81-105 | when the caller's LINE id is already bound and the lookup of `existing` fails, a valid token is answered 200 and the LINE id ends up on two drivers |
| LinkDriver.HandleChecked | supabase/functions/link-driver/index.ts:81-91 | the intended guard: with the lookup of `existing` succeeding it answers as the handler; with it failing nothing is written, and every reply other than the would-be 200 is the handler's |
| LinkDriver.NoDoubleBindingChecked | supabase/functions/link-driver/index.ts:81-101 | with the failed lookup answered as an error, no request binds one LINE id to two drivers, whatever the database calls do |
| LinkDriver.TokenSingleUse | supabase/functions/link-driver/index.ts:93-101 | after a successful link, the same token finds no unbound driver, so every later request with it is refused: 404 for an identified caller, 500 when the LINE check throws, 401 otherwise |
| CheckSubmissions.TimingSafeEqual | supabase/functions/check-submissions/index.ts:29-39 | the loop computes the comparison `SafeEqual`: the length check, then the OR of the XORs of every encoded byte of `a` |
| CheckSubmissions.SafeEqualMeaning | supabase/functions/check-submissions/index.ts:29-39 | `timingSafeEqual` accepts exactly when the lengths agree and every encoded byte of `a` matches `b` at the same place |
| CheckSubmissions.SafeEqualIsEquality | supabase/functions/check-submissions/index.ts:29-39 | for encodings of equal length that tell the strings apart, the comparison is string equality |
| CheckSubmissions.Authorize | supabase/functions/check-submissions/index.ts:43-48 | the header check computes `Authorized` |
| CheckSubmissions.AuthorizationLaws | supabase/functions/check-submissions/index.ts:43-51 | `Bearer ` followed by the cron secret or by the service-role key is accepted; with neither secret configured, or no header, nothing is |
| CheckSubmissions.CheckType | supabase/functions/check-submissions/index.ts:55-61 | the check type is the body's `type`, and `pre_work` when there is no body, no `type` or a null one |
| CheckSubmissions.Submitted | supabase/functions/check-submissions/index.ts:152-166 | the submitter ids are exactly the roster drivers with a report dated today |
| CheckSubmissions.AllDoneIffNoneMissing | supabase/functions/check-submissions/index.ts:189-204 | the summary ends with the all-submitted line exactly when both missing lists are empty, and with the pending line otherwise |
| CheckSubmissions.Reminders | supabase/functions/check-submissions/index.ts:114-126 | each missing driver, in order, becomes a recipient with its LINE id and the reminder text naming it |
| CheckSubmissions.ReminderTargets | supabase/functions/check-submissions/index.ts:114-126 | the reminders go, with the organisation's token, to exactly the missing drivers with a non-empty LINE id, each with the text for that driver |
| CheckSubmissions.SummaryRecipients | supabase/functions/check-submissions/index.ts:207-218 | every linked admin, in order, becomes a recipient of the same summary text |
| CheckSubmissions.Handle | supabase/functions/check-submissions/index.ts:41-237 | an unauthorised request is refused with 401 and pushes nothing; with no organisation that has a LINE token nothing is pushed; otherwise the pushes are those of every organisation in turn, and the response reports the check type and the number of pushes that did not throw |
| CheckSubmissions.AlertOrgs | supabase/functions/check-submissions/index.ts:81-220 | the loop over the organisations attempts exactly the pushes of `Attempted` and counts exactly those that did not throw |
| CheckSubmissions.AlertOrg | supabase/functions/check-submissions/index.ts:82-219 | one organisation is passed over or has its recipients visited, as `OrgPushes` says |
| CheckSubmissions.MissingOfMeaning | supabase/functions/check-submissions/index.ts:92-113 | the missing drivers are exactly the organisation's active LINE-linked drivers with no report of that kind dated today |
| CheckSubmissions.ReminderPushes | supabase/functions/check-submissions/index.ts:104-149 | with the reads succeeding, a reminder run pushes to the missing drivers as recipients |
| CheckSubmissions.RemindersGoToMissingDrivers | supabase/functions/check-submissions/index.ts:104-149 | a pre-work or post-work run pushes exactly one reminder to each missing driver with a LINE id, with that driver's own text and the organisation's token, and to nobody else |
| CheckSubmissions.UnknownTypeSendsNothing | supabase/functions/check-submissions/index.ts:104-150 | a check type other than the three pushes nothing to any organisation |
| CheckSubmissions.SummaryTargets | supabase/functions/check-submissions/index.ts:207-218 | the summary goes to every linked admin with a LINE id, all with the same text |
| CheckSubmissions.SummaryPushes | supabase/functions/check-submissions/index.ts:150-219 | with the reads succeeding and a non-empty roster, the summary run pushes the organisation's summary to its linked admins |
| CheckSubmissions.SummaryGoesToLinkedAdmins | supabase/functions/check-submissions/index.ts:150-219 | a summary run pushes exactly the summary text to each of the organisation's admins with a LINE id, and to nobody else |
| CheckSubmissions.CountsAddUp | supabase/functions/check-submissions/index.ts:164-175 | on a roster with unique ids, the submitters among it and the missing drivers add up to the roster |
| CheckSubmissions.SummaryCountsAddUp | supabase/functions/check-submissions/index.ts:164-175 | hence the pre-work count plus the pre-work missing names is the roster total, and likewise for inspections |
| MorningReminder.Greetings | supabase/functions/morning-reminder/index.ts:65-71 | each roster driver, in order, becomes a recipient with its LINE id and the greeting naming it |
| MorningReminder.Handle | supabase/functions/morning-reminder/index.ts:28-90 | a request without `Bearer ` plus the service-role key is refused with 401 and pushes nothing; with no organisation that has a LINE token nothing is pushed; otherwise the pushes are those of every organisation in turn, and the response counts those that did not throw |
| MorningReminder.GreetOrgs | supabase/functions/morning-reminder/index.ts:49-78 | the loop over the organisations attempts exactly the pushes of `Attempted` and counts exactly those that did not throw |
| MorningReminder.GreetOrg | supabase/functions/morning-reminder/index.ts:52-77 | an organisation without a token is passed over, and otherwise its roster is greeted, none when the read fails |
| MorningReminder.GreetsEveryLinkedDriver | supabase/functions/morning-reminder/index.ts:51-77 | each active LINE-linked driver of the organisation is greeted by name, with the organisation's token, and nobody else is pushed |
| MorningReminder.SettingsIgnored | supabase/functions/morning-reminder/index.ts:38-41 | the reminder reads no notification setting: organisations that differ only in settings get the same pushes |
| SubmitReport.LookupType | supabase/functions/submit-report/index.ts:93-96 | `ALLOWED_FIELDS[type]` finds a whitelist exactly for the four report types, and an inherited member of a plain object for the prototype's own names |
| SubmitReport.TypeKey | supabase/functions/submit-report/index.ts:196 | the key `TABLE_MAP[type]` looks up is the string itself, the property-key text of any other non-null value, and no key for a missing, null, boolean or numeric type |
| SubmitReport.AllowedFieldsAvoidServerKeys | supabase/functions/submit-report/index.ts:62-90 | no whitelist of any report type contains `organizationId`, `driverId` or `submittedVia`, the keys the server writes itself |
| SubmitReport.Sanitized | supabase/functions/submit-report/index.ts:93-103 | the sanitised object has a key exactly when it is whitelisted and present in the data, and each of its values is the data's value for that key |
| SubmitReport.SanitizePayload | supabase/functions/submit-report/index.ts:93-103 | an unknown type gives the empty object; an inherited whitelist or a primitive payload throws; otherwise the result is the whitelisted entries of the data |
| SubmitReport.RetentionYears | supabase/functions/submit-report/index.ts:116 | accident reports are kept three years and every other table one year |
| SubmitReport.InsertReport | supabase/functions/submit-report/index.ts:106-124 | the row sent is the payload with every key converted to snake_case and an `expires_at` of today plus the table's retention; a failed insert becomes the error `DB insert failed: ` plus the database's message |
| SubmitReport.DefaultVehicle | supabase/functions/submit-report/index.ts:51-59 | no vehicle without a default vehicle id or when its read fails; a vehicle returned is a stored vehicle with that id, shown by id, plate, maker and model |
| SubmitReport.Handle | supabase/functions/submit-report/index.ts:133-233 | with `data` the body's `data` member as `DataOf` reads it (lines 171 and 205), a preflight is answered and inserts nothing; otherwise 401 exactly without a verified LINE caller and 403 exactly for a verified caller whose driver lookup fails or finds no active driver; a throwing LINE check, or an unreadable body from a known driver, is the 500 of the exception and inserts nothing; a row is inserted exactly on `submit` by an active driver with a known type and an object payload, as `Submit` states; an action other than `identify` and `submit` is 400 and inserts nothing; `identify` returns the driver and the default vehicle and inserts nothing |
| SubmitReport.Submit | supabase/functions/submit-report/index.ts:195-219 | `submit` is 400 exactly for a type outside the four, throws exactly for an inherited whitelist or a primitive payload, and otherwise inserts into the type's table the sanitised payload plus the server's fields, renamed and stamped, its reply following the insert |
| SubmitReport.ServerKeyNames | supabase/functions/submit-report/index.ts:208-213 | the three keys the server adds become the columns `organization_id`, `driver_id` and `submitted_via` |
| SubmitReport.SafePayloadAppends | supabase/functions/submit-report/index.ts:208-213 | since the sanitised payload holds none of the server's keys, the server's three entries are appended after the client's |
| SubmitReport.ServerFieldsWin | supabase/functions/submit-report/index.ts:106-213 | whatever the client sends (the spread at lines 208-213, then the insert at 106-124), the inserted row names the caller's organisation and driver, says `liff`, and expires after the table's retention |
| SubmitReport.OnlyWhitelistedFields | supabase/functions/submit-report/index.ts:93-213 | every column of the inserted row is `expires_at`, a server key, or the snake_case name of a whitelisted key the client sent |
| SubmitShift.CeilSeconds | supabase/functions/submit-shift/index.ts:62 | the `Retry-After` seconds round the wait up: the next whole second at or after it |
| SubmitShift.RequestableStatus | supabase/functions/submit-shift/index.ts:129-134 | a driver may request exactly the statuses other than absent and pending, named as in the database |
| SubmitShift.ParseType | supabase/functions/submit-shift/index.ts:163-168 | the five emergency types are accepted by their names and nothing else is |
| SubmitShift.UpsertShiftLaws | supabase/functions/submit-shift/index.ts:136-145 | the upsert on `driver_id,shift_date` leaves one row per key, exactly one of them for the new row's key and that is the new row, and keeps the rows of every other key |
| SubmitShift.InRange | supabase/functions/submit-shift/index.ts:102-107 | the query returns the caller's rows whose date lies between the two bounds, inclusive, as strings |
| SubmitShift.MonthRowsAsWritten | supabase/functions/submit-shift/index.ts:99-107 | the query as written returns only the caller's rows between `-01` and `-31`, every such row when both bounds are real dates, and no row when the `-31` bound is not a real date |
| SubmitShift.MonthEnd | supabase/functions/submit-shift/index.ts:99-100 | the corrected upper bound is two digits whose value is the month's number of days |
| SubmitShift.MonthRows | supabase/functions/submit-shift/index.ts:99-107 | the corrected query returns only the caller's rows between the first and the last real day of the month, and on a real month every such row |
| SubmitShift.NoThirtyFirst | supabase/functions/submit-shift/index.ts:100 | in February, April, June, September and November the upper bound `-31` names no real date |
| SubmitShift.ShortMonthLosesShifts | supabase/functions/submit-shift/index.ts:99-107 | with the bounds as written, a February with a shift on the 10th answers no rows |
| SubmitShift.MonthBoundsReal | supabase/functions/submit-shift/index.ts:99-100 | with the month's real last day as the upper bound, both bounds are real dates |
| SubmitShift.MonthRowsComplete | supabase/functions/submit-shift/index.ts:92-115 | with the corrected bound, every one of the caller's shifts dated in the month is returned, and only the caller's shifts within the bounds are |
| SubmitShift.AlertRecipients | supabase/functions/submit-shift/index.ts:211-215 | the alerted admins are exactly those of the organisation with a LINE id, each sent the alert text |
| SubmitShift.AlertText | supabase/functions/submit-shift/index.ts:225 | the alert opens with its header, names the driver right after it, and contains the type's label and a non-empty reason |
| SubmitShift.AbsenceNote | supabase/functions/submit-shift/index.ts:199 | the forced absence's note is the prefix followed by the reason when one is given, even empty, and otherwise by the type's name, which reads back as the type |
| SubmitShift.Entries | supabase/functions/submit-shift/index.ts:104-111 | the answer lists the `shift_date, status, note` of each row, in order, and nothing else |
| SubmitShift.EntryListed | supabase/functions/submit-shift/index.ts:104-111 | every row read appears in the answer |
| SubmitShift.GetShifts | supabase/functions/submit-shift/index.ts:92-115 | `get_shifts` changes nothing and alerts no one; 400 exactly for a missing or ill-formed `yearMonth`; otherwise the caller's name and only entries of the caller's shifts, all of them between `-01` and `-31` when both bounds are real dates and the read succeeds, and none when the read fails or `-31` is no real date |
| SubmitShift.RequestShift | supabase/functions/submit-shift/index.ts:118-156 | `request_shift` is 400 for a bad date, then 400 for a status that may not be requested, then 500 for a failed upsert or a well-shaped day that does not exist (the `date` column refuses it), changing nothing; it succeeds exactly when none of these holds, and then upserts the caller's row for the date with the status, the note and `driver` as submitter |
| SubmitShift.Emergency | supabase/functions/submit-shift/index.ts:159-250 | `emergency` is 400 for an unknown type and 500 for a failed insert, changing nothing; it succeeds exactly otherwise, appending the report for today; a failed absence upsert leaves the shifts; alerts go only to linked admins of the organisation and only when both reads succeed; drivers, organisations and admins are never written |
| SubmitShift.Route | supabase/functions/submit-shift/index.ts:67-254 | an alert is sent only on a successful emergency; any reply other than 200 changes no table and sends nothing; 401 exactly without a bearer token or with one the LINE check refuses, 500 when that check throws, 403 exactly for a verified caller whose driver lookup fails or finds no active driver; drivers, organisations and admins are never written |
| SubmitShift.Act | supabase/functions/submit-shift/index.ts:89-254 | a known driver's action never changes drivers, organisations or admins, answers 200, 400 or 500, changes nothing and alerts no one unless it answers 200, and an action other than the three is 400 |
| SubmitShift.RouteEmergency | supabase/functions/submit-shift/index.ts:159-250 | for a known driver the `emergency` action is answered exactly as `Emergency` answers it |
| SubmitShift.GetShiftsReply | supabase/functions/submit-shift/index.ts:92-115 | for a known driver, `get_shifts` answers the entries of exactly the rows the as-written `-01` to `-31` query returns, or none when the read fails, and changes nothing |
| SubmitShift.GetShiftsEmptyInShortMonth | supabase/functions/submit-shift/index.ts:99-111 | for a known driver and a well-formed month of 30 days or fewer, `get_shifts` answers an empty list |
| SubmitShift.Serve | supabase/functions/submit-shift/index.ts:48-262 | a preflight touches nothing; otherwise the limiter advances by one check of `ip:shift:<ip>` at 20 per 60 s, a refused request gets 429 with the rounded-up wait and changes nothing, and an allowed one is answered by `Route` |
| SubmitShift.RequestShiftEffect | supabase/functions/submit-shift/index.ts:118-156 | a granted request names a real date and leaves exactly one row for the caller and the date, with the requested status, the note and `driver` as submitter, and writes no emergency |
| SubmitShift.EmergencyEffect | supabase/functions/submit-shift/index.ts:159-201 | a sent emergency appends one report for today, and when the absence upsert succeeds the caller's shift today is the single absent row written by `system`, its note naming the type and reason; when it fails the shifts are unchanged |
| SubmitShift.AlertsGoToOrgAdmins | supabase/functions/submit-shift/index.ts:203-245 | without an organisation token nothing is pushed; with one, the pushes are exactly the alert text, with that token, to each of the organisation's admins with a non-empty LINE id |
| KeyNames.CapitalJoint | src/lib/supabase.ts:28-30 | one capital between two lowercase words becomes `_` and its lowercase letter |
| KeyNames.OrganizationIdName | src/lib/supabase.ts:28-30 | `organizationId` is stored as `organization_id` |
| KeyNames.DriverIdName | src/lib/supabase.ts:28-30 | `driverId` is stored as `driver_id` |
| KeyNames.SubmittedViaName | src/lib/supabase.ts:28-30 | `submittedVia` is stored as `submitted_via` |
| Supabase.CamelToSnakeAppend | src/lib/supabase.ts:28-30 | the conversion works letter by letter, so it distributes over concatenation |
| Supabase.CamelToSnakeLowers | src/lib/supabase.ts:28-30 | the snake_case form has no capital left |
| Supabase.CamelToSnakeFixes | src/lib/supabase.ts:28-30 | a name without capitals is stored unchanged |
| Supabase.SnakeToCamelFixes | src/lib/supabase.ts:24-26 | a name without `_` followed by a lowercase letter is read back unchanged |
| Supabase.PlainNameFixed | src/lib/supabase.ts:24-30 | a name with neither (`id`, `status`) is a fixed point of both conversions |
| Supabase.SnakeOfCamelRoundTrip | src/lib/supabase.ts:24-30 | a camelCase key without `_` plus lowercase comes back unchanged from the database |
| Supabase.CamelOfSnakeRoundTrip | src/lib/supabase.ts:24-30 | a column name without capitals comes back unchanged from the client |
| Supabase.RenamedPointwise | src/lib/supabase.ts:33-48 | when no two keys are renamed alike, the copy has every entry, renamed, in order, values kept, and no key twice |
| Supabase.RenamedKeys | src/lib/supabase.ts:33-48 | every key of the copy is the new name of a key of the original |
| Supabase.RenameKeys | src/lib/supabase.ts:33-48 | the copy loop computes the renamed record |
| Supabase.FromDb | src/lib/supabase.ts:33-39 | `fromDb` computes the row under camelCase names |
| Supabase.ToDb | src/lib/supabase.ts:42-48 | `toDb` computes the object under snake_case names |
| Supabase.FromDbKeepsEntries | src/lib/supabase.ts:33-39 | a row of lowercase column names is read back entry for entry, values kept |
| Supabase.ToDbKeepsEntries | src/lib/supabase.ts:42-48 | an object of camelCase keys is written entry for entry, values kept |
| Supabase.FromDbArray | src/lib/supabase.ts:51-53 | every row is converted, with the same length and order |
| Supabase.HandleSupabaseError | src/lib/supabase.ts:69-71 | it never returns normally: the caller receives an error with the database's message (its `code` and `details` are not kept) |
| CreateAdminUser.Validate | supabase/functions/create-admin-user/index.ts:66-89 | a body passes exactly when the e-mail is a string with `@`, the password a string of at least 8, the name a string not blank after trimming and the role `org_admin` or `manager`; the first failing check, in that order, names the message; a passing body yields the trimmed e-mail and name |
| CreateAdminUser.WithoutUser | supabase/functions/create-admin-user/index.ts:124 | `deleteUser(id)` leaves exactly the other auth users |
| CreateAdminUser.CallerAdmin | supabase/functions/create-admin-user/index.ts:53-63 | the caller's staff row is returned only from a successful read, is a stored admin with the caller's id and the org_admin role, and for exactly one row with that id is returned exactly when that row is an org_admin |
| CreateAdminUser.Handle | supabase/functions/create-admin-user/index.ts:22-152 | a preflight is answered; a method other than POST gets 405; for POST, 401 exactly without a caller the auth service recognises, 500 when that service throws, and 403 exactly for a caller whose staff lookup fails or who is no org_admin; an org_admin with an unreadable body gets 500; 400 exactly for an authorised caller whose body fails validation, with the first failing check's message; with a valid body the result is that of `Provision` for the caller's organisation |
| CreateAdminUser.Provision | supabase/functions/create-admin-user/index.ts:90-144 | a creation error changes nothing and gives 409 when its message mentions `already`, else 500; the reply is 201 exactly when creation and insert both succeed, and then one auth user and one admin row in the caller's organisation have been added |
| CreateAdminUser.RollbackRestores | supabase/functions/create-admin-user/index.ts:122-128 | after a failed insert, a successful compensating delete leaves the auth users as they were |
| CreateAdminUser.NoOrphanAuthUser | supabase/functions/create-admin-user/index.ts:90-128 | when the compensating delete succeeds, every request leaves each auth user paired with an admin row, as it was before |
| CreateAdminUser.ProvisionKeepsPairing | supabase/functions/create-admin-user/index.ts:90-128 | provisioning alone keeps that pairing |
| CreateAdminUser.InheritsCallerOrganisation | supabase/functions/create-admin-user/index.ts:53-118 | a created admin belongs to the calling org_admin's organisation, whatever organisation the body names |
| CreateAdminUser.CreationErrorStatus | supabase/functions/create-admin-user/index.ts:97-107 | for an authorised caller with a valid body, a creation error gives 409 exactly when it mentions `already`, else 500, and writes nothing |
| DemoStore.RemoveFirstAdmin | src/lib/demo-store.ts:66-69 | the first admin with the id is spliced out and the rest kept in order; without one nothing changes |
| DemoStore.RemoveFirstIsDeleteById | src/lib/demo-store.ts:66-69 | with unique ids the demo removal equals the delete by id |
| DemoStore.DemoRemoveHasNoGuard | src/lib/demo-store.ts:66-69 | where the service refuses to remove the organisation's last org_admin, the demo store removes it and leaves no org_admin |
| DemoStore.SetFirstToken | src/lib/demo-store.ts:70-76 | only the first admin with the id gets the token; without one nothing changes |
| DemoStore.UnlinkFirst | src/lib/demo-store.ts:77-84 | only the first admin with the id loses its LINE user id and registration token |
| DemoStore.SetFirstTokenIsServiceWrite | src/lib/demo-store.ts:70-76 | with unique ids the demo token write equals the service's write scoped to the row's organisation |
| DemoStore.PatchDriverLaws | src/lib/demo-store.ts:113 | the spread update is idempotent, the empty patch changes only `updatedAt`, and a patch to inactive makes the driver inactive |
| DemoStore.PatchVehicleLaws | src/lib/demo-store.ts:144 | the spread update is idempotent and the empty patch changes only `updatedAt` |
| DemoStore.OnDate | src/lib/demo-store.ts:151-165 | without a (non-empty) date every row is returned, else exactly the rows of that date |
| DemoStore.MissingNames | src/lib/demo-store.ts:196-213 | the missing list names exactly the active drivers with no row on the date |
| DemoStore.Summarize | src/lib/demo-store.ts:194-215 | the summary counts the active drivers and each kind's rows of the date, and lists each kind's missing active drivers by name |
| DemoStore.CountsAreRows | src/lib/demo-store.ts:208-211 | the submitted counts are rows, not drivers: two rows of one driver count 2 while the other driver is still listed as missing |
| DemoStore.SubmitClearsMissing | src/lib/demo-store.ts:196-213 | a new row takes exactly its driver off that day's missing list and keeps the others in order |
| DemoStore.Store.constructor | src/lib/demo-store.ts:15-23 | the store opens with the one demo admin and copies of the demo arrays |
| DemoStore.Store.CreateAdmin | src/lib/demo-store.ts:50-65 | appends the new admin of the demo organisation, without LINE fields, and returns it; nothing else changes |
| DemoStore.Store.RemoveAdmin | src/lib/demo-store.ts:66-69 | the admins become `RemoveFirstAdmin` of the old ones; nothing else changes |
| DemoStore.Store.GenerateLineToken | src/lib/demo-store.ts:70-76 | returns the token and the admins become `SetFirstToken` of the old ones; nothing else changes |
| DemoStore.Store.UnlinkLine | src/lib/demo-store.ts:77-84 | the admins become `UnlinkFirst` of the old ones; nothing else changes |
| DemoStore.Store.ListDrivers | src/lib/demo-store.ts:89-92 | exactly the drivers not inactive, in store order |
| DemoStore.Store.GetDriverById | src/lib/demo-store.ts:93-96 | none exactly when no driver has the id, else the first one that has it |
| DemoStore.Store.CreateDriver | src/lib/demo-store.ts:97-108 | appends the input with a new id, the demo organisation and the time, and returns it; nothing else changes |
| DemoStore.Store.UpdateDriver | src/lib/demo-store.ts:109-115 | an unknown id throws `Driver not found` and changes nothing; otherwise the first driver with the id is patched in place and returned |
| DemoStore.Store.ListVehicles | src/lib/demo-store.ts:120-123 | exactly the vehicles not retired, in store order |
| DemoStore.Store.GetVehicleById | src/lib/demo-store.ts:124-127 | none exactly when no vehicle has the id, else the first one that has it |
| DemoStore.Store.CreateVehicle | src/lib/demo-store.ts:128-139 | appends the input with a new id, the demo organisation and the time, and returns it; nothing else changes |
| DemoStore.Store.UpdateVehicle | src/lib/demo-store.ts:140-146 | an unknown id throws `Vehicle not found` and changes nothing; otherwise the first vehicle with the id is patched in place and returned |
| DemoStore.Store.GetPreWorkReports | src/lib/demo-store.ts:151-155 | the pre-work rows `OnDate` the date |
| DemoStore.Store.GetPostWorkReports | src/lib/demo-store.ts:156-160 | the post-work rows `OnDate` the date |
| DemoStore.Store.GetDailyInspections | src/lib/demo-store.ts:161-165 | the inspection rows `OnDate` the date |
| DemoStore.Store.GetAccidentReports | src/lib/demo-store.ts:166-169 | every accident report |
| DemoStore.Store.SubmitPreWorkReport | src/lib/demo-store.ts:170-174 | appends the report to the pre-work rows and returns it; nothing else changes |
| DemoStore.Store.SubmitPostWorkReport | src/lib/demo-store.ts:175-179 | appends the report to the post-work rows and returns it; nothing else changes |
| DemoStore.Store.SubmitDailyInspection | src/lib/demo-store.ts:180-184 | appends the inspection and returns it; nothing else changes |
| DemoStore.Store.SubmitAccidentReport | src/lib/demo-store.ts:185-189 | appends the accident report and returns it; nothing else changes |
| DemoStore.Store.GetDailySummary | src/lib/demo-store.ts:193-216 | the store's `Summarize` for the date |
| DriversPage.Search | src/app/routes/DriversPage.tsx:40-42 | the listed drivers are exactly those whose name, or non-empty kana or phone, includes the query |
| DriversPage.EmptySearchKeepsAll | src/app/routes/DriversPage.tsx:40-42 | the empty query lists every driver, in order |
| DriversPage.ShorterQueryFindsMore | src/app/routes/DriversPage.tsx:40-42 | a driver found by a query is still found by each prefix of it |
| DriversPage.Badge | src/app/routes/DriversPage.tsx:158-164 | linked exactly with a non-empty LINE user id; awaiting registration exactly without one but with a registration token; not linked otherwise |
| DriversPage.NewDriverRecord | src/app/routes/DriversPage.tsx:49-68 | the new driver is unlinked, active, a new hire and not senior, with no default vehicle, licence expiry or health-check date; it is hired today, blank optional fields are null, and its registration token is the first eight characters of the UUID |
| DriversPage.AfterAdd | src/app/routes/DriversPage.tsx:69-73 | a created driver is appended to the list; a failed create leaves it unchanged |
| EdgePiiMask.MaskName | supabase/functions/_shared/pii-mask.ts:5-8 | a missing or empty name becomes `***`, any other name its first character and `***` |
| EdgePiiMask.SameNameMask | supabase/functions/_shared/pii-mask.ts:5-8 | the edge functions' name mask agrees with the console's on every input |
| EdgePiiMask.MaskedFor | supabase/functions/_shared/pii-mask.ts:12-20 | the logged copy has the same keys in the same order; every string under a handled key is masked in place and every other entry kept |
| EdgePiiMask.MaskOneMoreAt | supabase/functions/_shared/pii-mask.ts:14-20 | handling one more key present in the object changes only its entry, and only when that entry is a string |
| EdgePiiMask.MaskOneMoreAbsent | supabase/functions/_shared/pii-mask.ts:15 | handling a key the object lacks changes nothing |
| EdgePiiMask.MaskedUnique | supabase/functions/_shared/pii-mask.ts:12 | the copy keeps the original's unique keys |
| EdgePiiMask.MaskKey | supabase/functions/_shared/pii-mask.ts:15-19 | one pass of the loop masks exactly the one more key |
| EdgePiiMask.SafeLogMask | supabase/functions/_shared/pii-mask.ts:11-20 | the loop over the six personal keys yields the copy with exactly those keys masked |
| EdgePiiMask.LogRevealsAtMostFirstChar | supabase/functions/_shared/pii-mask.ts:14-20 | a masked string is logged as `***` or as its own first character and `***`, never more |
| ExportPage.DoubleQuotes | src/app/routes/ExportPage.tsx:27-28 | doubling the quotes never shortens a text and leaves a text without quotes unchanged |
| ExportPage.EscapeCsv | src/app/routes/ExportPage.tsx:24-30 | null becomes the empty field; a value starting with `=`, `+`, `-`, `@`, tab or CR is quoted behind `'` with its quotes doubled; otherwise a value with a comma, quote or line break is quoted with its quotes doubled; any other value is written as it is; no written field starts with a formula character |
| ExportPage.EscapeRoundTrip | src/app/routes/ExportPage.tsx:24-30 | a CSV reader gets every escaped value back, a formula-looking one behind its `'` |
| ExportPage.FormulaReadsBack | src/app/routes/ExportPage.tsx:27 | a formula-looking value reads back as `'` and the value |
| ExportPage.PlainReadsBack | src/app/routes/ExportPage.tsx:29 | a value with nothing to quote reads back as itself |
| ExportPage.QuotedReadsBack | src/app/routes/ExportPage.tsx:28 | a value with its quotes doubled, between quotes, reads back as the value |
| ExportPage.FilterByDriver | src/app/routes/ExportPage.tsx:65-68 | `all` keeps every row; otherwise exactly the rows of the selected driver |
| ExportPage.FilterByVehicle | src/app/routes/ExportPage.tsx:70-73 | `all` keeps every row; otherwise exactly the rows of the selected vehicle, never a row without one |
| ExportPage.FiltersKeepOrder | src/app/routes/ExportPage.tsx:65-73 | both filters keep the input order |
| ExportPage.ExportRows | src/app/routes/ExportPage.tsx:83-106 | the accident export ignores the vehicle selection; the other three exports keep exactly the rows that match both selections |
| ExportPage.DriverName | src/app/routes/ExportPage.tsx:62 | an unknown driver shows `-`, a known one the name of the first driver with the id |
| ExportPage.VehiclePlate | src/app/routes/ExportPage.tsx:63 | no id and an unknown id show `-`; a known id the plate of the first vehicle with it |
| ExportPage.LinesAppend | src/app/routes/ExportPage.tsx:86-111 | the file body has one line per row, in row order |
| ExportPage.BuildCsv | src/app/routes/ExportPage.tsx:85-111 | the `+=` loop computes the header followed by one line per row |
| InspectionForm.ThirteenKeys | src/liff/pages/InspectionFormPage.tsx:12-46 | the checklist has four categories and thirteen distinct keys |
| InspectionForm.Toggle | src/liff/pages/InspectionFormPage.tsx:50-52 | an unset item becomes true and a set one flips; every other item keeps its value |
| InspectionForm.SetAllOk | src/liff/pages/InspectionFormPage.tsx:54-58 | every one of the thirteen items is set, and set true |
| InspectionForm.SubmitNeedsEveryItem | src/liff/pages/InspectionFormPage.tsx:190 | an unset item disables the submit button, so an enabled button means every item is set |
| InspectionForm.AllOkEnablesSubmit | src/liff/pages/InspectionFormPage.tsx:54-58 | after "all OK" every item passes, none fails and the submit button is enabled |
| InspectionForm.Items | src/liff/pages/InspectionFormPage.tsx:74-86 | each item is sent as true exactly when it was checked true, in checklist order |
| InspectionForm.Submit | src/liff/pages/InspectionFormPage.tsx:62-90 | a failed item without a note blocks the submission; otherwise the payload holds the given organisation, driver and vehicle, the items, today's date, `liff`, and the note or null when it is empty |
| InspectionForm.AllPassedIffEveryItem | src/liff/pages/InspectionFormPage.tsx:47-87 | the payload passes the inspection exactly when every item it sends is true |
| NotificationSettingsService.StoredSettings | src/services/notification-settings.service.ts:14-22 | the settings object of the one organisation with the id, or the empty object when `.single()` finds no row |
| NotificationSettingsService.Get | src/services/notification-settings.service.ts:8-25 | a failed read throws its message; otherwise the stored notification object, or the defaults when none is stored |
| NotificationSettingsService.WithNotification | src/services/notification-settings.service.ts:46-47 | the notification key is replaced and every other settings key kept |
| NotificationSettingsService.Update | src/services/notification-settings.service.ts:27-56 | a failed read or write throws its message and changes nothing; otherwise the notification object is returned; only the addressed organisation's row can change, and only to its settings with the new notification |
| NotificationSettingsService.UpdateKeepsOtherSettings | src/services/notification-settings.service.ts:46-52 | with unique ids a successful update keeps every other settings key of the organisation |
| NotificationSettingsService.GetAfterUpdate | src/services/notification-settings.service.ts:8-56 | reading back after a successful update gives the object just written |
| NotificationSettingsService.DemoSettings.constructor | src/services/notification-settings.service.ts:6 | demo mode starts from a copy of the defaults |
| NotificationSettingsService.DemoSettings.Get | src/services/notification-settings.service.ts:9-12 | demo mode returns a copy of the stored object |
| NotificationSettingsService.DemoSettings.Update | src/services/notification-settings.service.ts:31-35 | demo mode replaces the object with the argument and returns it |
| NotificationSettingsService.DemoGetAfterUpdate | src/services/notification-settings.service.ts:9-35 | in demo mode too, reading after an update gives back what was written |
| NotificationSettingsPage.Initial | src/app/routes/NotificationSettingsPage.tsx:63-64 | the screen opens on the defaults with nothing to save |
| NotificationSettingsPage.RedirectsOnlyOtherRoles | src/app/routes/NotificationSettingsPage.tsx:66-69 | a user is sent to the dashboard exactly when signed in, the session loaded, and the role not org_admin |
| NotificationSettingsPage.Loaded | src/app/routes/NotificationSettingsPage.tsx:72-77 | loaded settings replace the copy and clear the unsaved flag; nothing loaded changes nothing |
| NotificationSettingsPage.HandleToggle | src/app/routes/NotificationSettingsPage.tsx:79-85 | the switch under the key flips, its time and every other item stay, and there is something to save |
| NotificationSettingsPage.HandleTimeChange | src/app/routes/NotificationSettingsPage.tsx:87-93 | the time under the key is replaced, its switch and every other item stay, and there is something to save |
| NotificationSettingsPage.HandleSave | src/app/routes/NotificationSettingsPage.tsx:95-111 | saving keeps the settings on screen and clears the unsaved flag exactly when there is an organisation and the write succeeds |
| NotificationSettingsPage.SaveButtonFollowsChanges | src/app/routes/NotificationSettingsPage.tsx:72-126 | an edit enables the save button while no write is in flight; loading or a successful save disables it; a failed save leaves it as it was |
| NotificationSettingsPage.EnabledKeys | src/app/routes/NotificationSettingsPage.tsx:113 | exactly the items whose switch is on |
| NotificationSettingsPage.EnabledCount | src/app/routes/NotificationSettingsPage.tsx:113 | the enabled count never exceeds the number of items |
| NotificationSettingsPage.ToggleMovesCountByOne | src/app/routes/NotificationSettingsPage.tsx:79-113 | one flip moves the enabled count by exactly one, down when the switch was on and up when it was off |
| NotificationSettingsPage.ToggleTwiceRestores | src/app/routes/NotificationSettingsPage.tsx:79-85 | flipping the same switch twice restores the settings |
| NotificationSettingsPage.Slot | src/app/routes/NotificationSettingsPage.tsx:48-53 | each slot is written `HH:MM` |
| NotificationSettingsPage.TimeOptionsAreHalfHours | src/app/routes/NotificationSettingsPage.tsx:48-53 | the picker offers the 32 half hours from 06:00 to 21:30, in order |
| PiiMask.MaskName | src/lib/pii-mask.ts:7-11 | a missing or empty name becomes `***`, any other its first character and `***` |
| PiiMask.Digits | src/lib/pii-mask.ts:16 | exactly the ASCII digits of the text, never more characters |
| PiiMask.MaskPhone | src/lib/pii-mask.ts:14-19 | fewer than four digits (or no number) gives `***`; otherwise the first three digits, `-****-` and the last four |
| PiiMask.BeforeAt | src/lib/pii-mask.ts:24 | the first part of `split('@')` is the prefix before the first `@` |
| PiiMask.AfterAt | src/lib/pii-mask.ts:24 | the second part exists exactly when there is an `@`, and splits the text there |
| PiiMask.MaskEmail | src/lib/pii-mask.ts:22-27 | no address, an empty local part or no `@` gives `***`; any other result is the first character, `***@` and a domain without `@` |
| PiiMask.MaskEmailOf | src/lib/pii-mask.ts:22-27 | `local@domain`, both non-empty, becomes the local part's first character, `***@` and the domain |
| PiiMask.MaskEmailDropsRest | src/lib/pii-mask.ts:24-26 | anything after a second `@` is dropped from the masked address |
| PiiMask.MaskLicenseNumber | src/lib/pii-mask.ts:30-34 | fewer than five characters gives `***`, otherwise `****` and the last five |
| PiiMask.MaskUuid | src/lib/pii-mask.ts:37-41 | fewer than eight characters gives `***`, otherwise the first four, `...` and the last four |
| PiiMask.MaskedValue | src/lib/pii-mask.ts:51-63 | a string under a name, phone, e-mail or licence key is masked by that key's masker; any other value is kept |
| PiiMask.Masked | src/lib/pii-mask.ts:44-67 | every entry stays in place with its value masked by its key |
| PiiMask.MaskPiiFields | src/lib/pii-mask.ts:44-67 | the copy-and-overwrite loop computes `Masked` |
| PiiMask.MaskedKeepsKeys | src/lib/pii-mask.ts:44-67 | the same keys in the same order, and every entry that is not a personal string unchanged |
| PiiMask.PhoneReveals | src/lib/pii-mask.ts:14-19 | a masked number shows only the first three and last four digits of the original |
| PiiMask.MaskNameIdempotent | src/lib/pii-mask.ts:7-11 | masking a masked name changes nothing, except that the `***` of a missing name gains a star |
| PiiMask.MaskPhoneIdempotent | src/lib/pii-mask.ts:14-19 | masking a masked number changes nothing |
| PiiMask.MaskEmailIdempotent | src/lib/pii-mask.ts:22-27 | masking a masked address changes nothing |
| PiiMask.MaskLicenseNumberIdempotent | src/lib/pii-mask.ts:30-34 | masking a masked licence number changes nothing |
| PiiMask.MaskUuidIdempotent | src/lib/pii-mask.ts:37-41 | masking a masked UUID changes nothing |
| PiiMask.MaskedIdempotent | src/lib/pii-mask.ts:44-67 | masking a masked object changes nothing, provided no name field held the empty string |
| PostWorkForm.AddRest | src/liff/pages/PostWorkFormPage.tsx:35 | one empty period is appended and the others are kept |
| PostWorkForm.RemoveRestDropsOne | src/liff/pages/PostWorkFormPage.tsx:36 | exactly the `i`-th period is dropped and the others keep their order; an index outside the list drops nothing |
| PostWorkForm.SetField | src/liff/pages/PostWorkFormPage.tsx:38 | the named field is set and the other two kept |
| PostWorkForm.UpdateRest | src/liff/pages/PostWorkFormPage.tsx:37-39 | only the named field of the `i`-th period changes |
| PostWorkForm.SubmittedRests | src/liff/pages/PostWorkFormPage.tsx:57 | exactly the periods with a start and an end are submitted |
| PostWorkForm.SubmittedRestsKeepOrder | src/liff/pages/PostWorkFormPage.tsx:57 | the submitted periods keep the form's order |
| PostWorkForm.DistanceKm | src/liff/pages/PostWorkFormPage.tsx:56 | an empty distance is sent as 0, other text as `parseFloat` reads it |
| PostWorkForm.CargoCount | src/liff/pages/PostWorkFormPage.tsx:62 | the cargo count is null exactly when the field is empty, otherwise the `parseInt` of its text |
| PostWorkForm.SubmitPayload | src/liff/pages/PostWorkFormPage.tsx:48-64 | the ids, date and clock-out time as given, the text fields copied, only complete rest periods, a check value of 0, the road note null exactly when empty, the cargo count null exactly when empty, and `liff` as the channel |
| PostWorkForm.UntouchedFormPayload | src/liff/pages/PostWorkFormPage.tsx:22-64 | the form submitted as it opens sends the lunch break, a distance of 0, the head office, a negative check, and null for the road note and the cargo count |
| PostWorkForm.NeverEmpty | src/liff/pages/PostWorkFormPage.tsx:171-172 | since the delete control shows only with more than one period (and the list opens with one, line 31), no sequence of edits leaves the form without one |
| ShiftRequestPage.PrevMonth | src/liff/pages/ShiftRequestPage.tsx:136-141 | the previous month, with December of the year before after January |
| ShiftRequestPage.NextMonth | src/liff/pages/ShiftRequestPage.tsx:142-147 | the next month, with January of the year after after December |
| ShiftRequestPage.YearMonthAccepted | src/liff/pages/ShiftRequestPage.tsx:45 | for a four-digit year the `YYYY-MM` text names that real month |
| ShiftRequestPage.Replace | src/liff/pages/ShiftRequestPage.tsx:104-123 | the new entry, without a note, ends the list |
| ShiftRequestPage.ReplaceOnePerDate | src/liff/pages/ShiftRequestPage.tsx:104-123 | the date then has exactly the one new entry, and every other date keeps its entries in order |
| ShiftRequestPage.HandleShiftRequest | src/liff/pages/ShiftRequestPage.tsx:98-134 | the spinner is cleared and a message shown; an accepted request replaces the date's entry and reports success (with the server's message when there is one); anything else keeps the list and reports failure |
| ShiftRequestPage.CaughtState | src/liff/pages/ShiftRequestPage.tsx:129-133 | after an exception the list is kept, nothing is submitting and the network error is shown |
| ShiftRequestPage.HandleDemoRequestAsWritten | src/liff/pages/ShiftRequestPage.tsx:7 | with no `shiftService` in the demo store the demo call throws, so the list is kept and the network error is shown |
| ShiftRequestPage.HandleDemoRequest | src/liff/pages/ShiftRequestPage.tsx:102-108 | with an upsert that resolves the list is replaced as for an accepted request and the message names the date and the status label; one that rejects leaves the `catch` state |
| ShiftRequestPage.DemoRequestLost | src/liff/pages/ShiftRequestPage.tsx:7 | as written a demo choice on an empty list leaves it empty with an error, where the intended branch adds the entry and reports success |
| ShiftRequestPage.DemoMatchesAccepted | src/liff/pages/ShiftRequestPage.tsx:98-134 | a working demo upsert leaves the list an accepted request leaves, and a failing one the state of a network error |
| ShiftRequestPage.OnSelect | src/liff/pages/ShiftRequestPage.tsx:207-236 | a choice is sent exactly when a status is picked on a day not in the past and not in flight, carrying that date and status |

## Left out

- Network and storage I/O: every `fetch` to the LINE APIs, the Supabase query builders, `serve`, CORS headers, response headers other than `Retry-After`, and console logging. Tables are values. A read or write that can fail is a parameter saying whether it failed, including the `.single()` lookups of the caller (`SubmitShift.DbCalls`, `SubmitReport.Lookups`, the `callerReadOk` of `CreateAdminUser.Handle`) and the three calls of `link-driver` (`LinkDriver.Calls`); the follow-event lookup of the LINE webhook is the one read modelled as never failing.
- LINE ID-token verification, `auth.getUser`, HMAC-SHA256, `atob`, `TextEncoder`, `crypto.randomUUID` and JSON parsing are uninterpreted parameters; only the comparisons over their outputs are modelled. The ID-token check and `auth.getUser` may also throw, which the handlers answer with 500.
- The clock: `Date.now()`, `new Date()` and the UTC+9 shift that gives "today" are the parameters `now` and `today`. `cleanup` and `checkRateLimit` read the clock separately, but the model gives both one `now`.
- Concurrency: the LINE-webhook claim is one atomic conditional write; the driver binding of `link-driver` and every handler run one request at a time.
- UI rendering, routing and the screens outside the core (login, dashboard percentages, reports, emergency, vehicles, the other LIFF forms); the thin service wrappers, hooks, auth context, autosave and audit log; the demo fixtures of `src/lib/demo-data.ts`, which are parameters of `DemoStore.Store.constructor`.
- `adminUserService.list` and `authService` in `src/lib/demo-store.ts` only return the stored admins or fixtures, and are not modelled.
- The simulated delays of the demo store and of the demo notification settings.
- Floating point: zod numbers are exact reals, so NaN and the infinities are absent; `parseFloat`/`parseInt` of form fields are parameters, `distanceKm` arithmetic is not modelled, nor is `String()` of numbers and booleans in `escapeCsv`, which is modelled on text.
- String lengths count Unicode scalar values where JavaScript counts UTF-16 code units; the two differ only for characters outside the Basic Multilingual Plane.
- Zod: issue messages and the error list are not modelled, only whether a parse succeeds and its output; `email()` is the oracle `isEmail`; `uuid()` is the 8-4-4-4-12 hexadecimal shape.
- The login schema in `src/lib/validations/auth.ts` is not part of this model.
- `DEFAULT_NOTIFICATION_SETTINGS` is defined outside the modelled files, and is the parameter `defaults`.
- The `updated_at` written by the notification settings update, and the `created_at`/`updated_at` columns generally, are not modelled.
- `ShiftRequestPage`'s `days` list calls `toISOString` on local midnight, so it depends on the timezone; it is not modelled.
- SubmitShift.InRange: the date bounds are compared as strings, which agrees with date order on `YYYY-MM-DD` text; the database's own date parsing is modelled only as rejecting a non-existent day.
- LineWebhook.FollowReply: a failed follow-event driver lookup (`supabase/functions/line-webhook/index.ts:85-89`) is answered with the registration hint even for a bound driver; the model's lookup cannot fail, so it always greets a bound driver by name.
- LineWebhook.HandleEvent: a token lookup that fails for a reason other than finding no row is not modelled; the handler reads it as no holder, the branch the model takes when no single admin holds the token.
- PostWorkForm.CargoCount: `parseInt` is an integer-valued parameter, so the NaN it gives for number text with no leading digit (such as ".5") is not modelled; PostWorkForm.DistanceKm likewise takes `parseFloat` of non-empty number text to be a finite real.
- The demo-mode `submitPostWorkReport` call and the `submitToEdgeFunction` call of the post-work form, with the id, expiry and timestamps added in demo mode, are not modelled beyond the payload.
- Copies handed out by the services (the demo settings, `maskPiiFields`, `safeLog`) are values here, so no caller can alter stored state through them; aliasing is not modelled.

## Findings

| source | as written | input that shows it | evidently intended | confidence | as-written member | corrected member |
|---|---|---|---|---|---|---|
| src/liff/pages/ShiftRequestPage.tsx:7 | the page imports `shiftService` from `src/lib/demo-store.ts`, which exports no such member, so in demo mode `demoShiftService.upsert` throws (or the module fails to link) and every request ends in the network-error message with the list unchanged | demo mode, an empty list, any date and status: the list stays empty and "通信エラーが発生しました" is shown | the demo upsert succeeds, the day's entry is replaced and the success message names the date and status | not executed; whether the import fails at build, at load or at the call depends on the bundler | ShiftRequestPage.DemoRequestLost | ShiftRequestPage.HandleDemoRequest |
| supabase/functions/submit-shift/index.ts:99-107 | `get_shifts` bounds the month by `${yearMonth}-31`, which is not a date in February, April, June, September or November, so the database refuses the comparison and the handler answers `shifts ?? []`, an empty list | `yearMonth` "2025-02" for a driver with a shift on 2025-02-10: the answer has no rows | the upper bound is the month's real last day, so every shift of the caller in the month is returned | not executed; depends on the database rejecting a non-existent day | SubmitShift.ShortMonthLosesShifts | SubmitShift.MonthRowsComplete |
| supabase/functions/link-driver/index.ts:81-91 | the error of the `existing` lookup is not read, so a failed lookup leaves `existing` null and the bind goes ahead | a caller whose LINE id is bound to driver A, driver B holding a valid unbound token, and the lookup of `existing` failing: the reply is 200 and B is bound to the same LINE id as A | a failed lookup is an error (500) and nothing is written | not executed; needs the read to fail between the token lookup and the update | LinkDriver.FailedReadBindsTwice | LinkDriver.HandleChecked |
