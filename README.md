# Journal backend: a Dafny model

This project models the core of the backend of a journaling app. It is an
Express service on Firebase that does the following:

- Users register, verify their e-mail address, log in and reset their password.
- Users write journal entries with an optional video and photo. These are kept in a
  Google Cloud Storage bucket.
- A text model rates the mood of each entry, tidies up text and answers questions
  about an entry.
- A monthly list and a mood calendar of entries are served.
- Notifications are listed and marked as read.
- A job reminds users who have not written for 48 hours.

The model also covers:

- the multipart body parser and the middleware that groups uploaded files by field;
- the formatter that turns the model's HTML into plain text;
- the request validators;
- the CORS, upload and verified-account middlewares.

There is one Dafny module per source file, with a few shared modules beside them:

- `Wrappers` holds the results and errors.
- `JsonValues` holds JSON values and JavaScript truthiness.
- `JsString` holds the JavaScript string built-ins.
- `DocumentStore` holds the Firestore collections.
- `Calendar` holds `Date.UTC` arithmetic.
- `JoiStrings` holds Joi's string rules.

The Firestore database is a `class Database`, whose four collections are maps that
the service methods reassign. The bucket is a `class Bucket`. Services that change
state are methods whose `modifies` clauses name these objects.

Calls into outside services are parameters of the operations. These include:

- the text model (Gemini);
- Firebase Auth;
- the Identity Toolkit sign-in;
- token signing and verification;
- e-mail delivery;
- push delivery.

Each such parameter is either the answer the service gives or a function standing
for it. The clock and `uuidv4()` are parameters as well.

Timestamps are whole milliseconds since the epoch. String lengths are JavaScript
lengths, counted in UTF-16 code units.

## Model

| member | source | states |
|---|---|---|
| StorageHelper.StripLeadingSlashes | backend/src/utils/storageHelper.js:10 | the result is a suffix of the path, obtained by dropping only `/` characters, and does not start with `/` |
| StorageHelper.GcsUrlFalsy | backend/src/utils/storageHelper.js:7-8 | `getGcsUrl` gives null exactly for a missing or empty path |
| StorageHelper.GcsUrlLeadingSlash | backend/src/utils/storageHelper.js:10-13 | a leading `/` does not change the URL |
| StorageHelper.GcsUrlKey | backend/src/utils/storageHelper.js:7-14 | the key that `deleteFromGCS` derives from the URL is the cleaned path |
| StorageHelper.GcsUrlOfKey | backend/src/utils/storageHelper.js:10-13 | a key without a leading slash renders as the public URL of that key |
| GoogleStorage.IndexOf | backend/src/applications/google-storage.js:66 | a found index is an occurrence of the pattern with no occurrence earlier; `None` (the `-1` of `indexOf`) means the pattern occurs nowhere |
| GoogleStorage.ReplaceFirstAtStart | backend/src/applications/google-storage.js:61-66 | for a URL that starts with the prefix, the string `replace` strips exactly that prefix |
| GoogleStorage.UrlRoundTrip | backend/src/applications/google-storage.js:43-66 | round trip: the key that `deleteFromGCS` derives from an upload's URL is the uploaded key |
| GoogleStorage.KeyOfUrlInverse | backend/src/applications/google-storage.js:59-66 | a URL that delete accepts is the public URL of the key it deletes |
| GoogleStorage.DestinationShape | backend/src/applications/google-storage.js:25-26 | the object key lies under the folder, and its file part holds no white space |
| GoogleStorage.DeleteRefused | backend/src/applications/google-storage.js:56-64 | a falsy URL, or a URL of another bucket, leaves the bucket unchanged |
| GoogleStorage.DeleteAfterUpload | backend/src/applications/google-storage.js:19-78 | deleting the URL returned by an upload removes exactly that object and keeps every other one |
| GoogleStorage.DeleteIdempotent | backend/src/applications/google-storage.js:55-78 | deleting twice gives the same bucket as deleting once |
| GoogleStorage.DeleteOnlyRemoves | backend/src/applications/google-storage.js:55-78 | delete never adds an object and never changes one |
| GoogleStorage.Bucket.Upload | backend/src/applications/google-storage.js:19-49 | no file gives 400; a stream error gives 500 and writes nothing; otherwise the blob is stored under the destination key and its public URL is returned |
| GoogleStorage.Bucket.Delete | backend/src/applications/google-storage.js:55-78 | the bucket afterwards is `AfterDelete` of the old bucket; a failed delete is swallowed |
| TextFormatter.AiFormatFalsy | backend/src/utils/textFormatter.js:8 | a falsy input gives `""` |
| TextFormatter.BoldRewrite | backend/src/utils/textFormatter.js:12 | for a one-line `x` without `<`, `<b>x</b>` and `<strong>x</strong>`, in any case and any pairing, become `**x**` (`.` stops at a line end, so a multi-line `x` is not rewritten here) |
| TextFormatter.ItalicRewrite | backend/src/utils/textFormatter.js:13 | for a one-line `x` without `<`, `<i>x</i>` and `<em>x</em>`, in any case and any pairing, become `*x*` |
| TextFormatter.ListItemRewrite | backend/src/utils/textFormatter.js:14 | for a one-line `x` without `<`, `<li attrs>x</li>` becomes the bullet, then `x`, then a newline |
| TextFormatter.ParagraphRewrite | backend/src/utils/textFormatter.js:16 | for a one-line `x` without `<`, `<p attrs>x</p>` becomes `x` followed by two newlines |
| TextFormatter.BreakRewrite | backend/src/utils/textFormatter.js:17 | `<br>`, `<br/>` and `<br />` become a newline |
| TextFormatter.TagMatchShape | backend/src/utils/textFormatter.js:12-17 | everything a tag rule matches is also a tag for the catch-all rule |
| TextFormatter.RewriteTagsIdentity | backend/src/utils/textFormatter.js:12-17 | the tag rewrites leave text without tags unchanged |
| TextFormatter.NoTagMeansNoMatch | backend/src/utils/textFormatter.js:18 | `NoTag` holds exactly when `<[^>]+>` matches nowhere |
| TextFormatter.AnyTagLeavesNoTag | backend/src/utils/textFormatter.js:18 | after the catch-all pass no tag is left |
| TextFormatter.BlanksClean | backend/src/utils/textFormatter.js:19 | after the blank pass there is no tab and no double space |
| TextFormatter.NewlinesClean | backend/src/utils/textFormatter.js:20 | after the newline pass no three newlines stand in a row |
| TextFormatter.AiFormatClean | backend/src/utils/textFormatter.js:7-23 | the output has no tag, no tab, no double space, no triple newline, and no white space at either end |
| TextFormatter.AiFormatFixes | backend/src/utils/textFormatter.js:7-23 | a clean text already trimmed at both ends is a fixed point |
| TextFormatter.AiFormatIdempotent | backend/src/utils/textFormatter.js:7-23 | formatting twice is the same as formatting once |
| TextFormatter.BoldReply | backend/src/utils/textFormatter.js:7-23 | a reply `<b>x</b>` whose `x` is one word (one line, no `<`, no white space) comes out as `**x**` |
| JsString.TrimShape | backend/src/utils/textFormatter.js:22 | `trim` gives a slice of its input with no white space at either end |
| JsString.TrimIdempotent | backend/src/utils/textFormatter.js:22 | trimming twice is the same as trimming once |
| JsString.ReplaceSpaceRunsNoSpace | backend/src/applications/google-storage.js:25 | `replace(/\s+/g, '-')` leaves no white space |
| JsString.ReplaceSpaceRunsIdentity | backend/src/applications/google-storage.js:25 | a name without white space is left unchanged |
| JsString.JsLengthAppend | backend/src/services/journal-service.js:53-57 | the JavaScript length of a concatenation is the sum of the two lengths |
| MultipartParser.KeepAllowedOnlyAllowed | backend/src/utils/multipart-parser.js:32 | only `[a-zA-Z0-9.\-_]` characters remain |
| MultipartParser.CollapseDashesNoDoubleDash | backend/src/utils/multipart-parser.js:33 | no `--` remains |
| MultipartParser.SanitizedChars | backend/src/utils/multipart-parser.js:29-34 | a sanitised name uses only `[a-z0-9._-]` |
| MultipartParser.SanitizedNoDoubleDash | backend/src/utils/multipart-parser.js:29-34 | a sanitised name never holds `--` |
| MultipartParser.SanitizeIdempotent | backend/src/utils/multipart-parser.js:29-34 | sanitising twice is the same as sanitising once |
| MultipartParser.SanitizeCanBeEmpty | backend/src/utils/multipart-parser.js:29-34 | a truthy name can still sanitise to the empty name |
| MultipartParser.HeaderNames | backend/src/utils/multipart-parser.js:24-37 | a truthy filename is sanitised; a missing one becomes `file-<clock>`; the raw name is kept |
| MultipartParser.FirstTerminal | backend/src/utils/multipart-parser.js:62-69 | finds the first 'finish' or 'error' event, with none before it |
| MultipartParser.RunMatchesReference | backend/src/utils/multipart-parser.js:24-56 | the handlers' records agree, stream by stream, with an independent account: one record per ended stream that had data, holding its chunks concatenated in order; the open streams are exactly those started and not ended |
| MultipartParser.FieldsAreLastValues | backend/src/utils/multipart-parser.js:58-60 | each field holds the last value sent under its name; a field named `__proto__` is never stored, since assigning a string to that accessor does nothing |
| MultipartParser.ExpectedFilesShape | backend/src/utils/multipart-parser.js:45-53 | every record's size is the length of its buffer |
| MultipartParser.EndedStreamRecord | backend/src/utils/multipart-parser.js:43-55 | the 'end' handler appends one record holding the stream's chunks, concatenated in order |
| MultipartParser.EmptyStreamDropped | backend/src/utils/multipart-parser.js:44 | a stream that ended without data leaves no record |
| MultipartParser.SettlesAt | backend/src/utils/multipart-parser.js:62-69 | the first 'finish' or 'error' resolves the promise with the state reached before it |
| MultipartParser.StaysPending | backend/src/utils/multipart-parser.js:62-69 | without 'finish' or 'error' the promise never settles |
| MultipartParser.DecodeNonMultipart | backend/src/utils/multipart-parser.js:6-9 | a body that is not multipart resolves as `req.body`, or `{}`, with no files |
| MultipartParser.DecodeNeverRejects | backend/src/utils/multipart-parser.js:3-81 | the promise never rejects; a failure at set-up resolves empty; it stays pending exactly when no terminal event comes |
| MultipartParser.DecodeMultipart | backend/src/utils/multipart-parser.js:19-69 | a multipart body resolves with the last value of each field (except `__proto__`) and the reference files of the events before the first terminal event |
| MultipartParser.OnEvent | backend/src/utils/multipart-parser.js:24-60 | a non-terminal event updates fields, files and open streams as the `Step` function says |
| MultipartParser.Settle | backend/src/utils/multipart-parser.js:19-75 | the loop over the events returns `Settled(events)` |
| MultipartParser.ParseMultipart | backend/src/utils/multipart-parser.js:3-81 | `parseMultipart` resolves with `Decode(req)` |
| MultipartMiddleware.FilesNamed | backend/src/middlewares/multipart-middleware.js:16-21 | a group holds only files of its own field name |
| MultipartMiddleware.FirstInherited | backend/src/middlewares/multipart-middleware.js:16-20 | the position of the first file whose field name is inherited from `Object.prototype`: no file before it has one, and the file there does |
| MultipartMiddleware.FieldOrder | backend/src/middlewares/multipart-middleware.js:16-21 | the keys of `req.files`: exactly the field names that have files |
| MultipartMiddleware.GroupByField | backend/src/middlewares/multipart-middleware.js:13-22 | the `forEach` groups the files before the first one whose field name is inherited from `Object.prototype`, and throws exactly when there is such a file |
| MultipartMiddleware.GroupedSnoc | backend/src/middlewares/multipart-middleware.js:17-20 | one more file extends its own group, creating it when new, and no other group |
| MultipartMiddleware.GroupedKeys | backend/src/middlewares/multipart-middleware.js:13-22 | a key exists exactly for each field name that has a file; no files means `{}` |
| MultipartMiddleware.EveryFileGrouped | backend/src/middlewares/multipart-middleware.js:16-21 | every file lands in the group of its own field name |
| MultipartMiddleware.GroupKeepsOrder | backend/src/middlewares/multipart-middleware.js:16-21 | grouping keeps the parser's order inside each group |
| MultipartMiddleware.GroupSizesSum | backend/src/middlewares/multipart-middleware.js:13-22 | the group sizes add up to the number of files: nothing is lost or duplicated |
| MultipartMiddleware.Handle | backend/src/middlewares/multipart-middleware.js:3-28 | a non-multipart request goes to `next()` untouched; otherwise `req.body` gets the fields and `req.files` the grouped files, and `next(error)` is called exactly when some file's field name is inherited from `Object.prototype`; a parse that never settles never calls `next` |
| UploadMiddleware.FileFilter | backend/src/middlewares/upload-middleware.js:7-17 | accepts exactly `video/webm`; anything else gets the 400 format error |
| UploadMiddleware.FilterSeesOnlyMimeType | backend/src/middlewares/upload-middleware.js:7-17 | the decision depends on the MIME type alone |
| SecurityMiddleware.CorsOrigin | backend/src/middlewares/security-middleware.js:18-25 | a request is allowed exactly when it has no origin or its origin is whitelisted; otherwise it gets the CORS error |
| SecurityMiddleware.WhitelistPrefixFree | backend/src/middlewares/security-middleware.js:12-16 | no whitelisted origin is a proper prefix of another |
| SecurityMiddleware.ExactOriginOnly | backend/src/middlewares/security-middleware.js:20 | an origin that merely extends an allowed one is refused |
| VerifiedMiddleware.VerifiedGate | backend/src/middlewares/verified-middleware.js:3-16 | no user gives 401; a verified user proceeds; an unverified user gets 403 |
| VerifiedMiddleware.GateStatuses | backend/src/middlewares/verified-middleware.js:3-16 | failures are 401 or 403, and 403 only for an identified user |
| JoiStrings.AcceptedLength | backend/src/validations/auth-validation.js:5-16 | under `max(n)` a string has at most n characters; under `min(n)` it has at least n/2 |
| AuthValidation.RegisterRule | backend/src/validations/auth-validation.js:4-18 | accepts exactly a name of 1-100 units, an e-mail of at most 100 units, and a password of 6-100 units |
| AuthValidation.LoginRule | backend/src/validations/auth-validation.js:21-30 | accepts exactly a good e-mail and a good password |
| AuthValidation.ForgotRule | backend/src/validations/auth-validation.js:33-38 | accepts exactly a good e-mail |
| AuthValidation.ResetRule | backend/src/validations/auth-validation.js:41-57 | accepts exactly a token, an e-mail address, a good password and an equal confirmation |
| AuthValidation.ResetEmailUncapped | backend/src/validations/auth-validation.js:33-57 | the reset schema accepts an address that the forgot schema refuses as too long |
| JournalValidation.CreateJournalRule | backend/src/validations/journal-validation.js:3-14 | accepts exactly a non-empty title of at most 255 units |
| JournalValidation.UpdateJournalRule | backend/src/validations/journal-validation.js:16-26 | the title may be absent; a given title is non-empty and at most 255 units |
| JournalValidation.CreateIsUpdate | backend/src/validations/journal-validation.js:3-26 | every valid create body is a valid update body |
| UserValidation.ProfileRule | backend/src/validations/user-validation.js:4-6 | accepts exactly a name of 1-100 units |
| UserValidation.PasswordChangeRule | backend/src/validations/user-validation.js:9-12 | both passwords are required, each of 6-100 units |
| UserValidation.FcmTokenRule | backend/src/validations/user-validation.js:14-20 | accepts exactly a non-empty token |
| AiHelper.SystemInstructionCases | backend/src/services/ai-helper-service.js:20-35 | only the three known names select their own instruction; anything else gets the default |
| AiHelper.EnhancePromptQuotesText | backend/src/services/ai-helper-service.js:37 | the text can be read back out of the prompt verbatim |
| AiHelper.EnhanceJournalText | backend/src/services/ai-helper-service.js:9-57 | no model gives 500; no text gives 400; a thrown model call gives 500; otherwise the original text is kept, the instruction (or "general") reported, and the enhanced text is `aiFormat` of the reply, which is clean |
| AiHelper.EnhanceFormatsReply | backend/src/services/ai-helper-service.js:40-51 | for every reply, the enhanced text is the formatted reply: clean, without white space at either end, and unchanged by formatting it again |
| AiHelper.EnhanceBoldReply | backend/src/services/ai-helper-service.js:40-51 | a reply `<b>x</b>` whose `x` is one word (one line, no `<`, no white space) gives the enhanced text `**x**` |
| AiHelper.AnalyzeSentiment | backend/src/services/ai-helper-service.js:63-98 | no model or short text gives null; a result has three truthy properties and comes from a model reply |
| AiHelper.AnalyzeSentimentDefaults | backend/src/services/ai-helper-service.js:84-92 | each property the model supplies is kept when truthy and replaced by its default otherwise |
| AiHelper.StripFencesIdentity | backend/src/services/ai-helper-service.js:84 | text without a backtick is unchanged |
| AiHelper.StripFencesNoFence | backend/src/services/ai-helper-service.js:84 | no three backticks remain in a row |
| AiHelper.JsonTextShape | backend/src/services/ai-helper-service.js:84 | the text given to `JSON.parse` has no fence and no white space at either end |
| AiHelper.FencedJsonUnwrapped | backend/src/services/ai-helper-service.js:84 | a reply in a `json` code fence around a body without backticks is unwrapped to that body |
| DocumentStore.LatestExists | backend/src/services/notification-service.js:15 | a non-empty set has a newest element |
| DocumentStore.NewestFirst | backend/src/services/notification-service.js:13-17 | `orderBy(…, "desc")`: every document exactly once, newest first |
| DocumentStore.NewestPrefix | backend/src/services/notification-service.js:16 | the first k of a newest-first order are the k newest |
| AuthService.SendVerificationLink | backend/src/services/auth-service.js:13-27 | after the mail is sent, `last_verification_sent_at` is stamped; a mail failure writes nothing |
| AuthService.Register | backend/src/services/auth-service.js:33-82 | a taken address gives 400 and a `createUser` failure gives 400, both without writing; otherwise the profile is written with nulls and `now`, and the link is sent |
| AuthService.LoginError | backend/src/services/auth-service.js:123-134 | bad credentials give 401, a disabled account 403, too many attempts 429, and anything else 500 |
| AuthService.Login | backend/src/services/auth-service.js:88-136 | a refused sign-in maps through `LoginError`; a missing profile gives 500 (the 404 is caught); otherwise `last_entry_at` is stamped and the tokens and user are returned |
| AuthService.LoginStatuses | backend/src/services/auth-service.js:123-134 | a failed login has status 401, 403, 429 or 500 |
| AuthService.LogoutIgnoresRevocation | backend/src/services/auth-service.js:142-152 | logout gives the same answer whether or not revocation failed |
| AuthService.GetMe | backend/src/services/auth-service.js:158-175 | a missing profile gives 404; otherwise the stored name, e-mail and dates |
| AuthService.ResendCheck | backend/src/services/auth-service.js:181-203 | 404 without a profile, 400 when already verified, 429 within 60 s of the last link; passes exactly otherwise |
| AuthService.SendVerificationEmail | backend/src/services/auth-service.js:181-211 | a failed check writes nothing; otherwise the link is sent and stamped |
| AuthService.ResendThrottle | backend/src/services/auth-service.js:195-203 | a link sent at t blocks resends for exactly the next 60 seconds |
| AuthService.RegisterStartsThrottle | backend/src/services/auth-service.js:195-203 | right after registering, a resend is refused |
| AuthService.VerificationCheck | backend/src/services/auth-service.js:217-243 | no token gives 400, a bad token 403, no profile 404, and an address mismatch 403; passes exactly otherwise |
| AuthService.VerifyEmail | backend/src/services/auth-service.js:217-269 | a verified account is reported and left as it is; otherwise `email_verified_at` and `updated_at` are set to now |
| AuthService.VerifyTwice | backend/src/services/auth-service.js:245-257 | verifying again changes nothing and reports the first time |
| AuthService.IssuedLinkVerifies | backend/src/services/auth-service.js:217-257 | a link issued for an account verifies it, after which a resend is refused |
| AuthService.ForgotPassword | backend/src/services/auth-service.js:274-303 | an unknown address gives 404; otherwise the token record for the address is replaced and mailed |
| AuthService.ResetCheck | backend/src/services/auth-service.js:308-347 | mismatch, bad token, address mismatch, missing or different stored token all give 400; no user gives 404; passes exactly otherwise |
| AuthService.ResetPassword | backend/src/services/auth-service.js:308-367 | a failed check or a failed Auth update writes nothing; a success deletes the token record |
| AuthService.ResetTokenSingleUse | backend/src/services/auth-service.js:326-362 | after a reset the same request is refused |
| AuthService.OnlyLatestResetToken | backend/src/services/auth-service.js:326-337 | a newer token for the address invalidates the older one |
| AuthService.IssuedResetTokenAccepted | backend/src/services/auth-service.js:282-347 | the token just issued, used with its address, passes every check |
| UserService.UpdateProfile | backend/src/services/user-service.js:13-40 | 404 without a profile; otherwise `updatedAt` is set, and `name` when given, and the new profile is returned |
| UserService.UpdatePassword | backend/src/services/user-service.js:47-78 | 404, then 401 for a wrong old password, then 400 for an update failure; succeeds exactly otherwise |
| UserService.DeleteAccount | backend/src/services/user-service.js:84-97 | an Auth failure gives 500 and writes nothing; otherwise only the profile is removed |
| UserService.SetFcmToken | backend/src/services/user-service.js:104-120 | 404 without a profile; otherwise the token and `updated_at` are set |
| UserService.FcmTokenEnablesReminder | backend/src/services/user-service.js:111-114 | registering a non-empty token is what makes an inactive user eligible for a reminder |
| NotificationService.PayloadOf | backend/src/services/notification-service.js:27-36 | JSON `null` is the only data the list cannot read; invalid JSON gives the fallback payload |
| NotificationService.View | backend/src/services/notification-service.js:38-44 | a view keeps id, `read_at` and `created_at`; its title and message are always truthy, with the stated fallbacks |
| NotificationService.InvalidDataView | backend/src/services/notification-service.js:33-35 | unparseable data shows as "Notification" / "Failed to load content" |
| NotificationService.Views | backend/src/services/notification-service.js:23-47 | the list fails exactly when one view fails; otherwise one view per id, in order |
| NotificationService.NewestListed | backend/src/services/notification-service.js:13-17 | the first k of the newest-first order: distinct, the user's own, descending, and no newer one left out |
| NotificationService.List | backend/src/services/notification-service.js:9-48 | the `min(limit, count)` newest of the user's notifications (default limit 50), newest first, with none left out newer than one listed, and their views |
| NotificationService.MarkAsRead | backend/src/services/notification-service.js:55-81 | a missing notification, or someone else's, gives 404 and changes nothing; otherwise `read_at` and `updated_at` are set to now |
| InactiveUsersJob.Reminder | backend/src/jobs/checkInactiveUsers.js:52-61 | the reminder record is addressed to the user, has type "reminder", and is unread |
| InactiveUsersJob.ReminderView | backend/src/jobs/checkInactiveUsers.js:37-61 | the notification list shows the reminder's title and body |
| InactiveUsersJob.Stamped | backend/src/jobs/checkInactiveUsers.js:63-65 | stamping keeps the set of users |
| InactiveUsersJob.EligibleAfterReminder | backend/src/jobs/checkInactiveUsers.js:31-35 | a reminded user becomes eligible again only after 24 hours |
| InactiveUsersJob.NoneEligibleAfterRun | backend/src/jobs/checkInactiveUsers.js:5-76 | a second run at the same time reminds nobody |
| InactiveUsersJob.Advance | backend/src/jobs/checkInactiveUsers.js:25-67 | one turn of the loop keeps the account of pushes, stamps, notifications and the count |
| InactiveUsersJob.RemindAll | backend/src/jobs/checkInactiveUsers.js:25-70 | the count is the number of eligible users; each gets one push, one notification and a stamp |
| InactiveUsersJob.CheckInactiveUsers | backend/src/jobs/checkInactiveUsers.js:5-76 | the users and notifications afterwards are exactly the stamped users and the old notifications plus the reminders |
| Calendar.MonthLength | backend/src/services/journal-service.js:113-115 | a month has 28 to 31 days, and 29 exactly for February of a leap year |
| Calendar.MarchToMarch | backend/src/services/journal-service.js:113-114 | a March-to-March year has 366 days exactly when it holds a leap day |
| Calendar.MonthStep | backend/src/services/journal-service.js:113-114 | the next month starts one month length later |
| Calendar.DaysInMonth | backend/src/services/journal-service.js:115 | between 28 and 31 |
| Calendar.MonthFirstDayStep | backend/src/services/journal-service.js:113-114 | month m+1 starts `DaysInMonth` days after month m, across year ends too |
| Calendar.PeriodStartDay | backend/src/services/journal-service.js:113 | the period starts at the first millisecond of the month's first day |
| Calendar.PeriodEndDay | backend/src/services/journal-service.js:114 | the period ends at the last millisecond before the next month |
| Calendar.PeriodSpan | backend/src/services/journal-service.js:113-115 | a period spans exactly its month's days, and the next period starts right after it |
| Calendar.YearOfEraRecovered | backend/src/services/journal-service.js:388-389 | within a 400-year era, the year formula of the UTC getters finds the year holding a day |
| Calendar.MonthOfYearRecovered | backend/src/services/journal-service.js:388-389 | the month and date formulas of the UTC getters invert the day count of each month |
| Calendar.CivilOfDay | backend/src/services/journal-service.js:388-389 | round trip: the UTC year, month and date of day `d` of month `m` of year `y` are `(y, m, d)` |
| Calendar.UtcDateInPeriod | backend/src/services/journal-service.js:370-389 | a `created_at` inside the period lies in the queried month, and `getUTCDate()` gives its day, between 1 and the month's length |
| JournalService.MatchAfterHost | backend/src/services/journal-service.js:41 | the capture is non-empty and one line long |
| JournalService.ObjectPathMatch | backend/src/services/journal-service.js:41-42 | a match captures a non-empty path |
| JournalService.ObjectPathOfPublicUrl | backend/src/services/journal-service.js:41-44 | the pattern recovers the key of a public URL whose key is one line |
| JournalService.PhotoKeyIsOneLine | backend/src/services/journal-service.js:35-38 | the photo key is one line when the uid is |
| JournalService.ImagePathRendersPhotoUrl | backend/src/services/journal-service.js:35-51 | the stored `image_path` renders, through `getGcsUrl`, back to the photo URL |
| JournalService.Owned | backend/src/services/journal-service.js:150-162 | succeeds exactly for an existing journal of the user; otherwise "not found" or "foreign" |
| JournalService.GetDetailJournal | backend/src/services/journal-service.js:150-163 | 404 for a missing journal, 403 for someone else's, otherwise the journal itself |
| JournalService.AnalysisOf | backend/src/services/journal-service.js:53-65 | a new journal's mood is the sentiment of its full text, or three nulls when there is none |
| JournalService.CreateJournal | backend/src/services/journal-service.js:14-100 | empty title gives 400; a failed upload gives 500, writes no document and keeps the uploads before it; otherwise the bucket gains the video and photo under their destination keys, the journal holds their public URLs, the image path, the given fields, null AI properties and the analysed mood, and `last_entry` is stamped when the user exists |
| JournalService.VideoKeyIsNotPhotoKey | backend/src/services/journal-service.js:27-38 | the video and the photo of one journal are stored under different keys |
| JournalService.UploadedUrlsNameTheirObjects | backend/src/services/journal-service.js:26-75 | the URLs a new journal stores are the URLs `deleteFromGCS` maps to exactly the objects holding its files, and no other object changes |
| JournalService.NoSentimentNoAnalysis | backend/src/services/journal-service.js:53-65 | without a model or a parseable reply the mood is three nulls |
| JournalService.Patched | backend/src/services/journal-service.js:189-226 | the given title and note replace the old ones, a new photo replaces the photo and image path, `updated_at` is now, and every other property is kept |
| JournalService.UpdateJournal | backend/src/services/journal-service.js:173-234 | 404 or 403 change nothing; the old photo is deleted before the upload; a failed upload gives 500 with the journal unchanged; otherwise the patched journal is stored |
| JournalService.DeleteJournal | backend/src/services/journal-service.js:241-270 | 404 or 403 change nothing; otherwise the video and photo are deleted and the journal is removed |
| JournalService.DeleteRemovesUploads | backend/src/services/journal-service.js:256-262 | deleting a journal removes exactly its two uploaded objects |
| JournalService.Chat | backend/src/services/journal-service.js:291-312 | missing and foreign journals give the same 404; an owned journal gets `{journal_id, question, reply}` with the answer given for it, and a thrown answer is passed on |
| JournalService.AnalyzeJournal | backend/src/services/journal-service.js:324-358 | the same 404 for missing and foreign; no insights gives 500; otherwise the four insight properties and `updated_at` are stored |
| JournalService.QueryMonth | backend/src/services/journal-service.js:118-123 | each journal of the period exactly once, newest first |
| JournalService.ListJournal | backend/src/services/journal-service.js:109-142 | the meta is the month, year, day count and period bounds; the data is the user's journals of the period, newest first |
| JournalService.FirstOn | backend/src/services/journal-service.js:388-396 | the index of the first journal on a day, with none earlier on that day |
| JournalService.FirstPerDayIsFirst | backend/src/services/journal-service.js:382-398 | the calendar holds exactly the days some journal falls on, each with the mood of the first such journal |
| JournalService.LatestMoodPerDay | backend/src/services/journal-service.js:375-398 | over newest-first data, each day shows its latest journal's mood |
| JournalService.GetMoodCalendar | backend/src/services/journal-service.js:366-405 | the year and month echoed back, and moods equal to `FirstPerDay` of the user's journals of the period, newest first |

## Left out

- Busboy's own parsing of the multipart framing is not modelled. The parser is given the sequence of events Busboy emits ('file', 'data', 'end', 'field', 'finish', 'error'), and the `WellFormed` guarantees are assumed of that sequence.
- The 50 MiB limits are kept only as constants. Busboy's truncation of an over-long file and multer's rejection of one are not modelled.
- The rate limiter's algorithm is not modelled. Its window (15 minutes) and maximum (100 requests) are kept as constants.
- Joi is modelled only for string rules on present or absent properties. Unknown keys, non-string values and the texts of the error messages are not modelled.
- Whether a string is an e-mail address is Joi's own test, taken as a parameter.
- `parseInt` is modelled only on its non-negative results. A `limit`, `month` or `year` that is not a number (NaN) is not modelled, and neither is a negative `limit`.
- JSON text is not parsed. A notification's `data` string is represented by what `JSON.parse` gives for it, and the sentiment reply is parsed by a parameter `parse`.
- Strings are sequences of characters. Lone surrogates and the exact UTF-16 encoding are not modelled, beyond lengths counted in code units.
- The services run sequentially. The concurrent `Promise.all` of the reminder job is a loop over the users in an unspecified order, which gives the same result because the users are independent.
- Each request or job run reads the clock once. Where the source calls `new Date()` several times in one request, all those reads are one value `now`.
- Timestamps are numbers, so the queries compare numbers. This agrees with the ISO-string order the code relies on only for years 0 to 9999.
- InactiveUsersJob.RemindAll requires distinct users to get distinct notification ids (`Injective`). This stands for the uniqueness of `uuidv4()`.
- `Date.UTC` is modelled without TimeClip. Dates beyond ±8.64e15 ms are not treated as invalid.
- `endDate.getDate()` in `listJournal` reads local time. The model reads it in UTC, and all dates are UTC.
- Several users sharing one e-mail address are modelled as a set. `resetPassword` and `forgotPassword` take "some" matching user, not Firestore's first.
- The number of users reminded is only logged by the job. The model returns it.
- Failures of Firestore writes and reads are not modelled: every store operation succeeds, except the `update` of a missing user document in `createJournal`, which fails with NOT_FOUND after the journal is written.
- `chatWithJournalContext` and `generateJournalInsights` are imported by journal-service.js but not exported by ai-helper-service.js, so they would be undefined at run time. The model treats them as outside services whose answers are parameters.
- The controllers, routes, error middleware and authentication middleware are not part of this model.
- The order of the photo update follows the code: the old photo is deleted before the new one is uploaded, so a failed upload leaves the journal pointing at a deleted object.
- DocumentStore.NewestFirst leaves the order of documents with equal timestamps open. Firestore breaks such ties by document id, so the lists and the mood calendar are modelled up to the order of entries created in the same millisecond.
- JournalService.AnalysisOf does not state the result for an empty title, which `createJournal` never reaches because it refuses an empty title first.
- A failed push delivery is only logged by the job. The model records the pushes that are sent and does not model a failure to deliver.
- The texts of the e-mails and the exact form of the verification and reset links are not modelled. Only the fact that a link is mailed, and the resulting store writes, are modelled.
- Firebase Auth, the Identity Toolkit sign-in and token signing and verification are outside services. Their answers are parameters.
- Revoking refresh tokens is not modelled. `logout` only logs a failure to revoke, and `resetPassword` counts a failed revocation as a failed password update (its `authError`).
- The e-mail service, the Firebase initialisation and the Gemini client set-up are not part of this model.
