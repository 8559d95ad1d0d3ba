# Serendipity decision rules in Dafny

Serendipity is a small student-events web application. It has a React front
end and a Flask/MongoDB back end. This project models the parts of it that
make decisions, with the browser, the database server, the clock, randomness
and cryptography turned into parameters:

- **Create-event modal** (`CreateEvent.js`), in `create_event.dfy`. It covers
  the form state and its change handlers, the checkbox toggle, clearing an
  error when its field is edited, the required-field validator and its error
  map, the stock-image fallback for a blank image URL, the 24-hour to 12-hour
  time formatter, and the request payload with its `", "`-joined selections.
  The modal is a class whose methods update `formData`, `errors` and
  `isSubmitting`. The pure rules are functions with lemmas. `Math.random` is
  a nondeterministic choice of a stock image.
- **Signup wizards** (`Signup.js`, the routed one, and `Signup2.js`), in
  `signup_form.dfy`, `signup.dfy` and `signup2.dfy`. Each is a four-step
  state machine: a guard per step, Next/Back, an interest toggle and a final
  submit that re-validates the current step. `Signup2` adds a
  case-insensitive `.edu` email check and the `emailValid` flag that tracks
  the email. Driving a wizard through the buttons it renders keeps `step` in
  1..4.
- **Small helpers**:
  - `getGradYear` (`UserProfileModal.js`), in `grad_year.dfy`, with the
    current year as a parameter. None of the grade levels either wizard offers
    is a key of its table, so every profile created through signup shows
    'Graduate'.
  - The `ProgressBar` layout, in `progress_bar.dfy`. It places numbered
    circles, each completed, current or pending, with an arrow between
    neighbours.
- **Back end** (`app.py`), in `auth_api.dfy`. It covers the `token_required`
  gate, and the `signup` and `login` routes over a users collection. A
  password hash remembers the password it was made from. An issued JWT is
  represented by its claims, and `jwt.decode` is a parameter of the gate. The
  body the signup pages post has `first_name`/`last_name` but no `name`, so
  this `signup` route answers 400 to every such request. Both sides are
  modelled as written; the lemma `AuthApi.FrontendSignupRejected` states the
  mismatch.
- **Maintenance scripts** over the `events` and `users` collections, in
  `mongo.dfy`, `migrate_host_ids.dfy`, `assign_seed_events.dfy`,
  `fix_seed_events.dfy` and `seed_events.dfy`:
  - the collections are sequences of documents in natural order, held by a
    `Database` object the scripts modify;
  - prompt answers are parameters;
  - ids that the server assigns on insert are parameters.

Shared building blocks:

- `text.dfy` models the string built-ins the code relies on:
  - JavaScript `trim` and Python `strip`, with their two different
    white-space sets;
  - ASCII lower-casing;
  - `join(', ')` and its inverse;
  - `split(' ', 1)`;
  - decimal numerals and Python `int()`.
- `lists.dfy` models the add-if-absent / remove-all-if-present toggle.
- `json.dfy` models JSON request bodies and Python truthiness.
- `bson.dfy` models object ids and their 24-digit hex form.

## Model

| member | source | states |
|---|---|---|
| Text.Strip | frontend/src/components/CreateEvent.js:129-135 | `trim()`/`strip()` result is the slice after the leading white space, only white space follows it, it is empty iff the input is all white space, and a non-empty result has no white space at either end |
| Text.JoinSplitRoundTrip | frontend/src/components/CreateEvent.js:176-177 | splitting a `join(', ')` of comma-free elements at ", " gives the list back, in order |
| Text.SplitOnce | backend/migrate_add_host_ids.py:45 | `split(' ', 1)`: one part when the separator is absent; otherwise two parts, the first free of the separator, that rebuild the input around the first separator |
| Text.Decimal | backend/fix_seed_events.py:52 | the numeral has at least one character, all decimal digits, and a single digit exactly for values below 10 |
| Text.DecimalValue | backend/fix_seed_events.py:52 | reading a decimal numeral gives its number back |
| Text.PyIntOfDecimal | backend/fix_seed_events.py:52 | `int()` of a non-negative numeral is its value |
| Text.PyIntOfNegDecimal | backend/fix_seed_events.py:52 | `int()` of "-" followed by a numeral is the negated value |
| Text.PyIntShape | backend/fix_seed_events.py:52 | `int()` accepts only, after stripping, an optional sign followed by digits and underscores that ends in a digit |
| Text.JsLength | frontend/src/components/Signup.js:50 | `.length` counts UTF-16 units: between one and two per character |
| Lists.WithoutCounts | frontend/src/components/CreateEvent.js:88 | `filter(v => v !== value)` leaves no occurrence of the value and keeps every other value's multiplicity |
| Lists.WithoutLength | frontend/src/components/CreateEvent.js:88 | the filter is the identity when the value is absent and shortens the list when it is present |
| Lists.WithoutAppend | frontend/src/components/CreateEvent.js:88 | the filter distributes over concatenation, so the kept elements stay in order |
| Lists.Toggle | frontend/src/components/CreateEvent.js:84-91 | membership flips; an absent value is appended at the end after the unchanged list; a present value loses all occurrences; other values keep their multiplicities |
| Lists.ToggleTwiceAbsent | frontend/src/components/CreateEvent.js:84-91 | toggling an absent value twice restores the list |
| Lists.ToggleTwicePresent | frontend/src/components/CreateEvent.js:84-91 | toggling a present value twice moves a single copy to the end |
| CreateEvent.WithText | frontend/src/components/CreateEvent.js:75-77 | `{...prev, [name]: value}` sets that field and leaves every other field and both lists unchanged |
| CreateEvent.WithList | frontend/src/components/CreateEvent.js:84-90 | the checkbox update sets that list and leaves the other list and every text field unchanged |
| CreateEvent.ClearError | frontend/src/components/CreateEvent.js:79-81 | afterwards the field has no error; the key set is the same; other entries are unchanged; no change when no error was set |
| CreateEvent.RequiredMessage | frontend/src/components/CreateEvent.js:129-137 | every validation message is non-empty |
| CreateEvent.CheckFields | frontend/src/components/CreateEvent.js:127-138 | the fresh map's keys are exactly the checked fields that fail, each with its message |
| CreateEvent.FormErrors | frontend/src/components/CreateEvent.js:127-139 | `newErrors` holds exactly the failing required fields, each with a non-empty message |
| CreateEvent.ValidateFormIff | frontend/src/components/CreateEvent.js:126-140 | `validateForm` is true iff title/description/location are non-blank after trim, category/date/times are non-empty and both lists are non-empty; the new map never has `submit` |
| CreateEvent.HourOf | frontend/src/components/CreateEvent.js:158-159 | the parsed hour of a time-input value is at most 23 |
| CreateEvent.TwelveHour | frontend/src/components/CreateEvent.js:161 | `hour % 12 \|\| 12` lies in 1..12 and agrees with the hour modulo 12 |
| CreateEvent.FormatTimeRoundTrip | frontend/src/components/CreateEvent.js:157-162 | the display text reads back as the 12-hour hour, the verbatim minutes, and "PM" exactly for hours 12..23, and that reading converts back to the original hour |
| CreateEvent.TwelveHourBack | frontend/src/components/CreateEvent.js:158-161 | the 12-hour hour together with AM/PM identifies the 24-hour hour |
| CreateEvent.FormatTimeExamples | frontend/src/components/CreateEvent.js:157-162 | "00:15" → "12:15 AM", "12:00" → "12:00 PM", "23:59" → "11:59 PM" |
| CreateEvent.StockFor | frontend/src/components/CreateEvent.js:117 | a listed category's three stock images; any other string, the empty placeholder included, gives the Sports images (inherited object keys excepted, see "## Left out") |
| CreateEvent.ValidateImageUrl | frontend/src/components/CreateEvent.js:116-123 | a blank or white-space URL yields one of the category's stock images (Sports' for a category not in the table, inherited object keys excepted, see "## Left out"); any other URL yields its trimmed form |
| CreateEvent.PayloadSelectionsRoundTrip | frontend/src/components/CreateEvent.js:167-179 | the joined `school_years`/`genders` strings split back into the selections in selection order |
| CreateEvent.CreateEventModal.constructor | frontend/src/components/CreateEvent.js:56-69 | starts with the empty form, no errors and not submitting |
| CreateEvent.CreateEventModal.HandleChange | frontend/src/components/CreateEvent.js:75-82 | only the named field changes; only that field's error is cleared, and only if it was set; the category holds only "" or a listed category |
| CreateEvent.CreateEventModal.HandleCheckboxChange | frontend/src/components/CreateEvent.js:84-95 | the named list is toggled and nothing else in the form changes; only that field's error is cleared |
| CreateEvent.CreateEventModal.ValidateForm | frontend/src/components/CreateEvent.js:126-141 | the error map is replaced by the failing fields; the result is true iff the form is complete |
| CreateEvent.CreateEventModal.HandleSubmit | frontend/src/components/CreateEvent.js:143-229 | an incomplete form sends nothing; otherwise the payload is sent with the chosen image and `isSubmitting` ends false; success resets the form to all-empty; failure keeps the form and replaces the error map with the single `submit` message |
| SignupForm.WithField | frontend/src/components/Signup.js:23-24 | `{...prev, [field]: value}` sets one field and leaves every other field and the interests unchanged |
| SignupForm.ToggleInterest | frontend/src/components/Signup.js:28-35 | the interest's membership flips, other interests keep their multiplicities, no other field changes |
| Signup.StepError | frontend/src/components/Signup.js:37-72 | step 1 passes iff both names are set; step 2 iff email and password are set and the password has at least 6 UTF-16 units; step 3 iff gender, school and grade are set; step 4 iff an interest is chosen; other steps pass; every message is non-empty |
| Signup.Wizard.constructor | frontend/src/components/Signup.js:7-19 | starts at step 1 with the empty form and no error |
| Signup.Wizard.HandleChange | frontend/src/components/Signup.js:23-26 | sets exactly one field and clears the error |
| Signup.Wizard.HandleInterestToggle | frontend/src/components/Signup.js:28-35 | applies the interest toggle |
| Signup.Wizard.ValidateStep | frontend/src/components/Signup.js:37-72 | true iff the current step's guard passes; the error becomes the first failing message, or "" |
| Signup.Wizard.HandleNext | frontend/src/components/Signup.js:74-78 | the step advances by one iff the guard passes, else stays |
| Signup.Wizard.HandleBack | frontend/src/components/Signup.js:80-83 | clears the error and decrements the step |
| Signup.Wizard.HandleSubmit | frontend/src/components/Signup.js:85-122 | no request when the current step's guard fails; otherwise the posted body is the form's, the error is the reply's message ("Signup failed" when it has none) and `loading` ends false |
| Signup.Wizard.Press | frontend/src/components/Signup.js:281-300 | a button not rendered at the current step changes no field and sends nothing; Back runs `handleBack`, Next runs `handleNext` and the submit button runs `handleSubmit`, each with that handler's effect on step, error and loading; the form is never changed; the step stays within 1..4; only the submit button at step 4 sends (implicit Enter-key submission at step 3 is not modelled) |
| Signup2.ValidateEmail | frontend/src/components/Signup2.js:46-48 | true iff the email ends with "." followed by e/E, d/D, u/U |
| Signup2.StepError | frontend/src/components/Signup2.js:50-89 | step 2 passes iff both fields are set, `emailValid` holds and the password has at least 6 UTF-16 units, and reports the first failure: the credentials message, then the `.edu` message, then the password-length message; every other step is as in the first wizard |
| Signup2.StricterThanSignup | frontend/src/components/Signup2.js:58-71 | with `emailValid` tracking the email, a step passes iff it passes in the first wizard and, at step 2, the email is a `.edu` address |
| Signup2.Wizard.constructor | frontend/src/components/Signup2.js:9-25 | starts at step 1, empty form, no error, `emailValid` false and consistent with the email |
| Signup2.Wizard.HandleChange | frontend/src/components/Signup2.js:27-34 | sets one field and clears the error; `emailValid` is recomputed for the email field only and keeps tracking the email |
| Signup2.Wizard.HandleInterestToggle | frontend/src/components/Signup2.js:36-43 | applies the interest toggle |
| Signup2.Wizard.ValidateStep | frontend/src/components/Signup2.js:50-89 | true iff the step's guard passes with the `.edu` check; the error is the first failing message, or "" |
| Signup2.Wizard.HandleNext | frontend/src/components/Signup2.js:91-95 | the step advances by one iff the guard passes, else stays |
| Signup2.Wizard.HandleBack | frontend/src/components/Signup2.js:97-100 | clears the error and decrements the step |
| Signup2.Wizard.HandleSubmit | frontend/src/components/Signup2.js:102-139 | re-validates the current step and sends nothing when it fails; otherwise posts the form's body and records the reply's error |
| Signup2.Wizard.Press | frontend/src/components/Signup2.js:292-319 | a button not rendered changes no field (`emailValid` included) and sends nothing; each rendered button has its handler's effect, with the `.edu` check of the current email at the account step; the step stays within 1..4 and `emailValid` consistent |
| GradYear.YearsUntilGrad | frontend/src/components/UserProfileModal.js:51-58 | at most 4 years, and positive exactly for Freshman, Sophomore, Junior and Senior |
| GradYear.GetGradYear | frontend/src/components/UserProfileModal.js:49-60 | Freshman → year+4, Sophomore → +3, Junior → +2, Senior → +1, anything else (Graduate included) → 'Graduate'; a returned year lies strictly after the current year and at most 4 after it |
| GradYear.YearDeterminesLevel | frontend/src/components/UserProfileModal.js:51-59 | within one current year, a returned year identifies the grade level |
| GradYear.SignupLevelsShowGraduate | frontend/src/components/UserProfileModal.js:51-59 | every grade level offered at signup ("9th Grade" … "College Senior") gives 'Graduate' |
| ProgressBar.StepStatus | frontend/src/components/ProgressBar.js:13-15 | completed iff the step number is below `currentStep`, current iff equal, pending iff above; exactly one holds |
| ProgressBar.LabelAt | frontend/src/components/ProgressBar.js:44 | a label is shown iff a labels array is given and holds a non-empty string at that index |
| ProgressBar.RenderFromLayout | frontend/src/components/ProgressBar.js:12-66 | fragments from a given step on: circles at even positions numbered in order, arrows at odd positions |
| ProgressBar.RenderLayout | frontend/src/components/ProgressBar.js:12-66 | `2 * totalSteps - 1` fragments; step k sits at position 2(k-1), numbered k; an arrow follows every step but the last |
| ProgressBar.RenderFromCounts | frontend/src/components/ProgressBar.js:58 | the fragments from step `from + 1` on hold one arrow fewer than steps, and one current circle iff `currentStep` is among them |
| ProgressBar.CountsAppend | frontend/src/components/ProgressBar.js:12 | arrow and current counts add over concatenation |
| ProgressBar.RenderCounts | frontend/src/components/ProgressBar.js:14-15 | exactly `totalSteps - 1` arrows; exactly one current step when `currentStep` is in 1..totalSteps, none otherwise |
| ProgressBar.CompletedSteps | frontend/src/components/ProgressBar.js:13-15 | with `currentStep` in range, the completed circles are exactly steps 1..currentStep-1 |
| Bson.HexDigit | backend/app.py:68 | a lower-case hex digit whose value is the input |
| Bson.Hex | backend/app.py:68 | two lower-case hex digits per byte |
| Bson.ParseObjectId | backend/app.py:33 | accepts exactly the strings of 24 hex digits of either case, giving the id they spell |
| Bson.ParseIdString | backend/app.py:33 | `ObjectId(str(id)) == id` |
| Bson.IdStringOfParse | backend/app.py:33 | `str(ObjectId(s))` is `s` lower-cased |
| Json.Get | backend/app.py:48 | an absent key reads as `None` |
| AuthApi.Claims | backend/app.py:67-70 | the token carries the user's id as text and expires 604800 s (7 days) after issue |
| AuthApi.PublicUser | backend/app.py:75-79 | the reply's user has id, name and email, never the password |
| AuthApi.FindByEmail | backend/app.py:52 | no result iff no user has that email; a result is a stored user with that email |
| AuthApi.FindById | backend/app.py:33 | no result iff no user has that id; a result is a stored user with that id |
| AuthApi.StripBearer | backend/app.py:30-31 | a "Bearer " prefix loses its 7 characters; any other value is used as-is |
| AuthApi.StripBearerOnce | backend/app.py:30-31 | the prefix is removed once only |
| AuthApi.TokenGate | backend/app.py:21-41 | a missing or empty header gives "Token is missing"; a token that fails to decode, lacks `user_id`, or has a `user_id` that is neither null nor a hex id gives "Token is invalid"; a null `user_id`, or a hex id no stored user has, gives "User not found"; a hex id of a stored user reaches the route with that user |
| AuthApi.IssuedTokenOpensGate | backend/app.py:30-39 | a "Bearer " header carrying a token issued for a stored user reaches the route with that user |
| AuthApi.SignupSpec | backend/app.py:43-80 | 400 iff email, password or name is missing or falsy; 409 iff they are present and the email is taken; 201 iff they are present, the email is free and the password is a string; 500 iff only the password's type fails hashing; nothing is stored unless 201; 201 appends exactly one user holding name, email and the hashed password, and returns the token claims and the public user |
| AuthApi.Login | backend/app.py:82-107 | 400 iff email or password is missing or falsy; 401 iff the email is unknown or a string password does not match, with the same "Invalid credentials" message in both cases; 200 iff the email is stored and a string password matches its hash, with that user's token claims and public user; 500 iff the email is stored and the password is not a string |
| AuthApi.LoginAfterSignup | backend/app.py:56-97 | after a successful signup, logging in with the same email and password succeeds for the new user |
| AuthApi.FindAppended | backend/app.py:52 | a newly appended user is found by email when the email was free |
| AuthApi.FrontendSignupRejected | backend/app.py:48-49 | the signup pages' body (no `name`) always gets 400 and stores nothing |
| AuthApi.UserStore.Signup | backend/app.py:43-80 | the route as a store update: reply and new user list are those of `SignupSpec`, and emails and ids stay unique |
| AuthApi.UniqueEmailLookup | backend/app.py:89 | in a store with unique emails, `find_one` by a stored user's email returns that user |
| AuthApi.LoginStoredUser | backend/app.py:82-107 | in a store with unique emails, every stored user logs in with their own password and gets a token for their own id |
| Mongo.Get | backend/migrate_add_host_ids.py:30 | `doc.get(key)` is `None` for a missing field |
| Mongo.SetFields | backend/migrate_add_host_ids.py:57-60 | `$set` overwrites or adds the given fields, keeps the id and every other field |
| Mongo.CountNull | backend/assign_seed_events_to_user.py:21 | the count is 0 iff no document has a missing or null value for the key |
| Mongo.UpdateManyNull | backend/assign_seed_events_to_user.py:42-50 | matching documents get the new fields, the others are unchanged, order and length kept |
| Mongo.UpdateClearsNull | backend/assign_seed_events_to_user.py:42-50 | after setting the key to a non-null value, no document matches `{key: None}` |
| Mongo.DeleteManyNull | backend/fix_seed_events.py:76 | removes exactly the matching documents: the survivors all fail the filter, every non-matching document survives, the length drops by the match count |
| Mongo.InsertMany | backend/seed_events.py:174 | the existing documents are kept in front, then the new ones in order with their assigned ids |
| MigrateHostIds.ParseHostName | backend/migrate_add_host_ids.py:45-47 | a name exists iff the stripped host contains a space; first + " " + last rebuilds the stripped host, the first name has no space |
| MigrateHostIds.FindUserByName | backend/migrate_add_host_ids.py:50-53 | none iff no user has both names; otherwise the first such user |
| MigrateHostIds.ClassifyCases | backend/migrate_add_host_ids.py:29-72 | one iff per branch: skipped iff `host_id` is truthy; otherwise no-host iff `host` is falsy, a strip error iff it is not text, a parse error iff the stripped name has no space, a missing-user error iff no user has both names, and an update iff one does, with the first such user's id |
| MigrateHostIds.MigrateEventEffect | backend/migrate_add_host_ids.py:55-68 | skipped and error events are unchanged; an update changes only `host_id`, to `str(user id)` |
| MigrateHostIds.MigrateEventIdempotent | backend/migrate_add_host_ids.py:28-72 | running the migration again changes nothing |
| MigrateHostIds.TalliesPartition | backend/migrate_add_host_ids.py:74-78 | updated + skipped + errors equals the number of events |
| MigrateHostIds.MigrateAll | backend/migrate_add_host_ids.py:28-72 | each event becomes its own migrated version, order and length kept |
| MigrateHostIds.CountsStep | backend/migrate_add_host_ids.py:31-72 | each event adds one to exactly the tally of its outcome |
| MigrateHostIds.MigrateHostIdsLoop | backend/migrate_add_host_ids.py:18-78 | the loop leaves every event migrated and returns the three tallies, which sum to the number of events |
| AssignSeedEvents.HostFields | backend/assign_seed_events_to_user.py:36-47 | the `$set` document gives `host_id` a non-null value |
| AssignSeedEvents.AssignAll | backend/assign_seed_events_to_user.py:42-50 | events with a `host_id` are untouched; host-less ones get the user's id and "first last" name and keep every other field; afterwards none lacks a `host_id` |
| AssignSeedEvents.Assign | backend/assign_seed_events_to_user.py:17-53 | no change when no event lacks a host or there is no user; otherwise the host-less events go to the first user and none lacks a `host_id` afterwards |
| FixSeedEvents.Offered | backend/fix_seed_events.py:39 | the first five users, or all of them when fewer |
| FixSeedEvents.PyIndex | backend/fix_seed_events.py:52 | Python indexing: defined exactly for -len..len-1, negative indexes count from the end |
| FixSeedEvents.SelectUser | backend/fix_seed_events.py:49-70 | a user is selected iff `int()` accepts the answer and the index it gives is within Python's range for the list, and then it is one of the offered users; otherwise the selection is invalid |
| FixSeedEvents.SelectRejectsNonNumeric | backend/fix_seed_events.py:51-70 | an answer with a character no integer literal contains selects nobody |
| FixSeedEvents.SelectRejectsOutOfRange | backend/fix_seed_events.py:51-70 | a number beyond the list length, or its negation, selects nobody |
| FixSeedEvents.SelectListedUser | backend/fix_seed_events.py:49-52 | typing k for 1 ≤ k ≤ len selects the k-th listed user |
| FixSeedEvents.NonPositiveSelectsFromEnd | backend/fix_seed_events.py:51-52 | "0" or "-k" within range is accepted and selects the user k+1 places from the end |
| FixSeedEvents.Fix | backend/fix_seed_events.py:17-82 | nothing happens without host-less events; choice "1" with a valid selection assigns exactly the host-less events to that user; choice "2" deletes them iff the stripped, lower-cased confirmation is "yes"; every other path changes nothing |
| SeedEvents.WithOrganizer | backend/seed_events.py:166-168 | `organizer_id` becomes the user's id and `rsvp_attendees` exactly `[id]`; every other field is unchanged |
| SeedEvents.OrganizerAttends | backend/seed_events.py:168 | the organizer is among the attendees |
| SeedEvents.Seed | backend/seed_events.py:157-174 | with no user nothing is changed or inserted; otherwise every sample gets the first user as organizer and attendee and all samples are appended in one batch |

## Left out

- Rendering, CSS, routing and navigation are not modelled. This includes `login`/`navigate` after signup, `onEventCreated`/`onClose`, the profile fetch in `UserProfileModal.js`, and everything in the context files. They are presentation or network calls with no decision in them.
- `fetch` and the HTTP exchange are not modelled. A reply is one of a few outcomes passed in as a parameter, such as `Created`/`Failed` or `Accepted`/`Refused`/`Thrown`. React's batching of state updates is modelled as sequential assignment.
- `CreateEvent.CreateEventModal.HandleChange` requires a time field to receive "" or an "HH:MM" value, which is what an `<input type="time">` delivers. It requires the category to receive "" or one of the nine categories, which is what the `<select>` delivers. Other text fields accept any string.
- CreateEvent.StockFor: a category that is an inherited JavaScript object key (`"constructor"`, `"toString"`, `"__proto__"` …) is not modelled. In the source, `CATEGORY_STOCK_IMAGES[category]` is then truthy, indexing it gives `undefined`, and no `image_url` is sent. Here any string outside the table gets the Sports images. The modal never reaches this case, because its category holds only "" or a listed category.
- Browser constraint validation of the form (`required`, and the date input's `min` of today) is not modelled. In the browser it can block the submit event before `handleSubmit` runs. `CreateEvent.CreateEventModal.HandleSubmit` sends for any non-empty date.
- Implicit form submission by the Enter key is not modelled. It can run `handleSubmit` at a step with no submit button, for example step 3 of `Signup.js`. `Signup.Wizard.HandleSubmit` itself is specified for any step.
- The stock image URLs are not modelled. `CATEGORY_STOCK_IMAGES` is a parameter of shape nine categories × three URLs, because the URLs are fixture data. `Math.random` is a nondeterministic choice among them.
- `getGradYear` lookups of inherited object keys (`"constructor"`, `"toString"` …) are not modelled separately. They reach the same 'Graduate' result as any other unknown level.
- `new Date().getFullYear()` and `datetime.utcnow()` are not read. They are parameters: `currentYear` and `now`, in seconds.
- Case mapping is ASCII-only (`Text.Lower`). This is exact for the `.edu` check and the "yes" confirmation, since only ASCII letters lower-case to those letters. Python `int()` is modelled for ASCII digits only.
- Werkzeug hashing and PyJWT signing are not modelled. `check_password_hash` accepts exactly the hashed password, so collisions are out. An issued token is represented by its claims. Decoding, including signature and expiry checks, is a parameter.
- Bson.ParseObjectId: pymongo's `ObjectId` decodes a 24-character string with `bytes.fromhex`, which also skips ASCII whitespace between digit pairs. Such strings are rejected here. In the token gate, the malformed id they produce fails inside the same bare `except`, so the answer is "Token is invalid" either way.
- `AuthApi.TokenGate`: `ObjectId(None)` in the source generates a new id. The model assumes that id is never a stored user's, which is always true in practice.
- AuthApi.UserStore.Signup: requests are modelled as running one at a time, each atomically. The source checks the email with `find_one` and then calls `insert_one`, and creates no unique index on `email`. So under the threaded server two concurrent signups with the same free email can both succeed. The uniqueness of emails kept by `AuthApi.UserStore`, and the lemmas `AuthApi.UniqueEmailLookup` and `AuthApi.LoginStoredUser` that rely on it, hold only for sequential requests.
- AuthApi.Login: every stored user is assumed to carry `name`, `email` and `password`, as `signup` writes them. In the source, a user document without `password` or `name` (for example one written by another tool with `first_name`/`last_name` only) makes the route raise `KeyError` and answer 500. `AuthApi.LoginStoredUser` has the same assumption.
- JSON numbers are modelled as integers (`Json.JNum`). Fractional numbers are not modelled. They would change no outcome here: truthiness is "non-zero" either way, and any non-string password is the same 500.
- Request bodies that are not JSON objects are not modelled, nor are Flask's 400/415 answers for them.
- Mongo query operators are not modelled. Email or name values that are embedded documents (`{'$ne': …}`) or arrays are matched here by plain equality.
- The `{key: None}` filter's match on arrays containing null is not modelled.
- Each script's connection handling, `print` output and exit code are not modelled.
- Cursor isolation while `migrate_host_ids` updates the collection it iterates is not modelled.
- Database errors are not modelled, in particular the broad `except` around `seed_events.py` and `migrate_add_host_ids.py`. Only the `AttributeError` of a non-string `host` is modelled, as the `NotText` outcome.
- The contents of `sample_events` are a parameter, since they are fixture data.
- `MigrateHostIds.MigrateHostIdsLoop` rewrites the event at the loop position. The source's `update_one` selects by `_id`, which MongoDB keeps unique within a collection.
