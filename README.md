# CareSync core in Dafny

CareSync maps NAMASTE diagnosis codes (Ayurveda, Siddha, Unani) to ICD-11
and keeps patient records that can be exported as FHIR bundles. This project
models the core of CareSync and proves properties of that model:

- the three Express route files of the server:
  - code search and lookup (`CodeSearch`)
  - the in-memory patient store with its FHIR export (`PatientStore`)
  - the OTP sign-up and login flow (`OtpAuth`)
- the client's page logic:
  - the patient detail page: diagnoses, history, FHIR export, "last updated" (`PatientDetail`)
  - the patient list: search, create, delete, chart series, statistics (`PatientList`)
  - the admin page: codes, users, coverage percentages, CSV download (`Admin`)
  - the rule-based chatbot (`Chatbot`)
  - the translation lookup `t` (`Translations`, `I18n`, `I18nFacts`)

Shared modules:

- `Text`: ASCII lower-casing, substring search, split and join, decimal printing, and the part of `Number()` the code relies on.
- `Seqs`: `filter`, `count` and `find` over sequences, with their characterising lemmas.
- `Request`: the JSON field shape a handler receives.
- `Fhir`: the FHIR Bundle, Patient and Condition shapes that the server and client exports share.

Each route handler is a function from its parsed request (and, where the
handler keeps state, the server's state) to a status and a body. A module-level
store that a handler changes in place is a class:

- `PatientStore.Store` for the `patients` Map
- `OtpAuth.OtpServer` for `otpStore`

Each React page is a class:

- its `useState` variables are fields
- each event handler is a method that reassigns them

The clock (`Date.now()`, `new Date().toISOString()`) and `Math.random()` are
parameters (`now`, `nowIso`, `random` with `0 <= random < 1`). So are the
calls into code outside this model:

- the e-mail validator, whose result is `isEmail`
- the Supabase users table, given as a map
- bcrypt, as `matches` and `hashed`
- the row insert, as `InsertOutcome`
- the mailer, as `mailSent`

## Model

| member | source | states |
|---|---|---|
| CodeSearch.ParseQuery | server/routes/codes.ts:62-66 | A query is accepted exactly when `q` is not repeated, the category is absent or one of the three names, and the limit is absent or a single value that `Number()` reads as a finite number. `q` and the category are kept as given, a missing limit becomes 10 and a given one is its `Number()` value. |
| CodeSearch.HandleSearchCodes | server/routes/codes.ts:68-100 | The handler answers 400 exactly when the query does not parse. Otherwise `total` is the number of results, and it never exceeds a non-negative limit. |
| CodeSearch.SearchIn | server/routes/codes.ts:74-89 | The results are the entries the whole query selects, in table order, cut where `slice(0, limit)` cuts. |
| CodeSearch.StagedFiltersAreSelection | server/routes/codes.ts:74-87 | The text filter followed by the category filter selects exactly the entries that satisfy both at once, in table order. |
| CodeSearch.SearchIsSelectionPrefix | server/routes/codes.ts:89 | With a limit `n >= 0`, the results are the first `min(n, count)` selected entries. |
| CodeSearch.NegativeLimitDropsFromEnd | server/routes/codes.ts:89 | A negative limit `-k` (the `slice(0, -k)` case) drops the last `k` selected entries, or all of them when there are fewer. |
| CodeSearch.SearchSound | server/routes/codes.ts:74-89 | Every result comes from the table. It contains the lower-cased term in one of its four text fields when a non-empty `q` is given, and it has the requested category. |
| CodeSearch.SearchComplete | server/routes/codes.ts:74-89 | When the limit covers the table, every table entry that matches the term and the category is returned. |
| CodeSearch.UnfilteredSearchIsTablePrefix | server/routes/codes.ts:89 | With no (or an empty) `q` and no category, the results are a prefix of the table. |
| CodeSearch.DefaultSearchIsWholeTable | server/routes/codes.ts:19-100 | A request without parameters returns all five codes, with total 5. |
| CodeSearch.UnknownCategoryIsRejected | server/routes/codes.ts:64 | A category outside the three names answers 400, whatever the other parameters. |
| CodeSearch.WordIsNotANumber | server/routes/codes.ts:65 | `Number("ten")` is NaN. |
| CodeSearch.UnreadableLimitIsRejected | server/routes/codes.ts:65 | A limit that does not read as a number (NaN) answers 400. |
| CodeSearch.LookupIn | server/routes/codes.ts:105-110 | Not found exactly when no entry has the code. Otherwise the result is the first entry with exactly that code. |
| CodeSearch.HandleGetCodeByNamaste | server/routes/codes.ts:102-116 | 404 exactly when no mock code carries the NAMASTE code; otherwise a mock entry with that code. |
| CodeSearch.LookupIsCaseSensitive | server/routes/codes.ts:102-116 | `AYR-001` finds the first mock code, and `ayr-001` answers 404. |
| Text.NumberOfDecimal | server/routes/codes.ts:65 | A string of decimal digits reads as its value. |
| Text.NumberOfNegativeDecimal | server/routes/codes.ts:65 | A minus sign followed by decimal digits reads as the negative value. |
| Text.LowerIdempotent | server/routes/codes.ts:75 | Lower-casing twice is lower-casing once. |
| Text.DecimalInjective | server/routes/patients.ts:85 | Distinct clock readings print distinct decimal strings, so distinct `P<now>` ids. |
| Fhir.PatientReference | server/routes/patients.ts:201 | The reference is `Patient/` followed by the id. |
| Fhir.PatientReferenceInjective | server/routes/patients.ts:201 | Two patients with different ids never share a reference. |
| PatientStore.ParseCreatePatient | server/routes/patients.ts:68-73 | The body is accepted exactly when both names are strings, the birth date is absent or a string, and the gender is absent or one of the three values `male`, `female` and `other`. |
| PatientStore.ParseAddDiagnosis | server/routes/patients.ts:75-79 | The body is accepted exactly when code, ICD-11 code and description are all strings, and those are the values kept. |
| PatientStore.ExportBundle | server/routes/patients.ts:178-207 | The bundle has one Patient entry followed by one Condition per diagnosis. |
| PatientStore.DistinctCardinality | server/routes/patients.ts:132-139 | A duplicate-free id list has as many ids as the store has keys, so `total` counts patients. |
| PatientStore.Store.constructor | server/routes/patients.ts:36-66 | The store starts with the one seeded patient `P001`. |
| PatientStore.Store.CreatePatient | server/routes/patients.ts:81-114 | Answers 400 and leaves the store unchanged exactly when the body is invalid. Otherwise it stores under `P<now>` a record with the given names and no diagnoses. The key goes to the end of the insertion order unless it was already present (Map semantics). |
| PatientStore.Store.GetPatient | server/routes/patients.ts:116-130 | Answers 404 exactly when the id is absent; otherwise returns the stored record. |
| PatientStore.Store.ListPatients | server/routes/patients.ts:132-139 | Returns every stored record once, in insertion order, with `total` equal to the number of patients. |
| PatientStore.Store.AddDiagnosis | server/routes/patients.ts:141-166 | An invalid body answers 400 before the patient is looked up, and an unknown patient answers 404; neither changes anything. Otherwise the diagnosis dated with today's date is appended to that patient alone and the record's `updatedAt` is set. |
| PatientStore.Store.ExportFhir | server/routes/patients.ts:168-213 | Answers 404 exactly for an unknown id. Otherwise the bundle is a `document` with the Patient first, then one Condition per diagnosis in order. Each Condition carries the id `C<stamp(i)>`, the ICD-11 MMS coding, a reference to that patient, the recorded date and no note. |
| PatientStore.CreateThenGet | server/routes/patients.ts:81-130 | A patient just created with a valid body is found again by its id, with the official name built from the body. |
| PatientStore.AddThenExport | server/routes/patients.ts:141-213 | A diagnosis just added shows up as the last Condition of the next export, with its coding. |
| OtpAuth.ParseSignup | server/routes/auth.ts:38-43 | The body is accepted exactly with an e-mail, a password of at least 6 UTF-16 code units, and first and last names of at least one code unit. |
| OtpAuth.ParseOtp | server/routes/auth.ts:45-48 | The body is accepted exactly with an e-mail and an OTP of exactly 6 UTF-16 code units. |
| OtpAuth.ParseLogin | server/routes/auth.ts:50-53 | The body is accepted exactly with an e-mail and a password of at least one UTF-16 code unit. |
| OtpAuth.OtpValue | server/routes/auth.ts:81 | For a draw in [0, 1) the generated OTP lies between 100000 and 999999. |
| OtpAuth.OtpIsSixDigits | server/routes/auth.ts:81 | The generated OTP prints as exactly six decimal digits, six UTF-16 code units, so it passes the verify schema. |
| OtpAuth.AstralPasswordIsLongEnough | server/routes/auth.ts:40 | Three emoji make an acceptable password: zod counts six code units, although they are three characters. |
| OtpAuth.CheckEmail | server/routes/auth.ts:58-67 | Always answers 200, with `exists` true exactly when an e-mail string is given and registered. |
| OtpAuth.Login | server/routes/auth.ts:162-184 | 400 exactly for an invalid body. 404 exactly for an unknown e-mail. 401 exactly for a wrong password. 200 with the public fields of the account otherwise. |
| OtpAuth.OtpServer.constructor | server/routes/auth.ts:30-33 | The OTP store starts empty. |
| OtpAuth.OtpServer.SendOtp | server/routes/auth.ts:72-103 | An invalid body answers 500 and a registered e-mail answers 409, with the store unchanged. Otherwise a six-digit OTP that expires five minutes later is stored with the sign-up data. The answer is 200 when the mail went out and 500 otherwise. |
| OtpAuth.OtpServer.VerifyOtp | server/routes/auth.ts:108-157 | 400 for an invalid body. 410 with no pending sign-up. 410 with the entry deleted once past expiry. 400 for a wrong OTP or a failed hash. 500 with the database message when the insert fails (entry kept). 200 with the new account and the entry deleted otherwise. |
| OtpAuth.SignupThenVerifyAtExpiry | server/routes/auth.ts:72-157 | A sign-up followed by verification with the sent OTP at the very expiry instant creates the account and clears the pending entry. |
| OtpAuth.WrongThenRightOtp | server/routes/auth.ts:108-157 | A wrong OTP answers 400 and keeps the pending entry, so the right OTP afterwards still succeeds. |
| PatientDetail.DetailPage.constructor | client/pages/PatientDetail.tsx:123-131 | The page starts with the patient's diagnoses, an empty form and the form hidden. |
| PatientDetail.DetailPage.EditForm | client/pages/PatientDetail.tsx:127-131 | Typing changes only the form. |
| PatientDetail.DetailPage.ToggleForm | client/pages/PatientDetail.tsx:306-314 | The header button flips whether the form is shown and changes nothing else. |
| PatientDetail.DetailPage.HideForm | client/pages/PatientDetail.tsx:370-375 | Cancel hides the form and keeps what was typed. |
| PatientDetail.DetailPage.OpenFirstForm | client/pages/PatientDetail.tsx:383-390 | "Add First Diagnosis", offered only while there are no diagnoses, shows the form. |
| PatientDetail.DetailPage.AddDiagnosis | client/pages/PatientDetail.tsx:149-166 | Nothing changes while the NAMASTE or ICD-11 code is empty. Otherwise the form's diagnosis, dated today, is appended, and the form is reset and hidden. All recorded dates stay well-formed. |
| PatientDetail.DetailPage.DeleteDiagnosis | client/pages/PatientDetail.tsx:168-170 | Exactly the diagnoses with other ids remain, in order, and the form is untouched. |
| PatientDetail.AddedDiagnosisCarriesForm | client/pages/PatientDetail.tsx:149-166 | Adding keeps the earlier diagnoses as a prefix. The new one carries the form's codes and notes and today's date. |
| PatientDetail.DeleteRemovesExactly | client/pages/PatientDetail.tsx:168-170 | A diagnosis survives deletion exactly when it was there and has another id. |
| PatientDetail.ExportBundle | client/pages/PatientDetail.tsx:172-216 | A `document` bundle holding the Patient (id, official name, birth date, gender), then one Condition per diagnosis in order. Each Condition has its id, its ICD-11 MMS coding, a reference to the patient and its recorded date. |
| PatientDetail.ExportNoteIffNotes | client/pages/PatientDetail.tsx:210-212 | A Condition has a note exactly when the diagnosis has non-empty notes, and the note is those notes. |
| PatientDetail.ExportConditionsReferToPatient | client/pages/PatientDetail.tsx:206-208 | Every entry after the first is a Condition that refers to the exported Patient. |
| PatientDetail.LastUpdated | client/pages/PatientDetail.tsx:288-291 | The date of the diagnosis at the end of the list, or the creation date without diagnoses; always the creation date or one of the recorded dates. |
| PatientDetail.LastUpdatedAfterAdd | client/pages/PatientDetail.tsx:288-291 | After an addition, "Last Updated" shows today's date. |
| PatientDetail.LastUpdatedIsARecordedDate | client/pages/PatientDetail.tsx:288-291 | With diagnoses present, "Last Updated" is one of their recorded dates, and it is well-formed. |
| PatientDetail.InsertNewest | client/pages/PatientDetail.tsx:461-466 | Inserting into a newest-first list keeps it newest-first and adds exactly that diagnosis. |
| PatientDetail.History | client/pages/PatientDetail.tsx:461-466 | The history is sorted newest first and is a permutation of the diagnoses. |
| PatientDetail.NewestFirstPairwise | client/pages/PatientDetail.tsx:461-466 | In a newest-first list, every later entry's date is no later than every earlier entry's. |
| PatientDetail.HistoryHasSameEntries | client/pages/PatientDetail.tsx:461-466 | A diagnosis appears in the history exactly when it is on the page. |
| PatientDetail.HistoryRows | client/pages/PatientDetail.tsx:461-473 | One row per diagnosis, in history order. |
| PatientDetail.HistoryNumbering | client/pages/PatientDetail.tsx:473 | Rows are numbered from the count down to 1, strictly decreasing. |
| PatientList.Filtered | client/pages/Patients.tsx:102-106 | Every listed patient is on the page and matches the query; nothing is dropped exactly when every patient matches. |
| PatientList.FilteredMembership | client/pages/Patients.tsx:102-106 | A patient is listed exactly when it is on the page and its first or last name contains the query, ignoring case. |
| PatientList.FilteredKeepsOrder | client/pages/Patients.tsx:102-106 | Filtering distributes over concatenation, so the list keeps page order. |
| PatientList.EmptyQueryKeepsAll | client/pages/Patients.tsx:102-106 | An empty search lists every patient. |
| PatientList.QueryCaseIgnored | client/pages/Patients.tsx:102-106 | A query and its lower-cased form list the same patients. |
| PatientList.PatientsPage.constructor | client/pages/Patients.tsx:91-100 | The page starts with the given patients, an empty form, the form hidden and no search. |
| PatientList.PatientsPage.EditForm | client/pages/Patients.tsx:95-100 | Typing changes only the form. |
| PatientList.PatientsPage.Search | client/pages/Patients.tsx:93 | Searching changes only the query. |
| PatientList.PatientsPage.ToggleForm | client/pages/Patients.tsx:172-178 | The header button flips whether the form is shown and changes nothing else. |
| PatientList.PatientsPage.HideForm | client/pages/Patients.tsx:250-255 | Cancel hides the form and keeps what was typed. |
| PatientList.PatientsPage.OpenFirstForm | client/pages/Patients.tsx:275-283 | "Create First Patient", offered only when no patient is listed and the search box is empty, shows the form. |
| PatientList.PatientsPage.CreatePatient | client/pages/Patients.tsx:108-126 | Nothing changes while the first or last name is empty. Otherwise the new patient is appended and the form is reset and hidden. |
| PatientList.PatientsPage.DeletePatient | client/pages/Patients.tsx:128-130 | Exactly the patients with other ids remain, in order. |
| PatientList.CreatedPatientIsBlank | client/pages/Patients.tsx:112-121 | A created patient has the entered names, a `P` id, no diagnoses and an empty update list. |
| PatientList.DeleteRemovesExactly | client/pages/Patients.tsx:128-130 | A patient survives deletion exactly when it was there and has another id. |
| PatientList.ChartLabel | client/pages/Patients.tsx:134 | A chart label is the last five characters of the date, or the whole date when it is shorter. |
| PatientList.ChartLabelOfDate | client/pages/Patients.tsx:134 | For a `YYYY-MM-DD` date, the label is `MM-DD`. |
| PatientList.Systolic | client/pages/Patients.tsx:148 | The `Number()` reading of the text before the first `/`, or of the whole reading when it has no `/`. |
| PatientList.SystolicOfReading | client/pages/Patients.tsx:148 | A reading `n/…` plots systolic value `n`. |
| PatientList.HeartRateSeries | client/pages/Patients.tsx:132-137 | One point per update, in order, with its label and heart rate. A missing list gives no points. |
| PatientList.TemperatureSeries | client/pages/Patients.tsx:139-144 | One point per update, in order, with its label and temperature. |
| PatientList.PressureSeries | client/pages/Patients.tsx:146-154 | One point per update, in order, with its label and the number before the first `/`. |
| PatientList.SeriesShareLabels | client/pages/Patients.tsx:132-154 | The three charts put the same label at each position. |
| PatientList.NewPatientHasEmptyCharts | client/pages/Patients.tsx:120 | A newly created patient has empty charts. |
| PatientList.TotalDiagnoses | client/pages/Patients.tsx:466 | The total is at least each patient's count, and zero exactly when every count is zero. |
| PatientList.TotalDiagnosesAppend | client/pages/Patients.tsx:466 | The diagnosis total of two lists together is the sum of their totals. |
| PatientList.CreateKeepsTotalDiagnoses | client/pages/Patients.tsx:466 | Creating a patient leaves the diagnosis total unchanged. |
| PatientList.DeleteLowersTotalDiagnoses | client/pages/Patients.tsx:466 | Deleting a patient never raises the diagnosis total. |
| PatientList.ThisMonth | client/pages/Patients.tsx:485-490 | Never more than the patients, and zero exactly when no creation date starts with the current `YYYY-MM`. |
| PatientList.CreateCountsThisMonth | client/pages/Patients.tsx:485-490 | A patient created now raises "This Month" by exactly one. |
| Admin.AdminPage.constructor | client/pages/Admin.tsx:126-141 | The page starts with the mock codes, mappings and users, empty forms and both forms hidden. |
| Admin.AdminPage.EditCodeForm | client/pages/Admin.tsx:132-136 | Typing changes only the code form. |
| Admin.AdminPage.EditUserForm | client/pages/Admin.tsx:137-141 | Typing changes only the user form. |
| Admin.AdminPage.ToggleCodeForm | client/pages/Admin.tsx:302-308 | The codes tab's button flips whether the code form is shown and changes nothing else. |
| Admin.AdminPage.HideCodeForm | client/pages/Admin.tsx:380-385 | Cancel hides the code form and keeps what was typed. |
| Admin.AdminPage.ToggleUserForm | client/pages/Admin.tsx:627-633 | The users tab's button flips whether the user form is shown and changes nothing else. |
| Admin.AdminPage.HideUserForm | client/pages/Admin.tsx:698-703 | Cancel hides the user form and keeps what was typed. |
| Admin.AdminPage.AddCode | client/pages/Admin.tsx:149-164 | Nothing changes while the code or description is empty. Otherwise code `C<now>`, dated today, is appended and the form is reset and hidden. Mappings and users are untouched. |
| Admin.AdminPage.AddUser | client/pages/Admin.tsx:166-181 | Nothing changes while the name or e-mail is empty. Otherwise user `U<now>`, never logged in, is appended and the form is reset and hidden. |
| Admin.AdminPage.DeleteCode | client/pages/Admin.tsx:183-185 | Exactly the codes with other ids remain, in order. Mappings and users are untouched. |
| Admin.AdminPage.DeleteUser | client/pages/Admin.tsx:187-189 | Exactly the users with other ids remain, in order. |
| Admin.DeleteCodeRemovesExactly | client/pages/Admin.tsx:183-185 | A code survives deletion exactly when it was there and has another id. |
| Admin.DeleteUserRemovesExactly | client/pages/Admin.tsx:187-189 | A user survives deletion exactly when it was there and has another id. |
| Admin.DeleteKeepsOrder | client/pages/Admin.tsx:183-185 | Deletion distributes over concatenation, so survivors keep their order. |
| Admin.RoundedPercent | client/pages/Admin.tsx:146-147 | `Math.round(m / t * 100)`: the result is within half a unit of `100 m / t`, with halves rounding up. |
| Admin.RoundedPercentUnique | client/pages/Admin.tsx:146-147 | That rounding condition has exactly one solution. |
| Admin.RoundedPercentBounds | client/pages/Admin.tsx:146-147 | When `m <= t`, the percentage lies between 0 and 100. |
| Admin.VerifiedCount | client/pages/Admin.tsx:145 | At most the number of mappings; zero exactly when all are pending, all exactly when none is. |
| Admin.Coverage | client/pages/Admin.tsx:143-147 | 0 without codes; otherwise verified mappings over codes as a rounded percentage. |
| Admin.Unmapped | client/pages/Admin.tsx:602 | Between codes minus mappings and the number of codes, and equal to the number of codes exactly when no mapping is verified. |
| Admin.VerifiedPlusPending | client/pages/Admin.tsx:586-594 | The verified and pending counts add up to the number of mappings. |
| Admin.MappedPlusUnmapped | client/pages/Admin.tsx:602 | Mapped plus "Unmapped" equals the number of codes. |
| Admin.OverfullCoverage | client/pages/Admin.tsx:143-147 | With more verified mappings than codes, coverage reaches at least 100% and "Unmapped" goes negative. |
| Admin.CoverageAfterDeletingCodes | client/pages/Admin.tsx:183-185 | Deleting the mock codes down to one shows 200% coverage and -1 unmapped. |
| Admin.InitialCoverage | client/pages/Admin.tsx:45-147 | The mock data shows 67% coverage. |
| Admin.CategoryMappingCount | client/pages/Admin.tsx:537-544 | At most the number of mappings, and zero exactly when no mapping is both verified and has a code of that category. |
| Admin.CategoryCoverage | client/pages/Admin.tsx:533-548 | 0 for a category without codes. Otherwise that category's verified mappings over its codes, as a rounded percentage. |
| Admin.CategoryMappingCounted | client/pages/Admin.tsx:537-543 | A mapping counts for a category exactly when it is verified and some code of that category has its NAMASTE code. |
| Admin.CategoryWithinVerified | client/pages/Admin.tsx:537-543 | A category never counts more mappings than are verified overall. |
| Admin.EmptyCategoryCountsNothing | client/pages/Admin.tsx:545-548 | A category without codes counts no mappings and shows 0%. |
| Admin.BarColourOf | client/pages/Admin.tsx:562-566 | Green exactly above 80, yellow exactly in (50, 80], red exactly at 50 or below. |
| Admin.BarColourMonotone | client/pages/Admin.tsx:562-566 | A higher percentage never gets a worse colour. |
| Admin.StatusText | client/pages/Admin.tsx:198 | The status text is non-empty, without commas or newlines. |
| Admin.CsvRow | client/pages/Admin.tsx:193-199 | Each row has as many fields as the header. |
| Admin.CsvLines | client/pages/Admin.tsx:191-202 | The header line, then one line per mapping in order. |
| Admin.CsvHasOneLinePerMapping | client/pages/Admin.tsx:191-202 | When no field holds a newline, splitting the download at newlines gives back the header and one line per mapping. |
| Admin.MappingsCsv | client/pages/Admin.tsx:191-202 | The download opens with the header line and never ends with a newline. |
| Admin.CsvRowRoundTrip | client/pages/Admin.tsx:201 | When no field holds a comma, splitting a line at commas gives back its fields. |
| Admin.CsvRowColumns | client/pages/Admin.tsx:201 | A line splits into 4 columns plus one per comma inside the code, ICD code or confidence text. |
| Chatbot.Responses | client/components/Chatbot.tsx:15-69 | Every topic has at least two canned replies. |
| Chatbot.ResponsesPartition | client/components/Chatbot.tsx:15-69 | Each reply belongs to exactly one topic's list. |
| Chatbot.Classify | client/components/Chatbot.tsx:72-98 | The fever list is chosen exactly when the lower-cased message contains "fever"; the default list exactly when it contains none of the keywords. |
| Chatbot.FirstMatchNone | client/components/Chatbot.tsx:76-98 | The default list is chosen exactly when no keyword occurs. |
| Chatbot.FirstMatchFound | client/components/Chatbot.tsx:76-98 | Otherwise the chosen topic is that of the first keyword, in test order, that occurs, and no earlier keyword occurs. |
| Chatbot.FirstMatchFromFever | client/components/Chatbot.tsx:76-98 | The keyword table read from its start is the if/else chain. |
| Chatbot.FirstMatchFromFatigue | client/components/Chatbot.tsx:82-98 | The keyword table from the fatigue entry on is the rest of the chain. |
| Chatbot.FirstMatchFromDizzy | client/components/Chatbot.tsx:88-98 | The keyword table from the dizziness entry on is the rest of the chain. |
| Chatbot.FirstMatchFromExport | client/components/Chatbot.tsx:94-98 | The keyword table from the export entry on is the rest of the chain. |
| Chatbot.ClassifyIsFirstMatch | client/components/Chatbot.tsx:72-98 | Classifying a message is the first keyword match in its lower-cased text. |
| Chatbot.ClassifyIgnoresCase | client/components/Chatbot.tsx:72 | A message and its lower-cased form get the same topic. |
| Chatbot.MapSubsumesMapping | client/components/Chatbot.tsx:92 | Testing for "mapping" or "map" is the same as testing for "map". |
| Chatbot.ResponseIndex | client/components/Chatbot.tsx:100 | `Math.floor(random * n)` is a valid index. |
| Chatbot.PickResponse | client/components/Chatbot.tsx:71-101 | The reply comes from the list of the message's topic. |
| Chatbot.ChatState.constructor | client/components/Chatbot.tsx:105-114 | The chat starts with the welcome message, an empty input and no pending reply. |
| Chatbot.ChatState.Type | client/components/Chatbot.tsx:113 | Typing changes only the input. |
| Chatbot.ChatState.SendMessage | client/components/Chatbot.tsx:125-137 | Only possible while no reply is pending, since the input and the send button are disabled meanwhile (Chatbot.tsx:233-239). A blank input (JavaScript whitespace only) changes nothing. Otherwise the untrimmed input is appended as a user message `msg-<now>`, the input is cleared and a reply is pending. |
| Chatbot.ChatState.DeliverReply | client/components/Chatbot.tsx:140-149 | One bot message `msg-<now>-bot`, answering the sent text, is appended and the reply is no longer pending. |
| Chatbot.Converse | client/components/Chatbot.tsx:125-150 | With no reply pending, sending a non-blank text and delivering the reply adds two messages: the user's text, then a bot reply from the list of that text's topic. |
| I18n.LookupFindsLast | client/contexts/I18nContext.tsx:6-111 | In an object literal, the last entry for a key wins. |
| I18n.LookupMissing | client/contexts/I18nContext.tsx:6-111 | A key reads as undefined exactly when no entry has it. |
| I18n.LookupAppend | client/contexts/I18nContext.tsx:6-111 | A later section's entry overrides an earlier section's. |
| I18n.EnglishBySection | client/contexts/I18nContext.tsx:6-111 | The English table reads section by section, the latest section holding the key winning. |
| I18n.TableOf | client/contexts/I18nContext.tsx:5-192 | A table exists exactly for `en`, `es`, `fr` and `hi`. |
| I18n.Fallback | client/contexts/I18nContext.tsx:218 | The language's non-empty entry, else the English non-empty entry, else the key name; never empty. |
| I18n.TAsWritten | client/contexts/I18nContext.tsx:217-219 | `t` throws exactly for a language without a table, and is the fallback chain otherwise. |
| I18n.OfferedLanguagesWithoutTable | client/components/Layout.tsx:44-60 | The last eleven languages in the menu, `ta` among them, have no table, so `t` throws for them. |
| I18n.T | client/contexts/I18nContext.tsx:217-219 | Never empty. Agrees with `t` wherever `t` returns, and reads a language without a table as English. |
| I18n.UnsupportedReadsAsEnglish | client/contexts/I18nContext.tsx:217-219 | A language without a table reads exactly like English. |
| I18n.MissingKeyFallsBackToEnglish | client/contexts/I18nContext.tsx:218 | A key missing from a language's table shows its English text. |
| I18nFacts.EnglishSignInEntry | client/contexts/I18nContext.tsx:16 | English `signIn` is "Sign In". |
| I18nFacts.FrenchLacksSignIn | client/contexts/I18nContext.tsx:140-165 | The French table has no `signIn`. |
| I18nFacts.FrenchIsSupported | client/contexts/I18nContext.tsx:140 | French has a table. |
| I18nFacts.FrenchFallsBackForSignIn | client/contexts/I18nContext.tsx:218 | French `signIn` falls back to the English "Sign In". |
| I18nFacts.FrenchSignIn | client/contexts/I18nContext.tsx:217-219 | `t("signIn")` in French shows "Sign In". |
| I18nFacts.EnglishLogoutEntry | client/contexts/I18nContext.tsx:13-35 | The duplicate `logout` reads as the later "Log Out". |
| I18nFacts.EnglishLogout | client/contexts/I18nContext.tsx:217-219 | `t("logout")` in English shows "Log Out". |
| I18nFacts.CreateAccountInEnglishLanding | client/contexts/I18nContext.tsx:63 | The landing section writes `createAccount` as "Create your account". |
| I18nFacts.EnglishCreateAccountEntry | client/contexts/I18nContext.tsx:63-72 | The landing section's "Create your account" is overridden: `createAccount` reads as the Auth section's "Create Account". |
| I18nFacts.EnglishCreateAccount | client/contexts/I18nContext.tsx:217-219 | `t("createAccount")` in English shows "Create Account". |

## Left out

- Express routing, JSON parsing and serialisation: each handler takes its parsed parameters or body, and a body field is absent, a string or some other JSON value.
- zod's e-mail check, the Supabase users table, bcrypt and the mailer are parameters (`isEmail`, the `users` map, `matches`, `hashed`, `InsertOutcome`, `mailSent`). Their own behaviour, and the asynchrony of the calls, are not modelled.
- In `send-otp`, a body that fails the schema lands in the catch-all and answers 500, and the model follows the code there.
- In `verify-otp`, a throwing `bcrypt.hash` lands in the catch-all and answers 400. The model folds it into the `hashed` flag.
- The catch-all 500 answers of the patient and code handlers: nothing in their bodies throws for the parsed inputs modelled.
- Clock and randomness: `Date.now()`, `new Date().toISOString()` and `Math.random()` are parameters.
- The Condition ids `C<Date.now()>` of the server export are a parameter function `stamp`, because each is read at a different instant.
- Floating point:
  - Percentages and `Math.round` are computed on exact rationals.
  - Confidences are printed through a parameter `show` standing for `toString`.
  - Temperatures are `real`.
  - Averages shown with `toFixed`, bar widths and the confidence bars are not modelled.
- CodeSearch.ParseQuery and PatientList.Systolic: read `limit` and the systolic reading through a subset of `Number()`. An empty string gives 0, optionally signed decimal digits give their value, and anything else is NaN. JavaScript also accepts surrounding whitespace, fractions, exponents, hexadecimal and `Infinity`; for those the model answers the search with 400 and plots NaN.
- PatientList.ChartLabel: `slice(-5)` counts UTF-16 code units and the model counts characters; the two agree unless the date holds a character outside the Basic Multilingual Plane. A JavaScript slice can cut such a character in half, and the lone half it leaves is not a Dafny `char`.
- String lengths and positions elsewhere (search, split, `slice(0, 7)` for the month) count characters; only the zod length checks of the auth schemas count UTF-16 code units, through `Utf16Length`.
- Lower-casing maps only `A`-`Z`; JavaScript's Unicode lower-casing of other letters is not modelled.
- Dates are strings:
  - The history sort compares `YYYY-MM-DD` strings lexicographically instead of parsing them with `Date`.
  - The page keeps every recorded date well-formed, so both orders agree.
  - The stability of the sort for equal dates is not stated.
- The patient detail page's lookup of its patient in the mock data, navigation and routing are not modelled; the page is constructed from a patient.
- `setLanguage`, `localStorage`, `setTimeout`'s delay, scrolling, the chat's open and close state, Blob and file downloads, modals, tabs, theming and every other purely presentational component are not modelled.
- FHIR conformance of the bundles beyond the fields the code writes is not modelled.
- Chatbot.Responses: its own contract only states that every list has at least two replies; which reply belongs to which list is stated by ResponsesPartition, and the reply texts are constants.
- PatientStore.ExportBundle: its own contract only gives the entry count; the full content of the bundle is stated by Store.ExportFhir.

## Findings

| source | as written | input that shows it | evidently intended | confidence | as-written member | corrected member |
|---|---|---|---|---|---|---|
| client/contexts/I18nContext.tsx:218 | `translations[language][key]` reads a property of `undefined`, and so throws, for every language code the menu at client/components/Layout.tsx:44-60 offers beyond `en`, `es`, `fr` and `hi` | language `ta`, any key | a language without a table shows the English text, as a missing key already does | not executed | I18n.TAsWritten | I18n.T |
