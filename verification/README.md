# Clinic back end: appointment, account and notification rules in Dafny

This project models the request handlers of a clinic appointment back end
(Node.js and Express over MySQL) and proves properties of them. The model
covers four areas:

- **Appointments.** Patients, QR codes and desk staff book CLINIC or HOSPITAL
  visits. Each visit gets a queue token: one more than the largest token
  already issued in its (doctor, day, type) bucket. Patients book VIDEO slots,
  and the model checks that no slot is double-booked. The three cancellations
  are guarded updates that report the affected-row count. A video reschedule
  excludes the appointment being moved from its slot check. "Now serving" is
  the minimum over accepted and in-progress rows. Admins can overwrite statuses.
- **Accounts.** Patient and doctor registration each run an ordered chain of
  checks; the first failing check picks the answer. Login is a decision over
  the looked-up rows. The admin approves, rejects, blocks and unblocks
  accounts. A patient updates their profile and their family members.
- **Notifications.** Delivery goes through a dedup log keyed by event type,
  user, entity and channel. Each event has its own routing. The message
  table is a constant. Users list their notifications and mark them read.
- **Uploads.** Profile pictures have rules for the destination directory, the
  file name and the accepted files.

Every SQL statement is an operation on in-memory tables:

- a table is a class holding a `seq` of row values and an `AUTO_INCREMENT`
  counter;
- `CURDATE()` is a `today` day-number parameter and `NOW()` a `now`
  parameter;
- a request field is an `Option`, and the JavaScript truthiness tests
  (`!x`, `x || null`) are written out in `Common`;
- the database and the mailer are outside the model, so a fault is a
  parameter: a `fault` flag on a transaction, or an `Attempt` per
  notification send;
- bcrypt's compare is a boolean parameter, and a JWT is its payload.

Modules follow the source files. `Appointments`, `Accounts` and `Family` hold
the tables. `PatientBooking`, `PatientAccount`, `StaffController`,
`AdminController`, `AdminSearch`, `AuthController` and `DoctorController` hold
the handlers. `NotificationMessages`, `NotificationStore`,
`NotificationHandler` and `NotificationController` form the notification
pipeline, and `Upload` holds the upload middleware. `Text` has the e-mail and
phone tests, JavaScript's UTF-16 `length`, ASCII lower-casing and decimal
rendering. `Query` has
`WHERE`/`ORDER BY`/`COUNT`/first-row helpers over sequences.

Where the code differs from the system's design description, this model
follows the code. The design describes tokens per (doctor, date, shift)
bucket, a capacity of 50 per shift, locked allocation, and a "call next
token" queue advance. None of these appear in the handlers: the bucket is
(doctor, date, appointment type), there is no capacity check, allocation is
an unlocked read-then-insert, and queue advance is not implemented.

## Model

| member | source | states |
|---|---|---|
| Common.StringOrNull | src/controllers/patientController.js:889-893 | `x \|\| null` on a string field is NULL exactly when the field is absent or empty, and the field itself otherwise |
| Common.NumberOrNull | src/controllers/patientController.js:892-893 | `x \|\| null` on a number is NULL exactly when it is absent or 0 |
| Common.RoleName | src/middleware/upload.middleware.js:10 | the stored spelling of a role is a non-empty string |
| Text.IsEmailSound | src/controllers/patientController.js:24-25 | a string accepted by the scan matches `^[^\s@]+@[^\s@]+\.[^\s@]+$` |
| Text.IsEmailComplete | src/controllers/patientController.js:24-25 | every string matching the regular expression is accepted by the scan |
| Text.IsEmailMatchesPattern | src/controllers/doctorController.js:38-39 | the scan accepts exactly the strings the e-mail regular expression matches |
| Text.IndexOf | src/controllers/patientController.js:24 | the position returned holds the first occurrence of the character; `None` means it does not occur |
| Text.Utf16Length | src/controllers/patientController.js:39 | JavaScript's `length` counts UTF-16 code units: between one and two per character, and one per character exactly when none lies outside the Basic Multilingual Plane |
| Text.Utf16LengthAppend | src/controllers/doctorController.js:50 | code-unit lengths add up over concatenation |
| Text.AstralCountsTwice | src/controllers/patientController.js:39 | four emoji are four characters but eight code units, so they pass the length check |
| Text.ToLower | src/middleware/upload.middleware.js:10 | lower-casing keeps the length and maps each character on its own |
| Text.ToLowerIdempotent | src/middleware/upload.middleware.js:16 | lower-casing twice is lower-casing once |
| Text.DecimalString | src/middleware/upload.middleware.js:21 | `${n}` is a non-empty run of decimal digits |
| Text.DecimalRoundTrip | src/middleware/upload.middleware.js:21 | reading the rendered digits back gives the number |
| Query.InsertBy | src/controllers/notificationController.js:13 | inserting into an `ORDER BY`-sorted list keeps it sorted and adds exactly that row |
| Query.SortBy | src/controllers/notificationController.js:13 | `ORDER BY` yields a sorted permutation of the rows |
| Query.SortByMembers | src/controllers/notificationController.js:13 | sorting keeps exactly the rows it was given |
| Query.Filter | src/controllers/notificationController.js:10-12 | `WHERE p` keeps exactly the rows satisfying `p` |
| Query.Count | src/controllers/adminController.js:15-17 | `COUNT(*)` is at most the row count, and is 0 exactly when no row qualifies |
| Query.CountIsFilterLength | src/controllers/adminController.js:138-140 | a count equals the length of the filtered rows |
| Query.CountAppend | src/controllers/adminController.js:21-22 | counting distributes over concatenation |
| Query.CountDisjoint | src/controllers/adminController.js:139 | two conditions no row meets together count at most all the rows |
| Query.FirstWhere | src/controllers/authController.js:100 | `rows[0]` is a row satisfying the condition, and none comes before it; `None` when no row does |
| Query.FirstWhereMap | src/controllers/authController.js:100 | a row-wise rewrite that keeps the condition maps the first match to the first match |
| Appointments.MaxToken | src/controllers/patientController.js:522-529 | `MAX(token_number)` over the bucket is a token in the bucket and bounds all of them; NULL when the bucket has no token, whatever the statuses |
| Appointments.NextToken | src/controllers/patientController.js:531 | `(lastToken \|\| 0) + 1` is at least 1, exceeds every token of the bucket, is 1 for a tokenless bucket, and otherwise follows an existing token |
| Appointments.NextTokenDetermined | src/controllers/staffController.js:20 | those facts single out the next token |
| Appointments.NextTokenAfterBooking | src/controllers/staffController.js:11-28 | a booking with the bucket's next token advances the bucket by exactly one |
| Appointments.NextTokenOtherBucket | src/controllers/patientController.js:672-678 | a booking in another bucket leaves this bucket's next token alone |
| Appointments.NextTokenAfterCancel | src/controllers/patientController.js:614-622 | cancelling keeps the row and its token, so a cancelled token is never reissued |
| Appointments.MinServingToken | src/controllers/patientController.js:719-731 | `MIN(token_number)` over ACCEPTED/IN_PROGRESS rows of the bucket is one of their tokens and bounds them below |
| Appointments.Affected | src/controllers/patientController.js:624 | `affectedRows` is 0 exactly when no row matches the WHERE clause |
| Appointments.CancelWhere | src/controllers/patientController.js:614-622 | the UPDATE sets CANCELLED on exactly the matched rows and keeps every other row |
| Appointments.MoveWhere | src/controllers/patientController.js:492-497 | the reschedule UPDATE changes only date and time, and only on the row with that id |
| Appointments.AffectedAtMostOne | src/controllers/patientController.js:851-857 | with unique ids, a guard that fixes the id matches at most one row |
| Appointments.InsertKeepsConsistent | src/controllers/patientController.js:343-363 | an insert with a fresh token and a free video slot keeps ids unique, visit tokens distinct per bucket and video slots distinct |
| Appointments.CancelKeepsConsistent | src/controllers/patientController.js:405-413 | cancelling keeps the table consistent |
| Appointments.MoveKeepsConsistent | src/controllers/patientController.js:471-497 | moving a video row to a slot that is free apart from itself keeps the table consistent |
| Appointments.AppointmentTable.Insert | src/controllers/staffController.js:22-28 | the row is appended with the next id and the table stays consistent |
| Appointments.AppointmentTable.Cancel | src/controllers/patientController.js:614-624 | the table becomes `CancelWhere` of the old rows, and `affectedRows` is the match count, at most 1 |
| Appointments.AppointmentTable.Move | src/controllers/patientController.js:492-497 | the table becomes `MoveWhere` of the old rows and stays consistent |
| PatientBooking.VisitRow | src/controllers/patientController.js:681-687 | a visit row is dated today, PENDING, of the requested type, carries the token and the creator, and has no family member |
| PatientBooking.VideoRow | src/controllers/patientController.js:357-362 | a video row is PENDING, created by the patient, holds the requested slot and has no token |
| PatientBooking.BookVisitAsWritten | src/controllers/patientController.js:512-548 | as written, a valid clinic request never answers 201: the INSERT throws, so the answer is 500 |
| PatientBooking.BookVisitAsWrittenFails | src/controllers/patientController.js:533-539 | a valid request for doctor 7 ends in 500 |
| PatientBooking.BookVisit | src/controllers/patientController.js:516-544 | 400 unless a doctor is given and the type is CLINIC; otherwise inserts the doctor's next CLINIC token for today, PENDING, and returns that same token |
| PatientBooking.QrBookVisit | src/controllers/patientController.js:666-697 | no validation; the requested type's bucket gives the token; the row is PENDING and created by QR; the answer's token is the inserted one |
| PatientBooking.BookVideoAsWritten | src/controllers/patientController.js:333-372 | as written, 400 for a missing field and 409 for a taken slot; a free slot ends in 500, never 201 |
| PatientBooking.BookVideoAsWrittenFails | src/controllers/patientController.js:357-363 | a free slot on an empty table ends in 500 |
| PatientBooking.BookVideo | src/controllers/patientController.js:337-368 | 400 for a missing field, 409 when a live VIDEO row of the doctor holds the slot, else one PENDING VIDEO row for that slot |
| PatientBooking.CancelOpen | src/controllers/patientController.js:614-626 | only an open row of the caller with that id and type is cancelled; 400 with nothing changed when there is none |
| PatientBooking.CancelClinic | src/controllers/patientController.js:609-632 | cancelClinicAppointment cancels exactly an open CLINIC row of the caller; otherwise 400 and no change |
| PatientBooking.CancelVideo | src/controllers/patientController.js:400-425 | cancelVideoAppointment cancels exactly an open VIDEO row of the caller; otherwise 400 and no change |
| PatientBooking.HardCancel | src/controllers/patientController.js:846-866 | any owned row is cancelled whatever its type or status; 400 only when the caller owns no row with that id |
| PatientBooking.RescheduleVideo | src/controllers/patientController.js:427-508 | checks in order: 400 without date and time, 404 unless an owned VIDEO row exists, 400 unless it is open, 409 when another live VIDEO row holds the slot; else only its date and time change |
| PatientBooking.NowServing | src/controllers/patientController.js:719-736 | `currentToken \|\| null` is the lowest serving token of the bucket, or NULL when there is none or it is 0 |
| PatientBooking.GetTokenStatus | src/controllers/patientController.js:699-740 | 404 exactly when the caller owns no CLINIC/HOSPITAL row with that id; otherwise its token and its bucket's now-serving token |
| PatientBooking.ListingOrdersArePreorders | src/controllers/patientController.js:117 | the listings' `ORDER BY` orders are total preorders |
| PatientBooking.FirstTodayToken | src/controllers/patientController.js:108-120 | `ORDER BY token_number LIMIT 1` over the caller's open visits of today picks one with the lowest token, NULL first; NULL when there is none |
| PatientBooking.DashboardList | src/controllers/patientController.js:125-141 | as a multiset, exactly the caller's open rows whose doctor has a profile, by date then token |
| PatientBooking.GetDashboard | src/controllers/patientController.js:89-159 | the upcoming count counts the caller's open rows from today on, next to today's token and the open list |
| PatientBooking.WindowOf | src/controllers/patientController.js:746-753 | "today" and "next7" select their windows; any other filter means from today on |
| PatientBooking.GetUpcoming | src/controllers/patientController.js:742-778 | as a multiset, exactly the caller's open rows in the window whose doctor has a profile, by date then token, none before today |
| PatientBooking.WindowsNarrow | src/controllers/patientController.js:746-753 | every filter only narrows the unfiltered listing |
| PatientAccount.RegisterProblem | src/controllers/patientController.js:11-43 | the first failing check gives the message: all fields, e-mail pattern, ten-digit phone, matching passwords, a length of at least 8 UTF-16 code units; each message is stated, and `None` exactly when all pass |
| PatientAccount.Register | src/controllers/patientController.js:7-86 | 400 with that message and no change; 409 with no change when the login id is taken; else one PATIENT user and one patient row; 500 with rollback on a database fault |
| PatientAccount.PushIfGiven | src/controllers/patientController.js:204-207 | one `if (x) push` step appends the column and its value exactly when the field is given |
| PatientAccount.ProfileBound | src/controllers/patientController.js:204-225 | a field is bound to its column's `?` exactly when it is truthy, as its text |
| PatientAccount.ProfileApplied | src/controllers/patientController.js:234-237 | the updated row has each given field replaced and every other column kept |
| PatientAccount.PatientColumnAt | src/controllers/patientController.js:204-225 | the k-th tested column has rank k |
| PatientAccount.ProfileParams | src/controllers/patientController.js:201-226 | one pushed value per pushed column |
| PatientAccount.ProfileColumnsMeaning | src/controllers/patientController.js:201-226 | the pushed columns are exactly the given ones, in test order, each bound to its own field |
| PatientAccount.ProfileSteps | src/controllers/patientController.js:204-225 | the four tests of updateProfile, one column each, in source order |
| PatientAccount.ProfileAssignments | src/controllers/patientController.js:201-231 | "Invalid phone number" exactly for a given bad phone; "No fields provided to update" exactly when nothing is given; else the given columns with the user id appended |
| PatientAccount.ProfileAssignmentsApply | src/controllers/patientController.js:234-237 | applying the built SET list to any row is applying the form |
| PatientAccount.UpdateProfile | src/controllers/patientController.js:197-251 | 400 and no change for a bad phone or an empty request; else 404 exactly when the caller has no patient row, and the caller's rows get exactly the given fields |
| PatientAccount.AddFamilyMember | src/controllers/patientController.js:869-906 | 400 without a name and a relation; else one row owned by the caller with `x \|\| null` for the optional fields |
| PatientAccount.FamilyValue | src/controllers/patientController.js:949-976 | a bound value has its column's type: numbers for height and weight, text otherwise |
| PatientAccount.FamilyApplied | src/controllers/patientController.js:986-992 | the updated member has each given field replaced and keeps its id, owner and creation time |
| PatientAccount.FamilyColumnAt | src/controllers/patientController.js:949-976 | the k-th tested column has rank k |
| PatientAccount.FamilyParams | src/controllers/patientController.js:946-976 | one pushed value per pushed column |
| PatientAccount.FamilyColumnsOrdered | src/controllers/patientController.js:946-976 | pushed columns come from the tests run so far, in strictly increasing test order |
| PatientAccount.FamilyColumnsBound | src/controllers/patientController.js:946-976 | each pushed value is the field of its own column |
| PatientAccount.FamilyColumnsExact | src/controllers/patientController.js:946-976 | a tested column is pushed exactly when its field is given |
| PatientAccount.FamilyNothingGiven | src/controllers/patientController.js:978-982 | no column is pushed exactly when no field is given |
| PatientAccount.FamilySteps | src/controllers/patientController.js:949-976 | the seven tests of updateFamilyMember, one column each, in source order |
| PatientAccount.FamilyAssignments | src/controllers/patientController.js:943-984 | empty exactly when no field is given; else the given columns, with member id and caller id appended |
| PatientAccount.FamilyColumnApplied | src/controllers/patientController.js:986-992 | each column of the updated row is the form's value when given, the old one otherwise |
| PatientAccount.FamilyMemberApplied | src/controllers/patientController.js:986-992 | applying a matching SET list to a row is applying the form |
| PatientAccount.FamilyAssignmentsApply | src/controllers/patientController.js:984-992 | the built SET list applies the form to every row it reaches |
| PatientAccount.UpdateFamilyMember | src/controllers/patientController.js:939-1009 | 400 and no change for an empty request; else 404 exactly when the caller owns no member with that id, and only that member gets the given fields |
| PatientAccount.DeleteFamilyMember | src/controllers/patientController.js:1011-1037 | removes exactly the caller's member with that id; 404 exactly when there is none |
| PatientAccount.ListFamily | src/controllers/patientController.js:912-928 | as a multiset, exactly the caller's members, each once, newest first |
| Accounts.AssignAllPatient | src/controllers/patientController.js:235 | a SET list never changes a patient's user id or e-mail |
| Accounts.AssignAllPatientFields | src/controllers/patientController.js:235 | with distinct columns, each listed column gets its own value and every other column is kept |
| Accounts.PatientMatches | src/controllers/patientController.js:239 | `affectedRows` of `WHERE user_id = ?` is 0 exactly when the user has no patient row |
| Accounts.WithDoctorStatus | src/controllers/adminController.js:50-53 | every doctor row of that user gets the status and every other row is kept; licences stay unique |
| Accounts.WithActive | src/controllers/adminController.js:81-84 | only that user's `is_active` changes; user ids stay unique |
| Accounts.AccountTables.InsertUser | src/controllers/patientController.js:64-67 | appends one active user with the next id and the given login id, hash and role |
| Accounts.AccountTables.InsertPatient | src/controllers/patientController.js:69-73 | appends the patient row and touches no other table |
| Accounts.AccountTables.InsertDoctor | src/controllers/doctorController.js:118-138 | appends the doctor row and touches no other table |
| Accounts.AccountTables.SetDoctorStatus | src/controllers/adminController.js:50-53 | `doctors` becomes `WithDoctorStatus` of the old rows; nothing else changes |
| Accounts.AccountTables.SetActive | src/controllers/adminController.js:81-84 | `users` becomes `WithActive` of the old rows; nothing else changes |
| Accounts.AccountTables.UpdatePatient | src/controllers/patientController.js:234-239 | every row of that user gets the SET list; `affectedRows` is their number |
| Family.AssignAll | src/controllers/patientController.js:988-990 | a SET list never changes a member's id, owner or creation time |
| Family.AssignAllFields | src/controllers/patientController.js:988-990 | with distinct, well-typed columns, each listed column gets its own value and every other column is kept |
| Family.SameFields | src/controllers/patientController.js:988-990 | a member is determined by its key and the columns an update may set |
| Family.OwnedCount | src/controllers/patientController.js:994 | `affectedRows` of `WHERE id = ? AND patient_id = ?` is 0 exactly when the caller owns no such row |
| Family.DeleteOwned | src/controllers/patientController.js:1016-1020 | the DELETE keeps exactly the rows it does not match |
| Family.DeleteKeepsUnique | src/controllers/patientController.js:1016-1020 | deleting keeps ids unique |
| Family.FamilyTable.Insert | src/controllers/patientController.js:881-895 | the member is appended with the next id |
| Family.FamilyTable.Update | src/controllers/patientController.js:986-994 | only rows with that id and owner get the SET list; `affectedRows` is their number |
| Family.FamilyTable.Delete | src/controllers/patientController.js:1016-1022 | the table becomes `DeleteOwned`; `affectedRows` is the number of owned matches |
| StaffController.ManualVisitBookingAsWritten | src/controllers/staffController.js:3-38 | as written, 400 for a bad request and otherwise 500: `db` is unbound, so no valid request gets 201 |
| StaffController.ManualVisitBookingAsWrittenFails | src/controllers/staffController.js:11 | a valid HOSPITAL request for doctor 3 ends in 500 |
| StaffController.ManualVisitBooking | src/controllers/staffController.js:6-33 | 400 unless a doctor is given and the type is CLINIC or HOSPITAL; else inserts that bucket's next token, PENDING, STAFF-created, with no patient, and answers with the inserted token |
| StaffController.Booked | src/controllers/staffController.js:11-28 | a booking's row takes the next id and its bucket's next token |
| StaffController.Replay | src/controllers/staffController.js:11-28 | a sequence of bookings adds exactly one row each |
| StaffController.ReplayKeepsRows | src/controllers/staffController.js:22-28 | replaying only appends |
| StaffController.BookedAdvances | src/controllers/staffController.js:20 | each booking advances its bucket's next token by one |
| StaffController.ReplayStep | src/controllers/staffController.js:11-28 | a replay is its first booking's row followed by the rest |
| StaffController.ReplayNextToken | src/controllers/staffController.js:11-20 | n bookings of one bucket advance its next token by n |
| StaffController.ReplayFirstToken | src/controllers/staffController.js:11-20 | the first replayed booking gets its bucket's next token |
| StaffController.ReplayTokenAt | src/controllers/patientController.js:671-680 | the k-th booking of one bucket, by staff or QR, gets the next token plus k |
| StaffController.ReplayTokens | src/controllers/staffController.js:11-20 | bookings of one bucket get consecutive tokens from the bucket's next token on |
| StaffController.ReplayTokensDistinct | src/controllers/staffController.js:11-20 | no two replayed bookings of one bucket share a token |
| AdminController.GetDoctors | src/controllers/adminController.js:38-47 | without a status all doctors; with one exactly the doctors having it |
| AdminController.GetPatients | src/controllers/adminController.js:73-78 | one listing per PATIENT user, each projected to id, login id and active flag |
| AdminController.GetDashboard | src/controllers/adminController.js:13-35 | the doctor total, `SUM(status='PENDING')` (NULL on an empty table), the PATIENT count, and today's appointments as the length of the admin search for today's date; each bounded by its table |
| AdminController.CountAgrees | src/controllers/adminController.js:16 | counts under equivalent conditions agree |
| AdminController.DashboardMatchesListings | src/controllers/adminController.js:14-22 | the pending count is the length of the PENDING doctor listing, and the patient total the length of the patient listing |
| AdminController.GetAnalytics | src/controllers/adminController.js:135-144 | all appointments, the APPROVED doctors and the PATIENT users, counted |
| AdminController.ActivePlusPendingAtMostTotal | src/controllers/adminController.js:16 | approved plus pending doctors are at most all doctors |
| AdminController.ApproveDoctor | src/controllers/adminController.js:49-55 | every row of the user becomes APPROVED whatever its status; always 200 |
| AdminController.RejectDoctor | src/controllers/adminController.js:57-63 | every row of the user becomes REJECTED whatever its status; always 200 |
| AdminController.LastStatusWins | src/controllers/adminController.js:49-63 | two overwrites in a row equal the last one |
| AdminController.FoundRowHasNewStatus | src/controllers/authController.js:118-121 | after an overwrite, the doctor row login finds carries the new status |
| AdminController.ApprovalOpensLogin | src/controllers/authController.js:117-133 | after approval, a doctor with a doctor row passes login's approval gate |
| AdminController.RejectionClosesLogin | src/controllers/authController.js:129-133 | after rejection, a doctor fails login's approval gate |
| AdminController.BlockUser | src/controllers/adminController.js:80-86 | only that user's `is_active` becomes false; always 200 |
| AdminController.UnblockUser | src/controllers/adminController.js:88-94 | only that user's `is_active` becomes true; always 200 |
| AdminController.FindUserAfterSetActive | src/controllers/authController.js:89-100 | blocking changes no looked-up column, so login finds the same row with the new flag |
| AdminController.BlockedUserCannotLogin | src/controllers/authController.js:102-104 | a blocked user is refused with 403 whatever the password |
| AdminController.ForceCancelAppointment | src/controllers/adminController.js:121-127 | CANCELLED on the row with that id from any status; every other row kept; 200 even when none matched |
| AdminSearch.Params | src/controllers/adminController.js:106-110 | one parameter per condition, in order |
| AdminSearch.Conditions | src/controllers/adminController.js:108-110 | at most three conjuncts, in the order doctor, date, status |
| AdminSearch.ClausesAppend | src/controllers/adminController.js:108-110 | adding a filter appends its conjunct to the text and its value to the parameters |
| AdminSearch.AppointmentQuery | src/controllers/adminController.js:105-110 | the query and parameters built with `+=` and `push` are the text and list of the supplied filters |
| AdminSearch.ClausePlaceholders | src/controllers/adminController.js:108-110 | each conjunct carries exactly one `?` |
| AdminSearch.PlaceholdersMatchParams | src/controllers/adminController.js:105-112 | the query has as many `?` as there are parameters |
| AdminSearch.ConditionsMeaning | src/controllers/adminController.js:105-110 | the conjuncts hold exactly when the row has each supplied value; no filter means no conjunct |
| AdminSearch.Search | src/controllers/adminController.js:105-112 | the searched rows are exactly the table's rows that the supplied filters select, and never more rows than the table has |
| AdminSearch.FilterIsSearch | src/controllers/adminController.js:105-112 | any `WHERE` condition that agrees with the filters selects exactly the searched rows, in table order |
| AdminSearch.GetAllAppointments | src/controllers/adminController.js:102-114 | the rows the assembled query selects are the searched rows: exactly those matching the supplied filters, in table order; all rows without filters |
| AuthController.FindUser | src/controllers/authController.js:89-100 | the first row whose email or mobile equals the identifier; `None` when there is none |
| AuthController.FindDoctor | src/controllers/authController.js:118-121 | a doctor row of that user; `None` exactly when there is none |
| AuthController.Login | src/controllers/authController.js:76-161 | 400 when a field is missing; any refusal is 400, 401 or 403; a success carries exactly {id, role} with a one-day lifetime |
| AuthController.LoginSucceedsIff | src/controllers/authController.js:96-154 | success exactly when both fields are given, a first user is found, it is active, the password matches, and a doctor has an APPROVED row; the token then names that user |
| AuthController.UnknownUserLooksLikeWrongPassword | src/controllers/authController.js:96-112 | an unknown identifier and a wrong password both get 401 "Invalid credentials" |
| AuthController.InactiveBeforePassword | src/controllers/authController.js:102-112 | an inactive account gets 403 whatever the password |
| AuthController.LoginIgnoresLoginId | src/controllers/authController.js:89-98 | an identifier that is nobody's email or mobile gets 401, whatever login ids exist |
| AuthController.FirstMatchWins | src/controllers/authController.js:100 | rows after the first match never change which user is found |
| DoctorController.DoctorProblem | src/controllers/doctorController.js:24-63 | the first failing check gives the message: required fields, e-mail pattern, matching passwords, a length of at least 8 UTF-16 code units, days an array; `None` exactly when all pass |
| DoctorController.EscapeChar | src/controllers/doctorController.js:135 | an escaped character ends with itself |
| DoctorController.JsonStringArray | src/controllers/doctorController.js:135 | `JSON.stringify` of the day list is bracketed |
| DoctorController.ReadString | src/controllers/doctorController.js:135 | reading a JSON string consumes input |
| DoctorController.ReadStep | src/controllers/doctorController.js:135 | reading an escaped character consumes exactly its escape |
| DoctorController.ReadEscaped | src/controllers/doctorController.js:135 | an escaped string reads back as itself |
| DoctorController.ReadJoined | src/controllers/doctorController.js:135 | the quoted, comma-joined days read back as the list |
| DoctorController.DaysRoundTrip | src/controllers/doctorController.js:135 | the stored `availableDays` text parses back to the submitted list |
| DoctorController.DoctorRowAsWritten | src/controllers/doctorController.js:118-138 | as written, the e-mail column receives the clinic name and the clinic-name column the e-mail |
| DoctorController.DoctorRowAsWrittenSwaps | src/controllers/doctorController.js:120-131 | without a clinic name the row stores no e-mail, files the e-mail as the clinic, and differs from the intended row |
| DoctorController.DoctorRowFor | src/controllers/doctorController.js:118-138 | the intended row puts each field in its own column, is PENDING, and stores days that parse back to the list |
| DoctorController.Register | src/controllers/doctorController.js:4-157 | 400 with the first failing check; 409 for a taken login id, then for a taken licence, both with no change; else a DOCTOR user and its PENDING doctor row (the corrected row, `DoctorRowFor`); 500 with rollback on a database fault |
| NotificationMessages.EventName | src/notifications/notification.handler.js:1-12 | each event type has a non-empty name |
| NotificationMessages.Lookup | src/utils/notification.messages.js:1-76 | an entry exists exactly for the roles the table addresses, and every text present is non-empty |
| NotificationMessages.TableKeys | src/utils/notification.messages.js:1-76 | no entry for the admin cancellation or the visit summary; the keys are exactly the events some role is addressed in |
| NotificationStore.AlreadySent | src/utils/notification.logger.js:24-42 | true exactly when some log row matches the event, user, entity and channel; never for a NULL user or entity |
| NotificationStore.SentStaysSent | src/utils/notification.logger.js:24-42 | a key found stays found as the log grows |
| NotificationStore.LoggedIsSent | src/utils/notification.logger.js:24-69 | after logging a matchable key, it counts as sent |
| NotificationStore.SentAfterAppend | src/utils/notification.logger.js:30-41 | after one more row a key is sent exactly when it was before or the row carries it |
| NotificationStore.StatusIsNotKey | src/utils/notification.logger.js:30-37 | a FAILED row blocks exactly as a SUCCESS row does |
| NotificationStore.AppendUnsentKeepsOnce | src/utils/notification.logger.js:47-69 | appending an unsent key keeps every key logged at most once |
| NotificationStore.Log | src/utils/notification.logger.js:47-73 | one row with the key, status and error message; a failed insert appends nothing; notifications untouched |
| NotificationStore.Notify | src/utils/notification.db.js:3-21 | one unread row for the receiver with the next id and the given texts and appointment; a failed insert appends nothing; the log untouched |
| NotificationStore.NotificationDb.LogNotification | src/utils/notification.logger.js:47-73 | the tables become `Log` of the old ones |
| NotificationStore.NotificationDb.CreateAppNotification | src/utils/notification.db.js:3-21 | the tables become `Notify` of the old ones, with ids unique |
| NotificationHandler.AppDelivered | src/notifications/notification.handler.js:33-67 | nothing without a user and role or for a logged key; ids stay unique |
| NotificationHandler.EmailDelivered | src/notifications/notification.handler.js:69-97 | nothing for a logged key; otherwise a normal return logs one SUCCESS row and a thrown error one FAILED row with its message, each carrying the send's key; a failed log insert changes nothing; never a notification row |
| NotificationHandler.Delivered | src/notifications/notification.handler.js:33-97 | a settled send changes nothing; otherwise at most one log row, carrying the send's key |
| NotificationHandler.AppDelivery | src/notifications/notification.handler.js:52-66 | a delivered app send writes the receiver's notification, then logs SUCCESS |
| NotificationHandler.DeliveredSettles | src/notifications/notification.handler.js:44-50 | once logged, a matchable send is settled |
| NotificationHandler.SettledPersists | src/notifications/notification.handler.js:70-76 | a settled send stays settled as the log grows |
| NotificationHandler.FailedEmailBlocksRetry | src/notifications/notification.handler.js:69-97 | a thrown mailer error is logged FAILED with its message, and that row blocks every retry; the repository's own mailer never throws, so it takes the SUCCESS path of ReturnLoggedSuccess |
| NotificationHandler.ReturnLoggedSuccess | src/notifications/notification.handler.js:78-86 | any normal return from the mailer is logged SUCCESS, both a delivered mail and the mailer's own `false` for a swallowed failure (src/utils/email.service.js:12-27) |
| NotificationHandler.NullEntityRepeats | src/notifications/notification.handler.js:44-58 | an app send with a NULL entity never matches its own log row, so repeating it writes a second notification |
| NotificationHandler.DeliveredKeepsLoggedOnce | src/notifications/notification.handler.js:44-66 | one send keeps every matchable key logged at most once |
| NotificationHandler.Dispatched | src/notifications/notification.handler.js:103-318 | a handler's sends only grow the log and keep ids unique |
| NotificationHandler.DispatchedSettlesAt | src/notifications/notification.handler.js:103-318 | after a run whose log inserts succeed, each matchable send of it is settled |
| NotificationHandler.DispatchedSettles | src/notifications/notification.handler.js:103-318 | after such a run, every matchable send is settled |
| NotificationHandler.SettledRunIsIdle | src/notifications/notification.handler.js:103-318 | a run of settled sends changes nothing |
| NotificationHandler.DispatchedTwiceIsOnce | src/notifications/notification.handler.js:103-318 | handling the same event twice is handling it once, when the first run logs every send |
| NotificationHandler.DispatchedKeepsLoggedOnce | src/notifications/notification.handler.js:103-318 | no handler run logs a matchable key twice |
| NotificationHandler.Routes | src/notifications/notification.handler.js:103-318 | one or two sends per event, an app send first, an e-mail only for the onboarding, confirmed, rejected and reminder events, to the same recipient |
| NotificationHandler.PlanRoutes | src/notifications/notification.handler.js:140-189 | the handler makes its sends until a table lookup reads `undefined`, and stops there |
| NotificationHandler.MissingEntriesSendNothing | src/notifications/notification.handler.js:140-189 | the admin-cancellation and visit-summary handlers throw before any send |
| NotificationHandler.OtherEventsComplete | src/notifications/notification.handler.js:195-318 | every other handler makes all its routed sends |
| NotificationHandler.SendApp | src/notifications/notification.handler.js:33-67 | the tables become `AppDelivered` of the old ones |
| NotificationHandler.SendEmail | src/notifications/notification.handler.js:69-97 | the tables become `EmailDelivered` of the old ones |
| NotificationHandler.Dispatch | src/notifications/notification.handler.js:33-97 | one send on its channel: the tables become `Delivered` |
| NotificationHandler.Handle | src/notifications/notification.handler.js:103-318 | a handler performs its planned sends in order and completes exactly when its plan does |
| NotificationController.NewestFirstIsPreorder | src/controllers/notificationController.js:13 | `ORDER BY created_at DESC` is a total preorder |
| NotificationController.MyNotifications | src/controllers/notificationController.js:8-15 | exactly the caller's rows for that role, newest first |
| NotificationController.GetMyNotifications | src/controllers/notificationController.js:3-24 | 500 "Failed to fetch notifications" exactly when the query fails; otherwise the caller's list |
| NotificationController.MarkedRead | src/controllers/notificationController.js:30-36 | only rows whose id and receiver match become read |
| NotificationController.MarkedReadIdempotent | src/controllers/notificationController.js:30-36 | marking twice is marking once |
| NotificationController.MarkedReadChangesOneRow | src/controllers/notificationController.js:30-36 | with unique ids at most one row changes, and never another receiver's |
| NotificationController.MarkAsRead | src/controllers/notificationController.js:26-39 | the table becomes `MarkedRead`, the answer is the same whether or not a row matched |
| Upload.LastIndexOf | src/middleware/upload.middleware.js:16 | the last occurrence of the character, or `None` |
| Upload.TrimSlashes | src/middleware/upload.middleware.js:16 | trailing '/'s are removed, and only those |
| Upload.BaseName | src/middleware/upload.middleware.js:16 | the last path segment has no '/' |
| Upload.ExtName | src/middleware/upload.middleware.js:16 | `path.extname` is "" or a dot followed by neither dots nor slashes |
| Upload.LowerExt | src/middleware/upload.middleware.js:16 | the lower-cased extension has the same shape |
| Upload.AllowedAreProper | src/middleware/upload.middleware.js:17 | each allowed extension has that shape |
| Upload.StampRoundTrip | src/middleware/upload.middleware.js:21 | the timestamp and extension parse back |
| Upload.PartsRoundTrip | src/middleware/upload.middleware.js:21 | the id and the separator parse back |
| Upload.FilenameRoundTrip | src/middleware/upload.middleware.js:21 | `user_<id>_<ts><ext>` parses back to its id, timestamp and extension |
| Upload.FilenamesDistinct | src/middleware/upload.middleware.js:21 | different ids, instants or extensions never give the same name |
| Upload.ExtNameOfFilename | src/middleware/upload.middleware.js:16-21 | `path.extname` of the stored name is the extension it was built with |
| Upload.Destination | src/middleware/upload.middleware.js:6-14 | "Unauthorized upload" exactly without a user or role; otherwise the role's directory |
| Upload.PatientDirectory | src/middleware/upload.middleware.js:10-11 | patients upload to `uploads/profiles/patients` |
| Upload.DoctorDirectory | src/middleware/upload.middleware.js:10-11 | doctors upload to `uploads/profiles/doctors` |
| Upload.DestinationIgnoresCase | src/middleware/upload.middleware.js:10 | roles equal up to case share a directory |
| Upload.StoredName | src/middleware/upload.middleware.js:15-22 | accepted exactly for an allowed lower-cased extension, else "Invalid image format"; the name parses back to the uploader, the instant and that extension |
| Upload.Accept | src/middleware/upload.middleware.js:25-36 | accepted exactly for an image MIME type, an authorised uploader, an allowed extension and at most 10 MiB; the first failing check names the refusal, including TooLarge for an oversized file that passes the others; an accepted file goes to the role's directory under the stored name |

## Left out

- Read-only listings outside the named rules are not modelled: the profile, history, search, appointment detail, incoming-appointment and patient-notification queries. Password change is not modelled either.
- Text.ToLower: only ASCII letters are lower-cased. JavaScript's full Unicode case mapping is not modelled.
- DoctorController.JsonStringArray: only `"` and `\` are escaped. `JSON.stringify`'s escapes for control characters are not modelled.
- MySQL value coercion and collation are not modelled: string-to-number comparison of `req.params` ids, case-insensitive string equality, and date parsing. Ids are naturals and dates are day numbers.
- A non-numeric `req.params.id` is not modelled.
- Storage faults are modelled only in the registration transactions, the notifications query, and the swallowed inserts of the logger and the notification writer. Elsewhere every statement is taken to succeed. The 500 answers that login, the staff booking and the patient booking, cancel, listing and profile handlers give a failing statement are not modelled.
- A failing dedup query in sendApp or sendEmail is not modelled.
- markAsRead has no catch, so its failing UPDATE is an unhandled rejection. This is not modelled.
- Concurrency is not modelled. The MAX+1 read-then-insert runs without a lock, and the model treats requests as sequential. No serialisation property is claimed.
- Queue advance (call next, start, complete, respond) is absent from the code and is not modelled.
- Shifts and a per-shift capacity are absent from the code and are not modelled.
- E-mail addresses and HTML bodies are not modelled. The HTML templates are plain interpolation. The e-mail subject is the send's title.
- bcrypt is not modelled: hashing is a given `hashed` string and comparison a `matches` flag.
- JWT signing is not modelled: the token is its payload {id, role} with the one-day lifetime.
- `fs.mkdirSync` is not modelled.
- `path.join` normalisation is not modelled: the directory is the joined literal.
- Family members' age (`TIMESTAMPDIFF`) is not modelled.
- PatientBooking.QrBookVisit: the handler validates nothing. A missing doctor or type is a TypeError or NULL in the code, and the model takes both as given.
- NotificationMessages.EventName: the events module that defines the event-type strings is not part of this model. Each event is taken to be spelled as its constant name.
- Handlers are given payload ids as `Option`s. A missing `doctor` or `patient` object would throw a TypeError, and this is not modelled.
- `db.execute`, which the notification logger and writer use, rejects an `undefined` bind parameter. A send whose payload leaves one undefined is not modelled. The controllers use `db.query`, which binds `undefined` as NULL, and the model does the same.
- Accounts.AccountTables.InsertUser: the INSERTs leave `is_active` to the schema's default, which is not part of this model. A new user is taken to be active.
- PatientBooking.DashboardList: the `JOIN doctors` is taken as the set of user ids with a doctor row, so `doctors.user_id` is assumed unique. A doctor with two rows would list an appointment twice in the database and once here.
- PatientBooking.GetUpcoming: the same `JOIN doctors` assumption holds here.
- Upload.Accept: multer's error text for the size limit is not modelled.

## Findings

| source | as written | input that shows it | evidently intended | confidence | as-written member | corrected member |
|---|---|---|---|---|---|---|
| src/controllers/patientController.js:538 | the INSERT's parameters name `familyMemberId` and `tokenNumber`, which are declared nowhere, so a valid clinic booking throws into the 500 branch and inserts nothing | doctorId 7, appointmentType "CLINIC" | insert the computed `nextToken` with no family member, and answer 201 with that token | high; not executed | PatientBooking.BookVisitAsWritten, PatientBooking.BookVisitAsWrittenFails | PatientBooking.BookVisit |
| src/controllers/patientController.js:362 | the INSERT's parameters name `appointmentType`, `familyMemberId` and `tokenNumber`, none declared, so a free video slot ends in 500. The statement would also date the row CURDATE() and store no time | doctor 7, day 20000, time 600, empty table | insert a PENDING VIDEO row holding the requested date and time | high for the error, medium for the slot columns; not executed | PatientBooking.BookVideoAsWritten, PatientBooking.BookVideoAsWrittenFails | PatientBooking.BookVideo |
| src/controllers/staffController.js:11 | `db` is used but never required, so every valid staff booking throws a ReferenceError into the 500 branch | doctorId 3, appointmentType "HOSPITAL" | require the database module, insert the bucket's next token and answer 201 with it | high; not executed | StaffController.ManualVisitBookingAsWritten, StaffController.ManualVisitBookingAsWrittenFails | StaffController.ManualVisitBooking |
| src/controllers/doctorController.js:120-131 | the column list has `email` before `clinicName`, but the value list passes `clinicName` before `email`, so each lands in the other's column | any registration without a clinic name: the e-mail column is NULL and the clinic name holds the e-mail | each value in its own column | high; not executed | DoctorController.DoctorRowAsWritten, DoctorController.DoctorRowAsWrittenSwaps | DoctorController.DoctorRowFor |
