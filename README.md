# Hospital management backend: a Dafny model

This project models the Express/Mongoose backend of a hospital management
application: patients, doctors, teams, wards, staff accounts, appointments,
treatment records, notifications and billing, plus the mock "AI" helpers that
score patient risk and aggregate the admin dashboard.

The MongoDB database is a class `Store.Db` with one `map<Id, Document>` per
collection. A shared counter `nextId` stands for ObjectId generation. Its
invariant `Db.Valid()` holds only what the code keeps:

- every bill keeps its payment ledger;
- the unique indexes on patient `contact` and `email`, ward `wardName`,
  invoice `invoiceNumber` and Auth `email` hold;
- every treatment record has its required details;
- the AuditLog collection holds only bill creations.

Every controller action is a method over the database. It returns
`Ok(payload)` or `Err(status, message)` with the status code and the message
that the action sends. Each action's `modifies` clause names only the
collections it writes. Mongo reads are `Query.Collect` (`find`, every
matching document once) and `Query.FindOne` (`findOne`, some match or none).
`Sorting.Sort` is the `sort` on a key. The listings are specified as the
multiset of selected documents, in the requested order.

Where the design description and the code disagree, the model follows the
code:

- Registering a patient does not pick a ward or a doctor. It does not
  update ward occupancy or the doctors' treated lists, and it writes no
  initial treatment record.
- Deleting a patient or a ward cleans up nothing.
- `addWard` stores `occupiedBeds` and `patients` exactly as sent.
  Nothing ties `occupiedBeds` to `capacity`.
- Adding a treated patient changes only the doctor's side.
- Approving an appointment runs no conflict check; only a reschedule with
  a new time does (`Appointments.ApprovalCanDoubleBook`).
- Status updates follow no transition table
  (`Appointments.AnyStatusFromAnyStatus`).

Mongoose behaviour the model relies on:

- keys set to `undefined` are dropped from an update;
- `runValidators` applies where the code passes it;
- schema strictness drops fields the schema does not declare;
- `strictQuery` is off, so a filter on a path the schema does not declare is applied as written (`Auth.Login`'s doctor tier relies on this);
- the unique index on `Patient.email` is not sparse, so at most one
  patient may lack an email.

## Model

| member | source | states |
|---|---|---|
| Models.ParseStatus | backend/models/appointmentModel.js:16-20 | a status string is accepted exactly when it is one of the four enumeration values, and it names the parsed status |
| Appointments.ParseStatusName | backend/models/appointmentModel.js:16-20 | every appointment status round-trips through its name |
| Text.Lower | backend/middleware/aiLogic.js:16 | `toLowerCase` restricted to ASCII: the length is kept, A–Z become a–z and every other character is unchanged |
| Text.Trim | backend/controllers/aiController.js:419 | `trim` yields the piece of the input that has only white space before and after it, starts and ends with a non-space character, and is "" exactly when the string is all white space |
| Text.JoinEndsWithLast | backend/middleware/aiLogic.js:43 | a non-empty list joined with a separator ends with its last element |
| Sorting.Sort | backend/controllers/appointmentController.js:109-112 | `sort` returns a permutation of its input, ordered by the key |
| Sorting.PrefixHoldsLargest | backend/controllers/aiController.js:430-432 | the first k elements of a descending order rank at least as high as every element outside them |
| Sorting.Top | backend/controllers/aiController.js:424-432 | sort descending then `slice(0, n)`: exactly min(n, length) elements, sorted descending, a sub-multiset of the input, and every element left out ranks no higher than each element kept |
| Query.Collect | backend/controllers/aiController.js:295-309 | `find`: the result is, as a multiset, exactly the matching documents, each with its id, and no id occurs twice |
| Query.ListingCount | backend/controllers/aiController.js:343 | a listing of a whole collection with distinct ids has as many entries as the collection has documents |
| Billing.ProcessItems | backend/controllers/billingController.js:31-36 | each item's totalPrice is quantity × unitPrice, the other fields are kept, and totalAmount is the sum of the item totals |
| Billing.OpenBill | backend/controllers/billingController.js:38-45 | a new bill is unpaid, with paidAmount 0 and balance equal to totalAmount, and it satisfies the ledger invariant |
| Billing.IssueInvoice | backend/controllers/billingController.js:49-64 | the invoice carries the bill, "INV-" followed by the clock reading, the total and "unpaid"; one CREATE_BILL audit entry is added; a number already in use fails with 500 |
| Billing.CreateBill | backend/controllers/billingController.js:20-75 | a missing patient or an empty item list gives 400 and stores nothing; otherwise exactly one bill, one invoice and one audit entry are stored and the ledger invariant is kept |
| Billing.Pay | backend/controllers/billingController.js:143-182 | checks run in the source's order (amount, method, bill, paid status, balance), each with its status and message, the balance check answering 400 with the balance in its message; a successful payment adds exactly the amount, sets balance = total − paid, status paid iff balance ≤ 0 and otherwise partial, and appends one payment_added entry |
| Billing.PaymentsTotalAppend | backend/controllers/billingController.js:173-182 | appending a payment entry adds its amount to the logged total |
| Billing.PayKeepsLedger | backend/controllers/billingController.js:166-182 | a successful payment keeps the ledger invariant |
| Billing.PaymentsTotalPositive | backend/controllers/billingController.js:143-147 | a non-empty log of positive payments has a positive total |
| Billing.PaidWithinTotal | backend/controllers/billingController.js:166-174 | once a bill has payments, 0 < paidAmount ≤ totalAmount |
| Billing.PayingBalanceSettles | backend/controllers/billingController.js:166-175 | paying exactly the positive outstanding balance succeeds and leaves the bill paid with balance 0 |
| Billing.NothingOwedStaysUnpaid | backend/controllers/billingController.js:160-171 | an unpaid bill whose total is not positive refuses every payment, so it stays unpaid |
| Billing.PayEachAccumulates | backend/controllers/billingController.js:173-182 | a run of successful payments adds their sum to paidAmount, one log entry each, and keeps the ledger |
| Billing.AddPayment | backend/controllers/billingController.js:138-191 | the outcome is `Pay` on the stored bill; on success only that bill changes, on failure nothing does |
| Billing.GetAllBills | backend/controllers/billingController.js:78-89 | returns every bill exactly once |
| Billing.GetPatientBills | backend/controllers/billingController.js:92-113 | an invalid id gives 400 "Invalid patient ID", and a well-formed id always succeeds with exactly the patient's bills |
| Billing.GetInvoiceByBill | backend/controllers/billingController.js:194-206 | returns an invoice of the bill, or 404 exactly when there is none |
| Billing.GetAuditLogsByBill | backend/controllers/billingController.js:209-218 | exactly the bill's audit entries, newest first, all CREATE_BILL |
| Appointments.GetAppointments | backend/controllers/appointmentController.js:99-124 | a user id that is not an ObjectId gives 500 exactly when the role is "doctor" or "patient"; otherwise the doctor role filters by doctor, the patient role by patient, and anything else returns all; ascending by time; each match once |
| Appointments.GetSingleAppointment | backend/controllers/appointmentController.js:127-146 | the stored appointment, or 404 exactly when the id is unknown |
| Appointments.FindConflict | backend/controllers/appointmentController.js:54-65 | true exactly when another pending or approved appointment of the doctor sits at that exact time |
| Appointments.CreateAppointment | backend/controllers/appointmentController.js:25-96 | doctor is checked before patient (404 each), then the slot (400); success stores one pending appointment at the requested time or now, plus one notification to its patient; failure stores nothing |
| Appointments.StatusUpdate | backend/controllers/appointmentController.js:149-187 | 400 for a status outside the four, 404 for an unknown id, 500 for a reschedule whose new time is not a date, 400 "Doctor is not available at the new requested time." when a reschedule's new time is held by another appointment; otherwise the status is set, the time moves only on a reschedule with a time, and notes change only when given non-empty |
| Appointments.AnyStatusFromAnyStatus | backend/controllers/appointmentController.js:184-185 | from any stored appointment, every status can be set, and only status and notes change |
| Appointments.ApprovalCanDoubleBook | backend/controllers/appointmentController.js:167-184 | approving a rejected appointment into a slot held by a pending one succeeds, and both then hold it |
| Appointments.RescheduledHoldsNoSlot | backend/controllers/appointmentController.js:167-181 | a rescheduled appointment sits at its new time but blocks no booking there |
| Appointments.UpdateAppointmentStatus | backend/controllers/appointmentController.js:149-210 | the outcome is `StatusUpdate` on the stored appointments, including the 500 of an unparseable new time; success rewrites that appointment and notifies its patient once; failure changes nothing |
| Appointments.DeleteAppointment | backend/controllers/appointmentController.js:213-234 | 404 for an unknown id, otherwise exactly that appointment is removed |
| TreatmentRecords.AddTreatmentRecord | backend/controllers/treatmentRecordController.js:8-61 | patient, then doctor, then the given ward are checked (404 each); empty details give 500; success stores exactly one record with the given ids (ward None when not given), the details, the time, no transfers |
| TreatmentRecords.AmendEmpty | backend/controllers/treatmentRecordController.js:135-140 | an update with no truthy field leaves the record unchanged |
| TreatmentRecords.AmendIdempotent | backend/controllers/treatmentRecordController.js:135-140 | applying the same update twice equals applying it once |
| TreatmentRecords.AmendKeepsFields | backend/controllers/treatmentRecordController.js:135-140 | an update never clears a field, never touches admission date, transfers or the transferred flag, and keeps the details non-empty |
| TreatmentRecords.UpdateTreatmentRecord | backend/controllers/treatmentRecordController.js:120-156 | 404 for an unknown id; otherwise the record is amended field by field without re-checking the new ids |
| TreatmentRecords.DeleteTreatmentRecord | backend/controllers/treatmentRecordController.js:159-181 | 404 for an unknown id, otherwise exactly that record is removed |
| TreatmentRecords.GetSingleTreatmentRecord | backend/controllers/treatmentRecordController.js:93-117 | the stored record, or 404 exactly when the id is unknown |
| TreatmentRecords.GetAllTreatmentRecords | backend/controllers/treatmentRecordController.js:64-90 | every record exactly once |
| TreatmentRecords.GetTreatmentRecordsByPatientId | backend/controllers/treatmentRecordController.js:184-207 | exactly the records of that patient, each once |
| Notifications.UserParam | backend/controllers/notificationController.js:7 | the patient id when given, else the doctor id; absent exactly when neither is given |
| Notifications.GetUserNotifications | backend/controllers/notificationController.js:5-31 | 400 "Missing userId parameter" exactly when no id is given; otherwise exactly that user's notifications, newest first |
| Notifications.GetAllAdminNotifications | backend/controllers/notificationController.js:87-101 | every notification once, newest first |
| Notifications.MarkWhere | backend/controllers/notificationController.js:71-74 | `updateMany` with `$set isRead`: the same ids, a notification is read afterwards iff it was read or matched, nothing else changes |
| Notifications.MarkUserLeavesOthers | backend/controllers/notificationController.js:71-74 | marking one user's notifications leaves every other user's notification unchanged |
| Notifications.MarkAllIdempotent | backend/controllers/notificationController.js:71-74 | marking all of a user's, or all, notifications twice equals doing it once |
| Notifications.MarkAllUserNotificationsAsRead | backend/controllers/notificationController.js:62-84 | 400 without a user id; otherwise every notification of that user is read and others are untouched |
| Notifications.MarkAllAdminNotificationsAsRead | backend/controllers/notificationController.js:132-149 | every notification is read afterwards and nothing else changes |
| Notifications.MarkNotificationAsRead | backend/controllers/notificationController.js:34-59 | 404 for an unknown id; otherwise only that notification becomes read, and repeating it is a no-op |
| Notifications.DeleteNotification | backend/controllers/notificationController.js:152-167 | 404 for an unknown id, otherwise exactly that notification is removed |
| Doctors.ParseGrade | backend/models/doctorModel.js:9-13 | the grade enumeration: exactly "Junior" and "Senior" are accepted |
| Doctors.AsArray | backend/controllers/doctorController.js:23-28 | an array is kept as is and anything else becomes a one-element list: a single id, or one null reference for an absent value |
| Doctors.RegisterDoctor | backend/controllers/doctorController.js:5-46 | an existing (name, team) pair gives 400 and stores nothing; an invalid document gives 500; otherwise exactly one doctor is stored, whose lists are the `AsArray` of the request's, so an absent list is stored as one null reference |
| Doctors.GetAllDoctors | backend/controllers/doctorController.js:48-73 | 404 exactly when there is no doctor, otherwise every doctor |
| Doctors.GetSingleDoctor | backend/controllers/doctorController.js:76-101 | the stored doctor, or 404 exactly when the id is unknown |
| Doctors.DeleteDoctor | backend/controllers/doctorController.js:104-129 | 404 for an unknown id, otherwise exactly that doctor is removed |
| Doctors.ApplyPatchIdempotent | backend/controllers/doctorController.js:134-149 | applying an update twice equals once, an empty update changes nothing, and email and password are never touched |
| Doctors.UpdateCanDuplicateNameInTeam | backend/controllers/doctorController.js:132-165 | an update can rename a doctor to the name of another in the same team; the uniqueness check of registration is not repeated |
| Doctors.UpdateDoctor | backend/controllers/doctorController.js:132-165 | 404 for an unknown id, 500 when a validator fails, otherwise exactly the patched doctor replaces the old one |
| Doctors.AddToSet | backend/controllers/doctorController.js:172-176 | `$addToSet`: the element is present afterwards, nothing else is added, the list is unchanged when it was present, and no duplicates are introduced |
| Doctors.AddToSetIdempotent | backend/controllers/doctorController.js:172-176 | adding the same patient twice equals adding it once |
| Doctors.AddTreatedPatient | backend/controllers/doctorController.js:167-199 | 404 for an unknown doctor; otherwise only that doctor's treated list changes, by set insertion |
| Teams.RegisterTeam | backend/controllers/teamController.js:4-34 | an existing (name, department) pair gives 400 and stores nothing; a missing field gives 500; otherwise exactly one team is stored |
| Teams.GetAllTeams | backend/controllers/teamController.js:37-59 | 404 exactly when there is no team, otherwise every team |
| Teams.GetSingleTeam | backend/controllers/teamController.js:62-85 | the stored team, or 404 exactly when the id is unknown |
| Teams.DeleteTeam | backend/controllers/teamController.js:88-112 | 404 for an unknown id, otherwise exactly that team is removed |
| Teams.ApplyPatchIdempotent | backend/controllers/teamController.js:117-131 | applying an update twice equals once; an empty update changes nothing |
| Teams.UpdateTeam | backend/controllers/teamController.js:115-145 | 404 for an unknown id, 500 when a validator fails, otherwise exactly the patched team replaces the old one |
| Patients.FindClash | backend/models/patientModel.js:13-39 | true exactly when another patient holds the contact or the email (the two unique indexes) |
| Patients.RegisterPatient | backend/controllers/patientController.js:4-56 | a taken contact gives 400 and stores nothing; past the contact check, every failure (a missing field, a failed validator, a taken email) is 500; otherwise exactly one patient is stored, holding the hash of the password and touching no ward or doctor |
| Patients.RegisterPatientAsWritten | backend/controllers/patientController.js:4-56 | as the code is written: 400 for a taken contact, otherwise always 500, and never a stored patient |
| Patients.GetAllPatients | backend/controllers/patientController.js:59-82 | every patient exactly once |
| Patients.GetSinglePatient | backend/controllers/patientController.js:85-109 | the stored patient, or 404 exactly when the id is unknown |
| Patients.DeletePatient | backend/controllers/patientController.js:112-139 | 404 for an unknown id, otherwise exactly that patient is removed and nothing else changes |
| Patients.ApplyPatchValid | backend/controllers/patientController.js:155-160 | an update that passes the validators keeps the patient valid, and applying it twice equals once |
| Patients.UpdatePatient | backend/controllers/patientController.js:142-175 | 404 for an unknown id; a failed validator or a clash on a unique index gives 500; otherwise exactly the patched patient replaces the old one |
| Wards.ParseWardType | backend/models/wardModel.js:10-14 | the ward type enumeration: exactly the four names are accepted |
| Wards.TypeName | backend/models/wardModel.js:10-14 | every ward type round-trips through its name |
| Wards.AddWard | backend/controllers/wardController.js:4-36 | a taken name gives 500 and stores nothing; a missing name, a bad type or a capacity below 1 give 500; otherwise exactly one ward with occupiedBeds and patients as sent (defaults 0 and empty) is stored |
| Wards.GetAllWards | backend/controllers/wardController.js:39-61 | 404 exactly when there is no ward, otherwise every ward once |
| Wards.GetSingleWard | backend/controllers/wardController.js:64-85 | the stored ward, or 404 exactly when the id is unknown |
| Wards.DeleteWard | backend/controllers/wardController.js:88-110 | 404 for an unknown id, otherwise exactly that ward is removed |
| Auth.Register | backend/controllers/authController.js:11-45 | an email held in Auth gives 400 whatever the other collections hold; otherwise a missing password or a failed validator gives 500, and success stores exactly one account holding the hash of the password |
| Auth.ResolvedRole | backend/controllers/authController.js:89-110 | the session role is "doctor" for a doctor, "patient" for a patient, and the stored role for an Auth user |
| Auth.Login | backend/controllers/authController.js:48-128 | Auth is searched, then doctors, then patients, and the first hit is used; an unknown email and a wrong password give the same 400; the token signs the session's id, email and resolved role |
| Auth.SessionRoleAuthorizes | backend/middleware/roleAuthorization.js:13-22 | a doctor or patient session passes a guard that lists its role; a session without a role is refused |
| Auth.WithoutPassword | backend/controllers/authController.js:171-174 | `select("-password")`: the account keeps its kind and identity and loses its password |
| Auth.FindAccount | backend/controllers/authController.js:171-174 | lookup by id in Auth, then patients, then doctors; none exactly when no collection holds the id |
| Auth.GetSingleUser | backend/controllers/authController.js:160-194 | 400 without an id, 404 when no collection holds it, otherwise the first hit without its password |
| Auth.DeleteUser | backend/controllers/authController.js:197-230 | 400 without an id, 404 when no collection holds it, otherwise exactly the first hit is removed and the other collections are untouched |
| Auth.Updated | backend/controllers/authController.js:253-271 | an update keeps the account's kind and password and sets only what that collection's schema declares |
| Auth.UpdateAuthUser | backend/controllers/authController.js:253-258 | fails with 500 exactly when the new email is held by another account; otherwise only that account changes |
| Auth.UpdatePatientUser | backend/controllers/authController.js:260-265 | fails with 500 exactly when the new email is held by another patient; otherwise only that patient changes |
| Auth.UpdateDoctorUser | backend/controllers/authController.js:267-271 | always succeeds: the doctor is replaced by `Updated` of it, which changes only the name, and the answer omits the password |
| Auth.UpdateUser | backend/controllers/authController.js:233-292 | 400 without an id, 400 when name, email and role are all empty, 404 when no collection holds the id; otherwise the first hit (Auth, then patients, then doctors) fails with 500 exactly when its collection's unique index holds the new email for another document, and else that document is replaced by `Updated` of it and the other collections are untouched |
| RoleAuthorization.Authorize | backend/middleware/roleAuthorization.js:2-23 | proceed exactly when the user has a truthy role in the allowed list; a missing user or role and a role not allowed each give 403 with their own message; an empty list refuses everyone |
| RoleAuthorization.AuthorizeDependsOnRoleSet | backend/middleware/roleAuthorization.js:13 | the decision depends only on membership: a wider list admits everyone a narrower one does, and lists with the same members decide alike |
| AiLogic.Clamp01 | backend/middleware/aiLogic.js:23 | the result lies in [0, 1], equals x inside it and the nearer bound outside |
| AiLogic.RiskFlags | backend/middleware/aiLogic.js:11-19 | "elderly" iff age ≥ 60, "critical_condition" iff the lower-cased status is "critical", in that order, nothing else |
| AiLogic.MockRiskPrediction | backend/middleware/aiLogic.js:7-26 | the score lies in [0, 1] for any jitter and is base + jitter when that is in range; the flags do not depend on the jitter |
| AiLogic.RiskLevelOfFlags | backend/middleware/aiLogic.js:8-23 | with jitter in [-0.1, 0.1): both flags give a high score, critical alone a moderate one, neither a low one, elderly alone a score in [0.3, 0.5) |
| AiLogic.RiskMonotone | backend/middleware/aiLogic.js:8-23 | a larger jitter, reaching 60, or a critical status never lowers the score |
| AiLogic.SchemaStatusNeverCritical | backend/models/patientModel.js:40-44 | no status the patient schema admits is "critical", so stored patients never get that flag |
| AiLogic.WordingsExclusive | backend/middleware/aiLogic.js:34-40 | the three risk wordings are mutually exclusive prefixes |
| AiLogic.MockAIReportSummary | backend/middleware/aiLogic.js:31-49 | the summary starts with the introduction; high wording iff score > 0.7, moderate iff 0.4 < score ≤ 0.7, low otherwise; it ends with the joined flags and "." or with "no significant risk flags." |
| AiLogic.Pieces | backend/middleware/aiLogic.js:32-46 | a summary built from three pieces starts with the first, continues with the rest and ends with the last |
| AiLogic.ReportMentionsFlags | backend/middleware/aiLogic.js:42-46 | for the predicted flags, the summary ends with "no significant risk flags." exactly when there is no flag |
| AiLogic.DaysUntilNext | backend/middleware/aiLogic.js:55-60 | 7 days iff score > 0.7, 14 iff 0.4 < score ≤ 0.7, 30 iff score ≤ 0.4 |
| AiLogic.SoonerForHigherRisk | backend/middleware/aiLogic.js:57-60 | a higher score never schedules later |
| AiLogic.MockSmartScheduling | backend/middleware/aiLogic.js:54-65 | the next appointment is the admission date plus the chosen number of days, later than the admission |
| AiController.ComputeRiskScore | backend/controllers/aiController.js:13-28 | the same prediction as `mockRiskPrediction`, with a missing status as "" |
| AiController.SuggestNextAppointment | backend/controllers/aiController.js:30-39 | the same offset as `mockSmartScheduling` from the admission date, or from now when there is none |
| AiController.RowOf | backend/controllers/aiController.js:312-340 | a dashboard row carries the patient's id, name, age and conditions; gender, status and populated ward name fall back to "N/A" when empty or missing; the risk is the mock prediction's score for that jitter, in [0, 1], with its flags |
| AiController.Rows | backend/controllers/aiController.js:312-341 | one row per patient, in order |
| AiController.TotalZeros | backend/controllers/aiController.js:358-364 | fresh buckets sum to 0 |
| AiController.TotalIncrement | backend/controllers/aiController.js:365-372 | incrementing one bucket raises the sum by 1 |
| AiController.Histogram | backend/controllers/aiController.js:365-372 | each bucket counts exactly the elements that fall in it, and the counts sum to the number of elements |
| AiController.RiskBucket | backend/controllers/aiController.js:366-371 | the five 20-point bands of the risk percentage |
| AiController.RiskBuckets | backend/controllers/aiController.js:365-372 | one band per row |
| AiController.AgeBucket | backend/controllers/aiController.js:408-412 | the age bands < 18, 18-39, 40-59 and ≥ 60 |
| AiController.AgeBuckets | backend/controllers/aiController.js:407-413 | one age band per patient |
| AiController.Count | backend/controllers/aiController.js:421 | a key has a positive count iff it occurs |
| AiController.FirstSeen | backend/controllers/aiController.js:390-396 | the distinct keys of a list, each once, exactly those that occur |
| AiController.FirstSeenOrder | backend/controllers/aiController.js:416-423 | keys are listed by first occurrence: where a key first occurs, no later-listed key has occurred yet |
| AiController.Tally | backend/controllers/aiController.js:416-423 | the Map holds exactly the keys seen, each with its number of occurrences, and its entry order is `FirstSeen` of the keys |
| AiController.ConditionKeys | backend/controllers/aiController.js:418-420 | the keys of one patient are non-blank trimmed conditions, no more keys than conditions |
| AiController.ConditionKeysPlaced | backend/controllers/aiController.js:418-420 | the keys are exactly the trimmed conditions that are not blank, in their order, each as often as it occurs |
| AiController.HighRisk | backend/controllers/aiController.js:349 | exactly the rows with risk ≥ 0.7, each with its multiplicity in the input |
| AiController.AverageRisk | backend/controllers/aiController.js:345-347 | the mean risk lies in [0, 1] |
| AiController.OutstandingBalance | backend/controllers/aiController.js:351-355 | the sum of the balances equals total billed minus total paid when every bill keeps its ledger |
| AiController.OccupancyPercent | backend/controllers/aiController.js:375-379 | 0 when capacity ≤ 0, otherwise occupied/capacity as a percentage rounded to the nearest integer |
| AiController.OccupancyWithinRange | backend/controllers/aiController.js:375-379 | with 0 ≤ occupied ≤ capacity the percentage lies in [0, 100] |
| AiController.GenderKeys | backend/controllers/aiController.js:390-394 | one gender key per patient, in the patients' order |
| AiController.RowsCoverListing | backend/controllers/aiController.js:312-341 | the rows of a listing holding every patient once carry each patient id exactly once and no other |
| AiController.PatientRows | backend/controllers/aiController.js:295-341 | the listing is exactly the stored patients, as many as are stored; the rows are that listing's rows, exactly one per stored patient |
| AiController.WardOccupancy | backend/controllers/aiController.js:374-387 | exactly one load per stored ward, each that ward's `LoadOf`, as many loads as wards |
| AiController.TallyEntries | backend/controllers/aiController.js:396-399 | a tally's entries are each distinct key once, in first-seen order, with its count |
| AiController.TopOfBreakdown | backend/controllers/aiController.js:424-427 | the top n of a breakdown by count hold min(n, number of distinct keys) distinct keys with their exact counts, most frequent first, and no key left out occurs more often than one kept |
| AiController.TopConditions | backend/controllers/aiController.js:415-427 | the 12 most frequent non-blank conditions (all when fewer), distinct, each with its exact count, most frequent first |
| AiController.RiskFigures | backend/controllers/aiController.js:343-372 | the high-risk count, the average risk, five buckets that count the rows per band, and the 10 riskiest rows (all when fewer), riskiest first |
| AiController.GenderBreakdown | backend/controllers/aiController.js:389-399 | one entry per distinct gender key, by first occurrence, with the number of patients carrying it |
| AiController.AdminMetrics | backend/controllers/aiController.js:292-470 | the dashboard over a listing of every stored patient: the total is the number of stored patients; one row per patient; average and high-risk count over the rows; risk and age buckets count the patients per band; the gender breakdown; the 12 most frequent conditions; the 10 riskiest rows; one occupancy per ward |

## Left out

- The chat route (backend/controllers/aiController.js:136-283, with backend/routes/chatRoute.js) calls OpenAI and is not modelled.
- The `/risk-prediction` route (backend/controllers/aiController.js:83-134) and the summary text that `generatePatientSummary` builds locally (lines 41-80) are outside the modelled core. Only the route's helpers `computeRiskScore` and `suggestNextAppointment` are modelled.
- Sorting.Top: when several elements tie at the cut, the contract does not say which of them are kept. `Array.prototype.sort` is stable, so the source keeps the earliest ones; for `AiController.TopConditions` that means the earliest-seen conditions among those with equal counts.
- The `timestamps: true` option of the schemas (the `createdAt` and `updatedAt` fields Mongoose maintains) is not modelled. The notification schema declares `createdAt` itself (backend/models/notificationModel.js:27), and the model keeps that field, which the listings sort on.
- `trainRiskModel.js` is TensorFlow training; it is not part of this model.
- `getDoctorBills` filters on a `doctor` path that the billing schema does not declare. Under the settings above no stored bill has that path, so the route always answers an empty list. It is not modelled.
- `fetchPatientBillsForAI` and `fetchAppointmentsForAI` are the same queries as `getPatientBills` and `getAppointments` without the guards. They are covered by those members.
- `getAllUsers` concatenates two unfiltered listings, and it is not modelled.
- `markAdminNotificationAsRead` has the same body as `markUserNotificationAsRead`, so `Notifications.MarkNotificationAsRead` models both.
- `Math.random` jitter is a parameter. The clock (`Date.now`) is a parameter, and so is the locale date formatting in notification texts.
- `bcrypt.hash`, `bcrypt.compare` and `jwt.sign` are uninterpreted function parameters. The signing secret and the expiry are not modelled.
- `authMiddleware`, `initAdmin`, the Express routes, `app.js` and the React frontend are plumbing and UI, and they are not modelled.
- `populate` and `select` of display fields are not modelled, except `select("-password")`, which `Auth.WithoutPassword` models.
- An id parameter is either a well-formed ObjectId or absent (`None`). An id that is not an ObjectId makes the query's cast throw, and the controller's catch answers 500. That path is modelled only for the listing's `userId` and a reschedule's `newDateTime` (`Common.Param.Malformed`, in `Appointments.GetAppointments` and `Appointments.StatusUpdate`). `Billing.GetPatientBills` checks the id before querying, so its `None` is that check's 400. Elsewhere (for example `Auth.GetSingleUser`, `Auth.DeleteUser`, `Auth.UpdateUser`, the notification routes and every route taking `:id`) a malformed id is not modelled.
- Every operation runs to completion alone. Check-then-insert races between concurrent requests are not modelled.
- Money and ages are integers and risk is a real. `toFixed(4)` on the risk is not modelled, and neither is floating-point rounding.
- `setDate` is modelled as adding whole days of milliseconds, so daylight-saving shifts are not modelled. `toISOString` is not modelled.
- AiController.AdminMetrics: the gender breakdown is stated in insertion order. A plain object lists integer-like keys first, and that ordering is not modelled.
- AiController.AdminMetrics: the outstanding balance is stated for ledger-consistent bills through `AiController.OutstandingBalance`, not in the method's own contract.
- Auth.Login: the doctor tier is modelled with Mongoose's `strictQuery` off, so `Doctor.findOne({ email })` filters on the undeclared `email` path. With `strictQuery` on (the Mongoose 6 default), the filter is stripped and any doctor matches. `bcrypt.compare` then receives an undefined hash and throws, so a login that reaches the doctor tier answers 500 whenever a doctor exists, and the patient tier is never reached.
- Auth.Login: the doctor tier states only that a success is the session of some doctor with that email and a matching password, and that a failure is 400 or 500. Doctor emails carry no unique index, so `findOne` may return any of them. A doctor without a password makes `bcrypt.compare` throw, which gives 500.
- Text.Lower: only A–Z are lowered. JavaScript's `toLowerCase` applies full Unicode case mapping, which lowers other letters and can change the length ("İ" becomes two code units). Its one use is the comparison with "critical". Apart from A–Z, no character lowercases to text made only of that word's letters ("İ" gives "i" followed by a combining dot), so both versions agree on that comparison.
- Auth.Register: the schema's `minLength` of 5 applies to the stored hash and is not modelled. A bcrypt hash always satisfies it.
- Auth.Register: an absent email is not modelled. It is a `string` parameter, and "" fails the required validator.
- Patients.ApplyPatch: an updated password is stored as sent, unhashed, as the code does. No member states that this is wrong.
- Doctors.RegisterDoctor: the doctor's `email`, `password` and `specialty` are always absent, because the schema drops them.
- The doctor schema's `getDetailedDoctorInfo` is populate plumbing and is not modelled.

## Findings

| source | as written | input that shows it | evidently intended | confidence | as-written member | corrected member |
|---|---|---|---|---|---|---|
| backend/controllers/patientController.js:27-38 | `new Patient({...})` is built without `password`, which backend/models/patientModel.js declares `required`, so `save()` always throws and the action answers 500 | any registration with a new contact and otherwise valid fields | the password from the request is hashed and stored, and the patient is saved | not executed | Patients.RegisterPatientAsWritten | Patients.RegisterPatient |
