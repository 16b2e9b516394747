# Verified model of the school scheduling front end

The repository is a React front end for school scheduling with a Go server
behind it. Under the rendering it runs several protocols, state machines and
grouping algorithms. This project models those and proves what they keep over
every run. Each module follows one component:

- `CourseEditing`: any number of open course pages edit one versioned course
  row through a network that loses, delays, reorders and repeats messages.
- `IdempotentServer`, `ApiClient`: the server's replay of known idempotency keys
  and the client's attachment of keys.
- `AbsenceSubmission`: the absence form's submission with its internal resend,
  its retries, the change of key after a nickname refusal, and the verified
  session that a record burns.
- `LinkDecisions`: one key per link decision across failures.
- `RoomAssignment`: the busy set of a dropdown and the optimistic room saves.
- `LevelManager`, `LevelOverlap`, `LevelTotals`: the level and group manager, its
  actions when they overlap, and its totals.
- `GroupCounters`: the course counts of the root group panel, with overlapping
  requests and lost answers.
- `Realtime`: the debounced event coalescer.
- `StudentLookup`, `DraftRestore`, `DraftLife`, `AbsenceQuota`: the absence form's
  student search, draft restore, the life of a draft over page loads, and day quota.
- `DayGrouping`, `InboxGrouping`: grouping by institute day and by merged course.
- `SchedulePaste`: creating sessions from pasted rows.
- `CourseLevelsPaging`, `LevelHistory`: reading every page, bounded undo.
- `JsCollections`, `Text`: the insertion-ordered Map, its bucketing and
  last-write-wins loops, trimming and case folding.

A component whose handlers update React state is a class whose fields are that
state. Each handler's `ensures` equates the new state with a step function of
the old one, and the theorems are about all runs of those steps. Answers of the
server, failures and the passing of time are parameters of the steps, chosen
freely. The effect of a handler that awaits is split at the await where the
interleaving matters (course editing, submission, rooms, lookup, decisions,
overlapping level actions, group counters). A round of the paste dialog is taken
whole: its two create buttons are disabled while one runs.

## Where a promise fails, and exactly when

- Lost updates. The version check protects the fields a page resends from its
  cache only if every writer moves the version on. The legacy sync
  (`backend/internal/legacysync/reconcile/full.go:640`,
  `backend/internal/legacysync/apply/course.go:389`) writes link, code, name and
  teachers without doing so. `LostUpdatesAreConfined` says over all runs which
  fields an accepted patch then overwrites and when it overwrites none. A stale
  answer whose enrichment fails
  (`backend/internal/httpapi/courseshttp/routes.go:1337-1347`) carries no legacy
  link; with versioned writers only that link can be lost, exactly when the copy
  lacks it, and never when answers are enriched (`NoLostUpdates`).
- The client documents null as clearing a property
  (`src/features/courses/types.ts:13-16`). The server reads null of five fields as
  "leave alone" and clears only the cycle and the expiry days
  (`backend/internal/httpapi/courseshttp/requests.go:32-132`). The model follows
  the server; `NullClearsExactly` says when the two agree.
- Double submission. The form's text promises that a retry will not create a
  duplicate. A public record burns the verification and the session it came with,
  so each verification drives at most one record on every run and a lookup whose
  student verifies once has at most one. Over several verifications in one lookup
  the promise holds when no key is abandoned while something sent under it is
  recorded or still could be. `UncleanRotationDuplicates` shows a second record on
  every run that breaks this, and `DoubleSubmissionIsReached` reaches one. The
  staff form, and a network on which a failed request has no later effect, need no
  condition.
- The same text invites to tap Submit again after a cut connection. On the public
  form the record has burned the session by then; after a new verification the
  same body under the same key finishes the form, and any other body is refused
  (`ReverifiedSubmitReplays`). The form itself sends another body once the first
  record has filed the nickname or marked the classes absent
  (`src/features/absences/domain/sessionGrouping.ts:247-252`).
- Drafts. The save effect runs as soon as the lookup lands, with an empty form,
  while the restore waits for the classes step; a reload in between overwrites the
  stored selection (`ReloadKeepsExactly`, `StoredSurvivesExactly`).
- Rooms. A list that lands during a save can be older than the save;
  `LateListsSettleExactly` says when the page then double-books, and
  `RunsSettleExactly` when it never does over a whole run.
- Level manager. An update lands with what its action captured at the check.
  `LandKeepsExactly` says when a late one keeps the panel consistent, and
  `OverlappingRunsKeep` which actions may overlap. Moving a course trusts the group
  id it is handed.
- Group counters. The page warns that deleting a group ungroups its courses; the
  server refuses to delete such a group. The counts are moved by the answers to
  assignments and replaced by lists of the groups, and the two can cross: during
  an assignment the page still creates, renames and deletes.
  `InterleavingsAgreeExactly` says over every interleaving when the counts agree
  with the courses shown; `RunKeepsCounts`, that they do while no list lands
  across an assignment, no deletion lands over one, and no grouped course lacks a
  subject (the panel's list leaves such a course out). One crossing makes the
  counts wrong unless the list has none of the two groups
  (`OneDriftAgreesExactly`). After a lost answer, assigning again settles the
  panel, but only before the groups are listed again (`LostAssignIsRecovered`,
  `RetryAfterListMiscounts`).
- Paste. While the conflict policy is enforced no row is created twice. Without it
  a round that creates sessions and loses every answer can be repeated
  (`LostRoundRepeatsExactly`).
- Inbox rows. A colon in student codes can merge rows; `CodesCollideExactly` says
  for which codes.
- Paging. The loader is right because the route serves its page size in full;
  `LoadsExactlyWhen` is about servers that would cut pages shorter.

## Model

| member | source | states |
|---|---|---|
| CourseEditing.CourseDetail.SaveCourse | src/pages/CourseDetail.tsx:515-535 | a save is sent only with a loaded course and no save under way; the body resends the cached code, legacy link and unnamed name and teachers at the cached version |
| CourseEditing.CourseDetail.OnReply | src/pages/CourseDetail.tsx:536-576 | success and a stale answer replace the cached course, a stale answer without one starts a reload, anything else only ends the save |
| CourseEditing.CourseDetail.OnLoaded | src/pages/CourseDetail.tsx:276-289 | a load replaces the cached course at any time and leaves the save alone |
| CourseEditing.EveryCopyIsAPastState | src/pages/CourseDetail.tsx:515-577 | for any number of pages and any interleaving, loss, delay and repetition, every cached course and every course in flight is a state the server had (or its sparse rendering) |
| CourseEditing.SavesAreNumberedApart | src/pages/CourseDetail.tsx:515-577 | over every run a save goes out under a number that no answer on the way carries |
| CourseEditing.AnswersTakenExactly | src/pages/CourseDetail.tsx:515-577 | a page takes only the answer it waits for; a refused save or failed reload keeps the course and ends the waiting; no save goes out while it waits or before it has a course |
| CourseEditing.LoadGoesThrough | src/pages/CourseDetail.tsx:276-289 | a load brings the current row at any time and leaves a save alone; a request that fails ends the waiting |
| CourseEditing.KeepsOthersExactly | backend/internal/courseadmin/service.go:34-192 | a patch changes only its named fields if and only if the fields it echoes still match the row |
| CourseEditing.AcceptedHoldsNamed | backend/internal/courseadmin/service.go:206-233 | every accepted patch, however old its copy, stores the named name and teachers, and for each of the seven properties its value; an absent one is kept, and null clears cycle and expiry and keeps the other five |
| CourseEditing.AcceptedEchoesCopy | src/pages/CourseDetail.tsx:520-527 | over the rest it writes the copy's trimmed code and name, teachers and link, a blank link as none |
| CourseEditing.ServedIsAnswered | backend/internal/courseadmin/service.go:39-66 | a patch is accepted, and the row changed, if and only if it is fine and carries the row's version; it is told the current row if and only if it can be read and carries another version, and refused otherwise |
| CourseEditing.NoLostUpdates | src/pages/CourseDetail.tsx:515-577 | over every run with versioned writers an accepted patch stores what the user named, and changes nothing else exactly when the copy carries the row's legacy link, and always when stale answers are enriched |
| CourseEditing.LostUpdatesAreConfined | backend/internal/legacysync/apply/course.go:389-389 | with writers that keep the version touching only given fields, over every run an accepted patch writes the copy's value over exactly those it echoes and keeps the rest; it loses nothing if and only if none of them differs |
| CourseEditing.NoSilentWriteSinceRead | src/pages/CourseDetail.tsx:515-535 | with no such write between the read of a full copy and the serve, an accepted patch changes only the named fields |
| CourseEditing.NullClearsExactly | backend/internal/courseadmin/service.go:208-235 | every null of a save clears its property if and only if none names one of five fields while it holds a value |
| CourseEditing.AppliedAtMostOnce | backend/internal/courseadmin/service.go:51-66 | once accepted, a patch served again at any later time changes nothing |
| CourseEditing.SaveGoesThrough | src/pages/CourseDetail.tsx:515-538 | an up-to-date page's save ends with the row and the page showing each named field at its new value and every other field as it was |
| CourseEditing.StalePageCatchesUp | src/pages/CourseDetail.tsx:539-556 | a page whose save went stale ends with the current row in full, from the answer or from the page's own reload should an answer come without it |
| CourseEditing.SparseAnswerLosesLink | backend/internal/httpapi/courseshttp/routes.go:1330-1347 | from every state with a stale save, an un-enriched answer makes the next accepted save erase the legacy link |
| CourseEditing.StaleIsReached | src/pages/CourseDetail.tsx:539-556 | such a state arises whenever another writer overtakes a save |
| CourseEditing.SilentLinkIsErased | backend/internal/legacysync/reconcile/full.go:638-652 | a link written without a new version is erased by the next save of any page that was up to date |
| IdempotentServer.EachKeyRecordsOnce | backend/internal/httpapi/httpadapter/adapter.go:308-409 | over every sequence of requests each key records at most once |
| IdempotentServer.HandleExactly | backend/internal/httpapi/httpadapter/adapter.go:308-409 | a known key gets its stored answer for the same body and is turned down for another; a new one is recorded if and only if login and mutation succeed |
| IdempotentServer.AdmittedIsRecorded | backend/internal/httpapi/httpadapter/adapter.go:308-409 | a request whose mutation succeeds leaves its key recorded whatever comes before and after |
| IdempotentServer.ReplayIsSafe | backend/internal/httpapi/httpadapter/adapter.go:364-369 | a recorded request sent again, after any other requests, gets the same answer and records nothing |
| ApiClient.ApiJson | src/api/client.ts:114-147 | the method and key a call goes out with, the caller's key first, a new one only for mutations that are not exempt |
| ApiClient.KeylessExactly | src/api/client.ts:114-127 | a call goes out without a key if and only if its caller gave none and it is a GET or one of the listed paths |
| ApiClient.ReadsExactly | src/api/client.ts:135-135 | a method counts as GET if and only if it spells it in any case |
| ApiClient.MutationsCarryKeys | src/api/client.ts:119-127 | submitting absences, creating sessions and applying a schedule carry a key |
| ApiClient.GivenKeyRecordsOnce | src/api/client.ts:134-147 | a mutation with the caller's key is recorded once however often it is resent |
| ApiClient.NewKeyRecordsTwice | src/api/client.ts:143-147 | without one, resending the same mutation records it again |
| AbsenceSubmission.AbsenceForm.OnLookup | src/pages/AbsenceForm.tsx:602-623 | a finished lookup sets the student and a new key |
| AbsenceSubmission.AbsenceForm.HandleVerificationSatisfied | src/pages/AbsenceForm.tsx:558-573 | a verification gives the form a session for the student looked up |
| AbsenceSubmission.AbsenceForm.HandleStudentSessionExpired | src/pages/AbsenceForm.tsx:368-381 | an expired session asks for a new verification and keeps student and key, also while an answer is awaited |
| AbsenceSubmission.AbsenceForm.HandleSubmitAbsence | src/pages/AbsenceForm.tsx:901-1000 | a submit needs a student and, on the public form, a verification; it sends one batch under the current key, without a nickname on the staff form |
| AbsenceSubmission.AbsenceForm.OnNetworkFailure | src/features/absences/api/absenceFormApi.ts:230-290 | a network failure resends the same body under the same key once, then gives up |
| AbsenceSubmission.AbsenceForm.OnAnswer | src/pages/AbsenceForm.tsx:1000-1022 | only a nickname refusal of the first attempt changes the key and resends without the nickname; a recorded batch finishes; a public logged-out answer asks for a new verification |
| AbsenceSubmission.EntryExactly | src/pages/AbsenceForm.tsx:558-623 | a lookup gives the student a new key and no verification unless an answer is awaited; a verification counts only for an idle public form with a student; an expiry only takes it |
| AbsenceSubmission.VerificationsExactly | src/pages/AbsenceForm.tsx:558-573 | an idle public form with a student is verified by a new verification, by one of this student not yet burned, or by a session of this student that lives, and no other form is |
| AbsenceSubmission.SubmitExactly | src/pages/AbsenceForm.tsx:901-1000 | one body goes out if and only if the form is idle with a student and staff's or verified, as entered, under the key it has, from staff without a nickname |
| AbsenceSubmission.WaitingExactly | src/pages/AbsenceForm.tsx:981-1059 | the first failure resends body and key and the second ends the waiting; the awaited answer finishes, takes a new key and sends without the nickname once, or ends the waiting, and only a public logged-out answer takes the verification |
| AbsenceSubmission.NotWaitingIgnores | src/pages/AbsenceForm.tsx:981-1059 | a form that does not wait ignores failures and answers |
| AbsenceSubmission.VerdictExactly | backend/internal/absences/submission.go:106-127 | a batch is admitted if and only if its session lives unburned, its nickname is at most 50 characters without line breaks or tabs and fills an empty record, no make-up is booked already and nothing else befalls it; each refusal has its first cause |
| AbsenceSubmission.RecordExactly | backend/internal/httpapi/absenceshttp/batch_routes.go:82-103 | a record ends its session and no other, burns its verification and no other, files the nickname and books the make-ups of its student |
| AbsenceSubmission.StepKeeps | src/pages/AbsenceForm.tsx:901-1059 | one step keeps the invariant of keys, sessions, requests, answers and log, given that an abandoned key is clean |
| AbsenceSubmission.OneRecordPerVerification | backend/internal/httpapi/absenceshttp/batch_routes.go:82-103 | over every run and network, with no condition on keys, two public records burned two different verifications and have two different keys |
| AbsenceSubmission.OncePerLookupVerifiedOnce | backend/internal/otp/service.go:473-502 | so a lookup all of whose requests came with one verification has at most one record, whatever keys were abandoned |
| AbsenceSubmission.AtMostOncePerLookup | src/pages/AbsenceForm.tsx:1051-1052 | on any network and with any number of verifications, at most one batch is recorded per lookup when nothing recorded or still recordable is under an abandoned key, and a finished form shows exactly what was recorded |
| AbsenceSubmission.AtMostOncePromptly | src/pages/AbsenceForm.tsx:981-1018 | when a failed request has no later effect, at most one batch per lookup with no further condition |
| AbsenceSubmission.StaffRunsAreClean | src/pages/AbsenceForm.tsx:981-987 | the staff form never abandons a key |
| AbsenceSubmission.NicknamedKeyIsClean | backend/internal/absences/submission.go:110-127 | a key under which every request carried a well-formed nickname is clean when it is refused for the nickname |
| AbsenceSubmission.UncleanRotationDuplicates | src/pages/AbsenceForm.tsx:1001-1014 | abandoning any other key lets a late network record two batches for the one lookup once the student verifies again |
| AbsenceSubmission.DoubleSubmissionIsReached | backend/internal/httpapi/absenceshttp/batch_routes.go:207-219 | from every verified form: a delayed first attempt without a nickname, a new verification, a nickname put on file and a second attempt with one record the same batch twice |
| AbsenceSubmission.StaffLostAnswerIsRecovered | src/features/absences/api/absenceFormApi.ts:262-290 | staff form: when the answer to a recorded batch is lost the resend gets the stored answer and only one batch is recorded |
| AbsenceSubmission.PublicResendIsLoggedOut | backend/internal/httpapi/absenceshttp/batch_routes.go:234-248 | public form: the record burned the session, so the resend is logged out and the form asks for a new verification, keeping its key |
| AbsenceSubmission.ReverifiedSubmitReplays | backend/internal/httpapi/absenceshttp/batch_routes.go:109-115 | after it the recorded key and body get the stored answer, any other body under that key is refused, and nothing more is recorded |
| AbsenceSubmission.PublicLostAnswerIsRecovered | src/pages/AbsenceForm.tsx:1018-1052 | the whole way: lost answer, logged-out resend, new verification, same submit, finished with one record |
| AbsenceSubmission.NicknameRefusalIsRecovered | src/pages/AbsenceForm.tsx:1001-1014 | a batch refused for its nickname burns nothing and is recorded without it under the new key, and nothing else is |
| LinkDecisions.ActionKeyInjective | src/components/CourseLinkSuggestionsPanel.tsx:81-83 | two decisions share an action key only if they are the same |
| LinkDecisions.CourseLinkSuggestionsPanel.BeginDecision | src/components/CourseLinkSuggestionsPanel.tsx:200-206 | an attempt uses the remembered key or remembers a new one |
| LinkDecisions.CourseLinkSuggestionsPanel.EndDecision | src/components/CourseLinkSuggestionsPanel.tsx:223-236 | only a success or suggestion_changed forgets the key |
| LinkDecisions.OneKeyPerDecision | src/components/CourseLinkSuggestionsPanel.tsx:200-275 | over every run two attempts carry the same key if and only if they are for the same decision with no conclusive answer between |
| LinkDecisions.TraceIsComplete | src/components/CourseLinkSuggestionsPanel.tsx:200-275 | the trace these results speak of tells of every attempt and answer in order |
| LinkDecisions.RecordedAtMostOnce | src/components/CourseLinkSuggestionsPanel.tsx:105-105 | whatever reaches the replaying server, two records of one decision have a conclusive answer between their attempts |
| RoomAssignment.ComputeBusyRooms | src/pages/AssignRooms.tsx:34-51 | the busy map: each room claimed by another overlapping session, with the last claimant's hours |
| RoomAssignment.BusyExactly | src/pages/AssignRooms.tsx:39-49 | a room is busy if and only if another session that overlaps has it |
| RoomAssignment.BusyMeansSharedInstant | src/pages/AssignRooms.tsx:29-33 | for sessions that start before they end, a room is busy if and only if another session that has it shares an instant with this one, starts included and ends not |
| RoomAssignment.BackToBackIsFree | src/pages/AssignRooms.tsx:44-44 | sessions that only touch leave a room free |
| RoomAssignment.BusyHoursExactly | src/pages/AssignRooms.tsx:45-48 | the hours shown with a busy room are those of the last session in the list that keeps it busy |
| RoomAssignment.BusyMeansDoubleBooking | src/pages/AssignRooms.tsx:29-33 | assigning a room double-books if and only if the room is busy |
| RoomAssignment.BusyIgnoresOrder | src/pages/AssignRooms.tsx:34-51 | which rooms are busy does not depend on the order of the list |
| RoomAssignment.AssignRooms.Commit | src/pages/AssignRooms.tsx:129-135 | a save in flight blocks another of the same session; the room is set at once |
| RoomAssignment.AssignRooms.PickRoom | src/components/RoomAssignDropdown.tsx:59-65 | busy rooms are refused and picking the current room clears it |
| RoomAssignment.AssignRooms.ClearRoom | src/components/RoomAssignDropdown.tsx:67-70 | clearing unassigns unless a save is under way |
| RoomAssignment.AssignRooms.OnAnswer | src/pages/AssignRooms.tsx:136-172 | success sets room and version of that session, everything else takes the reloaded list |
| RoomAssignment.RunsNeverDoubleBook | src/pages/AssignRooms.tsx:129-175 | no run of picks, clears and answers, saves overlapping in time, double-books when reloaded lists land alone |
| RoomAssignment.PickGoesThrough | src/pages/AssignRooms.tsx:129-152 | picking a free room and a success change that session's room and version and nothing else |
| RoomAssignment.PickAgainClears | src/components/RoomAssignDropdown.tsx:59-70 | picking the current room is clearing, and a failed save ends with the server's list |
| RoomAssignment.LateListDoubleBooksExactly | src/pages/AssignRooms.tsx:154-164 | a list that lands during a save leads to a double booking exactly when the stored room is busy in it |
| RoomAssignment.LateListsSettleExactly | src/pages/AssignRooms.tsx:145-172 | a list that lands during any number of saves leads, once they have succeeded in any order, to a double booking if and only if the list overlaid with the rooms in flight has one |
| RoomAssignment.RunsSettleExactly | src/pages/AssignRooms.tsx:129-175 | over every run, with lists landing during saves, the rooms shown with those in flight put over them are never double-booked if and only if each pick and each landing list is free under the saves in flight; with none in flight these are the rooms shown |
| LevelManager.CourseLevelManagerPanel.DoSaveLevel | src/components/CourseLevelManagerPanel.tsx:139-163 | a level is stored only if blank or a whole number from 1 up and the course's group has a rule |
| LevelManager.CourseLevelManagerPanel.DoSaveSitInRule | src/components/CourseLevelManagerPanel.tsx:165-183 | an accepted rule is set on the selected group only |
| LevelManager.CourseLevelManagerPanel.DoCreateGroup | src/components/CourseLevelManagerPanel.tsx:194-217 | a new group is appended and selected |
| LevelManager.CourseLevelManagerPanel.DoRenameGroup | src/components/CourseLevelManagerPanel.tsx:219-237 | an accepted name reaches the group and every course that shows it |
| LevelManager.CourseLevelManagerPanel.DoDeleteGroup | src/components/CourseLevelManagerPanel.tsx:239-255 | a deleted group takes its courses out of it |
| LevelManager.CourseLevelManagerPanel.DoAssignCourse | src/components/CourseLevelManagerPanel.tsx:257-275 | a levelled course is assigned only to a group with a rule |
| LevelManager.CourseLevelManagerPanel.DoMoveCourse | src/components/CourseLevelManagerPanel.tsx:277-295 | a move sets group and name together, or clears both |
| LevelManager.RunKeeps | src/components/CourseLevelManagerPanel.tsx:139-295 | over every run of completed actions each levelled, grouped course lies in an existing group with a rule, shows its current name, and levels are unset or at least 1 |
| LevelManager.MoveKeepsExactlyForListedGroups | src/components/CourseLevelManagerPanel.tsx:277-291 | an accepted move keeps the invariant if and only if its group id is blank or listed |
| LevelManager.TypedLevelIsStored | src/components/CourseLevelManagerPanel.tsx:139-155 | typing a whole number of at least 1 stores exactly that number for a course in no listed group or a ruled one, a blank field stores no level, and nothing else changes |
| LevelManager.OtherTextIsRefused | src/components/CourseLevelManagerPanel.tsx:141-144 | no number, a fraction, a number below 1 and a failed save change nothing |
| LevelManager.UnruledTakesNoLevel | src/components/CourseLevelManagerPanel.tsx:145-149 | nor does any number for a course of a group without a rule |
| LevelManager.FailedChangesNothing | src/components/CourseLevelManagerPanel.tsx:139-295 | a failed action, an unconfirmed delete, a blank name and a blank rule change nothing; choosing a group only chooses it |
| LevelManager.RuleIsStored | src/components/CourseLevelManagerPanel.tsx:165-185 | an accepted rule becomes the chosen group's and no other's |
| LevelManager.AssignExactly | src/components/CourseLevelManagerPanel.tsx:255-275 | an accepted assignment takes the course into the chosen group under its name if and only if it is not in it and has no level or the group a rule, and changes no other course |
| LevelManager.NothingChosenNothingDone | src/components/CourseLevelManagerPanel.tsx:256-256 | with the unassigned courses chosen nothing is assigned and no rule stored |
| LevelManager.MoveExactly | src/components/CourseLevelManagerPanel.tsx:277-291 | an accepted move does the same for the group moved to, and one to none takes the course out of its group |
| LevelManager.DeleteUnassignsExactly | src/components/CourseLevelManagerPanel.tsx:239-251 | the panel's update after a delete undoes every assignment to the group and nothing else |
| LevelManager.SavedLevelIsFound | src/components/CourseLevelManagerPanel.tsx:139-155 | looking the course up afterwards finds the number typed, no level for a blank field, and the old course for a number below 1 |
| LevelManager.CreatedGroupIsSelected | src/components/CourseLevelManagerPanel.tsx:194-208 | a new group is listed, selected and empty |
| LevelManager.RenameReachesEveryCourse | src/components/CourseLevelManagerPanel.tsx:219-228 | after a rename the group and each of its courses show the trimmed name |
| LevelManager.OverlappingActionsCanBreak | src/components/CourseLevelManagerPanel.tsx:139-160 | two interleaved actions on one course can break the invariant |
| LevelOverlap.ApplyIsStartThenLand | src/components/CourseLevelManagerPanel.tsx:139-295 | an action run to completion is its check followed at once by the update it captured |
| LevelOverlap.LandKeepsExactly | src/components/CourseLevelManagerPanel.tsx:139-295 | an update that lands late keeps a consistent panel consistent if and only if its check would pass again there: a level against the course's group now, a place against the group's rule and name now |
| LevelOverlap.InterleavingsKeepExactly | src/components/CourseLevelManagerPanel.tsx:139-295 | over every interleaving the panel stays consistent throughout if and only if each accepted update lands well |
| LevelOverlap.StillLandsWell | src/components/CourseLevelManagerPanel.tsx:139-295 | only a level and a place of one course, a place and the rename or delete of its group, or one group made twice get in each other's way |
| LevelOverlap.InterferesExactly | src/components/CourseLevelManagerPanel.tsx:139-295 | two updates get in each other's way if and only if on some consistent panel both could land but the one no longer after the other |
| LevelOverlap.AnsweredNextIsApply | src/components/CourseLevelManagerPanel.tsx:139-295 | an action answered before any other lands changes the panel as if run alone and leaves the others under way |
| LevelOverlap.OverlappingRunsKeep | src/components/CourseLevelManagerPanel.tsx:139-295 | every interleaving in which overlapping actions do not do so stays consistent |
| LevelTotals.DetectGaps | src/utils/levels.ts:106-121 | the loop over sorted levels finds the missing numbers from the lowest to the highest |
| LevelTotals.GapsExact | src/utils/levels.ts:106-121 | a level is reported if and only if it is unused and lies between two used ones |
| LevelTotals.GapsIgnoreOrder | src/utils/levels.ts:106-121 | the gaps do not depend on the order of the courses |
| LevelTotals.GetGroupStatus | src/components/CourseLevelManagerPanel.tsx:36-49 | ready exactly when non-empty, gap-free, fully levelled and ruled; the gap count is per cycle |
| LevelTotals.GetSummary | src/components/CourseLevelManagerPanel.tsx:123-137 | levelled and unlevelled courses add up; gaps are counted per joint key |
| LevelTotals.GroupListExactly | src/components/CourseLevelManagerPanel.tsx:51-60 | a group's list holds exactly its courses, each as often as the page, by level with the unset last and by code within a level |
| LevelTotals.StringBeforeExactly | src/components/CourseLevelManagerPanel.tsx:58-58 | of two codes the one with the smaller character where they first differ goes first, or the one that begins the other |
| LevelTotals.CountsAddUp | src/components/CourseLevelManagerPanel.tsx:86-92 | the counts of the group list add up to the number of courses |
| LevelTotals.GapsAddUp | src/components/CourseLevelManagerPanel.tsx:123-137 | the gaps shown per group and cycle add up to the summary's gaps per joint key |
| GroupCounters.RootGroupManagerPanel.HandleAssignCourse | src/components/RootGroupManagerPanel.tsx:126-137 | an assignment goes out only when none is under way, a group is chosen and the course is in another; it remembers the course's group and the chosen one |
| GroupCounters.RootGroupManagerPanel.OnAssigned | src/components/RootGroupManagerPanel.tsx:138-156 | success moves the course and the counts of the two remembered groups; any answer ends the saving |
| GroupCounters.RootGroupManagerPanel.HandleDelete | src/components/RootGroupManagerPanel.tsx:108-111 | a delete is sent only when confirmed |
| GroupCounters.RootGroupManagerPanel.OnDeleted | src/components/RootGroupManagerPanel.tsx:112-118 | after the delete and the first reading the group's courses are shown ungrouped and the group is no longer chosen |
| GroupCounters.RootGroupManagerPanel.OnGroups | src/hooks/useRootCourseGroups.ts:21-29 | a reading of the groups replaces the counts and nothing else |
| GroupCounters.AlwaysMatches | src/components/RootGroupManagerPanel.tsx:76-157 | over every interleaving of requests, servings, answers and losses, each course is shown in the server's group unless an assignment of it was made whose answer has not landed |
| GroupCounters.DeleteNeverUngroups | backend/db/migrations/00019_courses_root_course.sql:9-9 | a deletion changes no course row, and its landing ungroups a course in the panel only if an assignment of it was made whose answer has not landed |
| GroupCounters.RefetchAgreesExactly | src/hooks/useRootCourseGroups.ts:21-29 | whatever the panel shows, a reading makes the counts right if and only if, for each listed group, as many of the list's courses are not shown in it as courses shown in it are not in the list |
| GroupCounters.CurrentListAgreesExactly | backend/internal/db/absence_custom.go:675-675 | while the courses shown are the server's, that is if and only if no grouped course is missing from them |
| GroupCounters.OpenAgreesExactly | backend/internal/db/absence_custom.go:997-1004 | a panel that opens shows right counts if and only if no grouped course is without a subject |
| GroupCounters.CreateGoesThrough | src/components/RootGroupManagerPanel.tsx:76-90 | a created group is added at the server and, after the reading that follows, listed with a count of none |
| GroupCounters.RenameGoesThrough | src/components/RootGroupManagerPanel.tsx:92-106 | a rename changes no course and reads every count again |
| GroupCounters.DeleteGoesThrough | src/components/RootGroupManagerPanel.tsx:108-124 | a group without rows disappears from server and list, and the choice of it and of no other is dropped; a group with rows is refused and nothing changes |
| GroupCounters.OneDriftAgreesExactly | src/hooks/useRootCourseGroups.ts:21-29 | when one course is shown in another group than the list has it in, the counts are right if and only if the list has it in no group and does not have the group it is shown in |
| GroupCounters.ListedThenAssigned | src/components/RootGroupManagerPanel.tsx:138-145 | an answer that lands after a list which has its assignment counts the course twice in the new group and takes it twice from the old one, down to zero |
| GroupCounters.InterleavingsAgreeExactly | src/components/RootGroupManagerPanel.tsx:76-157 | over every interleaving the counts agree with the courses shown all the way if and only if each landing answer fits: an assignment finds the course where it was or its old group unlisted or empty, a deletion finds no course shown in the group, a list is balanced against the courses shown |
| GroupCounters.ClampActsExactly | src/components/RootGroupManagerPanel.tsx:141-145 | while counts agree the clamp at zero takes effect if and only if the course's old group is listed and shows no course any more; the counts agree afterwards |
| GroupCounters.RetryAgreesExactly | src/components/RootGroupManagerPanel.tsx:126-157 | after assigning again, at any moment, the list is the server's if and only if no other course had drifted, and the counts agree if and only if they did before or the clamp mends the old group of one course, counted as empty |
| GroupCounters.LostAssignIsRecovered | src/components/RootGroupManagerPanel.tsx:146-156 | an assignment made whose answer is lost leaves counts and courses shown as they were; with no reading in between, assigning again ends with both lists the server's and the counts right |
| GroupCounters.RetryAfterListMiscounts | src/components/RootGroupManagerPanel.tsx:126-157 | with a reading in between, assigning again ends one too high in the chosen group and one too low in the old one unless that is empty |
| GroupCounters.RunKeepsCounts | src/components/RootGroupManagerPanel.tsx:76-157 | every run, requests overlapping and answers lost in any order, keeps the counts equal to the courses shown while no list lands across an assignment, no deletion lands over an unlanded assignment out of its group, and no grouped course is missing |
| Realtime.UseRealtime.HandleEvent | src/hooks/useRealtime.ts:46-61 | without a delay the event is handed over, otherwise it replaces its key's event in place and re-arms the timer |
| Realtime.UseRealtime.OnTimer | src/hooks/useRealtime.ts:55-60 | when due, the loop hands over all pending events in order and empties the map |
| Realtime.UseRealtime.OnCleanup | src/hooks/useRealtime.ts:66-74 | cleanup disarms the timer and drops what is pending |
| Realtime.EventKeyExactly | src/hooks/useRealtime.ts:51-51 | on NUL-free channels events share a key exactly when they share the channel and have one id, or one type where both have none, or the id of one is the type of the other, which has none |
| Realtime.DelayExactly | src/hooks/useRealtime.ts:46-61 | with a delay an event that arrives is held back until exactly that long after it, then delivered with everything pending, and dropped by a cleanup |
| Realtime.RunRefines | src/hooks/useRealtime.ts:43-71 | over every input sequence the map holds the last event per key in order of first arrival since the last flush, the timer is due one delay after the last arrival, and exactly those coalesced stretches were handed over |
| Realtime.ArmedWhenPending | src/hooks/useRealtime.ts:52-60 | the timer is armed if and only if something is pending |
| Realtime.EveryArrivalIsSomewhere | src/hooks/useRealtime.ts:43-71 | every arrival is in exactly one flushed stretch, one dropped stretch, or still pending |
| Realtime.DeliveredUnlessSuperseded | src/hooks/useRealtime.ts:51-60 | every key of a stretch is handed over, with its last event |
| StudentLookup.NormalKeepsFold | src/features/absences/domain/studentIdentity.ts:3-7 | normalising a typed id keeps what the form compares |
| StudentLookup.AbsenceForm.OnInput | src/pages/AbsenceForm.tsx:1266-1274 | typing another id during a search abandons it |
| StudentLookup.AbsenceForm.HandleLookup | src/pages/AbsenceForm.tsx:576-598 | a search clears the result, takes a new number and is sent only for a student code |
| StudentLookup.AbsenceForm.OnAnswer | src/pages/AbsenceForm.tsx:599-640 | an answer counts only for the newest number |
| StudentLookup.AbsenceForm.HandleChangeStudent | src/pages/AbsenceForm.tsx:642-652 | changing the student abandons the search and the result |
| StudentLookup.TypingExactly | src/pages/AbsenceForm.tsx:1262-1275 | typing shows the text and keeps the result; a search under way goes on if and only if the text stands for the same id, and is ignored from then on otherwise |
| StudentLookup.ChangeExactly | src/pages/AbsenceForm.tsx:642-652 | changing the student keeps the text, drops the result and gives the search up |
| StudentLookup.AnswerExactly | src/pages/AbsenceForm.tsx:599-640 | the newest answer ends the search; a student found becomes the result and the text the id asked for, unless the page asked on its own |
| StudentLookup.ResumeExactly | src/pages/AbsenceForm.tsx:462-493 | a page that opens with an id searches for it at once |
| StudentLookup.NewestLookupWins | src/pages/AbsenceForm.tsx:462-493 | over every interleaving the stored result is the newest request's, loading shows exactly while that request is in flight, and it is for the id now typed |
| StudentLookup.LateAnswerIsIgnored | src/pages/AbsenceForm.tsx:601-601 | any other answer changes nothing |
| StudentLookup.AnswerDecides | src/pages/AbsenceForm.tsx:576-640 | after the newest answer the form can go on if and only if the student found has the id asked for |
| StudentLookup.SearchAsks | src/pages/AbsenceForm.tsx:576-600 | a search clears the result and asks exactly when the trimmed text is w or W and at least one character more on the same line, for that code |
| StudentLookup.DigitsAreAsked | src/pages/AbsenceForm.tsx:576-600 | w or W and digits, with blanks around it, is asked for with the capital |
| StudentLookup.SearchFinds | src/pages/AbsenceForm.tsx:596-605 | an answered search lets the form go on if and only if the student found has the typed id |
| StudentLookup.ProceedsWithTypedStudent | src/pages/AbsenceForm.tsx:298-299 | whoever the form goes on with answers the newest request and has the typed id |
| DraftRestore.SplitAfterJoin | src/features/absences/domain/sessionGrouping.ts:91-97 | splitting a joined value gives the ids back |
| DraftRestore.OfferedSitInSessionIds | src/pages/AbsenceForm.tsx:134-160 | exactly the make-ups the picker shows for the missed class at the level it shows |
| DraftRestore.LevelShownExactly | src/pages/AbsenceForm.tsx:134-160 | the saved level is shown when some priority has it, else the current level, else the lowest there is, or 1 |
| DraftRestore.SitInForExactly | src/features/absences/domain/sitInResolution.ts:182-182 | a missed class has the make-ups of the first entry for it, and the subject's where there is none |
| DraftRestore.OfferedForExactly | src/features/absences/domain/sitInResolution.ts:375-382 | a list with a class tied to some missed class offers exactly those tied to this one, any other list every class |
| DraftRestore.OfferedExactly | src/pages/AbsenceForm.tsx:134-160 | offered are the classes of the priorities at the level shown, or of the plain list when none has it, and nothing unless sit-ins are in person |
| DraftRestore.BlockedSitInSessionIds | src/features/absences/domain/sitInResolution.ts:384-415 | a make-up is blocked if and only if the traversal meets it as used before any conflict that shows it |
| DraftRestore.BlockedExactly | src/features/absences/domain/sitInResolution.ts:388-407 | a sit-in blocks a make-up if and only if it does not list it in conflict itself, and says it is used or a nested sit-in blocks it before any nested one shows it in conflict |
| DraftRestore.BlockedInExactly | src/features/absences/domain/sitInResolution.ts:409-410 | the subjects do if and only if one of them does before any shows it in conflict |
| DraftRestore.OwnerExactly | src/pages/AbsenceForm.tsx:417-424 | a class belongs to the last subject that lists it |
| DraftRestore.RestoreDraft | src/pages/AbsenceForm.tsx:408-446 | for a draft of the same student the loops compute the restored selection, for another nothing is restored |
| DraftRestore.RestoredIsValid | src/pages/AbsenceForm.tsx:408-446 | everything kept is listed, offered at its level and not blocked, and was saved |
| DraftRestore.RestoredIsLargest | src/pages/AbsenceForm.tsx:414-446 | every valid part of the saved selection is kept |
| DraftRestore.RoundTripExactly | src/pages/AbsenceForm.tsx:408-446 | a draft holding a selection restores to it if and only if it is valid |
| DraftRestore.RestoringIsIdempotent | src/pages/AbsenceForm.tsx:408-446 | restoring what was restored and saved changes nothing |
| DraftRestore.ReloadExactly | src/features/absences/storage/absenceDraftStorage.ts:49-102 | a stored draft comes back unchanged if and only if its code is a normalised student code, its reason fits, its step exists and its email is not blank |
| DraftRestore.ReadBackExactly | src/features/absences/storage/absenceDraftStorage.ts:49-102 | a draft is read back if and only if its code is a student code and its step one of four, with the code normalised, 500 characters of the reason, no blank email and all the rest as it was |
| DraftRestore.ThroughStorageExactly | src/features/absences/storage/absenceDraftStorage.ts:64-112 | a draft written once, read once and restored gives its selection back if and only if it is valid, however long the reason |
| DraftRestore.ReloadIsStable | src/features/absences/storage/absenceDraftStorage.ts:64-102 | what was reloaded once is kept by every later reload |
| DraftLife.UseAbsenceDraft.SaveDraft | src/features/absences/hooks/useAbsenceDraft.ts:57-61 | saving replaces the values waiting to be written |
| DraftLife.UseAbsenceDraft.FlushPending | src/features/absences/hooks/useAbsenceDraft.ts:31-42 | a flush writes what is waiting, if anything |
| DraftLife.UseAbsenceDraft.ClearDraft | src/features/absences/hooks/useAbsenceDraft.ts:63-67 | clearing drops what is waiting and what is stored |
| DraftLife.RunKeeps | src/pages/AbsenceForm.tsx:462-511 | over every run what is written or waiting after the lookup is the form, even while it is empty because the draft still waits for the classes step |
| DraftLife.OpenShowsDraft | src/pages/AbsenceForm.tsx:383-407 | a page opens with the reason and email of the draft it read and with nothing selected |
| DraftLife.EventsExactly | src/pages/AbsenceForm.tsx:462-511 | before a lookup nothing else takes effect; then steps, texts and edits are shown as given, edits only once the draft is restored; the timer writes what waits |
| DraftLife.TextSurvives | src/pages/AbsenceForm.tsx:462-511 | over every run, once a lookup has landed a reload gives back the reason, up to 500 characters, and the email, and the draft it reads holds the step |
| DraftLife.ReloadKeepsExactly | src/features/absences/hooks/useAbsenceDraft.ts:46-55 | a reload keeps the selection except between lookup and classes step, where it leaves an empty one |
| DraftLife.SelectionSurvives | src/pages/AbsenceForm.tsx:383-511 | over every run with no reload in that stretch the page holds exactly what the user is owed, through any number of reloads, timers, restores and edits |
| DraftLife.StoredSurvivesExactly | src/pages/AbsenceForm.tsx:462-511 | before the classes step a stored selection is still there if and only if no reload came after a lookup had landed |
| DraftLife.ResumeIsSeamless | src/pages/AbsenceForm.tsx:408-446 | after the classes step a reload, lookup and classes step with the same answer give a valid selection back |
| DraftLife.EarlyReloadLoses | src/pages/AbsenceForm.tsx:462-511 | before it they show an empty selection, whatever was stored |
| AbsenceQuota.CountSelectedAbsenceDaysForScope | src/features/absences/domain/sessionGrouping.ts:221-237 | the loops count the distinct days of a scope on which a group's open classes are all selected |
| AbsenceQuota.ScopesExactly | src/features/absences/domain/sessionGrouping.ts:116-118 | groups share a quota if and only if they have one merge group, or none and one course |
| AbsenceQuota.ScopeDaysExactly | src/features/absences/domain/sessionGrouping.ts:221-237 | a day counts if and only if some group of the scope has a class on it not yet missed and all such classes of the day are selected |
| AbsenceQuota.AbsenceForm.HandleSessionGroupToggle | src/pages/AbsenceForm.tsx:670-696 | a toggle removes a wholly selected day with its make-ups, adds one that stays within the quota, or does nothing |
| AbsenceQuota.ToggleExactly | src/pages/AbsenceForm.tsx:670-696 | classes not all selected are all added, and nothing else, if and only if the days then wholly absent are within the maximum and some allowance of the scope, and otherwise nothing changes; selected ones are all taken out, and nothing else |
| AbsenceQuota.Remaining | src/pages/AbsenceForm.tsx:276-282 | the largest remaining allowance of a scope, never below zero |
| AbsenceQuota.OtherScopesUnchanged | src/pages/AbsenceForm.tsx:242-258 | a toggle leaves the days of every other scope as they were |
| AbsenceQuota.RunKeepsQuota | src/pages/AbsenceForm.tsx:670-696 | over every run of toggles each scope stays within the quota, or never exceeds what a restored draft started with |
| AbsenceQuota.TogglingTwiceUndoes | src/pages/AbsenceForm.tsx:670-696 | an accepted toggle of unselected classes is undone by toggling again |
| DayGrouping.GroupByInstituteDay | src/pages/AbsenceDetail.tsx:59-74 | dates strictly increase, each group is one non-empty day with its range, and the groups in order spell the start-sorted input |
| DayGrouping.DayBegins | src/pages/AbsenceDetail.tsx:46-64 | an institute day holds exactly the instants from seven hours before its number of whole days since the epoch to seven hours before the next |
| DayGrouping.FinalSortIsIdentity | src/pages/AbsenceDetail.tsx:65-65 | the institute day is monotone in time, so the last sort changes nothing |
| DayGrouping.SortByDateOrders | src/pages/AbsenceDetail.tsx:65-65 | whatever it is given, that sort keeps every bucket and puts them in date order |
| DayGrouping.GroupStartsWithFirst | src/pages/AbsenceDetail.tsx:61-73 | a group's items are in start order and its range starts with the first |
| DayGrouping.MergedRange.Include | src/pages/CourseGroupDetail.tsx:49-50 | a record is widened in place to take in one more session |
| DayGrouping.MergeInto | src/pages/CourseGroupDetail.tsx:41-51 | one session adds a record or changes its day's record and no other |
| DayGrouping.MergedTimeByDate | src/pages/CourseGroupDetail.tsx:39-53 | the records hold the per-day hull of the sessions and are not shared |
| DayGrouping.MergeIgnoresOrder | src/pages/CourseGroupDetail.tsx:39-53 | the merge does not depend on the order of its input |
| DayGrouping.MergeOfTwoLists | src/pages/CourseGroupDetail.tsx:39-53 | merging two lists is the per-day hull of their merges |
| DayGrouping.DayMergesAgree | src/pages/AbsenceDetail.tsx:59-74 | both algorithms find the same days with the same earliest start and latest end |
| InboxGrouping.KeyIsExact | src/pages/Absences.tsx:167-168 | without a colon in student codes the row key separates exactly what does not belong together |
| InboxGrouping.IdsDecide | src/pages/Absences.tsx:165-166 | two group ids that are not blank decide whatever the names |
| InboxGrouping.ColonsCanCollide | src/pages/Absences.tsx:168-168 | with one, two different merged courses can share a row |
| InboxGrouping.CodesCollideExactly | src/pages/Absences.tsx:167-168 | rows of two student codes can collide if and only if one folded code and a colon begin the other, and no space follows |
| InboxGrouping.MergeRow | src/pages/Absences.tsx:174-200 | what one row shows for its members |
| InboxGrouping.UnionIsExact | src/pages/Absences.tsx:179-186 | the merged lists hold each id once, in order of first appearance, none lost and none invented |
| InboxGrouping.RowPendingExactly | src/pages/Absences.tsx:192-192 | a row is pending if and only if one of its members is |
| InboxGrouping.RowListsExactly | src/pages/Absences.tsx:179-198 | a row of several absences lists a session, make-up or impact if and only if one of them has it, each id once |
| InboxGrouping.RowNameExactly | src/pages/Absences.tsx:178-194 | it goes by the first merged name that is not blank, trimmed, and by the first absence's names when there is none |
| InboxGrouping.RowIsOfFirst | src/pages/Absences.tsx:175-176 | a row has the id, student and group of its first absence, and a row of one absence is that absence |
| InboxGrouping.GroupInboxAbsences | src/pages/Absences.tsx:164-202 | one row per key in order of first appearance, holding the absences with that key in order |
| InboxGrouping.ShareARowExactly | src/pages/Absences.tsx:164-172 | two absences share a row if and only if they belong together |
| InboxGrouping.RowsArePartition | src/pages/Absences.tsx:164-172 | the rows hold every absence exactly as often as the inbox and never share one |
| InboxGrouping.SelectAllMatches | src/pages/Absences.tsx:831-832 | the select-all test over rows equals the test over absences |
| InboxGrouping.AbsenceInbox.TickGroup | src/pages/Absences.tsx:1022-1029 | ticking a row adds or removes all its members |
| InboxGrouping.TickExactly | src/pages/Absences.tsx:998-1029 | ticking a row selects its absences besides the rest, unticking takes out those alone, and the header selects all or none |
| InboxGrouping.TicksSelectWholeRows | src/pages/Absences.tsx:998-1029 | any run of ticks selects whole rows only |
| SchedulePaste.CourseDetailPaste.SubmitPastedSessions | src/pages/CourseDetail.tsx:807-877 | a submit preflights every row and opens the dialog, or creates all rows and clears the text on progress |
| SchedulePaste.CourseDetailPaste.CreateSessionsFromPreflights | src/pages/CourseDetail.tsx:882-910 | only rows that are not blocked are posted and the successes counted |
| SchedulePaste.CourseDetailPaste.CreateNonConflictingSessions | src/pages/CourseDetail.tsx:912-935 | any progress closes the dialog and clears the text, none keeps both |
| SchedulePaste.OnlyAllowedRowsAreMade | src/pages/CourseDetail.tsx:807-935 | over every run a session is made only of a row whose last preflight answered that it is available |
| SchedulePaste.FailedPreflightStopsAll | src/pages/CourseDetail.tsx:843-852 | a submit in which some preflight fails or does not answer changes nothing: no row is made, shown or cleared |
| SchedulePaste.SubmitMakesAvailableRows | src/pages/CourseDetail.tsx:843-866 | a submit makes a row only if it found every row of the text available |
| SchedulePaste.BlockedSubmitMakesNothing | src/pages/CourseDetail.tsx:854-858 | a submit that finds any row blocked makes nothing |
| SchedulePaste.BlockedSubmitShows | src/pages/CourseDetail.tsx:843-858 | a submit that finds a conflict opens the dialog with every row, those in conflict marked, keeps the text and makes nothing |
| SchedulePaste.DialogMakesAvailable | src/pages/CourseDetail.tsx:912-923 | the dialog's create makes a row if and only if it is not in conflict, when all can be made, and then clears everything |
| SchedulePaste.CancelKeepsText | src/pages/CourseDetail.tsx:1655-1664 | cancelling closes the dialog and keeps the text |
| SchedulePaste.StepOnce | src/pages/CourseDetail.tsx:807-935 | a step leaves no made row in the text if and only if it is not a round that makes sessions and loses every answer |
| SchedulePaste.RowsAreMadeOnce | backend/internal/scheduling/service.go:1010-1022 | while the conflict policy is enforced no pasted row is made twice over any run, whatever fails and whatever answers are lost |
| SchedulePaste.EnforcedRepeatIsRejected | backend/db/migrations/00112_schedule_conflict_policy.sql:22-24 | with the policy a second post of a row that has a session is turned down, in the dialog as in a submit |
| SchedulePaste.NoLostRoundNoRepeat | src/pages/CourseDetail.tsx:912-923 | with any policy no row is made twice over runs in which no round loses every answer |
| SchedulePaste.HonestRunsLoseNothing | src/pages/CourseDetail.tsx:882-910 | when a failed post means not created there is no such round |
| SchedulePaste.SubmitMakesEveryRow | src/pages/CourseDetail.tsx:860-866 | when all rows are available and created, every pasted row is made and the text is cleared |
| SchedulePaste.LostRoundRepeatsExactly | src/pages/CourseDetail.tsx:860-935 | a step, submit or create from the dialog, can be followed by one that makes a row twice if and only if it was a round that lost every answer |
| SchedulePaste.ResubmitMakesAgain | backend/internal/scheduling/preflight.go:308-321 | after a submit that one is a submit while the policy is not enforced, when conflicts are only warnings |
| SchedulePaste.RecreateMakesAgain | src/pages/CourseDetail.tsx:912-923 | in the dialog it is its create button again |
| CourseLevelsPaging.LoadAllCourseLevels | src/pages/CourseLevels.tsx:27-42 | the loops put together the first page and every further page |
| CourseLevelsPaging.LoadsEverything | backend/internal/httpapi/courselevelshttp/routes.go:300-323 | against the route's limit the loader returns exactly the list, in order, for every length |
| CourseLevelsPaging.RouteServesPages | backend/internal/httpapi/courselevelshttp/routes.go:300-323 | the route refuses limits above 200 and serves the loader's pages in full |
| CourseLevelsPaging.RouteExactly | backend/internal/httpapi/courselevelshttp/routes.go:300-323 | a limit is refused if and only if it is outside 1 to 200; otherwise the answer has the total and the rows from the offset on, as many as asked for or left |
| CourseLevelsPaging.OffsetsExactly | src/pages/CourseLevels.tsx:27-42 | the pages after the first begin a hundred rows apart up to the end |
| CourseLevelsPaging.LoadsExactlyWhen | src/pages/CourseLevels.tsx:27-42 | against a hypothetical server that cuts pages at a cap it would do so if and only if the cap is at least 100 or two pages hold the list |
| LevelHistory.UseLevelHistory.PushSnapshot | src/hooks/useLevelHistory.ts:34-53 | a push keeps the newest twenty and is stored |
| LevelHistory.UseLevelHistory.UndoLast | src/hooks/useLevelHistory.ts:55-63 | an undo drops the newest, if any, and is stored; it hands that entry's earlier levels back exactly when the updater runs during the call |
| LevelHistory.CappedIsTop | src/hooks/useLevelHistory.ts:14-63 | the history is always the top at most twenty entries of an unbounded stack that pops only when the history is not empty |
| LevelHistory.UndoReturnsLastPushes | src/hooks/useLevelHistory.ts:34-63 | after any pushes the k-th undo finds the k-th last push, up to twenty |
| LevelHistory.SaveThenReload | src/hooks/useLevelHistory.ts:14-32 | whatever the slot held, saving and reloading the history gives it back |

## Left out

- Rendering, dialogs, toasts, focus, React Query and the browser's fetch and storage: handlers are state updates, requests and answers are messages.
- Other writers of the course row are two steps of the environment: versioned writes with trimmed values, and silent writes that keep the version. Course deletion, absence-form visibility and teacher checks are part of the server's verdict.
- Idempotency keys do not expire in the model (the server keeps them for a day), and a half-written key record after a server crash is not modelled.
- A successful room save is answered with the session and the room that were sent.
- The absence form runs in one tab; sessions expire and other checks fail only as the step says. Rate limits and the one-time codes themselves are not modelled.
- Drafts: a page that dies without pagehide, searching for another student by hand, and a submit that clears the draft.
- Other clients of the root group panel, and what the sync does to a course besides its subject. A panel that opens reads both of its lists from the same state of the server.
- In the paste dialog the text and the cancel button stay usable while a round runs; the model takes each round whole, so what is typed or cancelled meanwhile is not covered.
- Sessions created from pasted rows are not deleted again during a run.
- Nicknames on file are never cleared: the CRM import and the form only fill or replace them.
- The checks before a submit (verification, refreshed sessions, payload building) only decide whether a submit happens.
- The list loading of the suggestions panel, which can show a stale page or keep loading, is not modelled; only its decision keys are.
- Course ids, channels and student codes: where a joined key needs it, lemmas assume they hold no separator character and name it.
- Dates and zones: times are integer instants, the institute zone is fixed at seven hours, a date is a day number; sessions whose time does not parse are modelled for rooms only. The day key of the absence form is a field of the session.
- Trimming and case folding cover ASCII, the no-break space and line ends; text order in the level list is by character code.
- Lengths count characters, not UTF-16 units.
- Adding a level from the add row calls the save of a level and adds nothing.
- The preflight's own conflict rules, the series form and the single session form of the course page.
- The order in which stored id arrays list selected classes, which the form never looks at.
- GroupCounters.RootGroupManagerPanel.HandleDelete: group names are not part of the counter model; the level manager covers names.
