# Onboarding service: a verified model

The service walks each new user through a versioned catalog of steps. A generic workflow
function persists where the user is, waits for the step's signal, runs the step's action,
records the step and emits an event. Temporal replays it after a crash and retries its
activities. The activities write two Mongo collections and create things in Auth0, Kong,
Svix, AWS and Lago. Endpoints start runs and send signals, deciding from a journey document
that may be stale. This project models those four parts and proves what holds for every
catalog, every history and every interleaving.

## How the model is laid out

| file | content |
|---|---|
| `Domain.dfy`, `Catalog.dfy` | shared values; the step catalog, the shipped version, the startup snapshot |
| `Executor.dfy` | the workflow function as a machine: `OnReply`, `OnMessage`, and `Drive`, which runs it against recorded results and signals |
| `Workflow.dfy` | the workflow function as a loop over a mutable context, proved to compute `Drive` |
| `Replay.dfy`, `Crashes.dfy` | the live worker with its mailboxes; crashes and recovery at arbitrary points |
| `ReadModel.dfy`, `Confluence.dfy` | what every run asks for, in which order; independence of signal schedules and of time |
| `Faults.dfy`, `Stores.dfy`, `Auth0.dfy`, `Provisioning.dfy`, `Activities.dfy` | the stores, the outside systems and the activities as classes, each method proved against a specification function; every call can fail or crash before or after its effect |
| `Flights.dfy` | an attempt call by call, which undisturbed is the activity as a whole |
| `Attempts.dfy`, `Retry.dfy` | what every call keeps while other users' calls come in between; the retry policy |
| `Server.dfy`, `Gate.dfy`, `Verticals.dfy` | the Temporal server and the Starter; the step endpoint; the vertical cache |
| `System.dfy`, `Safety.dfy` | all of it together as a transition system for any number of users, and its invariant |
| `Guarantees.dfy`, `Lifetimes.dfy`, `Observation.dfy`, `Retries.dfy`, `Delivery.dfy`, `Inputs.dfy` | what the invariant means, over all plays and over the life of a run |
| `Account.dfy` | the workflow function described a second time, by what each activity carries in terms of the recorded history alone |
| `Walks.dfy`, `Naming.dfy`, `Nameless.dfy` | plays that reach a chosen step, with a display name delivered where one is needed; what holds where none can be |
| `Completion.dfy`, `Stranding.dfy`, `Shipped.dfy` | exactly which catalogs can falsely complete; a crash that strands a user; what holds of the shipped catalog |

A system state (`System.Sys`) holds the catalog in force, the known verticals, the clock, the
latest run of each user with its attempt under way, the stores and outside systems, and the step
requests that have read a journey but not yet decided. A move (`System.Move`) is time passing, a
deployment of a grown catalog, a reload of verticals, a start, a signal, either half of a step
request, the beginning of an attempt of a run's pending activity under any plan of failures, or
one call of an attempt. So attempts of different users interleave call by call: each reads,
changes and writes records and documents while others do. `Safety.Plays` are the states that
sequences of moves lead to, and `Lifetimes.Stretch` those within one run.

Assumptions, stated in the types and preconditions: two attempts of one user's activity do not
overlap (`System.Can`; nothing is assumed about different users); Auth0 hands out ids that are
not empty and never seen before (`Auth0.CanMint`); its list of a user's organisations is read
back faithfully; a vendor refuses a second object with the same key; a deployed catalog keeps
existing versions (`Catalog.Extends`) and always has version 1.

A run that provisions before it has an organisation works on the record of the empty org id,
which all such runs share and overwrite. What is claimed of records is claimed of named
organisations, which are proved to belong to one user each; `Completion.PairGoesFalse` shows what
that sharing costs.

The plays that are built, not assumed, run from `Completion.Newborn`, where nobody has come yet.
A display name reaches the organisation step only by a signal that the step endpoint lets through,
which it does for the step a stored journey stands at. So the play lets a first run die at that
step, reads its document, starts a second run and concludes the request (`Naming.ComeNamed`).

Every lemma switches Dafny's automatic induction off, so each proof is the one written.

## Where the code and its comments disagree

The model follows the code.

- `internal/workflow/activities.go:99-102` says a retry after a crash sees the organisation's
  id. After a crash between the membership call and `SetOrgID` it does not, and no later attempt
  ever succeeds (`Guarantees.StrandedForGood`); `Attempts.StrandsExactlyWhen` gives the exact
  condition.
- The same comment counts on the org id stored on the journey. A new run's first persist replaces
  the document and loses it; `Lifetimes.OrgIdLostOnlyByNewRun` shows that nothing else does.
- `internal/platform/auth0/httporgcreator.go:148-149` says cleanup lets a retry start clean.
  `Auth0.CleanupRestores` says exactly when it does.
- `internal/workflow/activities.go:148-149` says provisioning is marked completed once the
  activities have succeeded. The activity checks nothing. It is true of a catalog exactly when no
  completion that a run can reach precedes one of the four resources or the organisation they are
  for; a run gets past an organisation step only where a display name can be delivered
  (`Completion.FalseCompletionExactly`).
- `internal/platform/provisioning/httpprovisioner.go:135-137` calls every Lago call idempotent,
  and `internal/platform/provisioning/aws.go:40-41` says the key is attached to its plan.
  Subscriptions repeat, and the key is attached exactly when it already was or was not yet there
  (`Provisioning.NotEverythingIsIdempotent`).
- `internal/controller/onboarding.go:150-152` means to reject a user with no stored journey, whose
  state has version 0. It does exactly when the catalog has no version 0 listing the first step
  (`Gate.AbsentJourneySends`).

## Model

| member | source | states |
|---|---|---|
| Catalog.Insert | internal/workflow/catalog_cache.go:48 | one round of the sort of version numbers: the result is ascending and a permutation of the list and the new number |
| Catalog.CatalogCache.LatestVersion | internal/workflow/catalog_cache.go:29-37 | whatever order the map is ranged over, the result is the largest version, or 0 when none is positive |
| Catalog.CatalogCache.VersionNumbers | internal/workflow/catalog_cache.go:43-50 | exactly the versions, ascending, each once |
| Catalog.CatalogCache.ValidateActions | internal/workflow/catalog_cache.go:56-70 | accepts exactly when every action of every version is registered; otherwise names the first offender by version and position |
| Catalog.LatestIsUnique | internal/workflow/catalog_cache.go:26-37 | at most one number is the latest version, so a start pins a determined one |
| Catalog.GrowthKeepsVersions | internal/workflow/catalog.go:7-10 | a grown catalog has the same steps for every old version and a latest version no earlier |
| Catalog.V1IsSound | internal/workflow/catalog.go:53-71 | in the shipped version step names differ pairwise, awaited signals are named after their steps, every action is registered |
| Executor.ChannelOfPrefix | internal/workflow/onboarding_workflow.go:107 | more recorded signals only ever extend each channel |
| Executor.DriveResumes | internal/workflow/onboarding_workflow.go:58-61 | running against a longer history is the same as running against a shorter one and continuing |
| Workflow.WorkflowContext.ExecuteActivity | internal/workflow/onboarding_workflow.go:99 | an activity is listed once, in order; its recorded result is taken in order, and when there is none the function blocks and nothing is taken |
| Workflow.WorkflowContext.Receive | internal/workflow/onboarding_workflow.go:107 | a receive takes the oldest unread signal of its channel, or blocks and takes nothing |
| Workflow.PersistStage | internal/workflow/onboarding_workflow.go:97-102 | stage 1 leads the machine to the same rest as entering the step, or stops it there |
| Workflow.SignalStage | internal/workflow/onboarding_workflow.go:104-117 | stage 2 reads the signal a replay reads, absorbs its non-empty fields, and leaves the others unread |
| Workflow.ActionStage | internal/workflow/onboarding_workflow.go:119-135 | stage 3 dispatches the action with the threaded context and merges what it returns, or stops on a failure |
| Workflow.RecordStage | internal/workflow/onboarding_workflow.go:137-155 | stages 4 and 5 record the step and emit its event, whose result is ignored |
| Workflow.RunStep | internal/workflow/onboarding_workflow.go:96-156 | one iteration of the loop leads the machine from this step to the next |
| Workflow.FinalStage | internal/workflow/onboarding_workflow.go:158-164 | the final persist ends the run, or fails it |
| Workflow.OnboardingWorkflow | internal/workflow/onboarding_workflow.go:62-165 | the loop over the steps, for every catalog and every recorded history, ends or blocks where the machine does, having asked for the same activities and leaving the same signals unread |
| Replay.ReactIsReplay | internal/workflow/onboarding_workflow.go:58-61 | a worker that reacts to one more event is in the state a replay of the longer history reaches |
| Replay.SettleIsDrive | internal/workflow/onboarding_workflow.go:105-117 | reading a buffered signal and reading it from the history are the same |
| Replay.ReplayMatchesLive | internal/workflow/onboarding_workflow.go:58-61 | for every catalog and every history a run can produce, re-running from the top reaches the live worker's step, phase, journey, context, clock and list of activities, and leaves the same signals unread |
| Crashes.LiveTakes | internal/workflow/onboarding_workflow.go:58-61 | an event the server can record is one the crash-free worker takes |
| Crashes.RebuiltIsReplay | internal/workflow/onboarding_workflow.go:58-61 | a worker rebuilt from the history alone is the replay of it, mailboxes included |
| Crashes.CrashesLeaveNoTrace | internal/workflow/onboarding_workflow.go:58-61 | with crashes and recoveries at arbitrary points no replay contradicts its history, the recorded events are those delivered, and the scheduled activities are those of the crash-free run, each once |
| Crashes.RecoverWorker | internal/workflow/onboarding_workflow.go:58-165 | recovery by running the workflow function from the top yields the crash-free worker |
| ReadModel.OutcomeOrderly | internal/workflow/onboarding_workflow.go:78-164 | the invariant of every run: activities follow the schedule, the journey records a prefix, the pending activity carries the current journey or context |
| ReadModel.RunFollowsSchedule | internal/workflow/onboarding_workflow.go:96-162 | the activities asked for are, one by one, the first slots of the catalog's schedule; every persisted document is a read-model of a catalog prefix; at most 3n + 1 activities |
| ReadModel.OnlySignalsBlock | internal/workflow/onboarding_workflow.go:96-164 | with every activity answered a run has ended, failed, or waits on its current step's channel, where no unread signal is left |
| ReadModel.OutcomeGranted | internal/workflow/onboarding_workflow.go:99-162 | a run only goes on past activities that succeeded, events excepted |
| ReadModel.CompletionComesFirst | internal/workflow/onboarding_workflow.go:97-102 | an action after the first step that marks completion is asked for only once a completed document has been persisted with success |
| ReadModel.CompletedForGood | internal/workflow/onboarding_workflow.go:142-145 | after the first completed document every later one of the run is completed |
| ReadModel.OneEventPerStep | internal/workflow/onboarding_workflow.go:148-155 | each recorded step has exactly one event, in catalog order, flagged as started on the first only and as completed where the catalog says |
| Account.RunIsAccounted | internal/workflow/onboarding_workflow.go:78-162 | for every catalog and history each activity carries exactly what the history says: the user, version and start of the run, the organisation and the email last answered by an action, the fields last said by the signals read by then, each step's time; and a run has failed only if its last result was a failure, not of an event |
| Account.EventTellsOrgAndTime | internal/workflow/onboarding_workflow.go:138-155 | each step's event names the organisation last answered by then, or none; its time is the step's completion time and the latest of the run's start and of the results and signals taken by then |
| Confluence.DriveTimeless | internal/workflow/onboarding_workflow.go:78-164 | forgetting timestamps commutes with running: no decision depends on time |
| Confluence.DriveHears | internal/workflow/onboarding_workflow.go:105-117 | a run sees no more of a channel than the first messages its steps wait for |
| Confluence.SchedulesDoNotMatter | internal/workflow/onboarding_workflow.go:105-117 | two live runs with the same results and the same first payloads per channel dispatch the same actions with the same inputs, persist the same documents and reach the same state, timestamps aside, however signals were interleaved |
| Confluence.EventsDoNotInterfere | internal/workflow/onboarding_workflow.go:152-155 | runs that differ only in how their events fared and how long they took over it ask for the same activities with the same inputs and end in the same state, timestamps aside |
| Confluence.FirstPayloadDecides | internal/workflow/onboarding_workflow.go:105-117 | with pairwise distinct signal names only the first payload on each channel counts |
| Stores.JourneyRepo.Upsert | internal/repo/mongo/onboarding_journey_repo.go:32-49 | the whole document of the user is replaced, no other, and only if the call takes effect |
| Stores.JourneyRepo.SetOrgID | internal/repo/mongo/onboarding_journey_repo.go:54-72 | only the org id is set; a bare in-progress document is inserted when there is none |
| Stores.JourneyRepo.FindByUserID | internal/repo/mongo/onboarding_journey_repo.go:75-86 | the user's document, or none, or an error |
| Stores.ProvisioningRecordRepo.GetByOrgID | internal/repo/mongo/provisioning_record_repo.go:27-38 | the organisation's record, or none, or an error |
| Stores.ProvisioningRecordRepo.Upsert | internal/repo/mongo/provisioning_record_repo.go:42-63 | the record is written; its creation time is stamped once |
| Stores.SetOrgIdTouchesOneField | internal/repo/mongo/onboarding_journey_repo.go:51-72 | setting the id leaves the rest of the document and all others alone, inserts an in-progress one where there was none, and survives a replace by a journey that carries it |
| Auth0.HTTPOrgCreator.CreateOrganisation | internal/platform/auth0/httporgcreator.go:108-155 | the rule for the given display name, the calls in order, the ownership check, and the cleanup, under any failure of any call |
| Auth0.HTTPOrgCreator.AddUserToOrg | internal/platform/auth0/httporgcreator.go:158-174 | membership, then the owner role, stopping at the first failure |
| Auth0.NameRuleIsExpression | internal/platform/auth0/httporgcreator.go:243-252 | the names accepted are those the rule's regular expression matches: a letter or digit, at most 98 letters, digits, spaces, underscores and dashes, a letter or digit |
| Auth0.CreateOrgIsSafe | internal/platform/auth0/httporgcreator.go:108-195 | whatever fails and whether or not cleanup works, every user is in at most one organisation, earlier ones keep members and owners, and an answer means member and owner of a new one |
| Auth0.CleanupRestores | internal/platform/auth0/httporgcreator.go:148-153 | after any attempt that does not answer, failed or crashed, the tenant is as before but for the spent id exactly when no new organisation is left, and one is left exactly when the creation took effect and no cleanup did |
| Provisioning.HTTPProvisioner.Post | internal/platform/provisioning/httpprovisioner.go:213-230 | a conflict is success; other failures are passed on |
| Provisioning.HTTPProvisioner.Kong | internal/platform/provisioning/httpprovisioner.go:112-123 | one consumer request keyed by organisation |
| Provisioning.HTTPProvisioner.Svix | internal/platform/provisioning/httpprovisioner.go:127-133 | one application request keyed by organisation |
| Provisioning.HTTPProvisioner.Lago | internal/platform/provisioning/httpprovisioner.go:138-198 | customer, three plans and three subscriptions in order, stopping at the first failure |
| Provisioning.HTTPProvisioner.EnsureApiKey | internal/platform/provisioning/aws.go:42-71 | key, then usage plan; a conflict on the key skips the plan |
| Provisioning.PostAllGrows | internal/platform/provisioning/httpprovisioner.go:159-197 | a sequence of posts duplicates and removes nothing, and when it completes everything it asked for exists |
| Provisioning.ProviderIsSafe | internal/platform/provisioning/httpprovisioner.go:110-230 | every provider, under any failure: nothing twice, nothing removed, nothing of another organisation; an answer means everything needed exists |
| Provisioning.ProviderAnswersId | internal/platform/provisioning/aws.go:42-71 | a provider answers with the id of the key it has just created and attached, and with the organisation's id otherwise, also for a key already there |
| Provisioning.RequestsAreInOrder | internal/platform/provisioning/httpprovisioner.go:157-197 | no request is made before what it refers to exists: no subscription before its customer and plan, no attachment before its key |
| Provisioning.LagoSubscribesToEach | internal/platform/provisioning/httpprovisioner.go:179-197 | a completed Lago call leaves the organisation subscribed to its plan of each environment |
| Provisioning.RequestTellsOwner | internal/platform/provisioning/httpprovisioner.go:112-193 | no request serves two resources or two organisations: the keys, plan codes included, tell them apart |
| Provisioning.ConflictsNeverBlock | internal/platform/provisioning/httpprovisioner.go:225-228 | reading a conflict as success, a provider with no failure always answers, whatever earlier attempts left, and everything needed exists once |
| Provisioning.NotEverythingIsIdempotent | internal/platform/provisioning/aws.go:42-71 | a completed AWS call leaves the key attached exactly when it was or the key was not there; every completed Lago call adds three subscriptions |
| Activities.Activities.PersistJourneyState | internal/workflow/activities.go:76-78 | an attempt changes the stores as its specification says |
| Activities.Activities.CreateOrganisation | internal/workflow/activities.go:103-126 | the stored id short-circuits; otherwise create under the input's display name, set the id, look the email up at best effort |
| Activities.Activities.Provision | internal/workflow/activities.go:173-216 | a recorded resource short-circuits; otherwise the provider runs and the record is written |
| Activities.Activities.CompleteProvisioning | internal/workflow/activities.go:150-160 | the record is marked completed, whatever it lists |
| Activities.Activities.UserEmail | internal/platform/auth0/httporgcreator.go:203-217 | token, then lookup; either may fail |
| Attempts.StrandsExactlyWhen | internal/platform/auth0/httporgcreator.go:119-154 | for every plan: an attempt strands its user exactly when it got as far as the creation, the membership took effect, the cleanup did not, and the id was not stored |
| Flights.SoloIsAttempt | internal/workflow/activities.go:76-216 | the calls of an attempt one after another, undisturbed, do to the world and answer what the activity does as a whole |
| Flights.CrashesExactly | internal/workflow/activities.go:74-216 | an attempt ends without reporting back exactly when its worker dies at one of its calls |
| Flights.CallDatesWhatItStores | internal/repo/mongo/provisioning_record_repo.go:42-50 | whatever a call stores is dated with its attempt, a record's creation the first time only; a persist stores the whole journey |
| Attempts.CallIsSafe | internal/workflow/activities.go:76-216 | every single call of every attempt, whatever becomes of it, keeps the world consistent, loses nothing established, touches only the user's own, and leaves true what the attempt relies on next |
| Attempts.KnowsStays | internal/workflow/activities.go:104-121 | no call of another user's attempt takes away what an attempt has read or made and relies on |
| Attempts.RecordStays | internal/workflow/activities.go:180-216 | nor does it change the record of a named organisation of another user |
| Attempts.AttemptIsSafe | internal/workflow/activities.go:74-216 | an undisturbed attempt keeps the world consistent and loses nothing; when it answers, the document is stored, the organisation's id is stored, the resource or the completion is recorded |
| Attempts.RecordsVendorsId | internal/workflow/activities.go:187-216 | an answered attempt that found the resource unrecorded has recorded the new key's id, where it made one, or else the organisation's; the rest of the record is as it was but for its dates |
| Attempts.CreationAnswersExactly | internal/workflow/activities.go:103-126 | exactly when a creation is answered, with which id, and with which email: looking that up is best effort |
| Attempts.RetryCompletes | internal/workflow/activities.go:173-216 | with no failure an attempt to provision answers and records, whatever requests earlier crashed attempts made |
| Retry.WaitsDouble | internal/workflow/onboarding_workflow.go:65-68 | the first wait is a second and each next one twice as long, up to a minute |
| Retry.BackoffIsBounded | internal/workflow/onboarding_workflow.go:63-71 | 123 seconds of waiting before the eighth attempt, and never more |
| Server.TemporalClient.ExecuteWorkflow | internal/workflow/starter.go:66-77 | an open run is used as it is; otherwise a run is created with the given input; a call that fails may have taken effect |
| Server.TemporalClient.SignalWorkflow | internal/workflow/starter.go:88-109 | the open run is signalled; with none open nothing changes; the caller learns of either failure |
| Server.TemporalClient.SignalWithStart | internal/workflow/starter.go:34-49 | start if absent, and signal, as one operation |
| Server.Starter.Start | internal/workflow/starter.go:62-82 | at most one open run per user, a new one pinned to the latest version; an error is returned when the call fails |
| Server.Starter.SubmitStep | internal/workflow/starter.go:96-98 | start if absent and signal the named step without a payload, or an error |
| Server.Starter.SignalEmailVerified | internal/workflow/starter.go:88-92 | signals the open run; an error when there is none or the call fails; starts nothing |
| Server.Starter.SignalStep | internal/workflow/starter.go:105-109 | signals the open run with the payload; an error when there is none or the call fails; starts nothing |
| Gate.OnboardingService.GetState | internal/service/impl/onboarding_service.go:25-38 | the stored journey, or a synthetic one at the first step of the latest version |
| Gate.ValidatorRegistry.Validate | internal/controller/stepvalidator.go:25-77 | accepts exactly: for the organisation, a name and an acceptance that each hold a character other than white space; for the vertical, such a name known to the cache; for other steps anything |
| Gate.OnboardingController.FindCompleted | internal/controller/onboarding.go:189-196 | true exactly when the journey records the step as completed |
| Gate.OnboardingController.WriteState | internal/controller/onboarding.go:112-122 | answers with the step and status of the state, or an error |
| Gate.OnboardingController.SendAndAnswer | internal/controller/onboarding.go:179-184 | the signal, an error when it fails or no run is open, and otherwise the answer of a second read |
| Gate.OnboardingController.AdvanceStep | internal/controller/onboarding.go:128-185 | one read decides; at most one signal goes out, to the open run, on the step's own channel; a second read answers; each failing call is an error; nothing else changes; a completed journey is answered as it is, whatever the step |
| Gate.OnboardingController.StartAndReturnState | internal/controller/onboarding.go:95-108 | start if absent, signal a verified email, answer with the state; an error when the start fails, when the signal fails, or when the run has closed in between |
| Gate.AbsentJourneySends | internal/controller/onboarding.go:136-152 | for a user with no journey a signal goes out exactly when the catalog has a version 0 listing the first step and the request names it with a valid input; without a version 0 every request is out of order |
| Gate.AbsentJourneyIsAtTheFirst | internal/service/impl/onboarding_service.go:30-38 | such a user is shown the first step of the latest version, in progress |
| Gate.CompletedIsLeftAlone | internal/controller/onboarding.go:142-147 | a completed journey is left alone, whatever step a request names and whatever it carries |
| Verticals.VerticalCache.Replace | internal/config/verticals.go:79-89 | the list is the given one, and each index finds exactly the keys of its given list, each with its last entry |
| Verticals.VerticalCache.Reload | internal/config/verticals.go:156-169 | succeeds exactly when both values parse; a failure keeps the previous snapshot whole |
| Verticals.VerticalCache.Find | internal/config/verticals.go:96-102 | looks the index up and counts a miss |
| Verticals.VerticalCache.Questions | internal/config/verticals.go:106-112 | looks the questions up and counts a miss |
| Verticals.IndexFindsLast | internal/config/verticals.go:80-87 | an index has exactly the keys of its list, each with its last entry |
| Verticals.SnapshotIsOneReload | internal/config/verticals.go:140-169 | after any reloads, list, index and questions all come from the last one that parsed |
| Verticals.LookupAgreesWithList | internal/config/verticals.go:79-102 | after any reloads the list is that of the last one whose values parsed, and a lookup succeeds exactly for its names and finds the last entry |
| Verticals.QuestionsAgreeWithList | internal/config/verticals.go:106-112 | the same of the questions of that reload; none are found when they were blank |
| Verticals.NothingBeforeTheFirst | internal/config/verticals.go:50-58 | until a reload has parsed, nothing is found |
| Safety.RunIsOrderly | internal/workflow/onboarding_workflow.go:78-164 | a run on the server obeys the invariant of runs, whatever history it has recorded |
| Safety.CallAnchored | internal/workflow/activities.go:74-216 | a call of a run's own attempt keeps the run's view of its document, organisation and resources in agreement with the world |
| Safety.AnswerIsBacked | internal/workflow/activities.go:74-216 | what an answer tells the run is true of the world: the document stored, the organisation's id stored, the resource recorded |
| Safety.ProceedSparesOthers | internal/workflow/activities.go:173-216 | other users' runs and their attempts under way do not notice a call |
| Safety.ReadyToComplete | internal/workflow/catalog.go:60-69 | when completion is asked for, every resource is recorded for the run's organisation |
| Safety.GrowthKeepsRuns | internal/workflow/catalog_cache.go:86-93 | deploying a grown catalog leaves every run's steps, history and state as they were |
| Safety.NextKeepsInv | internal/workflow/starter.go:30-82 | every move of the whole service keeps its invariant |
| Safety.AlwaysInv | internal/workflow/onboarding_workflow.go:55-61 | the invariant holds in every reachable state, for any number of users, under all interleavings of calls, failures, crashes, stale requests and deployments |
| Guarantees.OneOrganisationPerUser | internal/platform/auth0/httporgcreator.go:119-155 | in every reachable state a user is in at most one organisation, a stored id names one the user is member and owner of, and no two users' journeys store the same id |
| Guarantees.V1MarksLastUserStep | internal/workflow/catalog.go:55-70 | in the shipped version the journey is marked completed exactly at the last step that waits for the user, after Kong and AWS and before Svix and Lago |
| Guarantees.V1CompletesLast | internal/workflow/catalog.go:55-70 | in the shipped version completion comes after all four resources, and these after the organisation |
| Guarantees.CompletedMeansProvisioned | internal/workflow/activities.go:150-216 | with the catalog's completions last, a completed record lists all four resources and each exists in the outside systems, once, however users' attempts interleave |
| Guarantees.EstablishedStays | internal/repo/mongo/provisioning_record_repo.go:40-63 | over every sequence of moves no object or request is lost, nor, for a named organisation, a recorded resource, its id, the completion, or the time the record was created |
| Guarantees.HoldingStays | internal/platform/auth0/httporgcreator.go:148-182 | an organisation the user is member and owner of, and no attempt is still making, is never taken away: no cleanup and no later run touches it |
| Guarantees.NoRequestOnceRecorded | internal/workflow/activities.go:187-189 | once a resource of a named organisation is recorded, no attempt of any run of any user ever again begins a request for it |
| Guarantees.StrandedForGood | internal/workflow/activities.go:103-114 | a stranded user stays stranded under every sequence of moves, and no run of that user ever passes the organisation step |
| Guarantees.StoredDocumentsArePrefixes | internal/workflow/onboarding_workflow.go:96-162 | every stored document, in every reachable state, records a prefix of the version it names, in order of time, with the right step to resume at and status |
| Lifetimes.OpenRunIsKept | internal/workflow/starter.go:56-82 | over every stretch of a run, whatever starts, signals and deployments come, it keeps its input, its version, which was the latest at its creation, its recorded history and its steps |
| Lifetimes.OpenRunGoesOn | internal/workflow/starter.go:62-77 | no move ends the stretch of an open run |
| Lifetimes.NewRunPinsLatest | internal/workflow/starter.go:62-77 | whenever a move gives a user a run, first or new, none was open, the move is a start for that user, and the run is pinned to the latest version in force |
| Lifetimes.OrgIdIsNeverLost | internal/repo/mongo/onboarding_journey_repo.go:32-72 | over every stretch of a run the stored id survives whichever writer acts, and it stays the user's one membership |
| Lifetimes.CreationAnswersStoredId | internal/workflow/activities.go:103-125 | every answered creation answers the id then stored, and the one stored before if there was one, without changing Auth0 |
| Lifetimes.OrgIdLostOnlyByNewRun | internal/repo/mongo/onboarding_journey_repo.go:28-49 | a stored id is lost exactly by the first persist of a new run |
| Lifetimes.AbandonedExactly | internal/workflow/activities.go:103-126 | the exact moves by which a user comes to be stranded for good: a call lost between the membership and the stored id with no cleanup, or the first persist of a new run over a stored id |
| Lifetimes.ProgressIsMonotone | internal/workflow/onboarding_workflow.go:142-162 | over every stretch of a run its stored document never records fewer steps, changes version, or goes back from completed |
| Lifetimes.TailWaitsForCompletion | internal/workflow/onboarding_workflow.go:97-102 | an action after the first completion mark is pending only when the stored document says completed |
| Guarantees.ActionsAreRegistered | internal/workflow/catalog_cache.go:52-84 | when startup validation accepts the catalog no run of any version asks for an unregistered action |
| Observation.RunIsBounded | internal/workflow/onboarding_workflow.go:63-71 | a run of n steps asks for at most 3n + 1 activities, at most 8 attempts and 123 seconds of waiting each |
| Observation.StretchCounts | internal/workflow/onboarding_workflow.go:63-71 | every attempt begun in a stretch is counted, and there are at most nine calls for each |
| Observation.AttemptsAreBounded | internal/workflow/onboarding_workflow.go:63-162 | over any stretch of moves at most 8 (3n + 1) begin attempts for the run |
| Retries.AnswerIsRecorded | internal/workflow/onboarding_workflow.go:119-135 | an answer reaches the run as it is, organisation and email included |
| Retries.GivenUpAfterEight | internal/workflow/onboarding_workflow.go:63-71 | since an activity was asked for, the server records its failure exactly when the eighth attempt ends without an answer, and the run then fails unless the activity is an event |
| Observation.IdleRunAwaitsSignal | internal/workflow/onboarding_workflow.go:105-107 | an open run with nothing under way waits on its current step's channel, which is empty |
| Observation.SeenIsDepth | internal/service/impl/onboarding_service.go:22-38 | the answer is the step to resume at for the recorded depth, and completed exactly when a recorded step marks it |
| Observation.FirstRunIsWatched | internal/controller/onboarding.go:95-108 | a user's first run is under observation from its start |
| Observation.ObservationsNeverGoBack | internal/service/impl/onboarding_service.go:25-38 | under one catalog with distinct names, answers during a run never name an earlier step or leave completed, the synthetic first answer included |
| Observation.ObservationIsAStep | internal/service/impl/onboarding_service.go:25-38 | every such answer names a step of the catalog |
| Delivery.ReceiptsFit | internal/workflow/onboarding_workflow.go:105-107 | each signal read was recorded, was on the channel the reading step waits on, and steps read in catalog order |
| Delivery.SignalsAreConserved | internal/workflow/onboarding_workflow.go:105-107 | on every channel what was read followed by what is unread is what was sent, in order |
| Delivery.SignalsReachTheirStep | internal/workflow/starter.go:100-109 | a signal is read by the step it names or by none, and no step reads two |
| Delivery.LateSignalIsIgnored | internal/workflow/starter.go:84-92 | a signal on a channel that already has one changes nothing, wherever in the history it comes |
| Delivery.SendsAreDue | internal/controller/onboarding.go:136-182 | a signal goes out only for a stored journey in progress, for its first unrecorded step, with a validated input |
| Delivery.SignalIsAppended | internal/workflow/starter.go:105-109 | a signal is appended to the user's open run and touches no other |
| Delivery.VerdictByPosition | internal/controller/onboarding.go:143-182 | from any stored journey and for any step named: completed journeys and recorded steps are no-ops; the first unrecorded step is decided by its input alone, by characters spelled out, and what is sent is what the request carried; every other step, of the catalog or not, is out of order |
| Delivery.ResubmissionChangesNothing | internal/controller/onboarding.go:143-148 | once a later document records the step, the same request is a no-op |
| Delivery.ContextIsLastSaid | internal/workflow/onboarding_workflow.go:108-116 | vertical, display name and terms are those of the last signals read that carried them |
| Inputs.DriveCarries | internal/workflow/onboarding_workflow.go:105-124 | whatever other signals carry, the organisation action gets the name and terms of one accepted signal |
| Inputs.AlwaysAccepted | internal/controller/stepvalidator.go:44-59 | when the internal endpoint records only verified emails, every organisation signal in every run was accepted by the validator |
| Inputs.ValidatedInputReachesAction | internal/controller/stepvalidator.go:44-59 | hence every organisation call carries a non-blank name and acceptance, both from one accepted signal |
| Walks.Come | internal/workflow/onboarding_workflow.go:96-156 | where no organisation is to be made on the way, some play brings a user's run to any step, with every activity answered |
| Naming.ComeNamed | internal/controller/onboarding.go:136-182 | and where one is, if a step of the same signal is current before it: some play delivers a name that the validator and the name rule accept |
| Nameless.NobodyPasses | internal/platform/auth0/httporgcreator.go:108-111 | where no such step is, and nothing completes before the organisation step, no play without a deployment makes an organisation, gets a run past that step, or completes a record |
| Completion.AloneGoesFalse | internal/workflow/activities.go:150-160 | from nobody, one user comes to a completion before which nothing has recorded a resource, with a name where an organisation is made, and completes the record |
| Completion.PairGoesFalse | internal/workflow/activities.go:180-216 | with no organisation step before, one user's run overwrites the shared record that another's has filled, and that one completes it |
| Completion.FalseCompletionExactly | internal/workflow/activities.go:148-160 | for every catalog whose latest version has registered actions: without a deployment the service can end in a false completion exactly when some completion of that version is not preceded, for each resource, by a step that provisions it after the organisation was created, and each organisation step before that completion can get a name |
| Completion.OrderDecides | internal/workflow/activities.go:148-160 | where organisation steps await their own signal before the journey is marked completed, as in the shipped version, the order of the steps alone decides |
| Completion.TrueCompletionIsReached | internal/workflow/activities.go:150-160 | where the order is right, some play completes the record of a named organisation, listing all four resources |
| Completion.CompletionAloneIsFalse | internal/workflow/activities.go:148-160 | the version whose only step completes provisioning ends in a false completion |
| Completion.NamelessCompletionIsNeverReached | internal/platform/auth0/httporgcreator.go:108-111 | with an organisation step before it that awaits no signal, the same completion never happens |
| Stranding.CrashStrands | internal/workflow/activities.go:109-117 | for every catalog whose first organisation step can get a name: from nobody, a play in which one crash after the organisation is made strands its user for good |
| Shipped.ShippedCompletion | internal/workflow/catalog.go:53-71 | of the shipped version: a completed record lists all four resources and each exists |
| Shipped.ShippedSignals | internal/workflow/catalog.go:53-71 | of the shipped version: only registered actions, the organisation made from a validated signal, every signal read by the step it names |
| Shipped.ShippedGate | internal/controller/onboarding.go:136-182 | of the shipped version: a signal goes out only for a stored journey in progress and its first unrecorded step |
| Shipped.ShippedNeverGoesFalse | internal/workflow/catalog.go:53-71 | no play of the shipped version ends in a false completion |
| Shipped.ShippedCompletes | internal/workflow/catalog.go:53-71 | while some play of it completes the record of a named organisation with all four resources |
| Shipped.ShippedStrands | internal/workflow/activities.go:99-117 | and one crash strands a user of it |

## Left out

- Routing, tokens, bindings, response bodies, wiring, configuration loading, telemetry, logging, metrics and instrumentation wrappers.
- JSON text: an input is a record of optional strings (`Gate.Body`), read the same way by the validator and the payload, or it does not decode.
- The Unicode tables behind the display-name rule: which characters beyond ASCII are letters or digits is the plan's (`Faults.Plan.letters`).
- The M2M token cache: fetching a token is a call that may fail.
- Document `_id` fields and the copying between document and transfer types.
- The names, branding, bodies and headers of outside requests; only keys matter here.
- Overlapping attempts of one user's activity after a timeout: the stores have no version check, so these are assumed not to overlap. Attempts of different users do.
- The record of the empty org id, in `Guarantees.EstablishedStays` and `Guarantees.NoRequestOnceRecorded`: it is shared by users and can lose what it lists.
- The time of a store's `updatedAt` and `createdAt` stamps: an attempt stamps with the time of its departure.
- The second read of the step endpoint is of the same stores as the first; that the decision comes from a stale read is modelled by `System.Ticket`.
- Deployments, in `Completion.FalseCompletionExactly` and `Nameless.NobodyPasses`: they speak of one catalog; what every deployed version must meet for safety is in `Guarantees.CompletedMeansProvisioned`.
- Temporal's reuse policy after a run has closed: a start then creates a new run, whose first persist replaces the document. Properties of a run are claimed for that run only.
- Progress of organisation creation for a stranded user: only safety is claimed.
- Exactly one Lago subscription per environment, and attachment of the AWS usage plan: neither holds.
- That the final vertical is a known one: steps without a validator may carry it too.
- Lifecycle counters: a retried emission counts again.
- Liveness: bounds on attempts are proved, and that an idle run waits for a signal; that attempts are made at all is the server's business. Waits between attempts are bounded but not enforced by moves.
- The library sort, modelled by insertion, since only its result matters; and the random order of a map range, which is a parameter.
- The SDK's replay machinery: a replaying worker is handed results in order and signals by channel, and the time of a step is that of the last event consumed.
- Worker crashes in `System`: a run there carries its crash-free worker, which by `Crashes.CrashesLeaveNoTrace` is the one any recovery rebuilds. Crashes within an attempt are in its plan.
- Subscription to configuration changes, and the read of all verticals for display.
- The step-label bucketing, health probes, retired handlers and commented-out clients.
