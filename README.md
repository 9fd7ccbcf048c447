# HireGlance job board: a Dafny model of its core

HireGlance is a demo job board in Next.js and React. Visitors browse a fixed
seed list of healthcare jobs. Before the application form opens they
watch a five-second advertisement. Admins and super-admins sign in through
two hardcoded login gates, and admins post new jobs through a form.

This project models the parts of the application that make decisions. Each
part is proved to behave as its source promises:

- **The ad gate** (`AdModal`, in `ad_modal.dfy`). Opening the dialog
  resets the session. A 100 ms interval derives progress and the countdown
  from elapsed time and stops itself at 5 s. Dismissing early records one
  skip, which the `adSkipped` flag guards. Proceed records a watch only when
  the ad has completed.
  - The pure step functions over `Session` specify each handler. The class
    `Gate` holds the component's state slots and runs the same handlers in
    place, on the analytics counters of `analytics.dfy`.
  - `Run` plays a sequence of ticks, closes and clicks. The trace lemmas
    are stated over it.
- **The job store** (`Jobs`, in `jobs.dfy`). It holds the four seed jobs in
  an array.
  - `getJobs` sorts that array in place, newest first. The sort is an
    insertion sort method. It is proved equal to the functional
    `SortByPostedDesc`, and that function is proved sorted, a permutation
    and idempotent.
  - `getJobById` is a first-match search.
  - Ids are unique, so every seed job is found by its id, both before and
    after sorting.
- **The login gates** (`Auth`, in `auth.dfy`, over the `localStorage`
  string map of `storage.dfy`). One class, `AuthProvider`, models both
  `AuthProvider` and `SuperAuthProvider`, which differ only in their key and
  credentials. Each handler is specified by a pure function. The lemmas
  cover:
  - reload after login and after logout;
  - idempotence of login and of logout;
  - independence of the two gates, which share one storage area.
- **The route guards** (`AdminLayout` and `SuperAdminLayout`, over the
  `View` of `views.dfy`). Each layout has two decision tables over
  `(isLoading, isAuthenticated, pathname)`: the redirects its effect issues
  and the view it renders.
- **The forms**:
  - `CreateJob` (in `create_job.dfy`): the `jobFormSchema` checks, the
    `split('\n').map(trim).filter` line-list transform, the object handed to
    `addJob`, and the effects of a submission;
  - `ApplicationForm` (in `application_form.dfy`): the
    `applicationFormSchema` checks and the success-then-reset sequence.
  
  `JsString` (in `js_string.dfy`) models the JavaScript string operations
  they use: `length` in UTF-16 code units, `trim` with ECMAScript's
  whitespace set, `split` and `join`.

The model works in these units:

- Time is counted in whole interval ticks of 0.1 s. Progress after `t` ticks
  is `min(100, 2t)` and the countdown is `max(0, 5 - t div 10)`.
- Dates are millisecond timestamps (`Date.getTime()`).
- Zod's e-mail check and `Date.prototype.toISOString` are function
  parameters.
- Whether `addJob` throws is a Boolean parameter.

Some facts about the code that the model keeps as they are:

- **Skip or watch per session.** The code does not make each ad-gate
  session end as exactly one of watched or skipped:
  - dismissing after the ad completed records neither
    (`AdModal.CloseAfterCompletionRecordsNothing`);
  - the watch counter has no guard like `adSkipped`, so two clicks on
    Proceed before the parent closes the dialog count two
    (`AdModal.WatchNotGuarded`).
- **Non-empty lists.** The job form does not check that the
  responsibilities and qualifications lists are non-empty. It checks only
  that the raw text has at least 10 characters, so ten spaces pass and
  become an empty list (`CreateJob.BlankTextPassesAsEmptyList`). `addJob`
  itself is not part of this model.
- **Expired jobs.** `getJobs` does not filter expired jobs: it sorts every
  job, and the model does the same.
- **Missing analytics functions.** `incrementAdsWatched` and
  `incrementAdsSkipped` are imported from `src/lib/jobs.ts`, but that file
  does not define them. The model treats them as counters that go up by one.

Two client methods, `AdModal.GateScenario` and `Auth.GatesScenario`, are
worked examples: they drive the classes through a typical sequence of calls
and assert the counters and stored flags that result. They model no single
source function and have no row below.

## Model

| member | source | states |
|---|---|---|
| Types.ParseEmploymentType | src/types/index.ts:10 | an employment type is exactly one of 'Full-time', 'Part-time', 'Contract', 'Temporary'; any other string has no type, and a parsed type's label is the string |
| Types.ParseLabel | src/types/index.ts:10 | every employment type's label parses back to that type |
| Jobs.SeedShapeHolds | src/lib/jobs.ts:4-96 | the seed array holds four jobs with ids '1' to '4' in that order and their posting dates |
| Jobs.JobStore.constructor | src/lib/jobs.ts:4-96 | the module array starts as the four seed jobs, in source order |
| Jobs.SeedIdsUnique | src/lib/jobs.ts:4-96 | no two seed jobs share an id |
| Jobs.SortInPlace | src/lib/jobs.ts:99 | the in-place sort leaves the array equal to `SortByPostedDesc` of its old contents |
| Jobs.JobStore.GetJobs | src/lib/jobs.ts:98-100 | `getJobs` returns the module array itself, sorted in place to `SortByPostedDesc` of its old contents |
| Jobs.SortIsSorted | src/lib/jobs.ts:99 | the comparator `b - a` orders jobs by posting date, newest first |
| Jobs.SortPermutes | src/lib/jobs.ts:99 | sorting keeps the same jobs with the same multiplicities |
| Jobs.SortKeepsSorted | src/lib/jobs.ts:99 | sorting an array that is already newest first leaves it unchanged |
| Jobs.SortIdempotent | src/lib/jobs.ts:99 | a second `getJobs` returns what the first returned |
| Jobs.SeedSortedOrder | src/lib/jobs.ts:24-99 | `getJobs` puts the seed in the order 4, 2, 1, 3 (22, 20, 15 and 10 July 2024) |
| Jobs.FindById | src/lib/jobs.ts:102-104 | `find` returns a job with the requested id and the first one in array order; it returns nothing exactly when no job has that id |
| Jobs.JobStore.GetJobById | src/lib/jobs.ts:102-104 | `getJobById` returns a job of the array with the requested id, or nothing exactly when none has it; it only reads the array |
| Jobs.FindOwnId | src/lib/jobs.ts:102-104 | with unique ids, looking a job up by its own id finds that job |
| Jobs.SeedLookup | src/lib/jobs.ts:102-104 | every seed job is found by its id, both in source order and in sorted order |
| Jobs.LookupAroundGetJobs | src/lib/jobs.ts:98-104 | a seed job is still found by its id after `getJobs` has been called twice |
| Analytics.Counters.constructor | src/components/AdModal.tsx:10 | both analytics counters start at zero |
| Analytics.Counters.IncrementAdsSkipped | src/components/AdModal.tsx:76 | the skip counter goes up by one and the watch counter is unchanged |
| Analytics.Counters.IncrementAdsWatched | src/components/AdModal.tsx:85 | the watch counter goes up by one and the skip counter is unchanged |
| AdModal.ProgressAt | src/components/AdModal.tsx:62-63 | progress is `(elapsed / 5) * 100`, capped at 100; it lies in 0..100 and is 100 exactly once 5 s have elapsed |
| AdModal.CountdownAt | src/components/AdModal.tsx:64 | the countdown is 5 minus the whole seconds elapsed, never negative; it is 0 exactly once 5 s have elapsed |
| AdModal.MonotoneInTime | src/components/AdModal.tsx:59-64 | as time passes, progress never decreases and the countdown never increases |
| AdModal.Initial | src/components/AdModal.tsx:24-26 | before the first opening: no time elapsed, progress 0, countdown 5, not skipped, no interval, and the session is consistent |
| AdModal.AfterOpen | src/components/AdModal.tsx:33-39 | opening resets progress to 0, the countdown to 5 and `adSkipped` to false, and starts the interval at zero elapsed |
| AdModal.AfterTick | src/components/AdModal.tsx:60-68 | a stopped interval does nothing; a running one advances one tick, keeps progress and countdown consistent with elapsed time, never lowers progress or raises the countdown, and stops itself at 5 s |
| AdModal.OnModalClose | src/components/AdModal.tsx:73-81 | an open-change to open does nothing; a close calls `onClose` once and records a skip exactly when progress is below 100 and no skip was recorded yet |
| AdModal.OnProceed | src/components/AdModal.tsx:83-89 | the Proceed handler records a watch exactly when progress is at 100, then calls `onAdWatched` and `onClose` in that order |
| AdModal.OnProceedClick | src/components/AdModal.tsx:120-122 | a click on the disabled button does nothing; on the enabled button it runs the Proceed handler |
| AdModal.ProceedEnabledIffComplete | src/components/AdModal.tsx:122 | the Proceed button is enabled exactly when progress is at 100, which is when 5 s have elapsed and the countdown is 0 |
| AdModal.CloseAfterCompletionRecordsNothing | src/components/AdModal.tsx:75-79 | dismissing after completion records neither a skip nor a watch and still calls `onClose` |
| AdModal.RunKeepsConsistent | src/components/AdModal.tsx:59-68 | over any events, progress stays within 0..100 and only grows, the countdown stays within 0..5 and only shrinks, and a recorded skip stays recorded |
| AdModal.AtMostOneSkip | src/components/AdModal.tsx:75-78 | over any events, a session records at most one skip, none once one is recorded, and the flag is set after one |
| AdModal.SkipOnEarlyClose | src/components/AdModal.tsx:73-79 | a dismissal before completion records exactly one skip for the session, whatever follows |
| AdModal.RepeatedCloseCountsOnce | src/components/AdModal.tsx:73-79 | dismissing a freshly opened gate any number of times records one skip |
| AdModal.NoEarlyWatch | src/components/AdModal.tsx:83-86 | a watch is recorded only after the full 5 s of ticks |
| AdModal.WatchesOnlyFromClicks | src/components/AdModal.tsx:120-122 | every recorded watch comes from its own click on Proceed |
| AdModal.WatchNotGuarded | src/components/AdModal.tsx:83-86 | two clicks on Proceed after completion record two watches |
| AdModal.OpenedGateNeedsFullDuration | src/components/AdModal.tsx:20 | fewer than 50 ticks after opening, no watch can be recorded |
| AdModal.Gate.constructor | src/components/AdModal.tsx:23-26 | the mounted gate is closed, with the initial state values and no callbacks |
| AdModal.Gate.Open | src/components/AdModal.tsx:31-39 | the open effect runs only when a closed dialog opens, and sets the state to `AfterOpen` |
| AdModal.Gate.Tick | src/components/AdModal.tsx:60-68 | one interval callback updates the state as `AfterTick` |
| AdModal.Gate.Hide | src/components/AdModal.tsx:70 | closing or unmounting clears the interval and changes nothing else |
| AdModal.Gate.HandleModalClose | src/components/AdModal.tsx:73-81 | fires only while the dialog is open; updates the state, the callback log and the skip counter as `OnModalClose` says, and leaves the watch counter unchanged |
| AdModal.Gate.HandleAdWatchedAndProceed | src/components/AdModal.tsx:83-89 | fires only while the dialog is open; updates the callback log and the watch counter as `OnProceed` says |
| AdModal.Gate.ClickProceed | src/components/AdModal.tsx:120-122 | the button exists only while the dialog is open; a click runs the Proceed handler only when the button is enabled |
| Auth.KeysDistinct | src/hooks/useSuperAuth.tsx:6 | the super-admin key differs from the admin key |
| Auth.CredentialsDisjoint | src/hooks/useSuperAuth.tsx:30 | no user name and password pair opens both gates |
| Auth.Initial | src/hooks/useAuth.ts:21-22 | before the load effect: loading and not authenticated |
| Auth.AfterLoad | src/hooks/useAuth.ts:25-30 | after loading, authenticated exactly when the stored value is the string 'true', and no longer loading |
| Auth.AfterLogin | src/hooks/useAuth.ts:32-40 | login succeeds exactly on the gate's own credentials (admin/password, or superadmin/superpassword for the super-admin gate); success stores 'true' under the gate's key and authenticates; failure changes neither storage nor state; no other key changes |
| Auth.AfterLogout | src/hooks/useAuth.ts:42-46 | logout removes the gate's own key and no other, and clears `isAuthenticated`; the super-admin gate does the same on its key |
| Auth.LoginPersists | src/hooks/useAuth.ts:35 | after a successful login, a reload finds the gate authenticated |
| Auth.LogoutPersists | src/hooks/useAuth.ts:43 | after a logout, a reload finds the gate not authenticated |
| Auth.LoginIdempotent | src/hooks/useAuth.ts:32-40 | logging in twice with the same credentials is the same as logging in once |
| Auth.LogoutIdempotent | src/hooks/useAuth.ts:42-46 | logging out twice is the same as logging out once |
| Auth.GatesIndependent | src/hooks/useSuperAuth.tsx:28-41 | logging in or out of one gate leaves what the other gate loads unchanged |
| Auth.AuthProvider.constructor | src/hooks/useSuperAuth.tsx:17-19 | a provider starts loading and not authenticated |
| Auth.AuthProvider.Load | src/hooks/useSuperAuth.tsx:21-26 | the load effect sets the state to `AfterLoad` of the stored items |
| Auth.AuthProvider.Login | src/hooks/useAuth.ts:32-40 | `login` returns and leaves what `AfterLogin` says, in state and in storage |
| Auth.AuthProvider.Logout | src/hooks/useAuth.ts:42-46 | `logout` leaves what `AfterLogout` says, in state and in storage |
| AdminLayout.Redirects | src/app/admin/layout.tsx:19-32 | no redirect while loading; to '/admin/login' exactly when unauthenticated elsewhere; to '/admin/dashboard' exactly when authenticated on the login page; none exactly in the remaining cases; never more than one |
| AdminLayout.Render | src/app/admin/layout.tsx:34-66 | the spinner exactly while loading; children alone exactly when unauthenticated on the login page; children under the header exactly when authenticated; otherwise nothing |
| AdminLayout.NoProtectedContentUnauthenticated | src/app/admin/layout.tsx:45-66 | without authentication, children appear only on the login page and never under the header |
| AdminLayout.NothingIffRedirectToLogin | src/app/admin/layout.tsx:25-66 | the layout renders nothing exactly when it redirects to the login page, and never redirects while showing the spinner |
| AdminLayout.HeaderWhileRedirectingToDashboard | src/app/admin/layout.tsx:29-61 | an authenticated user on the login page sees it under the header while the redirect to the dashboard is pending |
| SuperAdminLayout.Redirects | src/app/superadmin/layout.tsx:15-25 | no redirect while loading; to '/superadmin/login' exactly when unauthenticated elsewhere; to '/superadmin/dashboard' exactly when authenticated on the login page; none exactly in the remaining cases; never more than one |
| SuperAdminLayout.Render | src/app/superadmin/layout.tsx:27-53 | children alone exactly when not loading, unauthenticated and on the login page; under the header exactly when not loading, authenticated and elsewhere; the final `return null` is unreachable |
| SuperAdminLayout.LoaderIffLoadingOrRedirecting | src/app/superadmin/layout.tsx:27 | the spinner shows exactly while loading or while a redirect is pending |
| SuperAdminLayout.ChildrenOnlyWhenSettled | src/app/superadmin/layout.tsx:27-53 | children appear only when no redirect is pending; protected content never appears unauthenticated |
| JsString.Utf16Length | src/app/admin/create-job/page.tsx:22 | a string's `length` counts characters outside the Basic Multilingual Plane twice |
| JsString.Trim | src/app/admin/create-job/page.tsx:60 | `trim` returns `s` without its surrounding whitespace: a slice of `s` that neither starts nor ends with whitespace, empty exactly when `s` is all whitespace |
| JsString.TrimmedEnds | src/app/admin/create-job/page.tsx:60 | a non-empty string that equals its own trim neither starts nor ends with whitespace |
| JsString.TrimIdempotent | src/app/admin/create-job/page.tsx:60 | trimming twice is trimming once |
| JsString.Split | src/app/admin/create-job/page.tsx:60 | `split('\n')` gives one more piece than there are line breaks, none containing one, and joining them gives back the text |
| JsString.SplitJoin | src/app/admin/create-job/page.tsx:60 | splitting a join of pieces without line breaks gives back the pieces |
| CreateJob.ParseLines | src/app/admin/create-job/page.tsx:60-61 | the line-list transform yields no empty element, no element with surrounding whitespace or a line break, and no more elements than lines |
| CreateJob.ParseLinesTrimmed | src/app/admin/create-job/page.tsx:60 | every element starts and ends with a non-whitespace character |
| CreateJob.ParseLinesKeepsOrder | src/app/admin/create-job/page.tsx:60 | the result is a subsequence of the trimmed lines, every non-blank line is in it, and each non-blank line occurs as often as among the trimmed lines: exactly the trimmed lines with blanks left out, in their original order |
| CreateJob.ParseLinesIdempotent | src/app/admin/create-job/page.tsx:60 | joining the result with '\n' and transforming again gives the same list |
| CreateJob.BlankTextPassesAsEmptyList | src/app/admin/create-job/page.tsx:26-61 | ten or more spaces pass the `min(10)` check and become an empty list |
| CreateJob.Errors | src/app/admin/create-job/page.tsx:21-32 | the schema rejects a field exactly when its check fails: title below 3, company or location below 2, the three long texts below 10, or an unknown employment type; the optional fields accept anything |
| CreateJob.ValidIff | src/app/admin/create-job/page.tsx:21-32 | the form is valid exactly when all the field checks hold |
| CreateJob.DefaultValues | src/app/admin/create-job/page.tsx:42-53 | the default type is 'Full-time' and no expiration date is set |
| CreateJob.DefaultsRejected | src/app/admin/create-job/page.tsx:42-53 | the defaults fail every text check and pass the type check |
| CreateJob.BuildDraft | src/app/admin/create-job/page.tsx:58-64 | the object for `addJob` transforms the two line lists, converts the expiration date only when one was picked, and passes every other field through |
| CreateJob.HandleSubmit | src/app/admin/create-job/page.tsx:56-82 | an invalid form does nothing; a valid one first calls `addJob` with the draft, once; if that returns it announces the title, resets the form and goes to the dashboard; if it throws it shows the error and keeps the values |
| CreateJob.ResetOnlyAfterAddJob | src/app/admin/create-job/page.tsx:66-73 | the form resets and navigates exactly when it was valid and `addJob` returned |
| CreateJob.ResubmitAfterSuccessDoesNothing | src/app/admin/create-job/page.tsx:72 | after a successful submission, submitting the reset form does nothing |
| ApplicationForm.Errors | src/components/JobApplicationForm.tsx:13-29 | the schema rejects: a name below 2, an invalid e-mail, qualification details below 5, a college below 3, a present cover letter below 10, a missing or empty resume, or a resume that is not PDF, DOC or DOCX |
| ApplicationForm.ValidIff | src/components/JobApplicationForm.tsx:14-28 | the form is valid exactly when all the field checks hold |
| ApplicationForm.DefaultValues | src/components/JobApplicationForm.tsx:41-48 | the default cover letter is the empty string and there is no resume |
| ApplicationForm.EmptyCoverLetterRejected | src/components/JobApplicationForm.tsx:18 | a form whose cover letter is '' is rejected, whatever the other fields say |
| ApplicationForm.DefaultsRejected | src/components/JobApplicationForm.tsx:41-48 | the defaults fail the name, qualification, college, cover letter and resume checks, and the e-mail check unless '' counts as an e-mail |
| ApplicationForm.HandleSubmit | src/components/JobApplicationForm.tsx:51-56 | an invalid form does nothing; a valid one calls `onSubmitSuccess`, then resets the form to its defaults |
| ApplicationForm.SuccessIffValid | src/components/JobApplicationForm.tsx:54 | the parent is told of a submission exactly when the form is valid |
| ApplicationForm.ResubmitAfterSuccessDoesNothing | src/components/JobApplicationForm.tsx:54-55 | after a successful submission, submitting the reset form does nothing |

## Left out

- The ad image: `generateAdImage`, its toast, the placeholder image and its loading flag. They are a network (AI) call that decides nothing the gate counts.
- The floating-point `elapsed`. The model counts whole ticks and does not decide at which float step `elapsed >= 5` first holds. Near whole seconds, the shown countdown can differ from the model by one tick.
- React timing: `setInterval` scheduling, effect ordering and re-renders. The handlers act on the current state. The stale `progress` a closure can read between renders is not modelled.
- `AdModal.Gate`: closing is the parent's decision. `onClose` is recorded in the callback log, and the parent closes the dialog through `Hide`.
- The analytics store, `addJob` and `getAllJobsForAdmin`. The model never sees their bodies: the counters only go up by one, and `addJob` either returns or throws.
- `localStorage` is a string map. The model leaves out serialisation, sharing between tabs, and exceptions from a full storage area.
- `useAuth` and `useSuperAuth` throw when used outside their provider. That is React context wiring, and the model leaves it out.
- Library internals the model cannot see: Zod's e-mail check and `toISOString` (passed in as parameters), `instanceof File` (the absent resume), and Zod's handling of invalid `Date` values.
- Zod's error messages. The model records only which fields fail.
- Navigation, toasts, the clipboard, and the rendering of pages, headers, cards and dashboards.
- Jobs.SortInPlace: stability for jobs with equal posting dates is not stated. The seed dates are all distinct.
