# Complaint subsystem of a student support platform, modelled in Dafny

The platform's browser client lets a signed-in student submit complaints,
optionally with an evidence image, and see, expand and delete their own
complaints. Administrators load every complaint joined with the submitter's
profile. All storage lives in a hosted database and object store that the
client calls directly. This project models the client-side logic of that
subsystem, plus the forum list's category filter:

- `ComplaintModel` (`complaint.dfy`) holds the complaint row, the profile
  summary, the picked file, and the list transforms the caches apply. These
  are remove-by-id, replace-by-id and the per-row profile join.
- `ComplaintHook` (`use_complaints.dfy`) is the complaint data hook. It is a
  class holding `complaints`, `loading` and `error`, with load, admin load,
  add, update and delete.
- `ComplaintList` (`user_complaints_list.dfy`) is the user's complaint list.
  It has pure display rules: status and priority badges with defaults,
  120-character truncation, the edit/delete enable rule, header counts and
  what the list shows. A class holds the view state: rows, loading, error,
  expanded card, pending delete and the mounted flag. Its handlers are load,
  retry, two-step delete and expand/collapse.
- `SubmissionPage` (`complaint_page.dfy`) is the submission page. It covers
  image acceptance (MIME prefix, 5 MB bound), trimmed form validation, the
  storage path, and a reference definition of the submit flow (`SubmitRun`).
  A class holds the page state with its handlers: pick image, remove image,
  submit, dismiss success, toggle form, edit, dismiss error.
- `Forum` (`forum_list.dfy`) is the forum list. It covers the category
  filter, the chip labels made by `replace(/^.+\s/, '')`, and which parts of
  the page show.
- The helper modules are `Wrappers` (outcome types), `Seqs` (order-preserving
  filter, subsequence, counting), `Text` (ECMAScript `trim`, `\s`,
  `split('.').pop()`) and `Gateway` (the requests sent to the backend).

The backend itself is not modelled. Each remote call becomes an input: an
`Outcome` (`Ok(value)` or `Err(message)`) or a `Status` (`Done` or
`Failed(message)`). Each operation returns `sent`, the requests it issued in
order. That is how the model states properties such as these:

- a failed validation sends nothing;
- a list delete is scoped to both the id and the owner;
- the hook's queries carry no user filter.

Some JavaScript values are falsy. A missing or falsy `user_id`, category,
priority or error message is the empty string. The cases where a component is
torn down while a request is in flight are modelled by a `teardown`
parameter. After teardown, the requests still go out, but every guarded state
update is dropped.

Notes on how the code behaves, which the model follows:

- The page stores evidence at `<userId>/complaint-evidence/<timestamp>_<random>.<ext>`
  in bucket `complaints-evidence`. The hook instead asks its upload helper for
  folder `complaint-images`.
- The page's insert row has no `image_url` key when no image was picked
  (`ImageField.Absent`). The hook's row carries an explicit `null`
  (`ImageField.Null`).
- `handleSubmit` writes the validation error before it checks that the page
  is still mounted. The model records that write on an unmounted page too.
- A failed list delete sets `error`, so the whole list gives way to the error
  panel. The pending confirmation is not cleared, so it reopens after a
  successful retry. `ComplaintList.FailedDeleteThenRetry` is a verified
  walkthrough of that sequence, not a model of any one handler: it drives a
  fresh view through mount, confirm, failed delete and retry, and asserts
  each screen.
- The hook's `loadComplaints` never clears an earlier `error`. The list view's
  load does clear it.

## Model

| member | source | states |
|---|---|---|
| `Text.TrimEmpty` | src/pages/Complaint/ComplaintPage.jsx:74 | `s.trim()` is empty exactly when every character of `s` is ECMAScript white space or a line terminator |
| `Text.FileExtSpec` | src/pages/Complaint/ComplaintPage.jsx:99 | `split('.').pop()` is the dot-free suffix after the last `.`, or the whole name when it has no `.` |
| `Text.FileExtAfterDot` | src/pages/Complaint/ComplaintPage.jsx:100 | a name built as `<base>.<ext>` with a dot-free `ext` has extension `ext` |
| `ComplaintModel.OrEmpty` | src/hooks/useComplaints.js:22 | a null query result reads as the empty list, otherwise the data itself |
| `ComplaintModel.RemoveByIdSpec` | src/hooks/useComplaints.js:189 | `filter(c => c.id !== id)` keeps exactly the entries with another id, as an order-preserving subsequence, and drops as many entries as have that id |
| `ComplaintModel.ReplaceByIdSpec` | src/hooks/useComplaints.js:164-168 | `map(c => c.id === id ? row : c)` keeps length and order, puts `row` at every matching position and leaves every other entry as it was |
| `ComplaintModel.AttachProfile` | src/hooks/useComplaints.js:46-66 | only `user` changes; it is the profile exactly when the row has a user id and the lookup succeeded, and null otherwise |
| `ComplaintModel.JoinProfilesSpec` | src/hooks/useComplaints.js:44-68 | the admin join keeps the rows' number and order and applies `AttachProfile` to each row with its own lookup answer |
| `ComplaintHook.AddPayloadSpec` | src/hooks/useComplaints.js:103-112 | the insert row keeps owner, title and description, defaults a falsy category to `general` and a falsy priority to `medium`, and has `image_url: null` exactly when there is no image URL |
| `ComplaintHook.ProfileRequestsSpec` | src/hooks/useComplaints.js:44-53 | the admin load sends one profile lookup per row that has a user id, in row order: the i-th lookup is for the i-th such row's user id, so repeated ids give repeated lookups; rows without a user id get none |
| `ComplaintHook.ComplaintStore.constructor` | src/hooks/useComplaints.js:7-9 | the cache starts empty, not loading, with no error |
| `ComplaintHook.ComplaintStore.LoadComplaints` | src/hooks/useComplaints.js:13-29 | sends one unfiltered select; on success the list is the data or `[]` and the error stays; on failure the list stays and the error is the message; `loading` ends false |
| `ComplaintHook.ComplaintStore.LoadAllComplaints` | src/hooks/useComplaints.js:32-77 | on success the list is the profile-joined rows and the requests are the select plus the per-row profile lookups; on failure the list stays and the error is set; `loading` ends false |
| `ComplaintHook.ComplaintStore.AddComplaint` | src/hooks/useComplaints.js:80-128 | a failed upload returns and records `"Failed to upload image: " + message`, with no insert and the list unchanged; otherwise one insert of `AddPayload`; success prepends the stored row; a failed insert leaves the list and records the error; `loading` ends false on every path |
| `ComplaintHook.ComplaintStore.UpdateComplaint` | src/hooks/useComplaints.js:131-176 | on success every entry with that id becomes the updated row with its profile re-attached (null if the lookup fails); on failure the list stays, the error is set and returned; `loading` untouched |
| `ComplaintHook.ComplaintStore.DeleteComplaint` | src/hooks/useComplaints.js:179-195 | deletes by id alone (no owner filter); success drops exactly the entries with that id; failure leaves the list, sets and returns the error; `loading` untouched |
| `ComplaintList.StatusConfigOf` | src/components/Complaint/UserComplaintsList.jsx:65-73 | an unknown status gets the pending badge; each known label, and the missing icon of `rejected`, appears exactly for its own status |
| `ComplaintList.PriorityConfigOf` | src/components/Complaint/UserComplaintsList.jsx:75-82 | an unknown priority gets the medium badge; the high and low emojis appear exactly for their own priority |
| `ComplaintList.DisplayedDescription` | src/components/Complaint/UserComplaintsList.jsx:204-207 | text of length at most 120, or an expanded card, shows whole; a collapsed long text shows its first 120 characters followed by `...` |
| `ComplaintList.TruncationOf150` | src/components/Complaint/UserComplaintsList.jsx:168 | a 150-character description shows 120 characters plus `...` collapsed and all 150 expanded |
| `ComplaintList.ActionsFollowBadge` | src/components/Complaint/UserComplaintsList.jsx:247-273 | Edit/Delete are live exactly when the badge reads neither Resolved nor Rejected, so an unknown status keeps them live |
| `ComplaintList.StatsOf` | src/components/Complaint/UserComplaintsList.jsx:154-158 | total is the number of rows; pending and resolved are the counts of those statuses, and together never exceed the total |
| `ComplaintList.GridSpec` | src/components/Complaint/UserComplaintsList.jsx:114-157 | loading shows the spinner whatever else holds; otherwise a truthy error shows the error panel with its message; otherwise no rows shows the empty notice; the grid shows exactly when none of these applies; one card per row in order; the card's enable rule, at most the selected id expanded, description shortened only when long and collapsed; confirmation open only over the grid |
| `ComplaintList.UserComplaintsList.constructor` | src/components/Complaint/UserComplaintsList.jsx:8-15 | starts with no rows, loading, no error, nothing expanded or pending, mounted |
| `ComplaintList.UserComplaintsList.Unmount` | src/components/Complaint/UserComplaintsList.jsx:18-22 | clears the mounted flag and nothing else |
| `ComplaintList.UserComplaintsList.LoadUserComplaints` | src/components/Complaint/UserComplaintsList.jsx:24-52 | sends one select filtered by this user; if mounted it first sets loading and clears the error; on success, still mounted, the list is the data or `[]`; on failure the list stays and the error is the message; loading ends false unless torn down; unmounted, nothing changes |
| `ComplaintList.UserComplaintsList.OnMount` | src/components/Complaint/UserComplaintsList.jsx:54-63 | loads only when there is a user id, leaving the loaded state (rows or `[]` and no error on success, old rows and the message on failure) when not torn down; torn down mid-load, the rows are kept, loading stays set and the error cleared; on an unmounted list, or without a user id, nothing changes |
| `ComplaintList.UserComplaintsList.Retry` | src/components/Complaint/UserComplaintsList.jsx:131-135 | reissues the same load when mounted, leaving the same loaded state as the first load; torn down mid-load, the rows are kept, loading stays set and the error cleared; unmounted, sends nothing and changes nothing |
| `ComplaintList.UserComplaintsList.HandleDeleteComplaint` | src/components/Complaint/UserComplaintsList.jsx:84-104 | sends one delete scoped to the id and this user; success removes exactly that id's entries and clears the pending id; failure sets the error and keeps list and pending id |
| `ComplaintList.UserComplaintsList.ConfirmDelete` | src/components/Complaint/UserComplaintsList.jsx:106-108 | records the pending id and sends nothing |
| `ComplaintList.UserComplaintsList.CancelDelete` | src/components/Complaint/UserComplaintsList.jsx:110-112 | clears the pending id and sends nothing |
| `ComplaintList.UserComplaintsList.DeleteConfirmed` | src/components/Complaint/UserComplaintsList.jsx:282-298 | only from the open confirmation; deletes the pending id, scoped to this user; on success, still mounted, drops that id, closes the confirmation and keeps the error; torn down, rows, error and pending id are kept; on failure keeps the rows and the pending id and, still mounted, sets the error to the message; loading and expansion are untouched |
| `ComplaintList.UserComplaintsList.ToggleExpand` | src/components/Complaint/UserComplaintsList.jsx:200-243 | only a long description toggles; toggling the expanded card collapses it, any other card becomes the single expanded one |
| `SubmissionPage.ImageRejection` | src/pages/Complaint/ComplaintPage.jsx:52-64 | a file is accepted exactly when its type starts with `image/` and its size is at most 5\*1024\*1024; otherwise the type error comes first, then the size error |
| `SubmissionPage.ImageSizeBoundary` | src/pages/Complaint/ComplaintPage.jsx:61 | an image of exactly 5 MB is accepted and one byte more is refused |
| `SubmissionPage.FormValidSpec` | src/pages/Complaint/ComplaintPage.jsx:74 | the form passes exactly when title and description each hold a non-space character |
| `SubmissionPage.StoragePathSpec` | src/pages/Complaint/ComplaintPage.jsx:99-101 | the object path starts with `<userId>/complaint-evidence/` and keeps the picked file's extension |
| `SubmissionPage.SubmitRunSpec` | src/pages/Complaint/ComplaintPage.jsx:85-132 | without an image, one insert with no `image_url` key; with an image, the upload comes first and a failed upload means no insert; otherwise the row has the signed URL, or the public URL (requested only then) when signing failed; the insert is last and carries the untrimmed text |
| `SubmissionPage.Submit` | src/pages/Complaint/ComplaintPage.jsx:85-132 | the step-by-step try block sends exactly the requests of `SubmitRun` and throws its error |
| `SubmissionPage.FailureText` | src/pages/Complaint/ComplaintPage.jsx:148 | the inline error is never empty: the error's message, or the default text when that is empty |
| `SubmissionPage.ComplaintPage.constructor` | src/pages/Complaint/ComplaintPage.jsx:11-32 | form closed, title and description empty, category `general`, priority `medium`, no image, no flags, list key 0, mounted |
| `SubmissionPage.ComplaintPage.Unmount` | src/pages/Complaint/ComplaintPage.jsx:35-39 | clears the mounted flag only |
| `SubmissionPage.ComplaintPage.ToggleCreateForm` | src/pages/Complaint/ComplaintPage.jsx:186 | flips `showCreateForm`; the file input is emptied when the form leaves the page |
| `SubmissionPage.ComplaintPage.EditForm` | src/pages/Complaint/ComplaintPage.jsx:225 | the form holds the edited fields |
| `SubmissionPage.ComplaintPage.DismissError` | src/pages/Complaint/ComplaintPage.jsx:211 | clears the inline error |
| `SubmissionPage.ComplaintPage.HandleImageChange` | src/pages/Complaint/ComplaintPage.jsx:52-69 | no file changes nothing; a refused file sets its error and keeps file and preview; an accepted file sets file and preview and clears the error |
| `SubmissionPage.ComplaintPage.RemoveImage` | src/pages/Complaint/ComplaintPage.jsx:155-167 | clears file and preview when mounted, and the file input when it is on the page |
| `SubmissionPage.ComplaintPage.HandleSubmit` | src/pages/Complaint/ComplaintPage.jsx:71-153 | invalid form: validation error, nothing sent, `submitting` untouched; unmounted: nothing sent or changed; otherwise the requests of `SubmitRun`; success shows the message, clears both flags and increments the list key by one; a thrown error sets `FailureText` and clears both flags; form, image and key kept; torn down mid-flight, later updates are dropped |
| `SubmissionPage.ComplaintPage.DismissSuccess` | src/pages/Complaint/ComplaintPage.jsx:366-374 | when mounted: hides the message and the form (so the form is not visible) and resets the fields to `''`, `''`, `general`, `medium` and the image selection |
| `Forum.FilteredPostsSpec` | src/components/Forum/ForumList.jsx:31-33 | `all` yields the posts unchanged; any other value yields exactly the posts of that category, as an order-preserving subsequence, as many as there are |
| `Forum.MatchEnd` | src/components/Forum/ForumList.jsx:93 | the greedy `^.+\s` match ends at the last space character at position 1 or later before the first line break, if any |
| `Forum.ChipLabelSpec` | src/components/Forum/ForumList.jsx:93 | on a single-line caption the label is the suffix after the last space at position 1 or later, and holds no space; with no such space the caption is kept whole |
| `Forum.ChipLabelOfWords` | src/components/Forum/ForumList.jsx:93 | a caption `<head> <word>` whose word has no space yields the label `word` |
| `Forum.FirstChipLabel` | src/components/Forum/ForumList.jsx:21 | the label of `'🌟 All Topics'` is `'Topics'` |
| `Forum.ScreenSpec` | src/components/Forum/ForumList.jsx:35-228 | an error replaces the page; the post count is all posts whatever the category; empty state exactly when not loading and the filter is empty; spinner exactly when loading with no posts, never with the empty state; the popup needs the form flag and a user |

## Left out

- The hosted backend is not modelled. Its queries, inserts, updates, deletes,
  uploads and URL issuing are inputs to the model; server-side `created_at`
  ordering and row ownership rules are not local code.
- Signed-URL destructuring (src/pages/Complaint/ComplaintPage.jsx:111): the
  model assumes the library returns an object there even on error. It takes
  only the branch at lines 116-125.
- `Date.now`, `Math.random().toString(36)`, `URL.createObjectURL` and
  `toLocaleDateString` are opaque string inputs, not modelled functions.
- `Promise.all` in the admin load is modelled as a sequential map: only order
  and length are kept, and each row has its own lookup answer.
- Event-loop interleaving: each handler runs to completion with the backend's
  answers given up front. Other handlers cannot observe the in-flight state
  (`loading` or `submitting` true). The one interleaving modelled is teardown
  during an await (`teardown`).
- React lifecycle: the list's effect cleanup also runs on a `userId` change;
  only the mounted flag is modelled. React's dropping of state writes to
  unmounted components is not modelled.
- The file input's value is modelled as `fileInputFilled`. The DOM clears it
  when the form leaves the page; the rest of the input element is not
  modelled.
- The image `onError`/`onLoad` fallback toggling, JSX, styles, icons,
  `console.error` and the Edit button's `console.log` are presentation only.
- The signed-out page (src/pages/Complaint/ComplaintPage.jsx:41-50) is
  presentation; the page class takes the signed-in user's id.
- `useImageUpload`, `useAuth`, `useForum` and `ForumPost` are not part of this
  model. The hook's upload is one request (`UploadImage`) whose answer is the
  URL.
- `updateComplaint`'s `updateData` is forwarded in the request as an opaque
  field map and is not applied locally; the cache takes the row the backend
  returns.
- String lengths count Unicode scalar values. JavaScript's `length` and
  `substring` count UTF-16 code units, so the 120-character cut differs for
  characters outside the Basic Multilingual Plane.
- Status and priority lookups use plain string matching. JavaScript object
  keys inherited from `Object.prototype` (`constructor`, `toString`) would be
  truthy there and are not modelled.
- A null description is modelled as the empty string, which gives the same
  display.
- The forum's selected category is an input of its render functions. It
  changes only through a chip click, which is not modelled as state.
- src/App.jsx (routes, error boundary) and
  src/components/Complaint/SafeLoader.jsx (static SVG) are not part of this
  model.
- ComplaintHook.ComplaintStore.LoadAllComplaints: takes the fetched rows as a
  list, so it does not cover a `null` result without an error. In the source
  that case would throw on `.map` and set the error.
- Forum.ChipLabelSpec: states the label only for captions without line
  breaks. `MatchEnd` covers the general case.
