# A verified model of the blog client's interactive state

This project models the browser side of a React/Redux blog: the parts that keep state on the page in step with the server.

- **`user` slice** (`UserSlice`): the signed-in user, the last error and a loading flag, changed only by the six case reducers. The store is a class. Its `Dispatch` is specified by a pure `Reduce`, and by `ReduceAll` for a sequence of actions.
- **Sign-in page** (`SignIn`): trimmed form fields and the ordered dispatches of `handleSubmit`.
- **Profile tab** (`DashProfile`):
  - the form of changed fields;
  - the profile-picture upload callbacks;
  - the two guards of `handleSubmit` and what it dispatches;
  - the delete-account modal.
- **Post editor** (`CreatePost`): form fields, the image-upload guard and callbacks, generated-content merging and the publish outcome.
- **Search page** (`Search`, over `SearchParams`):
  - the filter, with its defaults;
  - writing the filter into the query string and reading it back;
  - the window of posts, which a new query replaces and "Show More" extends.
- **Comment section** (`Comments`): the 200-character draft and the comment list. Loading replaces the list, creating prepends to it, and a like or an edit changes the comment with the given id.
- **One comment** (`CommentItem`): the edit state machine, the like label, and the two predicates that decide what the signed-in user sees.

`Common` holds what these share:
- `Option`;
- `Thrown`, what a `catch` clause receives: an `Error` with a message, or another value;
- `Response<T>`, the outcome of one `fetch` plus `res.json()`: a thrown value, or a reply with the `ok` flag and a decoded body;
- JavaScript's `String.prototype.trim`;
- the decimal numeral of a count.

Every React component whose handlers set state is a class. Its fields are the component's `useState` values and its methods are the handlers. Each handler runs as one step on the current state. A network outcome is a parameter of the handler, and each method returns what it sent or where it navigated. URLSearchParams `get` and `set` follow section 6.2 of the WHATWG URL Standard. The query is modelled as its list of name/value pairs.

Behaviour where the code is not what one might expect, which the model keeps as written:
- **Search fetch**: the first-page fetch of the search page has no `catch`, so a thrown request leaves `loading` on.
- **Search window**: it is not emptied when the filter changes. An ok reply replaces it; any other outcome keeps it.
- **Late replies**: the search page does not discard late replies.
- **Comment load**: a failed load leaves the comment list as it was, not empty.
- **Comment create**:
  - creating a comment is not optimistic: the list changes only when the server replies ok;
  - an empty draft is submitted like any other;
  - a reply that is not ok changes nothing and shows nothing.
- **Comment edit**: a rejected save does nothing at all, and a thrown one only logs. Either way the comment stays in editing and no message is shown.
- **Comment delete**: there is none, and there is no confirmation gate in front of it. The list component never passes `onDelete`.
- **Sign-in, not-ok reply**: a reply that is not ok and lacks `success: false` dispatches only `signInStart`, so `loading` stays on.
- **Sign-in, `success: false` with ok**: a reply flagged `success: false` that is also ok dispatches the failure and then the success.

## Model

| member | source | states |
|---|---|---|
| Common.TrimStart | client/src/pages/SignIn.tsx:33 | the result is a suffix of the input; every character dropped is ECMAScript whitespace; the result does not start with whitespace |
| Common.TrimEnd | client/src/pages/SignIn.tsx:33 | the result is a prefix of the input; every character dropped is whitespace; the result does not end with whitespace |
| Common.Trim | client/src/pages/SignIn.tsx:33 | `trim()` keeps a contiguous middle of the input that neither starts nor ends with whitespace, and removes only whitespace around it |
| Common.TrimIdempotent | client/src/pages/SignIn.tsx:33 | trimming a stored field again changes nothing |
| Common.Decimal | client/src/pages/Search.tsx:103 | `toString()` of a count is a non-empty string of digits with no leading zero except for 0 itself |
| Common.DecimalRoundTrip | client/src/pages/Search.tsx:103 | the numeral sent as `startIndex` reads back as the count it was made from |
| Common.DecimalInjective | client/src/components/Comment.tsx:166-169 | different counts never print the same numeral |
| SearchParams.Get | client/src/pages/Search.tsx:32-34 | `get` is null exactly when no pair has the name; otherwise it gives the value of the first pair with that name |
| SearchParams.Set | client/src/pages/Search.tsx:92-94 | after `set` the pairs are exactly the new pair and the old pairs with another name; the list grows by one only when the name was absent, and never grows otherwise |
| SearchParams.ReplaceFirstMembers | client/src/pages/Search.tsx:92-94 | overwriting the first pair with the name leaves the new pair and the pairs with other names, and no more pairs than before |
| SearchParams.SetThenGet | client/src/pages/Search.tsx:92-94 | after `set(name, value)`, `get(name)` is `value` |
| SearchParams.SetKeepsOthers | client/src/pages/Search.tsx:91-94 | `set` of one name leaves `get` of every other name unchanged |
| SearchParams.SetShape | client/src/pages/Search.tsx:91-94 | `set` keeps every pair with another name, in order, and leaves exactly one pair with the name, holding the new value: in the first such pair's place, with the later ones removed, or appended when there was none |
| SearchParams.ReplaceFirstAt | client/src/pages/Search.tsx:92-94 | when the name occurs first at index i, `set` gives the pairs before i, the new pair, then the rest without that name |
| UserSlice.Reduce | client/src/redux/user/userSlice.ts:19-44 | the slice is loading exactly after a start; an error is present exactly after a failure, and is its payload; the user changes only on a success, to its payload |
| UserSlice.ReduceAll | client/src/redux/user/userSlice.ts:15-48 | dispatching nothing leaves the state; otherwise the last action alone decides whether the slice is loading |
| UserSlice.ReduceEffects | client/src/redux/user/userSlice.ts:19-44 | a start sets loading and clears the error; a success signs the user in and clears both; a failure stores the message, ends loading and keeps the user |
| UserSlice.ReduceAllSnoc | client/src/redux/user/userSlice.ts:15-46 | dispatching one more action applies one more reducer to the state so far |
| UserSlice.SettledIsNotLoading | client/src/redux/user/userSlice.ts:19-44 | any sequence of actions that ends in a success or a failure leaves `loading` false, whatever came before |
| UserSlice.UserChangesOnlyOnSuccess | client/src/redux/user/userSlice.ts:19-44 | a sequence with no success action never changes `currentUser` |
| UserSlice.StartThenSuccess | client/src/redux/user/userSlice.ts:19-27 | a start followed by a success signs in that user with no error and not loading, from any state |
| UserSlice.UserStore.constructor | client/src/redux/user/userSlice.ts:9-13 | the initial state: nobody signed in, no error, not loading |
| UserSlice.UserStore.SignInStart | client/src/redux/user/userSlice.ts:19-22 | loading on, error cleared, user kept |
| UserSlice.UserStore.SignInSuccess | client/src/redux/user/userSlice.ts:23-27 | the payload becomes the current user; loading off, error cleared |
| UserSlice.UserStore.SignInFailure | client/src/redux/user/userSlice.ts:28-31 | loading off, error set to the payload, user kept |
| UserSlice.UserStore.UpdateStart | client/src/redux/user/userSlice.ts:32-35 | loading on, error cleared, user kept |
| UserSlice.UserStore.UpdateSuccess | client/src/redux/user/userSlice.ts:36-40 | the payload becomes the current user; loading off, error cleared |
| UserSlice.UserStore.UpdateFailure | client/src/redux/user/userSlice.ts:41-44 | loading off, error set to the payload, user kept |
| UserSlice.UserStore.Dispatch | client/src/redux/user/userSlice.ts:48 | dispatching an action moves the store to the state `Reduce` gives |
| SignIn.SubmitActions | client/src/pages/SignIn.tsx:39-66 | the validation failure is dispatched alone exactly when a field is empty or missing; otherwise `signInStart` comes first and no later action is a start |
| SignIn.Filled | client/src/pages/SignIn.tsx:39 | a field passes the check exactly when its key is present with a non-empty value, which is what `!formData[key]` rejects |
| SignIn.IncompleteFormKeepsUser | client/src/pages/SignIn.tsx:39-41 | an incomplete form leaves the user as it was, with the "fill out all fields" error and not loading |
| SignIn.AcceptedSignIn | client/src/pages/SignIn.tsx:43-60 | an ok reply ends signed in as the returned user, with no error and not loading, even after a `success: false` flag |
| SignIn.ThrownSignIn | client/src/pages/SignIn.tsx:61-66 | a thrown request keeps the user and shows the error's message, or "An unknown error occurred" for a non-`Error` value |
| SignIn.FlaggedRejection | client/src/pages/SignIn.tsx:53-55 | a rejected reply flagged `success: false` shows the server's message, ends loading and keeps the user |
| SignIn.UnflaggedRejectionKeepsLoading | client/src/pages/SignIn.tsx:53-60 | a reply that is neither ok nor flagged `success: false` dispatches only the start, so `loading` stays on |
| SignIn.SignInPage.constructor | client/src/pages/SignIn.tsx:25 | the form starts empty |
| SignIn.SignInPage.HandleChange | client/src/pages/SignIn.tsx:32-34 | the trimmed value is stored under the input's id and the other fields are kept |
| SignIn.SignInPage.HandleSubmit | client/src/pages/SignIn.tsx:36-68 | dispatches exactly `SubmitActions` and leaves the store in `ReduceAll` of them; the request is sent iff both fields are filled; it navigates home iff the reply is ok |
| DashProfile.SubmitGuard | client/src/components/DashProfile.tsx:138-146 | submission is blocked iff nothing changed or an upload is running, with "No changes made" checked first |
| DashProfile.UpdateActions | client/src/components/DashProfile.tsx:148-173 | `updateStart` comes first; then `updateSuccess` with the reply's user for an ok reply, `updateFailure` with the reply's message for a rejected one or with the error's message for a thrown `Error`, and nothing for another thrown value |
| DashProfile.UpdateOutcome | client/src/components/DashProfile.tsx:148-173 | the slice afterwards, outcome by outcome: signed in as the returned user; the user kept with the message shown; or still loading after a thrown non-`Error` value |
| DashProfile.UpdateSettles | client/src/components/DashProfile.tsx:148-173 | every outcome but a thrown non-`Error` value leaves the slice not loading |
| DashProfile.ProfilePage.constructor | client/src/components/DashProfile.tsx:53-67 | the initial values of the profile tab's state |
| DashProfile.ProfilePage.HandleChange | client/src/components/DashProfile.tsx:129-131 | the value is stored under the input's id, other fields are kept, and nothing else changes |
| DashProfile.ProfilePage.HandleImageChange | client/src/components/DashProfile.tsx:71-83 | a picked file is stored with its preview URL and starts the upload; no file changes nothing |
| DashProfile.ProfilePage.StartUpload | client/src/components/DashProfile.tsx:97-98 | the upload is marked running with its error cleared, so submission is blocked |
| DashProfile.ProfilePage.UploadProgressed | client/src/components/DashProfile.tsx:105-109 | only the progress text changes |
| DashProfile.ProfilePage.UploadFailed | client/src/components/DashProfile.tsx:110-118 | shows the 2 MB message, forgets the file and its URL, and ends the upload |
| DashProfile.ProfilePage.UploadSucceeded | client/src/components/DashProfile.tsx:119-125 | the download URL becomes the picture and the form's `profilePicture`; the upload ends, so submission is allowed |
| DashProfile.ProfilePage.HandleSubmit | client/src/components/DashProfile.tsx:133-174 | clears both messages; the guard message blocks the request; otherwise it dispatches `UpdateActions` and leaves the store in their `ReduceAll`; the shown message follows the outcome |
| DashProfile.ProfilePage.OpenDeleteModal | client/src/components/DashProfile.tsx:318 | only the modal is shown |
| DashProfile.ProfilePage.CloseDeleteModal | client/src/components/DashProfile.tsx:346 | only the modal is hidden |
| DashProfile.ProfilePage.HandleDeleteUser | client/src/components/DashProfile.tsx:176-177 | the modal is hidden and nothing else on the tab changes |
| CreatePost.WithGenerated | client/src/pages/CreatePost.tsx:133-139 | a truthy generated text replaces only the content; otherwise the form is unchanged |
| CreatePost.CanGenerate | client/src/pages/CreatePost.tsx:99 | generation may run exactly when both the title and the category are present and non-empty |
| CreatePost.CreatePostPage.UploadDisabled | client/src/pages/CreatePost.tsx:195 | the upload button is disabled exactly while a progress value is shown |
| CreatePost.CreatePostPage.constructor | client/src/pages/CreatePost.tsx:25-31 | no file, no progress, no errors, an empty form |
| CreatePost.CreatePostPage.SetTitle | client/src/pages/CreatePost.tsx:158-160 | only the title changes |
| CreatePost.CreatePostPage.SetCategory | client/src/pages/CreatePost.tsx:163-165 | only the category changes |
| CreatePost.CreatePostPage.SetContent | client/src/pages/CreatePost.tsx:225-227 | only the content changes |
| CreatePost.CreatePostPage.SetFile | client/src/pages/CreatePost.tsx:187 | the picked file, or none |
| CreatePost.CreatePostPage.HandleUploadImage | client/src/pages/CreatePost.tsx:35-70 | no file gives "Please select an image"; an SDK failure gives "Image upload failed" and clears progress; otherwise the error is cleared and the upload starts |
| CreatePost.CreatePostPage.UploadProgressed | client/src/pages/CreatePost.tsx:49-53 | the progress text is set and the upload button is disabled |
| CreatePost.CreatePostPage.UploadFailed | client/src/pages/CreatePost.tsx:54-57 | "Image upload failed" is shown and the button is enabled again |
| CreatePost.CreatePostPage.UploadSucceeded | client/src/pages/CreatePost.tsx:58-64 | progress and error are cleared and only the form's image changes |
| CreatePost.CreatePostPage.HandleGenerateAIContent | client/src/pages/CreatePost.tsx:98-144 | nothing is sent without a title and a category; a thrown request or a missing text alerts and keeps the form; a text goes through `WithGenerated` |
| CreatePost.CreatePostPage.HandleSubmit | client/src/pages/CreatePost.tsx:73-96 | a rejected reply shows its message; a thrown request shows "Something went wrong"; an ok reply clears the error and navigates to `/post/` plus the slug |
| Search.ParseFilter | client/src/pages/Search.tsx:31-43 | with none of the three parameters truthy, the filter stays; otherwise each field is its parameter when truthy and "", "desc" or "uncategorized" when not, so the result is well formed |
| Search.ParseIgnoresCurrent | client/src/pages/Search.tsx:36-43 | once a parameter is truthy, the filter the page held plays no part in the result |
| Search.CategoryOnlyQuery | client/src/pages/Search.tsx:39-41 | `?category=leadership` reads as the empty search term, "desc" and "leadership", whatever the page held |
| Search.ApplyFilter | client/src/pages/Search.tsx:91-94 | the built query holds exactly the three filter pairs and the location's pairs with any other name |
| Search.ApplyFilterContents | client/src/pages/Search.tsx:91-94 | the built query gives back the three filter values and every other parameter of the location unchanged |
| Search.RoundTrip | client/src/pages/Search.tsx:88-96 | reading the submitted query back gives the submitted filter, when sort and category are non-empty |
| Search.EmptySortDoesNotRoundTrip | client/src/pages/Search.tsx:39-41 | an empty sort does not survive the round trip: it comes back as "desc" |
| Search.ShowMoreQuery | client/src/pages/Search.tsx:99-103 | the request sets `startIndex` to the numeral of the number of posts shown and keeps every other parameter |
| Search.ShowMoreStartsAfterShown | client/src/pages/Search.tsx:100-103 | the server reads back exactly the number of posts already shown |
| Search.SearchPage.constructor | client/src/pages/Search.tsx:16-23 | the initial filter ("", "desc", "uncategorized"), no posts, not loading, no "Show More" |
| Search.SearchPage.LocationChanged | client/src/pages/Search.tsx:30-68 | reads the filter from the location and sends the location's query; ok replaces the posts, with `showMore` iff the page holds 9 posts; not-ok only ends loading; a thrown request leaves loading on |
| Search.SearchPage.HandleChange | client/src/pages/Search.tsx:70-86 | only the field named by the id changes; an empty sort becomes "desc" and an empty category "uncategorized" |
| Search.SearchPage.HandleSubmit | client/src/pages/Search.tsx:88-97 | the target query holds the filter, keeps every other parameter, and reads back as the page's filter |
| Search.SearchPage.HandleShowMore | client/src/pages/Search.tsx:99-121 | asks from `startIndex` equal to the posts shown; ok appends the page, so earlier posts stay a prefix, and sets `showMore` iff it holds 9; otherwise nothing changes |
| Search.ShowMoreScenario | client/src/pages/Search.tsx:99-121 | pages of 9, 9 and 4 posts show 22 posts, in order, and offer no more |
| Search.ShowTwoMore | client/src/pages/Search.tsx:99-121 | two "Show More" replies, a full page then a short one, are appended in order, end "Show More", and leave the filter |
| Comments.Liked | client/src/components/CommentSection.tsx:110-114 | a liked comment takes the reply's likers with a count equal to their number, and keeps its id, content, author and date |
| Comments.WithLikes | client/src/components/CommentSection.tsx:106-116 | the comments with the id take the reply's likers and a count equal to their number; their other fields and every other comment keep their values and places |
| Comments.WithContent | client/src/components/CommentSection.tsx:123-129 | the comments with the id take the new content and keep every other field; every other comment keeps its value and place |
| Comments.WithLikesIdempotent | client/src/components/CommentSection.tsx:106-116 | applying the same like reply twice equals applying it once |
| Comments.WithLikesCommute | client/src/components/CommentSection.tsx:108-115 | like replies for different comments give the same list in either order |
| Comments.LikeAndEditCommute | client/src/components/CommentSection.tsx:108-127 | a like reply and an edit give the same list in either order, even on one comment |
| Comments.WithLikesKeepsCounts | client/src/components/CommentSection.tsx:110-114 | if every like count matches its likers before a reply, they all match after it |
| Comments.UnknownIdUnchanged | client/src/components/CommentSection.tsx:108-128 | a like reply or an edit for an id no comment has leaves the list as it was |
| Comments.CommentSection.constructor | client/src/components/CommentSection.tsx:37-39 | empty draft, no error, no comments |
| Comments.CommentSection.Remaining | client/src/components/CommentSection.tsx:166 | the counter is negative exactly when the draft is over 200 characters, and 200 exactly when it is empty |
| Comments.CommentSection.HandleDraftChange | client/src/components/CommentSection.tsx:159-160 | the draft is the attempted text capped at 200 characters, so it always fits; the text that fits is kept as it is |
| Comments.CommentSection.LoadComments | client/src/components/CommentSection.tsx:78-93 | an ok reply replaces the list wholesale; any other outcome keeps it |
| Comments.CommentSection.HandleSubmit | client/src/components/CommentSection.tsx:46-76 | a request is sent iff the draft has at most 200 characters; ok prepends the server's comment and clears draft and error; not-ok changes nothing; a thrown request sets only the error |
| Comments.CommentSection.HandleLike | client/src/components/CommentSection.tsx:95-121 | signed out: navigate to /sign-in, no request; otherwise an ok reply gives `WithLikes` and any other outcome keeps the list |
| Comments.CommentSection.HandleEdit | client/src/components/CommentSection.tsx:123-129 | the list becomes `WithContent` for the edited comment's id |
| CommentItem.LikeLabel | client/src/components/Comment.tsx:166-169 | the label is empty exactly for a count of 0 or less; otherwise the numeral, a space, and "like" or "likes" |
| CommentItem.LikeLabelReadsBack | client/src/components/Comment.tsx:166-169 | the label's leading digits read back as the count, followed by a space, and the noun is singular exactly for 1 |
| CommentItem.LikeLabelInjective | client/src/components/Comment.tsx:166-169 | different positive counts never show the same label |
| CommentItem.CanModify | client/src/components/Comment.tsx:172-173 | Edit and Delete are shown exactly when someone is signed in and is the comment's author or an admin |
| CommentItem.ModifyRights | client/src/components/Comment.tsx:172-173 | nobody signed out may edit; an admin may edit any comment; anyone else only their own |
| CommentItem.IsLikedBy | client/src/components/Comment.tsx:155-158 | the like button is highlighted exactly when someone is signed in and their id is among the comment's likers |
| CommentItem.LikeReplyHighlight | client/src/components/Comment.tsx:155-158 | after a like reply, a comment's button is highlighted iff the reply lists the user; other comments keep their highlight; edit rights do not change |
| CommentItem.CommentView.constructor | client/src/components/Comment.tsx:49-51 | not editing, with the draft equal to the comment's content |
| CommentItem.CommentView.PropsChanged | client/src/components/Comment.tsx:51 | a new comment prop keeps the draft and the editing flag |
| CommentItem.CommentView.HandleEdit | client/src/components/Comment.tsx:72-75 | enters editing with the draft re-seeded from the current content |
| CommentItem.CommentView.HandleDraftChange | client/src/components/Comment.tsx:123 | only the draft changes |
| CommentItem.CommentView.HandleSave | client/src/components/Comment.tsx:77-96 | sends the draft; an ok reply leaves editing and calls `onEdit` with the comment and the draft; otherwise it stays as it was and calls nothing |
| CommentItem.CommentView.HandleCancel | client/src/components/Comment.tsx:141 | leaves editing without calling `onEdit` |
| CommentItem.EditAndSave | client/src/components/Comment.tsx:89-92 | an accepted edit ends editing; the section's comments with that id take the typed text and keep every other field, and every other comment is unchanged |

## Left out

- Network I/O, JSON parsing and the Firebase storage SDK are outside the model. Each handler receives the outcome as a `Response` value or as callback calls, and the request URLs and headers are not modelled.
- Concurrency is not modelled. Each handler or callback is one atomic step on the current state, so the stale closures of `setComments` and `setFormData` are absent; there, React would use the state captured at render time.
- The upload progress percentage is computed in floating point and arrives as a string parameter.
- Percent-encoding and the `toString` serialisation of a query are not modelled. A query is its list of name/value pairs.
- JSX rendering, styling, `moment` relative times, alerts as dialogs and the post image preview are not modelled. Only the values they show are.
- OAuth sign-in, sign-out, `handleSignout`, and the `deleteUser*`/`signoutSuccess` reducers are not modelled. The reducers are imported but not defined by the slice, so `HandleDeleteUser` models only the hidden modal.
- Comment deletion and a confirmation gate are not modelled because the code has neither.
- The comment author lookup (`getUser` in each comment) only feeds the rendered name and avatar, so it is not modelled.
- The text-generation request body is not modelled, and neither is the prompt text.
- Comments.CommentSection.HandleDraftChange: lengths count Unicode scalar values, while JavaScript counts UTF-16 code units. Drafts with characters outside the Basic Multilingual Plane are therefore measured differently. An over-long input keeps its first 200 characters. A browser cuts inserted text at the caret instead, so a paste into the middle of a long draft keeps other characters; only the 200-character bound is the same.
- Comments.CommentSection.HandleSubmit: it takes the signed-in user as a parameter, because the form is rendered only when someone is signed in. The TypeError the code would hit with nobody signed in is not modelled.
- Common.Decimal: only integers below 10^21 print as plain numerals in JavaScript. Larger ones print in exponent form, which the model does not cover; the counts here are array lengths, far below that bound.
- SignIn.SubmitActions: the user record dispatched by `signInSuccess(data)` is the reply body itself; the model carries it as the reply's `user` field.
- DashProfile.UpdateActions: the user record dispatched by `updateSuccess(data)` is likewise the whole reply body; the model carries it as the reply's `user` field, through the same `UserReply` record.
