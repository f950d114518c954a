# AiNura front end — a Dafny model

AiNura is a React single-page gallery of AI-generated images and videos.
Visitors browse two catalogues, search them by prompt, list items similar to
a chosen one, keep favourites, and (signed in) upload new works and edit a
profile. This project models the logic of that front end in Dafny:

- the pages as state machines: one `class` per component whose state the
  handlers update, with the handlers as methods;
- the data pipelines as functions: search, similarity scoring, favourites
  filtering, FAQ filtering, route building;
- the network, browser storage, timers and the DOM as parameters of those
  methods.

Each handler's contract states its new state and its outputs (the route
navigated to, the alert shown, the request sent). Lemmas state what the
pipelines promise: which items a search finds and how they are ordered,
what a similarity score is made of, that a form payload carries exactly
the editable fields, and that an encoded query stays one URL parameter.

The modules follow the source files. `Media`, `Text`, `Lists`, `Sorting`,
`Upload` and `Session` hold the records and the JavaScript string, array,
sort and storage semantics the pages share. `Wrappers` holds `Option` and
`Result`.

Notes on the source:

- The bottom menu's logged-in test is JavaScript truthiness of both storage
  entries (`Session.HasSession`), not their mere presence.
- Registration sends `location` and `website` besides the account fields.
- The sign-in form's input handler clears a field's error to `null`. The
  model writes `""`, which is just as falsy.

## Model

| member | source | states |
|---|---|---|
| Auth.Sanitize | src/Components/AuthModal/AuthModal.jsx:390-394 | the verification code keeps at most six characters, all digits |
| Auth.SanitizeSpec | src/Components/AuthModal/AuthModal.jsx:390-394 | the code is a prefix of the input's digits: all of them, or the first six |
| Auth.SanitizeIdempotent | src/Components/AuthModal/AuthModal.jsx:390-394 | sanitising a sanitised code changes nothing |
| Auth.ErrorMapping | src/Components/AuthModal/AuthModal.jsx:252-269 | the catch block as written: an `error` field becomes the general message, an object becomes one message per key (the first of an array), a non-object the fixed text |
| Auth.ErrorObjectShowsNothing | src/Components/AuthModal/AuthModal.jsx:255-266 | a thrown `Error` object (a failed request) maps to no message at all |
| Auth.ErrorMessages | src/Components/AuthModal/AuthModal.jsx:252-269 | the corrected mapping: as written, except that a mapping that shows nothing falls back to the unexpected-error text |
| Auth.ErrorMessagesShown | src/Components/AuthModal/AuthModal.jsx:252-269 | every failure shows some message |
| Auth.ErrorFieldShown | src/Components/AuthModal/AuthModal.jsx:255-256 | a body with a truthy `error` field shows exactly that field as the general message |
| Auth.HeaderContent | src/Components/AuthModal/AuthModal.jsx:314-336 | the title follows the modes: verification, reset, sign-in or sign-up, each exactly in its case and in that priority |
| Auth.LoginPayload | src/Components/AuthModal/AuthModal.jsx:208-227 | the data handed to `onLogin` has username, e-mail and token keys; the server's user fields win over the empty defaults and the token is the reply's |
| Auth.AuthModal.constructor | src/Components/AuthModal/AuthModal.jsx:18-38 | sign-in mode, no pending user, no errors, the eight empty form fields |
| Auth.AuthModal.HandleInputChange | src/Components/AuthModal/AuthModal.jsx:68-81 | the named field takes the value; its error is cleared only when it was truthy |
| Auth.AuthModal.SetVerificationCode | src/Components/AuthModal/AuthModal.jsx:390-394 | the stored code is the sanitised input |
| Auth.Submit | src/Components/AuthModal/AuthModal.jsx:178-273 | the request sent per mode (a six-character code, a login, or a registration once the passwords agree) and none otherwise, with its error; a verification or login success saves the token and user to storage (`saveAuthData`, lines 85-88) and signs in with `LoginPayload`; a registration success enters verification with the pending user; any failure shows `ErrorMessages` and leaves storage alone |
| Auth.AuthModal.HandleSubmit | src/Components/AuthModal/AuthModal.jsx:178-273 | the request, the sign-in payload, the errors, the verification step, the pending user and the shared storage are those `Submit` computes; the form, the mode and the code stay; loading ends |
| Auth.AuthModal.HandleResendCode | src/Components/AuthModal/AuthModal.jsx:275-286 | success shows the "code sent" notice; failure (or no pending user) shows the thrown error or "Failed to resend code"; loading ends |
| Auth.AuthModal.ResendNoticeExpires | src/Components/AuthModal/AuthModal.jsx:280 | the three-second timer clears all errors |
| Auth.AuthModal.ToggleMode | src/Components/AuthModal/AuthModal.jsx:288-303 | the sign-in/sign-up mode flips; verification, the pending user, the code and the errors are cleared; the form is the six-field reset |
| Auth.AuthModal.HandleBackToLogin | src/Components/AuthModal/AuthModal.jsx:305-312 | back in sign-in mode with no pending user, no code and no errors; the form is kept |
| Auth.AuthModal.CurrentHeader | src/Components/AuthModal/AuthModal.jsx:314-336 | the header of the current state; the reset title never appears, as no handler enters that mode |
| BottomSubmenu.ProtectedRoutesAreLoginTabs | src/Layout/BottomSubmenu/BottomSubmenu.jsx:16-16 | the protected routes are exactly the paths of the tabs that need a session |
| BottomSubmenu.FindByPath | src/Layout/BottomSubmenu/BottomSubmenu.jsx:139-141 | `find` by path: the first tab with the path, or none when no tab has it |
| BottomSubmenu.ActiveTab | src/Layout/BottomSubmenu/BottomSubmenu.jsx:137-146 | no tab on `/`; otherwise the tab whose path is the current path, exactly when one exists |
| BottomSubmenu.CommitRedirectsAsWritten | src/Layout/BottomSubmenu/BottomSubmenu.jsx:20-62 | the redirects of one commit of the two session effects as written, both reading the render's signed-in flag |
| BottomSubmenu.SignedInVisitorSentHome | src/Layout/BottomSubmenu/BottomSubmenu.jsx:58-62 | a signed-in visitor mounting the menu on `/favourites` is sent to `/` |
| BottomSubmenu.Redirect | src/Layout/BottomSubmenu/BottomSubmenu.jsx:58-62 | the corrected guard: home exactly when storage holds no session on a protected route |
| BottomSubmenu.RedirectAgrees | src/Layout/BottomSubmenu/BottomSubmenu.jsx:20-62 | wherever the corrected guard redirects, the code as written does too; once the flag has settled they agree |
| BottomSubmenu.BottomMenu.constructor | src/Layout/BottomSubmenu/BottomSubmenu.jsx:16-18 | signed out, no modal open |
| BottomSubmenu.BottomMenu.CheckLoginStatus | src/Layout/BottomSubmenu/BottomSubmenu.jsx:20-34 | the flag follows storage; a change to signed out on a protected route redirects home |
| BottomSubmenu.BottomMenu.GuardRoute | src/Layout/BottomSubmenu/BottomSubmenu.jsx:58-62 | the route guard, as `Redirect` states it |
| BottomSubmenu.BottomMenu.HandleTabClick | src/Layout/BottomSubmenu/BottomSubmenu.jsx:103-117 | a session tab without a session opens the sign-in prompt; explore opens search; any other tab navigates to its path |
| BottomSubmenu.BottomMenu.HandleSearchClose | src/Layout/BottomSubmenu/BottomSubmenu.jsx:119-121 | the search modal closes, nothing else changes |
| BottomSubmenu.BottomMenu.HandleLoginRequiredClose | src/Layout/BottomSubmenu/BottomSubmenu.jsx:123-125 | the prompt closes, nothing else changes |
| BottomSubmenu.BottomMenu.HandleOpenAuthModal | src/Layout/BottomSubmenu/BottomSubmenu.jsx:127-134 | the header's modal opens when its hook is published; the prompt closes in any case |
| BottomSubmenu.ProtectedTabsNeedSession | src/Layout/BottomSubmenu/BottomSubmenu.jsx:64-117 | every tab leading to a protected route is marked as needing a session |
| Contact.WithField | src/Pages/Contact/ContactPage.jsx:96-101 | the named field takes the value and the other fields stay |
| Contact.EmailShapeHasAtAndDot | src/Pages/Contact/ContactPage.jsx:121 | an address of the shape has an `@` with a `.` somewhere after it |
| Contact.FormErrorsSpec | src/Pages/Contact/ContactPage.jsx:112-134 | a field has an error exactly when its rule fails, the message rule counting UTF-16 code units as `length` does, with the message of the first failing rule |
| Contact.AcceptedIff | src/Pages/Contact/ContactPage.jsx:112-137 | a form is valid exactly when name and subject are not blank, the e-mail has the shape and the trimmed message has at least 10 UTF-16 code units |
| Contact.CollectErrors | src/Pages/Contact/ContactPage.jsx:113-134 | the field-by-field construction of the errors equals `FormErrors` |
| Contact.ContactPage.constructor | src/Pages/Contact/ContactPage.jsx:23-32 | the empty form, no errors, no status, not submitting |
| Contact.ContactPage.HandleInputChange | src/Pages/Contact/ContactPage.jsx:96-110 | the field takes the value; its error is cleared only when it was set |
| Contact.ContactPage.ValidateForm | src/Pages/Contact/ContactPage.jsx:112-137 | the errors become `FormErrors`; valid exactly when there are none |
| Contact.ContactPage.HandleSubmit | src/Pages/Contact/ContactPage.jsx:139-175 | an invalid form stops at validation; a valid one is reset, status success, not submitting |
| Create.Classify | src/Pages/CreatePage/CreatePage.jsx:28-55 | a file is accepted exactly when it is an image or a video of at most 50 MiB; the errors come in the source's order |
| Create.Destination | src/Pages/CreatePage/CreatePage.jsx:131-140 | an image upload leads to `/images`, a video upload to `/videos` |
| Create.FailureMessage | src/Pages/CreatePage/CreatePage.jsx:124-143 | the error after a failed upload is never empty: the thrown message, the server's error, its status, or the fixed text |
| Create.CreatePage.constructor | src/Pages/CreatePage/CreatePage.jsx:16-21 | no prompt, no file, no error |
| Create.CreatePage.SetPrompt | src/Pages/CreatePage/CreatePage.jsx:16 | the prompt takes the text |
| Create.CreatePage.HandleFileUpload | src/Pages/CreatePage/CreatePage.jsx:28-55 | no file changes nothing; a refused file only sets the error; an accepted file, its preview and kind replace the old ones |
| Create.CreatePage.RemoveUploadedFile | src/Pages/CreatePage/CreatePage.jsx:75-82 | the file, its preview and its kind are gone |
| Create.CreatePage.HandleSubmit | src/Pages/CreatePage/CreatePage.jsx:85-149 | blank prompt, no file, a missing or empty token each stop with their error (the token case also goes to `/login`); otherwise the form sent holds the file under its kind and the trimmed prompt; success alerts and navigates, failure shows `FailureMessage` |
| Faq.FilteredFaqsSpec | src/Pages/FAQ/FAQPage.jsx:225-228 | an unknown category lists nothing; otherwise an entry is listed exactly when its question or answer contains the term, order kept |
| Faq.EmptyTermListsAll | src/Pages/FAQ/FAQPage.jsx:225-228 | an empty search lists the whole category |
| Faq.CategoryCount | src/Pages/FAQ/FAQPage.jsx:271 | the count is the category's length, 0 for an unknown one |
| Faq.ItemKeyInjective | src/Pages/FAQ/FAQPage.jsx:296 | within a category, different positions have different open-state keys |
| Faq.Toggled | src/Pages/FAQ/FAQPage.jsx:218-223 | the toggled key flips its open state; every other key keeps its state |
| Faq.ToggledTwice | src/Pages/FAQ/FAQPage.jsx:218-223 | toggling twice restores every key's open state |
| Faq.FaqPage.constructor | src/Pages/FAQ/FAQPage.jsx:23-25 | the general category, nothing open, empty search |
| Faq.FaqPage.SetActiveCategory | src/Pages/FAQ/FAQPage.jsx:267 | the category changes, the open states stay |
| Faq.FaqPage.SetSearchTerm | src/Pages/FAQ/FAQPage.jsx:250 | the term changes, the open states stay |
| Faq.FaqPage.ClickQuestion | src/Pages/FAQ/FAQPage.jsx:289-296 | the key of the clicked position in the shown list is toggled |
| Favourites.PoolSpec | src/Pages/FavouriteItems/FavouriteItems.jsx:23-39 | the pool is the first ten images then the first eight videos, each tagged with its type and tags |
| Favourites.ByTypeSpec | src/Pages/FavouriteItems/FavouriteItems.jsx:45-50 | `all` keeps everything, `images` keeps the images, any other value the videos |
| Favourites.SearchStepSpec | src/Pages/FavouriteItems/FavouriteItems.jsx:52-60 | a blank query keeps everything; otherwise an entry is kept exactly when its prompt, author or a tag contains the query |
| Favourites.ArrangedPermutes | src/Pages/FavouriteItems/FavouriteItems.jsx:41-79 | the sorted list is a permutation of the filtered list; an unknown order keeps it as it is |
| Favourites.ArrangedOrder | src/Pages/FavouriteItems/FavouriteItems.jsx:62-76 | each sort order orders by its comparator, newest by date descending, most liked by likes descending and so on |
| Favourites.WithSizeEntries | src/Pages/FavouriteItems/FavouriteItems.jsx:81-90 | each tile holds its favourite and is tall exactly at the multiples of 8 |
| Favourites.StatsOf | src/Pages/FavouriteItems/FavouriteItems.jsx:92-111 | totals per type add up to the total, for the pool and for the shown list |
| Favourites.FavouritesPage.constructor | src/Pages/FavouriteItems/FavouriteItems.jsx:14-19 | empty search, all types, newest first, six visible |
| Favourites.FavouritesPage.SetSearchQuery | src/Pages/FavouriteItems/FavouriteItems.jsx:113-116 | the query changes; six items show again when it differs from before |
| Favourites.FavouritesPage.SetActiveFilter | src/Pages/FavouriteItems/FavouriteItems.jsx:113-116 | the filter changes; six items show again when it differs from before |
| Favourites.FavouritesPage.SetSortBy | src/Pages/FavouriteItems/FavouriteItems.jsx:113-116 | the order changes; six items show again when it differs from before |
| Favourites.FavouritesPage.LoadMore | src/Pages/FavouriteItems/FavouriteItems.jsx:118-126 | nothing while loading or when all show; otherwise six more, up to the end |
| Favourites.FavouritesPage.VisibleTiles | src/Pages/FavouriteItems/FavouriteItems.jsx:82-90 | the visible tiles are a prefix of the sized list |
| Gallery.LocalTilesEntries | src/Pages/ImageGallery/ImageGallery.jsx:17-29 | each local tile carries its record, the id `local-<n>` and the size of its index |
| Gallery.BackendTilesEntries | src/Pages/ImageGallery/ImageGallery.jsx:48-54 | each backend tile keeps its record's id and is sized by its own index |
| Gallery.CardUrl | src/Pages/ImageGallery/ImageGallery.jsx:125 | the media field when truthy, else the url |
| Gallery.GalleryPage.constructor | src/Pages/ImageGallery/ImageGallery.jsx:8-14 | no tiles, six visible, not loading, no error |
| Gallery.GalleryPage.ShowLocal | src/Pages/ImageGallery/ImageGallery.jsx:17-30 | the tiles are the local catalogue sized and relabelled |
| Gallery.GalleryPage.FetchBackend | src/Pages/ImageGallery/ImageGallery.jsx:32-69 | no base URL does nothing; a success puts the backend tiles in front of the current ones; a failure sets the error and keeps the tiles; loading ends |
| Gallery.GalleryPage.LoadMore | src/Pages/ImageGallery/ImageGallery.jsx:71-74 | nothing once every tile shows; otherwise six more, up to the end |
| Gallery.GalleryPage.VisibleTiles | src/Pages/ImageGallery/ImageGallery.jsx:105 | the visible tiles are a prefix of the tiles |
| Gallery.LocalRouteAsWritten | src/Pages/ImageGallery/ImageGallery.jsx:19-25 | the similar route of a local tile carries `local-<n>`, which does not parse, so the similar page finds no item |
| Gallery.LocalRouteCorrected | src/Pages/ImageGallery/ImageGallery.jsx:19-25 | the corrected route of a local tile carries the catalogue number |
| Gallery.LocalReferenceFound | src/Pages/SimilarPage/SimilarPage.jsx:104-111 | that number parses back and the similar page finds the catalogue item |
| Header.Merged | src/Layout/Header/Header.jsx:118-127 | the update's fields win, every other field stays |
| Header.MergedIdempotent | src/Layout/Header/Header.jsx:118-127 | merging the same update twice is merging it once |
| Header.ButtonName | src/Layout/Header/Header.jsx:166 | never empty; the username when it is not empty |
| Header.Header.constructor | src/Layout/Header/Header.jsx:11-20 | closed menu and modals, signed out, the empty profile |
| Header.Header.CheckStoredAuth | src/Layout/Header/Header.jsx:24-56 | signed in exactly when storage holds a session; a readable profile is loaded; an unreadable one clears storage; no session shows the empty profile |
| Header.Header.ToggleMenu | src/Layout/Header/Header.jsx:89 | the menu flips, nothing else changes |
| Header.Header.CloseMenu | src/Layout/Header/Header.jsx:147-161 | the menu closes, nothing else changes |
| Header.Header.OpenAuthModal | src/Layout/Header/Header.jsx:132-135 | the sign-in modal opens and the menu closes |
| Header.Header.OpenAuthModalFromOutside | src/Layout/Header/Header.jsx:62-64 | the hook the bottom menu calls opens the sign-in modal |
| Header.Header.OpenProfileModal | src/Layout/Header/Header.jsx:137-140 | the profile modal opens and the menu closes |
| Header.Header.HandleLogin | src/Layout/Header/Header.jsx:91-99 | a payload with a username signs in and is merged into the profile; the modal and the menu close in any case |
| Header.Header.HandleLogout | src/Layout/Header/Header.jsx:101-116 | both storage entries go, the header is signed out with the empty profile, modals closed |
| Header.Header.HandleUpdateProfile | src/Layout/Header/Header.jsx:118-127 | the profile and the stored user become the merged profile |
| Header.SavedSessionLoads | src/Components/AuthModal/AuthModal.jsx:85-88 | a session the sign-in modal saves with a non-empty token is one the header's storage check loads, with exactly the saved user |
| Header.SignInSurvivesPoll | src/Layout/Header/Header.jsx:24-99 | over one shared storage, a header that mounts signed out, a successful sign-in and the next one-second check leave the visitor signed in with the server's user |
| Header.UpdateSurvivesCheck | src/Layout/Header/Header.jsx:24-56 | a stored profile update is what the next storage check loads |
| ImageCard.CardRoute | src/Pages/ImageCard/ImageCard.jsx:18-23 | the corrected search-similar route: `/similar/image/` then the catalogue id |
| ImageCard.ImageCard.constructor | src/Pages/ImageCard/ImageCard.jsx:7-8 | not liked, the catalogue's count |
| ImageCard.ImageCard.HandleLike | src/Pages/ImageCard/ImageCard.jsx:11-16 | the like flips, the count moves by one in its direction, the id goes to `onLike` when given |
| ImageCard.ImageCard.HandleSearchSimilar | src/Pages/ImageCard/ImageCard.jsx:18-23 | navigates to `CardRoute` and hands the id to the callback when given |
| ImageSlider.TopImagesIds | src/Pages/ImageSlider/ImageSlider.jsx:13-26 | the table has twelve entries with ids 1 to 12 in order |
| ImageSlider.Track | src/Pages/ImageSlider/ImageSlider.jsx:68-81 | the track is the slides twice, the second copy after the first |
| ImageSlider.ImageSlider.constructor | src/Pages/ImageSlider/ImageSlider.jsx:8 | not paused |
| ImageSlider.ImageSlider.MouseEnter | src/Pages/ImageSlider/ImageSlider.jsx:62 | paused |
| ImageSlider.ImageSlider.MouseLeave | src/Pages/ImageSlider/ImageSlider.jsx:63 | running |
| ImageSlider.SlideCard.constructor | src/Pages/ImageSlider/ImageSlider.jsx:109-110 | not liked, the table's count |
| ImageSlider.SlideCard.HandleSliderLike | src/Pages/ImageSlider/ImageSlider.jsx:112-117 | the like flips, the count moves by one, `onLike` gets the id |
| ImageSlider.SlideCard.HandleSliderSearchSimilar | src/Pages/ImageSlider/ImageSlider.jsx:119-122 | navigates to the image's similar route |
| Layout.SimilarPagesShow | src/Layout/Layout.jsx:12-16 | every similar page shows the menu |
| Layout.MenuShowsOnTabPaths | src/Layout/Layout.jsx:12-16 | the menu, and the route guard it carries, is mounted on every tab path but `/create`; of the protected routes only `/favourites` shows it |
| Likes.Pressed | src/Pages/ImageCard/ImageCard.jsx:11-16 | a press flips the flag and moves the count one step, keeping the count the button started from |
| Likes.PressedTwice | src/Pages/ImageCard/ImageCard.jsx:11-16 | two presses restore the flag and the count |
| Likes.LikeButton.constructor | src/Pages/ImageCard/ImageCard.jsx:7-8 | not pressed, the initial count |
| Likes.LikeButton.Press | src/Pages/ImageCard/ImageCard.jsx:11-16 | the state becomes `Pressed` of the old state |
| Media.GridSize | src/Pages/ImageGallery/ImageGallery.jsx:19-25 | the tall tiles are exactly the multiples of 8 |
| Media.KindName | src/Pages/SimilarPage/SimilarPage.jsx:319 | the `type` segment has five characters |
| Media.SimilarPath | src/Pages/SimilarPage/SimilarPage.jsx:319 | `/similar/`, the kind's name, `/`, then the id text, each readable back from its place |
| Media.SimilarRoute | src/Pages/ImageSlider/ImageSlider.jsx:40-42 | the route of a catalogue item: its kind in place and an id segment that `parseInt` reads back to the id |
| Profile.Or | src/Components/ProfileModal/ProfileModal.jsx:8-18 | `a \|\| b` on strings: the first when not empty |
| Profile.FormFromUserSpec | src/Components/ProfileModal/ProfileModal.jsx:69-82 | the form has the nine keys, each the user's field or "", the pictures preferring the profile URLs |
| Profile.PictureOrder | src/Components/ProfileModal/ProfileModal.jsx:79-80 | a profile picture URL wins over the user's own field |
| Profile.SubmitPayload | src/Components/ProfileModal/ProfileModal.jsx:376-388 | the update holds exactly the seven editable fields of the form, never username or e-mail |
| Profile.Rejection | src/Components/ProfileModal/ProfileModal.jsx:264-279 | a picture is refused exactly when its type is not one of the four or it exceeds 5 MiB, with the type alert first |
| Profile.FailureDetail | src/Components/ProfileModal/ProfileModal.jsx:316-319 | the failure text: the thrown message, the server's error, "Upload failed" for an unreadable body, or the status |
| Profile.UploadAlert | src/Components/ProfileModal/ProfileModal.jsx:341-345 | the success alert names avatar or cover; a failure alert is "Upload failed: " and the detail |
| Profile.WithPicture | src/Components/ProfileModal/ProfileModal.jsx:330-338 | the user handed on keeps every field, with the profile's picture URL of that kind replaced |
| Profile.UploadAgreesWithRebuild | src/Components/ProfileModal/ProfileModal.jsx:321-338 | after an upload, the form rebuilt from the updated user holds the same picture the form was given |
| Profile.ProfileModal.constructor | src/Components/ProfileModal/ProfileModal.jsx:8-20 | the form as the mount effect leaves it (`FormFromUser`, the profile's pictures first), not editing, no upload running, no crop open |
| Profile.ProfileModal.UserChanged | src/Components/ProfileModal/ProfileModal.jsx:69-82 | the form is rebuilt from the new user |
| Profile.ProfileModal.HandleInputChange | src/Components/ProfileModal/ProfileModal.jsx:86-92 | the named field takes the value |
| Profile.ProfileModal.StartEditing | src/Components/ProfileModal/ProfileModal.jsx:742 | editing starts, the form stays |
| Profile.ProfileModal.HandleSubmit | src/Components/ProfileModal/ProfileModal.jsx:376-388 | hands on `SubmitPayload` of the form and stops editing |
| Profile.ProfileModal.HandleCancel | src/Components/ProfileModal/ProfileModal.jsx:390-403 | stops editing and rebuilds the form from the user |
| Profile.ProfileModal.HandleFileSelection | src/Components/ProfileModal/ProfileModal.jsx:264-291 | no file does nothing; a refused file alerts; an accepted one opens the crop for its kind |
| Profile.ProfileModal.CancelCrop | src/Components/ProfileModal/ProfileModal.jsx:585 | the crop closes |
| Profile.ProfileModal.StartUpload | src/Components/ProfileModal/ProfileModal.jsx:295 | the kind's upload flag is set |
| Profile.ProfileModal.FinishUpload | src/Components/ProfileModal/ProfileModal.jsx:294-349 | a missing or empty token alerts "Please login first!" and changes nothing; success puts the URL in the form and hands on `WithPicture`; every path clears the kind's flag |
| Search.SizedEntries | src/Pages/SearchPage/SearchPage.jsx:53-79 | each entry keeps its item, carries its kind and is sized by its index |
| Search.Terms | src/Pages/SearchPage/SearchPage.jsx:92 | every term is non-empty |
| Search.TermsSpec | src/Pages/SearchPage/SearchPage.jsx:92 | the terms are exactly the non-empty pieces of the lower-cased query split on spaces |
| Search.AnyInSpec | src/Pages/SearchPage/SearchPage.jsx:100 | some term is contained in the prompt |
| Search.SearchInPromptsSpec | src/Pages/SearchPage/SearchPage.jsx:91-104 | an entry is found exactly when its prompt is not empty and contains a term; order kept |
| Search.TermPointsPositive | src/Pages/SearchPage/SearchPage.jsx:114-123 | a term scores exactly when the prompt contains it |
| Search.TermsPointsBounds | src/Pages/SearchPage/SearchPage.jsx:114-123 | every contained term adds between 1 and 5 |
| Search.RelevanceBounds | src/Pages/SearchPage/SearchPage.jsx:107-130 | every result scores at least 1 and at most 7 points per term |
| Search.RelevanceAllWords | src/Pages/SearchPage/SearchPage.jsx:107-130 | when every term is a word of the prompt, each scores 5, plus the multi-term bonus |
| Search.RelevanceOf | src/Pages/SearchPage/SearchPage.jsx:107-130 | the `score +=` loop computes `Relevance` |
| Search.HitsEntries | src/Pages/SearchPage/SearchPage.jsx:107-139 | each result keeps its item and kind, carries its relevance and is resized by its new index |
| Search.SearchResultsSpec | src/Pages/SearchPage/SearchPage.jsx:83-139 | every result's prompt contains a term and it scores at least 1; a blank query finds nothing |
| Search.ScoreResults | src/Pages/SearchPage/SearchPage.jsx:107-139 | the scoring map computes `Hits` |
| Search.ArrangedPermutes | src/Pages/SearchPage/SearchPage.jsx:157-184 | the arranged list is a permutation of the results of the chosen type; an unknown order keeps them as they are |
| Search.ArrangedMembers | src/Pages/SearchPage/SearchPage.jsx:157-164 | it holds exactly the results of the chosen type; `all` keeps every result |
| Search.ArrangedOrder | src/Pages/SearchPage/SearchPage.jsx:166-181 | relevance and most liked order by those values descending, newest by id descending, oldest by id ascending |
| Search.SearchPage.constructor | src/Pages/SearchPage/SearchPage.jsx:13-27 | no results, loading, relevance order, twelve visible, all types |
| Search.SearchPage.PerformSearch | src/Pages/SearchPage/SearchPage.jsx:28-154 | the results are `SearchResults` of the query, none when the data fails to load; loading ends |
| Search.SearchPage.ChangeQuery | src/Pages/SearchPage/SearchPage.jsx:9-154 | a new `?q=` on the mounted page re-runs the search for the new query; the visible count, the filters and the sort order are kept |
| Search.SearchPage.ApplyFilters | src/Pages/SearchPage/SearchPage.jsx:157-184 | the shown list becomes `Arranged` of the results |
| Search.SearchPage.LoadMore | src/Pages/SearchPage/SearchPage.jsx:187-195 | nothing while loading or when all show; otherwise twelve more, up to the end |
| Search.SearchPage.HandleFilterChange | src/Pages/SearchPage/SearchPage.jsx:228-235 | one filter changes and twelve items show again |
| Search.SearchPage.SetSortBy | src/Pages/SearchPage/SearchPage.jsx:166 | the order changes |
| Search.SearchPage.HandleNewSearch | src/Pages/SearchPage/SearchPage.jsx:237-239 | navigates to the search route of the query, encoded as typed |
| Search.SearchPage.VisibleResults | src/Pages/SearchPage/SearchPage.jsx:247 | the visible results are a prefix of the shown list |
| SearchModal.HexChar | src/Components/SearchModal/SearchModal.jsx:15 | a hexadecimal digit in upper case |
| SearchModal.Utf8 | src/Components/SearchModal/SearchModal.jsx:15 | one to four bytes, each below 256 |
| SearchModal.Percent | src/Components/SearchModal/SearchModal.jsx:15 | three characters per byte, each `%` or a hexadecimal digit |
| SearchModal.Encode | src/Components/SearchModal/SearchModal.jsx:15 | the encoding is never shorter and holds only unreserved characters and `%` |
| SearchModal.EncodeAppend | src/Components/SearchModal/SearchModal.jsx:15 | encoding works character by character |
| SearchModal.EncodeUnreserved | src/Components/SearchModal/SearchModal.jsx:15 | a query of unreserved characters is left as it is |
| SearchModal.EncodedStaysOneParameter | src/Components/SearchModal/SearchModal.jsx:15 | the encoding holds no `&`, `#`, `=`, `+` or space, so the query stays one parameter |
| SearchModal.SearchRoute | src/Components/SearchModal/SearchModal.jsx:15 | `/search?q=` followed by the encoded query |
| SearchModal.SearchBox.constructor | src/Components/SearchModal/SearchModal.jsx:7 | an empty box |
| SearchModal.SearchBox.SetSearchQuery | src/Components/SearchModal/SearchModal.jsx:7 | the box holds the text |
| SearchModal.SearchBox.HandleSearchSubmit | src/Components/SearchModal/SearchModal.jsx:12-19 | a blank query does nothing; any other navigates to its route untrimmed, closes and empties the box |
| SearchModal.SearchBox.HandleSuggestionClick | src/Components/SearchModal/SearchModal.jsx:28-32 | navigates to the suggestion's route, closes and empties the box |
| SearchModal.SearchBox.HandleOverlayClick | src/Components/SearchModal/SearchModal.jsx:21-26 | closes and empties the box exactly on a click on the overlay itself |
| SearchModal.SearchBox.HandleClose | src/Components/SearchModal/SearchModal.jsx:34-37 | closes and empties the box |
| SearchResultCard.ShownScore | src/Pages/SearchPage/SearchResultCard.jsx:48 | never 0; a non-zero score is shown as it is |
| SearchResultCard.ShownScoreOfResults | src/Pages/SearchPage/SearchResultCard.jsx:48 | every search result shows its own relevance |
| SearchResultCard.SearchResultCard.constructor | src/Pages/SearchPage/SearchResultCard.jsx:6-7 | not liked, the result's count |
| SearchResultCard.SearchResultCard.HandleLike | src/Pages/SearchPage/SearchResultCard.jsx:9-14 | the like flips, the count moves by one, the id goes to `onLike` when given |
| Session.Cleared | src/Layout/Header/Header.jsx:101-105 | removing the two entries ends the session and leaves every other entry |
| Similar.TokensShape | src/Pages/SimilarPage/SimilarPage.jsx:117-120 | every token is lower case, non-empty and free of commas and white space |
| Similar.OriginalWordsSpec | src/Pages/SimilarPage/SimilarPage.jsx:120-123 | the keywords are exactly the tokens longer than two UTF-16 code units that are not stop words |
| Similar.OriginalWordsShape | src/Pages/SimilarPage/SimilarPage.jsx:120-123 | every keyword is a lower-case word without separators |
| Similar.StopWordsExcluded | src/Pages/SimilarPage/SimilarPage.jsx:122 | a stop word is never a keyword |
| Similar.EnhanceKeywords | src/Pages/SimilarPage/SimilarPage.jsx:126-130 | the push loop computes `Enhanced` |
| Similar.EnhancedMembers | src/Pages/SimilarPage/SimilarPage.jsx:126-130 | a word is enhanced exactly when it is related to a keyword; every keyword is |
| Similar.EnhancedAsWrittenSpec | src/Pages/SimilarPage/SimilarPage.jsx:126-130 | the keyword loop as written throws exactly when some keyword stems to an inherited name, and otherwise builds `Enhanced` |
| Similar.ConstructorKeywordThrows | src/Pages/SimilarPage/SimilarPage.jsx:126-130 | a reference keyword `constructor` makes the loop as written throw, while the own-key expansion keeps the keyword |
| Similar.EnhancedAppend | src/Pages/SimilarPage/SimilarPage.jsx:126-130 | related words are not merged across keywords; repeats stay |
| Similar.MatchCount | src/Pages/SimilarPage/SimilarPage.jsx:154-159 | the count of matching item words is at most their number |
| Similar.KeywordMatchesZero | src/Pages/SimilarPage/SimilarPage.jsx:152-160 | signal 1 is zero exactly when no keyword matches any item word |
| Similar.KeywordMatchesAppend | src/Pages/SimilarPage/SimilarPage.jsx:152-160 | signal 1 adds up over the keyword list, so a repeated keyword counts twice |
| Similar.StemAll | src/Pages/SimilarPage/SimilarPage.jsx:163-164 | one stem per word, in order |
| Similar.FrequencySignal | src/Pages/SimilarPage/SimilarPage.jsx:169-174 | signal 3 lies between 0 and 20 per keyword |
| Similar.LikeSimilarity | src/Pages/SimilarPage/SimilarPage.jsx:182-184 | the similarity lies in (0, 1] and is 1 for equal counts |
| Similar.PopularityBonus | src/Pages/SimilarPage/SimilarPage.jsx:186-188 | the bonus is one of 5, 3, 1 or 0; equal counts get 5 |
| Similar.LengthBonus | src/Pages/SimilarPage/SimilarPage.jsx:238-240 | 2 under a gap of 20, 1 under 50, else 0 |
| Similar.ThemesInMembers | src/Pages/SimilarPage/SimilarPage.jsx:221-227 | a theme is detected exactly when the prompt mentions one of its keywords; order kept |
| Similar.FindThemeSpec | src/Pages/SimilarPage/SimilarPage.jsx:231 | the lookup by name succeeds exactly when a theme of that name is present |
| Similar.ThemeBonusShared | src/Pages/SimilarPage/SimilarPage.jsx:218-235 | the find-by-name bonus is the sum of twenty times the weight of each theme both prompts mention |
| Similar.ThemesDistinct | src/Pages/SimilarPage/SimilarPage.jsx:191-216 | the six theme names are distinct |
| Similar.ThemeBonusIsShared | src/Pages/SimilarPage/SimilarPage.jsx:191-235 | signal 6 over the six themes is the shared-theme sum |
| Similar.ReferenceOf | src/Pages/SimilarPage/SimilarPage.jsx:117-130 | the reference's keywords are the original words of its prompt |
| Similar.SignalsOf | src/Pages/SimilarPage/SimilarPage.jsx:145-241 | signal 1 is fifteen per matching pair, the author bonus is 8 exactly for the same author, popularity and length follow their tiers; no signal is negative |
| Similar.Round1Bounds | src/Pages/SimilarPage/SimilarPage.jsx:244 | rounding moves a score by at most 0.05 and keeps it non-negative |
| Similar.Round1Monotone | src/Pages/SimilarPage/SimilarPage.jsx:244 | rounding keeps the order of scores |
| Similar.ScoreFacts | src/Pages/SimilarPage/SimilarPage.jsx:145-245 | every score is non-negative and the total is at least the author bonus |
| Similar.KeywordPoints | src/Pages/SimilarPage/SimilarPage.jsx:154-159 | fifteen points per matching item word |
| Similar.KeywordSignal | src/Pages/SimilarPage/SimilarPage.jsx:152-160 | the nested loops compute signal 1 |
| Similar.FrequencyPoints | src/Pages/SimilarPage/SimilarPage.jsx:169-174 | the loop computes signal 3 |
| Similar.DetectThemes | src/Pages/SimilarPage/SimilarPage.jsx:218-227 | the push loop computes the themes each prompt mentions |
| Similar.ThemePoints | src/Pages/SimilarPage/SimilarPage.jsx:230-235 | the loop computes signal 6 |
| Similar.PopularityPoints | src/Pages/SimilarPage/SimilarPage.jsx:182-188 | the `if` chain computes signal 5 |
| Similar.LengthPoints | src/Pages/SimilarPage/SimilarPage.jsx:238-240 | the `if` chain computes signal 7; `ScoreItem` gives it the two prompts' `length` in UTF-16 code units |
| Similar.ScoreItem | src/Pages/SimilarPage/SimilarPage.jsx:145-245 | the scoring callback computes `Score` |
| Similar.AboveFiveKeepsOrder | src/Pages/SimilarPage/SimilarPage.jsx:249-251 | filtering a non-increasing list keeps it non-increasing |
| Similar.SimilarSize | src/Pages/SimilarPage/SimilarPage.jsx:253-261 | tall at ranks 0, 3, 6 and at the multiples of 7 above 8 |
| Similar.WithSizes | src/Pages/SimilarPage/SimilarPage.jsx:253-262 | each entry keeps its place and gets the size of its rank |
| Similar.ByScoreSpec | src/Pages/SimilarPage/SimilarPage.jsx:250 | the sort orders by non-increasing score and is a permutation |
| Similar.KeptSpec | src/Pages/SimilarPage/SimilarPage.jsx:249-251 | the kept entries are the candidates above 5, in non-increasing order |
| Similar.RankSpec | src/Pages/SimilarPage/SimilarPage.jsx:249-262 | at most 60 entries, each above 5, non-increasing, sized by rank, all from the candidates |
| Similar.RankDropsOnlyLower | src/Pages/SimilarPage/SimilarPage.jsx:249-252 | a candidate above 5 is dropped only when 60 entries scoring at least as much fill the list |
| Similar.FindByIdSpec | src/Pages/SimilarPage/SimilarPage.jsx:106-108 | the lookup finds an item exactly when the id parsed and an entry carries it |
| Similar.FindByIdFirst | src/Pages/SimilarPage/SimilarPage.jsx:106-108 | it finds the first such entry |
| Similar.OriginalItem | src/Pages/SimilarPage/SimilarPage.jsx:104-111 | a found item comes from the catalogue of the route's kind and has the parsed id |
| Similar.Candidates | src/Pages/SimilarPage/SimilarPage.jsx:132-142 | never more candidates than catalogue entries |
| Similar.CandidatesMembers | src/Pages/SimilarPage/SimilarPage.jsx:132-142 | the candidates are the entries whose id differs from the reference's, order kept |
| Similar.TagEntries | src/Pages/SimilarPage/SimilarPage.jsx:242-245 | each candidate keeps its place and entry, with its kind and score |
| Similar.ScoreAll | src/Pages/SimilarPage/SimilarPage.jsx:145-246 | the map computes every candidate's score |
| Similar.TagAll | src/Pages/SimilarPage/SimilarPage.jsx:145-246 | the new array holds the tagged candidates |
| Similar.RankInPlace | src/Pages/SimilarPage/SimilarPage.jsx:249-262 | sorting the array in place and shaping it computes `Rank` |
| Similar.SimilarFor | src/Pages/SimilarPage/SimilarPage.jsx:114-263 | the list for a found item is `RankedFor` |
| Similar.SimilarItems | src/Pages/SimilarPage/SimilarPage.jsx:114-263 | the list is `SimilarSpec` of the route |
| Similar.SimilarWithoutReference | src/Pages/SimilarPage/SimilarPage.jsx:104-115 | an unknown kind, an unparsable id or an id not in the catalogue lists nothing |
| Similar.SimilarHasReference | src/Pages/SimilarPage/SimilarPage.jsx:104-111 | a known kind and a parsable id of a catalogue entry find a reference item |
| Similar.SimilarCandidatesOnly | src/Pages/SimilarPage/SimilarPage.jsx:132-262 | every listed item is from the route kind's catalogue, tagged with that kind, and is not the reference |
| Similar.KindNameReadsBack | src/Pages/SimilarPage/SimilarPage.jsx:319 | the `type` segment written for a kind reads back as that kind |
| Similar.FindListed | src/Pages/SimilarPage/SimilarPage.jsx:317 | the first listed item with the id, or none when no listed item has it |
| Similar.SimilarPage.constructor | src/Pages/SimilarPage/SimilarPage.jsx:17-18 | twelve visible, not loading |
| Similar.SimilarPage.LoadMore | src/Pages/SimilarPage/SimilarPage.jsx:266-274 | nothing while loading or when all show; otherwise twelve more, up to the end |
| Similar.SimilarPage.HandleSearchSimilar | src/Pages/SimilarPage/SimilarPage.jsx:316-321 | navigates exactly when a listed item has the id, to that item's similar route |
| Similar.ListedRouteFindsReference | src/Pages/SimilarPage/SimilarPage.jsx:104-111 | the similar route of every listed item finds its item again |
| Sorting.SortByKeySorted | src/Pages/SearchPage/SearchPage.jsx:166-181 | the sort is ascending by its key |
| Sorting.SortByKeyPermutes | src/Pages/SearchPage/SearchPage.jsx:166-181 | the sort is a permutation |
| Sorting.SortByKeyStable | src/Pages/SearchPage/SearchPage.jsx:166-181 | entries with equal keys keep their order, as `Array.prototype.sort` does |
| Sorting.SortInPlace | src/Pages/SimilarPage/SimilarPage.jsx:250 | sorting an array in place leaves it holding `SortByKey` of its old contents |
| TextProcessing.TableIsCascade | src/Pages/SimilarPage/SimilarPage.jsx:25-44 | the repeated rules of the table are never reached: the table stems as the seven distinct rules do |
| TextProcessing.Stem | src/Pages/SimilarPage/SimilarPage.jsx:24-46 | the loop with its early `break` computes `Stemmed` |
| TextProcessing.StemmedShape | src/Pages/SimilarPage/SimilarPage.jsx:24-46 | a stem is lower case and never longer than its word |
| TextProcessing.StemmedNoSuffix | src/Pages/SimilarPage/SimilarPage.jsx:24-46 | a word with none of the suffixes comes back only lower-cased |
| TextProcessing.LookupSpec | src/Pages/SimilarPage/SimilarPage.jsx:71 | a synonym lookup succeeds exactly for the table's keys |
| TextProcessing.LookupAsWritten | src/Pages/SimilarPage/SimilarPage.jsx:71-72 | `synonyms[key]` reads an own list exactly for the table's keys, and an inherited value exactly for `constructor` and `__proto__` when they are not keys |
| TextProcessing.SynonymKeysOwn | src/Pages/SimilarPage/SimilarPage.jsx:47-61 | neither inherited name is a key of the synonym table |
| TextProcessing.RelatedWordsAsWrittenSpec | src/Pages/SimilarPage/SimilarPage.jsx:66-83 | `getRelatedWords` as written throws exactly for a word whose stem is `constructor` or `__proto__`, and otherwise lists `RelatedWords` |
| TextProcessing.ConstructorThrows | src/Pages/SimilarPage/SimilarPage.jsx:66-83 | on the word `constructor` the code as written throws, while the own-key expansion starts with the word |
| TextProcessing.StemmedByLastLetter | src/Pages/SimilarPage/SimilarPage.jsx:24-46 | a lower-case word whose last letter is none of s, d, g, y is its own stem |
| TextProcessing.ListsHoldingMembers | src/Pages/SimilarPage/SimilarPage.jsx:76-80 | the reverse lookup yields the keys whose list holds the word, and those lists |
| TextProcessing.DedupSpec | src/Pages/SimilarPage/SimilarPage.jsx:82 | `[...new Set(s)]` has no repeats and the same elements |
| TextProcessing.DedupHead | src/Pages/SimilarPage/SimilarPage.jsx:82 | the first element stays first |
| TextProcessing.DedupOfDistinct | src/Pages/SimilarPage/SimilarPage.jsx:82 | a list without repeats is left as it is |
| TextProcessing.RelatedWordsSpec | src/Pages/SimilarPage/SimilarPage.jsx:66-83 | the related words are distinct, start with the word, and are exactly the word, its stem, the stem's synonyms and the lists holding the stem with their keys |
| TextProcessing.CountContainingPositive | src/Pages/SimilarPage/SimilarPage.jsx:88 | the count is positive exactly when some word contains the term |
| TextProcessing.TermFrequency | src/Pages/SimilarPage/SimilarPage.jsx:86-90 | a share between 0 and 1, positive exactly when some word contains the term |
| TextProcessing.TermFrequencyPositive | src/Pages/SimilarPage/SimilarPage.jsx:86-90 | positive exactly when some word of the text contains the term |
| TextProcessing.CountPresentZero | src/Pages/SimilarPage/SimilarPage.jsx:94 | the intersection is empty exactly when no element is shared |
| TextProcessing.CountPresentAll | src/Pages/SimilarPage/SimilarPage.jsx:94 | repeats count: when every element is shared the count is the length |
| TextProcessing.Cosine | src/Pages/SimilarPage/SimilarPage.jsx:93-100 | zero when a list is empty or nothing is shared, otherwise the shared count over the product of the square roots; never negative |
| Text.TrimEmptyIffBlank | src/Pages/CreatePage/CreatePage.jsx:86-89 | `trim()` is empty exactly when the text is all white space |
| Text.ParseIntOfIntToString | src/Pages/SimilarPage/SimilarPage.jsx:106 | `parseInt` of a number written in decimal gives the number back |
| Text.Utf16Length | src/Pages/Contact/ContactPage.jsx:131 | `length` in UTF-16 code units: between the number of characters and twice it |
| Text.Utf16LengthBmp | src/Pages/Contact/ContactPage.jsx:131 | `length` equals the number of characters exactly when every character lies in the Basic Multilingual Plane |
| Text.Utf16LengthOfLower | src/Pages/SimilarPage/SimilarPage.jsx:238 | lower-casing keeps `length` |
| VideoModal.VideoModal.constructor | src/Pages/VideoModal/VideoModal.jsx:7-12 | the video's likes, its comments, an empty input, paused and muted |
| VideoModal.VideoModal.AutoPlay | src/Pages/VideoModal/VideoModal.jsx:25-32 | playing exactly when the element exists and `play()` resolves |
| VideoModal.VideoModal.LoadedData | src/Pages/VideoModal/VideoModal.jsx:95-100 | with an element the video is marked playing once its data loads, whether or not `play()` resolves; nothing else changes |
| VideoModal.VideoModal.HandleLike | src/Pages/VideoModal/VideoModal.jsx:34 | one more like |
| VideoModal.VideoModal.SetNewComment | src/Pages/VideoModal/VideoModal.jsx:9 | the input holds the text |
| VideoModal.VideoModal.HandleAddComment | src/Pages/VideoModal/VideoModal.jsx:36-41 | a non-blank comment is appended as typed and the input empties; a blank one changes nothing |
| VideoModal.VideoModal.HandlePlayPause | src/Pages/VideoModal/VideoModal.jsx:55-65 | playing flips when the element exists |
| VideoModal.VideoModal.HandleMuteToggle | src/Pages/VideoModal/VideoModal.jsx:67-72 | muted flips when the element exists |
| VideoSlider.TopVideos | src/Pages/VideoSlider/VideoSlider.jsx:14-16 | the first twelve videos, or all of them when there are fewer |
| VideoSlider.VideoSlider.constructor | src/Pages/VideoSlider/VideoSlider.jsx:9 | not paused |
| VideoSlider.VideoSlider.MouseEnter | src/Pages/VideoSlider/VideoSlider.jsx:52 | paused |
| VideoSlider.VideoSlider.MouseLeave | src/Pages/VideoSlider/VideoSlider.jsx:53 | running |
| VideoSlider.VideoSlideCard.constructor | src/Pages/VideoSlider/VideoSlider.jsx:99-102 | not liked, the video's count, not playing, paused at the start and muted as the card's `<video muted>` element starts |
| VideoSlider.VideoSlideCard.HandleSliderLike | src/Pages/VideoSlider/VideoSlider.jsx:104-109 | the like flips, the count moves by one, `onLike` gets the id |
| VideoSlider.VideoSlideCard.HandleSliderSearchSimilar | src/Pages/VideoSlider/VideoSlider.jsx:111-114 | navigates to the video's similar route |
| VideoSlider.VideoSlideCard.HandleMouseEnter | src/Pages/VideoSlider/VideoSlider.jsx:121-129 | with an element: muted, and playing once `play()` resolves |
| VideoSlider.VideoSlideCard.HandleMouseLeave | src/Pages/VideoSlider/VideoSlider.jsx:130-138 | with an element: paused, rewound to 0, not playing |

## Left out

- Network: every `fetch` (sign-in, registration, verification, resend, listings, uploads) is a parameter of the method that awaits it. The parameter is the outcome: a reply, a refusal with its status and body, or a thrown error. `JSON.parse` of a stored user is approximated: a stored entry is either an object or text that does not parse.
- Browser storage: `localStorage` is one `Session.Store` object that the header and the sign-in modal share, or a `map` parameter where a component only reads it. The `storage` event listeners and the one-second `setInterval` polling in the header and the bottom menu are not modelled as events; `CheckStoredAuth` and `CheckLoginStatus` are the steps they run.
- Timers: the 300 ms load-more delays, the 2-second simulated contact request and the 5-second status reset are taken as done. So are the 3-second resend notice and the 2-second copy flag.
- The IntersectionObserver and scroll listeners are left out; load-more is a direct step.
- Profile crop and canvas: FileReader data URLs, crop geometry, canvas drawing and Blob conversion are left out (`handleCropComplete`, `onImageLoad`, `resetCrop`). So are the crop dialog's own state; `HandleFileSelection` records only the kind and the file.
- `Math.sqrt` is a parameter that is non-negative and zero only at zero. The model uses exact reals, not floating point.
- `toLowerCase` is modelled for ASCII letters only.
- The regular expressions are written out as string predicates: the stemmer's suffixes, `[,\s]+`, `\S+@\S+\.\S+` and `\D`.
- Favourites dates: the random `dateAdded` values are an input function.
- The FAQ question table and the catalogues (`imagesData.json`, `videosData.json`) are data parameters, not their literal contents.
- JavaScript `null` and a missing field are read as `""` where only their falsiness matters.
- `join_date`, sent at registration, is a clock value and is left out of the request.
- Alerts, `console` logging and clipboard copy are left out, except where an alert's text is the handler's output. `handleCopyPrompt` in the video modal is left out.
- Modal selection and closing handlers that only set or clear a selected item are left out: `handleImageClick`, `handleVideoClick`, the close handlers, the click-outside listeners and `handleAuthorClick`. So are the similar page's and the gallery's `handleLike`, which only log.
- The body-overflow effect of the video modal is left out.
- The sign-in modal's show-password toggles and its forgot-password view are left out. No handler enters that view; `CurrentHeader` states that its title never shows.
- The galleries' `selectedImage` state and modal are left out.
- Auth.AuthModal.HandleSubmit: a failed request shows the corrected `ErrorMessages`, not the mapping as written (`ErrorMapping`), which shows nothing for a thrown error; see the findings.
- ImageCard.ImageCard.HandleSearchSimilar: navigates to the corrected `CardRoute`, so a local tile `local-3` goes to `/similar/image/3` where the code as written goes to `/similar/image/local-3` (`RouteAsWritten`); see the findings.
- TextProcessing.LookupSpec: looks up the synonym table's own keys only. The page's object literal also answers the inherited names `constructor` and `__proto__`; that lookup is `LookupAsWritten`. See the findings.
- TextProcessing.RelatedWordsSpec: states the own-key expansion. For a word that stems to `constructor` or `__proto__` the code as written throws a `TypeError` instead (`RelatedWordsAsWritten`); see the findings.
- Similar.EnhanceKeywords: computes `Enhanced` with the own-key expansion. The loop as written throws on a keyword that stems to an inherited name (`EnhancedAsWritten`); see the findings.
- Similar.SimilarFor: ranks with the own-key expansion. For a reference whose prompt has a keyword stemming to `constructor` or `__proto__`, the page as written throws while rendering instead of listing items (`ConstructorKeywordThrows`); see the findings.
- The video gallery shares the image gallery's logic line for line; `Gallery` models both with a `Kind` parameter, and the rows cite the image gallery.
- Profile.ProfileModal.constructor: starts from the form the mount effect sets, with the profile's picture URLs first; the first render's form, built from the user's own `avatar` and `cover_image` only, shows for one render and is not modelled.

## Findings

| source | as written | input that shows it | evidently intended | confidence | as-written member | corrected member |
|---|---|---|---|---|---|---|
| src/Pages/ImageGallery/ImageGallery.jsx:19-25 | local entries get the id `local-<n>`, and the card's search-similar route carries it; the similar page's `parseInt` gives NaN and finds no item | any local catalogue entry, e.g. id 3: route `/similar/image/local-3` | the route carries the catalogue number, `/similar/image/3` | not executed | Gallery.LocalRouteAsWritten | Gallery.LocalRouteCorrected |
| src/Components/AuthModal/AuthModal.jsx:255-266 | a thrown `Error` (a failed request) is an object with no own keys, so the errors become `{}` and no message shows | the server is unreachable during sign-in | a general message is shown for every failure | not executed | Auth.ErrorObjectShowsNothing | Auth.ErrorMessagesShown |
| src/Layout/BottomSubmenu/BottomSubmenu.jsx:20-62 | the menu mounts signed out, and the route guard of that first commit sees the signed-out flag although storage holds a session | a signed-in visitor reloads `/favourites` | only a visitor without a stored session is redirected | not executed | BottomSubmenu.SignedInVisitorSentHome | BottomSubmenu.RedirectAgrees |
| src/Pages/SimilarPage/SimilarPage.jsx:66-83 | `synonyms[stemmed]` on an object literal also finds the inherited `constructor` (a function) and `__proto__` (the prototype object); both are truthy and not iterable, so the spread throws and the similar page fails | a reference item whose prompt contains the word "constructor" | words outside the table get no synonyms | not executed | TextProcessing.ConstructorThrows | TextProcessing.RelatedWordsSpec |
