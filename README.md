# FreshPlate core, modelled in Dafny

FreshPlate is an Android app: a user photographs food or picks a photo from
the gallery, the photo is uploaded and sent to a recipe API, and the first
recipe returned is shown; a shake of the phone (or a button) publishes it
as a post. Other users see posts in a feed, like them, open an author's
profile and follow them; an author can delete their own post.

This project models the app's logic and proves properties of it:

- `shake.dfy` — the shake detector on the recipe result screen: the
  100 ms sampling gate, shake counting in a window, firing and its cooldown.
- `carousel.dfy` — the two-image carousel on the result and post screens.
- `auth.dfy` — the authentication view model: ordered validation, the
  observable `AuthState`, provider completions, logout and profile update.
- `documents.dfy`, `recipes.dfy` — the document database's field values
  and typed getters, and parsing a stored recipe (with its defaults) as the
  home, profile and post screens all do.
- `feed.dfy`, `profile.dfy`, `postdetail.dfy` — the home feed loader and
  like toggle, the user profile loader and follow toggle, and the post
  screen's loader and delete action with its post-id filtering.
- `preview.dfy`, `recipevm.dfy` — the photo preview's Analyze, Discard and
  Try Again handlers, and the view model's two slots.
- `utf8.dfy`, `base64.dfy`, `navigation.dfy`, `camera.dfy` — the string
  encodings of the preview route (UTF-8, then Base64 of RFC 4648), the route
  itself, the bottom bar, gating on the authentication state, loading the
  signed-in user's record, and the camera screen's upload outcomes.
- `wrappers.dfy`, `text.dfy` — `Option`/`Result` and Kotlin string helpers.

Calls to Firebase, the recipe API, the camera and the clock are replaced
by their outcomes, passed in as parameters: a fetched document, a query's
documents, `Err` with the exception's (nullable) message, or the current
time in milliseconds. A screen's state is a class whose methods are the
event handlers, each stating the whole state it leaves behind.

## Model

| member | source | states |
|---|---|---|
| Documents.Field | app/src/main/java/com/example/freshplate/pages/HomePage.kt:77 | a missing field reads as null, a present one as its value |
| Documents.AsString | app/src/main/java/com/example/freshplate/pages/HomePage.kt:80-81 | `as? String` succeeds exactly on a string value and gives that string |
| Documents.AsNumber | app/src/main/java/com/example/freshplate/pages/HomePage.kt:84 | `as? Number` succeeds exactly on a number and gives its value |
| Documents.AsMap | app/src/main/java/com/example/freshplate/pages/HomePage.kt:77 | `as? Map` succeeds exactly on a map value and gives that map |
| Documents.AsList | app/src/main/java/com/example/freshplate/pages/HomePage.kt:98 | `as? List` succeeds exactly on a list value (element types unchecked) |
| Documents.GetString | app/src/main/java/com/example/freshplate/pages/HomePage.kt:104-108 | `getString` is null exactly for a missing or null field, the string for a string, and throws for any other value |
| Documents.GetTimestamp | app/src/main/java/com/example/freshplate/pages/HomePage.kt:109 | `getTimestamp` is null for a missing field, the time for a timestamp, and throws otherwise |
| Documents.TruncateToLong | app/src/main/java/com/example/freshplate/pages/PostDetailPage.kt:115 | `longValue()` stays in the 64-bit range, truncates toward zero, and keeps a whole number in range unchanged |
| Documents.GetLong | app/src/main/java/com/example/freshplate/pages/PostDetailPage.kt:115 | `getLong` is null for a missing field, the truncated number for a number, and throws otherwise |
| Documents.ToInt32 | app/src/main/java/com/example/freshplate/pages/PostDetailPage.kt:115 | `toInt()` lands in the 32-bit range, agrees with the input modulo 2^32, and is the identity in range |
| Documents.Render | app/src/main/java/com/example/freshplate/pages/UserProfilePage.kt:56 | a string template shows a present string as is and null as the text "null" |
| Documents.ArrayRemove | app/src/main/java/com/example/freshplate/pages/HomePage.kt:161 | `arrayRemove` (and the filter of the delete path) drops every element equal to the value and nothing else, never lengthening the array |
| Documents.ArrayUnion | app/src/main/java/com/example/freshplate/pages/HomePage.kt:163 | `arrayUnion` leaves an array that already holds the value unchanged and otherwise appends it at the end |
| Text.Utf16Length | app/src/main/java/com/example/freshplate/authentication/AuthViewModel.kt:66 | `String.length` counts UTF-16 units: between the number of characters and twice it, equal to it for Basic Multilingual Plane text |
| Recipes.IngredientOf | app/src/main/java/com/example/freshplate/pages/UserProfilePage.kt:285-289 | each ingredient field is read on its own: amount defaults to 0.0, name and unit to "" |
| Recipes.ParseItems | app/src/main/java/com/example/freshplate/pages/UserProfilePage.kt:284-290 | an ingredient list parses exactly when every element is a map, element by element, same length and order; otherwise it throws |
| Recipes.ParseIngredients | app/src/main/java/com/example/freshplate/pages/UserProfilePage.kt:284-297 | a missing or non-list ingredient field gives the empty list |
| Recipes.ParseRecipe | app/src/main/java/com/example/freshplate/pages/UserProfilePage.kt:280-299 | title and image default to "", both ingredient lists are parsed, and the parse throws exactly when an ingredient list holds a non-map |
| Recipes.IngredientsValue | app/src/main/java/com/example/freshplate/pages/RecipeResultPage.kt:184 | a stored ingredient list is a list of one map per ingredient, in order |
| Recipes.RecipeMap | app/src/main/java/com/example/freshplate/pages/RecipeResultPage.kt:182-190 | a published recipe is stored under exactly the keys image, missed_ingredients, title and used_ingredients, with title and image as strings and both ingredient fields as lists |
| Recipes.IngredientsRoundTrip | app/src/main/java/com/example/freshplate/pages/UserProfilePage.kt:284-297 | reading back a stored ingredient list gives the list that was stored |
| Recipes.RecipeRoundTrip | app/src/main/java/com/example/freshplate/pages/RecipeResultPage.kt:184 | parsing the recipe map a post stores gives back the published recipe |
| Recipes.EmptyRecipeDefaults | app/src/main/java/com/example/freshplate/pages/UserProfilePage.kt:280-299 | a recipe map with no fields parses to the all-defaults recipe |
| Shake.ShakeDetector.constructor | app/src/main/java/com/example/freshplate/pages/RecipeResultPage.kt:82-95 | the detector starts with every time, count and axis value at zero |
| Shake.Step | app/src/main/java/com/example/freshplate/pages/RecipeResultPage.kt:97-140 | the reference step of `onSensorChanged`: a gated reading changes nothing and never fires; an accepted one records time and axes; a firing stamps the time and zeroes the count, and without one the last firing time stays |
| Shake.ShakeDetector.OnSample | app/src/main/java/com/example/freshplate/pages/RecipeResultPage.kt:97-140 | `onSensorChanged` updates the fields exactly as the reference step function does: a gated reading changes nothing, an accepted one records time and axes, firing resets the count and stamps the time |
| Shake.GateIgnoresEarlyReadings | app/src/main/java/com/example/freshplate/pages/RecipeResultPage.kt:100-102 | a reading 100 ms or less after the last accepted one changes no field and does not fire |
| Shake.AcceptedReadingIsRecorded | app/src/main/java/com/example/freshplate/pages/RecipeResultPage.kt:136-138 | every accepted reading sets the last update time and the last x, y, z, shake or not |
| Shake.ShakeCountsOnce | app/src/main/java/com/example/freshplate/pages/RecipeResultPage.kt:114-119 | a shake adds exactly one to the count, and sets the first-shake time only when the count was zero |
| Shake.CalmReadingDoesNotCount | app/src/main/java/com/example/freshplate/pages/RecipeResultPage.kt:131-134 | a reading below the threshold never fires and leaves the count alone unless the window has expired |
| Shake.FiringCondition | app/src/main/java/com/example/freshplate/pages/RecipeResultPage.kt:122-128 | the callback fires exactly when a shake brings the count to the minimum within the window and past the cooldown; firing stamps the time and zeroes the count |
| Shake.StepKeepsInv | app/src/main/java/com/example/freshplate/pages/RecipeResultPage.kt:131-134 | the count is never negative and, after an accepted reading, a pending count lies inside its window |
| Shake.FirstReadingAccepted | app/src/main/java/com/example/freshplate/pages/RecipeResultPage.kt:93-100 | a fresh detector accepts the first reading taken after time 100 |
| Shake.FiringsRespectCooldown | app/src/main/java/com/example/freshplate/pages/RecipeResultPage.kt:122-125 | over any sequence of readings, each firing is more than the cooldown after the previous one, and the last firing time is the one the detector keeps |
| Carousel.ImageCarousel.constructor | app/src/main/java/com/example/freshplate/pages/RecipeResultPage.kt:151-152 | the carousel holds the two given images in order and starts on the first; the result screen passes the recipe image first, the feed card and post screen the user photo first |
| Carousel.ImageCarousel.Current | app/src/main/java/com/example/freshplate/pages/RecipeResultPage.kt:283 | the image shown is `images[currentImageIndex]`, one of the carousel's images |
| Carousel.ImageCarousel.Previous | app/src/main/java/com/example/freshplate/pages/RecipeResultPage.kt:300 | the left arrow moves back one image and does nothing on the first, so the first image is then shown |
| Carousel.ImageCarousel.Next | app/src/main/java/com/example/freshplate/pages/RecipeResultPage.kt:316 | the right arrow moves on one image and does nothing on the last, so the second image is then shown |
| Carousel.PressesStayInBounds | app/src/main/java/com/example/freshplate/pages/PostDetailPage.kt:258-274 | any sequence of arrow presses keeps the index within the image list |
| Auth.AuthViewModel.constructor | app/src/main/java/com/example/freshplate/authentication/AuthViewModel.kt:19-29 | the initial state is Authenticated exactly when a current user exists, otherwise UnAuthenticated |
| Auth.LoginError | app/src/main/java/com/example/freshplate/authentication/AuthViewModel.kt:33-41 | login validation passes exactly when e-mail and password are both non-empty, and an empty e-mail is reported first |
| Auth.SignupError | app/src/main/java/com/example/freshplate/authentication/AuthViewModel.kt:57-79 | signup validation passes exactly when e-mail and password are non-empty, the password has at least 6 UTF-16 units, and name and surname are non-empty; an empty e-mail is reported first |
| Auth.UpdateError | app/src/main/java/com/example/freshplate/authentication/AuthViewModel.kt:126-134 | update validation passes exactly when neither name nor surname is present and empty, and any failure carries the "Username cannot be empty" text |
| Auth.Completion | app/src/main/java/com/example/freshplate/authentication/AuthViewModel.kt:46-51 | a provider completion gives Authenticated exactly on success and an Error state on failure |
| Auth.AuthViewModel.Login | app/src/main/java/com/example/freshplate/authentication/AuthViewModel.kt:31-43 | the provider is asked to sign in exactly when validation passes, the state then being Loading, otherwise the first validation error |
| Auth.AuthViewModel.LoginCompleted | app/src/main/java/com/example/freshplate/authentication/AuthViewModel.kt:46-51 | success gives Authenticated, failure its message or "Login failed" |
| Auth.AuthViewModel.Signup | app/src/main/java/com/example/freshplate/authentication/AuthViewModel.kt:55-92 | an account is requested exactly when validation passes; the user document then holds name, surname, e-mail, empty strings and empty lists, and the state is Loading |
| Auth.AuthViewModel.SignupCompleted | app/src/main/java/com/example/freshplate/authentication/AuthViewModel.kt:94-106 | success gives Authenticated and writes the user document, failure its message or "Registration failed" |
| Auth.AuthViewModel.Logout | app/src/main/java/com/example/freshplate/authentication/AuthViewModel.kt:110-121 | every field of the user record becomes "" or an empty list, the provider is always asked to sign out, and the state becomes UnAuthenticated |
| Auth.AuthViewModel.Update | app/src/main/java/com/example/freshplate/authentication/AuthViewModel.kt:124-144 | the update is sent exactly when neither name nor surname is present and empty, with the five profile fields, and the state is Loading |
| Auth.AuthViewModel.UpdateCompleted | app/src/main/java/com/example/freshplate/authentication/AuthViewModel.kt:145-154 | success gives Authenticated, failure its message or "Update failed" |
| Auth.UserRecord.constructor | app/src/main/java/com/example/freshplate/authentication/user.kt:3-13 | every field of a new user record is null |
| Auth.LoginRules | app/src/main/java/com/example/freshplate/authentication/AuthViewModel.kt:33-41 | the e-mail is checked before the password, and a non-empty pair passes |
| Auth.SignupRules | app/src/main/java/com/example/freshplate/authentication/AuthViewModel.kt:57-79 | signup reports the first failing check in the order e-mail, password, length, name, surname; name and surname share one message |
| Auth.ShortPasswordRejected | app/src/main/java/com/example/freshplate/authentication/AuthViewModel.kt:66-69 | a password of one to five ordinary characters is rejected as too short |
| Auth.UpdateRules | app/src/main/java/com/example/freshplate/authentication/AuthViewModel.kt:126-134 | update rejects exactly a present empty name or surname, with the signup message; missing values pass |
| Auth.CompletionRules | app/src/main/java/com/example/freshplate/authentication/AuthViewModel.kt:46-51 | a completion is Authenticated exactly on success; a failure carries its message or the default |
| Feed.BuildPost | app/src/main/java/com/example/freshplate/pages/HomePage.kt:77-114 | no recipe map gives no post; a post results exactly when the recipe parses and the photo URLs and timestamp have their types; it has the document's id, present photo URLs and timestamp carried over and missing ones defaulting to "" and the clock, as many likes as likers, and is liked exactly when the signed-in user is a liker |
| Feed.DisplayName | app/src/main/java/com/example/freshplate/pages/HomePage.kt:104 | the author's name is name, space, surname, a missing part shown as "null"; an ill-typed part throws |
| Feed.FeedPostOf | app/src/main/java/com/example/freshplate/pages/HomePage.kt:73-117 | a document gives a post exactly when its userId is a string, the author's document is fetched, its name, surname and image read, and the post builds; that post carries the author's display name and image (or "") |
| Feed.FeedOf | app/src/main/java/com/example/freshplate/pages/HomePage.kt:70-118 | the feed has at most one post per document |
| Feed.FeedOfOne | app/src/main/java/com/example/freshplate/pages/HomePage.kt:72-117 | a single document contributes exactly the post built for it, or nothing |
| Feed.FeedOfMembers | app/src/main/java/com/example/freshplate/pages/HomePage.kt:70-118 | every post in the feed is the post of one of the documents, and every document that gives a post has it in the feed |
| Feed.CollectFeed | app/src/main/java/com/example/freshplate/pages/HomePage.kt:70-119 | the loop appending to the post list computes the feed of the query's documents |
| Feed.FeedOfAppend | app/src/main/java/com/example/freshplate/pages/HomePage.kt:72-100 | the feed of concatenated documents is the concatenation of their feeds, so posts keep query order |
| Feed.FeedPostsWellFormed | app/src/main/java/com/example/freshplate/pages/HomePage.kt:98-111 | every built post has non-negative likes, at least one when liked, and none is liked when nobody is signed in |
| Feed.ToggleLike | app/src/main/java/com/example/freshplate/pages/HomePage.kt:166-173 | only posts with the pressed id change: their flag flips and likes move by one the matching way; length, order and other posts are unchanged |
| Feed.ToggleTwiceRestores | app/src/main/java/com/example/freshplate/pages/HomePage.kt:166-173 | two presses on a post, each with the flag it shows, restore the list |
| Feed.ToggleKeepsWellFormed | app/src/main/java/com/example/freshplate/pages/HomePage.kt:166-173 | a press with the post's own flag keeps likes non-negative and at least one when liked |
| Feed.ApplyLike | app/src/main/java/com/example/freshplate/pages/HomePage.kt:159-164 | after the like write the stored `likedBy` holds the user exactly when the request was not a removal, and every other entry's presence is unchanged |
| Feed.ToggleAgreesWithStore | app/src/main/java/com/example/freshplate/pages/HomePage.kt:157-174 | when the flag a post shows is whether its stored `likedBy` holds the user, the locally toggled flag is whether the written `likedBy` holds the user, so a reload shows the same flag |
| Feed.HomeScreen.constructor | app/src/main/java/com/example/freshplate/pages/HomePage.kt:56-58 | the screen starts with no posts, loading, and no error |
| Feed.HomeScreen.Load | app/src/main/java/com/example/freshplate/pages/HomePage.kt:63-126 | a successful query shows its feed, a failed one the "Error loading posts" message; loading ends either way |
| Feed.HomeScreen.LikeClicked | app/src/main/java/com/example/freshplate/pages/HomePage.kt:157-174 | without a signed-in user nothing changes and nothing is written; otherwise the arrayRemove or arrayUnion of the user on the post's `likedBy` is returned (removal exactly when the post showed as liked) and the list becomes its toggled form |
| Profile.ProfilePosts | app/src/main/java/com/example/freshplate/pages/UserProfilePage.kt:75-96 | at most one post per document, each carrying the profile's author id, name and image |
| Profile.ProfilePostsAppend | app/src/main/java/com/example/freshplate/pages/UserProfilePage.kt:75 | the posts of concatenated documents are the concatenation of their posts, so query order is kept |
| Profile.ProfilePostsOfOne | app/src/main/java/com/example/freshplate/pages/UserProfilePage.kt:75-95 | a document without a recipe map is dropped; any other gives the post it builds, or nothing when building it throws |
| Profile.ProfilePostsLikes | app/src/main/java/com/example/freshplate/pages/UserProfilePage.kt:78-90 | each post comes from a document, has as many likes as that document's likers, and is liked exactly when the signed-in user is one of them |
| Profile.FollowStep | app/src/main/java/com/example/freshplate/pages/UserProfilePage.kt:218-233 | a press flips the following flag and moves the follower count down by one when following, up by one otherwise |
| Profile.FollowTwiceRestores | app/src/main/java/com/example/freshplate/pages/UserProfilePage.kt:218-233 | two presses restore the follower count and the flag |
| Profile.UserProfileScreen.constructor | app/src/main/java/com/example/freshplate/pages/UserProfilePage.kt:38-46 | empty name, image, bio and posts, zero counts, not following, loading, no error |
| Profile.UserProfileScreen.ShowUser | app/src/main/java/com/example/freshplate/pages/UserProfilePage.kt:56-66 | the user document's fields are assigned in source order; the first getter that throws stops the rest, leaving them unchanged, and a document whose getters all succeed sets name, image, bio, both counts and the following flag |
| Profile.UserProfileScreen.Load | app/src/main/java/com/example/freshplate/pages/UserProfilePage.kt:52-103 | name and surname joined with "null" for missing parts, counts are the list sizes, following exactly when the signed-in user is a follower, posts as built; a throw stops the remaining assignments, leaving every later field as it was, and shows "Error loading profile"; loading ends |
| Profile.UserProfileScreen.FollowPressed | app/src/main/java/com/example/freshplate/pages/UserProfilePage.kt:214-234 | reachable only while the follow button is shown (not one's own profile), so a request never asks users to follow themselves; without a signed-in user nothing happens; otherwise the follow or unfollow request matching the flag, and the local step |
| PostDetail.ParsePost | app/src/main/java/com/example/freshplate/pages/PostDetailPage.kt:81-116 | no recipe map gives "Invalid recipe data"; a post results exactly when the recipe parses and the photo URLs, timestamp and likes have their types, otherwise the text starts with "Error parsing post data: "; present photo URLs and timestamp are carried over, missing ones default to "" and the clock; likes are 0 when missing, always 32-bit, and the number itself when it is a whole 32-bit value |
| PostDetail.RemovePostId | app/src/main/java/com/example/freshplate/pages/PostDetailPage.kt:147 | the filtered list holds exactly the other ids and no occurrence of the post id |
| PostDetail.RemovePostIdAppend | app/src/main/java/com/example/freshplate/pages/PostDetailPage.kt:147 | filtering distributes over concatenation, so the remaining ids keep their order |
| PostDetail.RemovePostIdCounts | app/src/main/java/com/example/freshplate/pages/PostDetailPage.kt:147 | every occurrence of the post id goes and every other id keeps its number of occurrences |
| PostDetail.RemovePostIdIdempotent | app/src/main/java/com/example/freshplate/pages/PostDetailPage.kt:147 | removing twice is removing once |
| PostDetail.RemoveAbsentIsIdentity | app/src/main/java/com/example/freshplate/pages/PostDetailPage.kt:147 | a list without the post id is unchanged |
| PostDetail.PostDetailScreen.constructor | app/src/main/java/com/example/freshplate/pages/PostDetailPage.kt:66-69 | no post, loading, no error, no dialog |
| PostDetail.PostDetailScreen.Load | app/src/main/java/com/example/freshplate/pages/PostDetailPage.kt:75-129 | a fetch failure or parse failure sets its error text, a parsed document sets the post, and loading ends on every path |
| PostDetail.PostDetailScreen.AskDelete | app/src/main/java/com/example/freshplate/pages/PostDetailPage.kt:356 | the delete button only opens the confirmation dialog |
| PostDetail.PostDetailScreen.DeletePost | app/src/main/java/com/example/freshplate/pages/PostDetailPage.kt:132-169 | without a signed-in user "User not authenticated" and no writes; otherwise the filtered id list is written, then the post deleted, then the profile opened, each failure stopping the rest with its message; the dialog closes and loading ends on every path |
| PhotoPreview.ApiErrorMessage | app/src/main/java/com/example/freshplate/pages/PhotoPreviewPage.kt:142-148 | a message containing "404" gives the not-found text, checked first; else one containing "timeout" the time-out text; else "Failed to analyze image: " and the message |
| PhotoPreview.ApiErrorIsNotNoRecipes | app/src/main/java/com/example/freshplate/pages/PhotoPreviewPage.kt:163-164 | no API failure text is the "No recipes found" text |
| PhotoPreview.RecipeResultRoute | app/src/main/java/com/example/freshplate/pages/PhotoPreviewPage.kt:161-162 | the result route is the prefix "recipeResult/" followed by the encoded title |
| PhotoPreview.PhotoPreviewScreen.constructor | app/src/main/java/com/example/freshplate/pages/PhotoPreviewPage.kt:50-51 | not loading, no error |
| PhotoPreview.PhotoPreviewScreen.Analyze | app/src/main/java/com/example/freshplate/pages/PhotoPreviewPage.kt:128-172 | a non-empty response stores its first recipe and the photo URL and opens the result route; an API failure shows its classified message and no "No recipes" text; an empty response shows "No recipes found"; a throw after the API call shows "Error processing recipe: "; loading ends on every path |
| PhotoPreview.PhotoPreviewScreen.Discard | app/src/main/java/com/example/freshplate/pages/PhotoPreviewPage.kt:73-111 | deletion failures are swallowed and the screen goes back; only an unusable photo URL stops it, with its message or "An error occurred"; loading ends |
| PhotoPreview.PhotoPreviewScreen.TryAgain | app/src/main/java/com/example/freshplate/pages/PhotoPreviewPage.kt:210-212 | only the error is cleared |
| RecipeSlots.RecipeViewModel.constructor | app/src/main/java/com/example/freshplate/API/RecipeViewModel.kt:9-13 | both slots start null |
| RecipeSlots.RecipeViewModel.SetRecipe | app/src/main/java/com/example/freshplate/API/RecipeViewModel.kt:15-17 | the recipe slot takes the new recipe; the photo slot is unchanged |
| RecipeSlots.RecipeViewModel.SetUserPhotoUrl | app/src/main/java/com/example/freshplate/API/RecipeViewModel.kt:19-21 | the photo slot takes the new URL; the recipe slot is unchanged |
| Utf8.EncodeChar | app/src/main/java/com/example/freshplate/pages/CameraPage.kt:396 | a character takes one to four bytes |
| Utf8.Encode | app/src/main/java/com/example/freshplate/pages/CameraPage.kt:396 | `toByteArray()` gives between one and four bytes per character |
| Utf8.DecodeOne | app/src/main/java/com/example/freshplate/navbar/navigationBar.kt:306 | a decoded character consumes between one byte and the bytes available |
| Utf8.Decode | app/src/main/java/com/example/freshplate/navbar/navigationBar.kt:306 | `String(bytes)` on well-formed UTF-8: no bytes give the empty string, and a decoded string is non-empty for non-empty bytes and no longer than them |
| Utf8.DecodeOneOfEncodeChar | app/src/main/java/com/example/freshplate/navbar/navigationBar.kt:306 | decoding the bytes of a character, whatever follows, gives that character and its length |
| Utf8.DecodeEncode | app/src/main/java/com/example/freshplate/navbar/navigationBar.kt:306 | `String(s.toByteArray())` is `s` |
| Base64.CharOf | app/src/main/java/com/example/freshplate/pages/CameraPage.kt:396 | the standard alphabet uses '/' exactly for the value 63; the URL-safe alphabet never uses '/' or '+'; no value is '=' |
| Base64.ValueOf | app/src/main/java/com/example/freshplate/navbar/navigationBar.kt:306 | a character of the alphabet stands for the value whose character it is |
| Base64.ValueOfCharOf | app/src/main/java/com/example/freshplate/navbar/navigationBar.kt:306 | every value's character reads back as that value |
| Base64.Encode | app/src/main/java/com/example/freshplate/pages/CameraPage.kt:395-397 | the encoding without line breaks has four characters for every started group of three bytes |
| Base64.DecodeGroup | app/src/main/java/com/example/freshplate/navbar/navigationBar.kt:306 | a group of four characters with one or two '=' gives two or one bytes, with none three |
| Base64.Decode | app/src/main/java/com/example/freshplate/navbar/navigationBar.kt:306 | only text whose length is a multiple of four decodes |
| Base64.EncodeString | app/src/main/java/com/example/freshplate/pages/CameraPage.kt:395-397 | `toBase64`: the UTF-8 bytes encoded without line breaks, four characters per started group of three bytes, empty exactly for the empty string |
| Base64.DecodeString | app/src/main/java/com/example/freshplate/navbar/navigationBar.kt:305-307 | `fromBase64` decodes only text of a length divisible by four that decodes as Base64, to a string no longer than its bytes |
| Base64.DecodeEncodeGroup | app/src/main/java/com/example/freshplate/navbar/navigationBar.kt:306 | a full group decodes to its three bytes |
| Base64.DecodeEncode | app/src/main/java/com/example/freshplate/navbar/navigationBar.kt:305-307 | decoding the encoding of any bytes gives the bytes back, for either alphabet |
| Base64.DecodeEncodeString | app/src/main/java/com/example/freshplate/navbar/navigationBar.kt:194-195 | `fromBase64(toBase64(s))` is `s` |
| Base64.UrlSafeHasNoSlash | app/src/main/java/com/example/freshplate/pages/CameraPage.kt:276 | a URL-safe encoding never contains '/' |
| Navigation.IndexOfSlash | app/src/main/java/com/example/freshplate/navbar/navigationBar.kt:180 | the position found holds the first '/'; none is found only when there is no '/' |
| Navigation.ParsePreviewRoute | app/src/main/java/com/example/freshplate/navbar/navigationBar.kt:180-189 | a route matches the preview pattern only as the prefix and two non-empty slash-free segments |
| Navigation.ParsePreviewRouteComplete | app/src/main/java/com/example/freshplate/navbar/navigationBar.kt:180 | any two non-empty slash-free segments are recovered from the route built from them |
| Navigation.PreviewRoute | app/src/main/java/com/example/freshplate/pages/CameraPage.kt:274-276 | the route the camera builds matches the preview destination exactly when both encodings are non-empty and free of '/', and the preview then receives the URI and URL that were encoded |
| Navigation.BuiltRouteMatches | app/src/main/java/com/example/freshplate/navbar/navigationBar.kt:180 | a built route splits back into its two encodings when they are non-empty and slash-free, and otherwise matches nothing |
| Navigation.RouteWithoutBothSegments | app/src/main/java/com/example/freshplate/navbar/navigationBar.kt:180 | a route with an empty segment or a '/' inside a segment matches no preview |
| Navigation.OpenPreview | app/src/main/java/com/example/freshplate/navbar/navigationBar.kt:189-203 | the preview opens exactly on a matching route whose two arguments both decode, and receives the decoded arguments |
| Navigation.UrlSafeRouteOpens | app/src/main/java/com/example/freshplate/pages/CameraPage.kt:276 | with the URL-safe alphabet the preview receives exactly the image URI and photo URL the camera encoded, whenever both are non-empty |
| Navigation.StandardRouteOpensIff | app/src/main/java/com/example/freshplate/pages/CameraPage.kt:274-276 | with the standard alphabet the preview opens on the right arguments exactly when neither encoding contains '/', and otherwise not at all |
| Navigation.EncodeAbQuestion | app/src/main/java/com/example/freshplate/pages/CameraPage.kt:395-397 | the standard encoding of "ab?" is "YWI/" |
| Navigation.StandardRouteBreaks | app/src/main/java/com/example/freshplate/pages/CameraPage.kt:276 | a route built with the standard alphabet from the URI "ab?" matches no destination, so `navigate` throws, and opens no preview |
| Navigation.TabRoutes | app/src/main/java/com/example/freshplate/navbar/navigationBar.kt:120-129 | exactly tabs 0, 1, 2 have routes, each a declared destination, no two alike |
| Navigation.BottomBar.constructor | app/src/main/java/com/example/freshplate/navbar/navigationBar.kt:75 | the first tab starts selected |
| Navigation.BottomBar.Click | app/src/main/java/com/example/freshplate/navbar/navigationBar.kt:120-129 | a press always selects its index and navigates to "homepage", "camera" or "profile" for tabs 0, 1, 2 and nowhere otherwise |
| Navigation.OnAuthState | app/src/main/java/com/example/freshplate/navbar/navigationBar.kt:78-110 | every state but Authenticated navigates to "login"; when authenticated the record is loaded with the provider's e-mail, if there is one |
| Navigation.GatingAgrees | app/src/main/java/com/example/freshplate/navbar/navigationBar.kt:105-115 | the bottom bar is drawn exactly in the states that do not navigate to "login"; the user record is loaded only when authenticated with an e-mail |
| Navigation.ResultScreen | app/src/main/java/com/example/freshplate/navbar/navigationBar.kt:214-227 | the result screen is drawn exactly when both the recipe and the photo URL are present, with those values; otherwise a progress indicator |
| Navigation.UserFieldsOf | app/src/main/java/com/example/freshplate/navbar/navigationBar.kt:89-98 | a document is read exactly when its five string fields are strings or absent; strings default to "", lists are kept only when they are lists |
| Navigation.SignupRecordLoadsBack | app/src/main/java/com/example/freshplate/authentication/AuthViewModel.kt:82-92 | the record signup writes loads back with its name and surname, empty strings and empty lists |
| Navigation.Apply | app/src/main/java/com/example/freshplate/navbar/navigationBar.kt:89-99 | one document's fields and the e-mail are written to the user record |
| Navigation.LoadUserRecord | app/src/main/java/com/example/freshplate/navbar/navigationBar.kt:85-104 | each matching document overwrites the record and sets the e-mail, so the last one wins; an unreadable document crashes; a failed or empty query changes nothing |
| Camera.CameraScreen.constructor | app/src/main/java/com/example/freshplate/pages/CameraPage.kt:92 | not loading |
| Camera.CameraScreen.OpenPreviewRoute | app/src/main/java/com/example/freshplate/pages/CameraPage.kt:272-276 | loading ends; the preview route is navigated to when it matches the destination, and otherwise `navigate` throws and the app ends |
| Camera.CameraScreen.GalleryResult | app/src/main/java/com/example/freshplate/pages/CameraPage.kt:105-154 | no picture changes nothing; a bitmap or upload failure ends loading; after an upload loading ends and the preview route is opened whether or not the photo document was written, crashing when the route matches no destination, unless a failure without a message crashed the listener first |
| Camera.CameraScreen.CaptureResult | app/src/main/java/com/example/freshplate/pages/CameraPage.kt:241-283 | a capture error leaves loading on; an upload failure ends it; after an upload the completion listener ends loading and opens the preview route, crashing when the route matches no destination, unless the failure listener crashed first |

## Left out

- Firebase Auth, Firestore, Storage, the recipe API and their listeners are replaced by their outcomes; concurrency between coroutines and listeners is not modelled, each handler runs to completion on the outcomes given.
- The clock is a parameter: one reading per load stands in for `Timestamp.now()`, and timestamps are whole milliseconds.
- Floating point: sensor readings and ingredient amounts are reals; the shake test compares the sum of squares with the square of the threshold instead of taking a square root.
- Shake.Step: does not model 64-bit wrap-around of time differences or 32-bit wrap-around of the shake count.
- Feed.ToggleLike: does not model 32-bit wrap-around of the like counter, which would need about 2^31 likes.
- Profile.FollowStep: does not model 32-bit wrap-around of the follower count.
- Utf8.Decode: malformed bytes give no string, where `String(bytes)` substitutes U+FFFD; lone surrogates in Kotlin strings are not modelled (a Dafny character is a Unicode scalar value).
- Base64.Decode: only strict RFC 4648 text decodes; the platform decoder's leniency (missing padding, ignored characters) is not modelled, and a failed decode, which throws in the app, is modelled as no preview.
- `URLEncoder.encode` of the recipe title is an opaque function parameter.
- JVM exception texts (a wrongly typed field, a non-map ingredient) are stood in for by fixed messages.
- Navigation.LoadUserRecord: when a document crashes the loader, the fields assigned before the failing one are not stated.
- Auth.AuthViewModel.SignupCompleted: the `currentUser!!` used for the document write, and in `update`, is assumed to succeed.
- Camera.CameraScreen.GalleryResult: the bitmap rotation, local saving and the upload itself are outcomes, not modelled steps.
- Camera.CameraScreen.CaptureResult: a failure while saving the captured picture locally is not modelled.
- PhotoPreview.PhotoPreviewScreen.Analyze: whether navigating to the result screen throws is an input; a null response list is not modelled, the API's declared result being a non-null list.
- Publishing a post on the result screen is not part of this model, except for the layout of the recipe map it stores (Recipes.RecipeMap), which the parsers read back.
- Compose layout, the tutorial delay, Toasts, the OpenGL loading logo, camera permissions and media files are UI or hardware and are left out.

## Findings

| source | as written | input that shows it | evidently intended | confidence | as-written member | corrected member |
|---|---|---|---|---|---|---|
| app/src/main/java/com/example/freshplate/pages/CameraPage.kt:276 | the preview route (built the same way at lines 128 and 142) joins two standard Base64 encodings with '/', and the standard alphabet itself contains '/' (RFC 4648, section 4, Table 1), so the route `photo_preview/{encodedUri}/{encodedPhotoUrl}` no longer matches and `navigate` throws | an image URI or download URL whose UTF-8 bytes give a 6-bit group of 63, e.g. "ab?" whose encoding is "YWI/"; long download URLs almost always have one | the preview receives the URI and URL that were encoded, for instance by encoding with the URL-safe alphabet of RFC 4648, section 5, and decoding with it too at app/src/main/java/com/example/freshplate/navbar/navigationBar.kt:306 (the default decoder skips '-' and '_') | high for the route mismatch, not executed | Navigation.StandardRouteBreaks | Navigation.UrlSafeRouteOpens |
