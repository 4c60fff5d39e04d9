# Posts API and its browser clients, modelled in Dafny

This project models a small social posting service. It has two parts.

The server is a Django REST application. Users register, then sign in with JWT tokens. They publish text posts, comment on posts and like or unlike them. Posts are meant to carry images, but as written no request ever attaches one (see Findings). Only a post's author may replace a post (PUT) or delete it. PATCH has no owner check (see Findings). Deleting a post removes its images, their stored files, its comments and its likes.

The clients are two versions of a browser script. Each keeps its tokens in `localStorage` and shows or hides its forms according to whether the user is signed in.

The modules are:

- `Outcomes` holds `Option` and `Result`.
- `Text` holds white space as Python's `str.strip` and JavaScript's `String.prototype.trim` define it, stripping, and joining.
- `Models` holds the tables as a `Database` class whose methods change it in place. It also holds the image-size validator, the string forms of the rows, the like toggle and what a deletion removes.
- `Serializers` holds the validators and computed fields of the serializers.
- `Views` holds the API handlers as methods over a `Database`. An anonymous request is modelled as `None`.
- `Browser` holds what both scripts share: storage, requests, replies, `checkAuth`, the error-message join and the like label.
- `PostsApp` and `CollectedApp` model the two scripts. Each has a `Page` class whose handler methods are proved to produce the state that a pure function of the old state and the network replies describes. The properties are proved about those functions.

The network is never called: every reply a handler awaits is an argument of the model.

Some behaviours of the code a reader might not expect:

- The comment view validates the text before it looks up the post. A short comment on a missing post therefore answers 400, not 404.
- Registration also checks Django's own username rules (allowed characters, at most 150 characters, uniqueness). The model leaves them out (see Left out).
- The second script fetches the posts without a token.
- The text fields go through DRF's `CharField` first. The stored text is the stripped one, and a blank text gets DRF's own message before `validate_text` runs.

## Model

| member | source | states |
|---|---|---|
| Models.ValidateImageSize | posts/models.py:10-23 | No error exactly when the size is at most 5 × 1024 × 1024 bytes; otherwise the 5 MB message |
| Models.ImageSizeBoundary | posts/models.py:20-23 | A file of exactly 5 MB passes and one byte more fails |
| Models.Preview | posts/models.py:41-43 | The string form is a prefix of the text of length min(len, 50) |
| Models.PostStr | posts/models.py:41-43 | A post's string form is the prefix of its text of length min(len, 50) |
| Models.CommentStr | posts/models.py:91-93 | A comment's string form is the prefix of its text of length min(len, 50) |
| Models.Toggle | posts/views.py:74-77 | The toggled pair is in the result exactly when it was not in the table; every other pair is unchanged |
| Models.ToggleTwice | posts/views.py:74-80 | Two toggles of the same pair restore the like table |
| Models.Database.constructor | posts/models.py:26-117 | An empty database satisfies referential integrity |
| Models.Database.AddPost | posts/views.py:18 | Adds a new row under a fresh key; nothing else changes |
| Models.Database.AddImage | posts/views.py:21 | Adds a new image row for an existing post under a fresh key and stores its file |
| Models.Database.DeleteImage | posts/models.py:120-131 | Removes the row, and the stored file only when the image field is set |
| Models.Database.DeletePost | posts/models.py:134-145 | The loop deletes every image of the post with its file. Comments and likes cascade. Exactly those rows go, integrity is kept, and no remaining image, comment or like refers to the post |
| Models.StoredFilesAdd | posts/models.py:130-131 | One more deleted image removes its file only if it has one |
| Text.FlavorsDiffer | posts/serializers.py:91 | Python and JavaScript disagree on U+FEFF, U+001C and U+0085 |
| Text.Strip | posts/serializers.py:91 | The stripped text is empty exactly when every character is white space. Otherwise it neither starts nor ends with white space and is the slice between the first and last non-space |
| Text.StripIdempotent | posts/serializers.py:91 | Stripping a stripped text changes nothing |
| Text.StrippedAtLeast | posts/serializers.py:91 | The stripped text has at least n characters exactly when two non-space characters are at least n − 1 positions apart |
| Text.Join | posts/static/posts/app.js:229 | Joining one part gives that part, and joining none gives the empty string |
| Text.JoinAppend | posts/static/posts/app.js:229 | Joining a concatenation puts exactly one separator between the two joined halves |
| Text.JoinLength | posts/static/posts/app.js:229 | The joined length is the parts' lengths plus one separator per neighbouring pair |
| Serializers.ValidatePostText | posts/serializers.py:90-93 | Accepted exactly when the stripped text has at least 5 characters; the accepted value is returned unstripped |
| Serializers.ValidateCommentText | posts/serializers.py:50-53 | Accepted exactly when the stripped text has at least 2 characters; the value is returned unstripped |
| Serializers.CharFieldInput | posts/serializers.py:73-76 | DRF's text input step: passes exactly when the stripped text is non-empty and holds no NUL, and yields the stripped text. Otherwise the blank or null-character message |
| Serializers.PostTextField | posts/serializers.py:90-93 | The post `text` field: accepted exactly when the stripped text has at least 5 characters and no NUL; the stored value is the stripped text. A blank text gets the blank message, a short one the serializer's message |
| Serializers.CommentTextField | posts/serializers.py:50-53 | The comment `text` field, the same with a minimum of 2 |
| Serializers.StoredTextIsStable | posts/serializers.py:90-93 | Sending back a stored post text is accepted and stores the same text |
| Serializers.ValidatePost | posts/serializers.py:67-98 | Valid exactly when the text is acceptable (or absent in a partial update) and the image, if any, is at most 5 MB. Errors are reported exactly for the failing fields, text before image. A missing text outside a partial update is "This field is required." |
| Serializers.ValidateComment | posts/serializers.py:41-53 | Valid exactly when `text` was sent and its stripped form has at least 2 characters and no NUL; the stripped text is the value. Otherwise one error on `text`: required when missing, blank when all white space |
| Serializers.PostTextAccepted | posts/serializers.py:90-93 | Acceptance restated without the strip: two non-space characters at least 4 positions apart |
| Serializers.CommentTextAccepted | posts/serializers.py:50-53 | A comment is accepted exactly when it has two non-space characters |
| Serializers.ShortTextRejected | posts/serializers.py:50-53 | Texts shorter than the minimum, or all white space, are refused |
| Serializers.ValidateImage | posts/serializers.py:95-98 | Accepted exactly when the size is at most 5 MB, so exactly 5 MB passes |
| Serializers.ImageChecksAgree | posts/serializers.py:95-98 | The serializer's check and the model validator accept the same files |
| Serializers.ValidateRegistration | posts/serializers.py:5-31 | Accepted exactly when the username has at least 4 characters, the password at least 8, and the email is well formed and unused. Each field is reported exactly when its rule fails, in declaration order |
| Serializers.DuplicateEmailRefused | posts/serializers.py:28-31 | An email already used by a user is always refused |
| Serializers.LikesCount | posts/serializers.py:79-80 | The like count equals the number of distinct users liking the post |
| Serializers.LikeRowsAreUsers | posts/models.py:112-113 | Because (post, user) is unique, the like rows of a post and the users who like it are equally many |
| Serializers.ToggleMovesCount | posts/serializers.py:79-80 | A toggle moves its post's count by exactly one, up or down, and leaves other posts' counts alone |
| Serializers.GetImage | posts/serializers.py:82-88 | None exactly when no image is set. Otherwise the URL, made absolute when there is a request |
| Serializers.AbsoluteExtendsRelative | posts/serializers.py:82-88 | The absolute URL is the request's origin followed by the relative URL |
| Views.ToggleResponse | posts/views.py:76-80 | "unliked"/200 for a pair that was liked, "liked"/201 otherwise |
| Views.ToggleLike | posts/views.py:69-80 | 401 for an anonymous request and 404 for a missing post, both with no change. Otherwise toggles exactly the pair and changes nothing else |
| Views.DoubleToggle | posts/views.py:69-80 | Two toggles by one user on one post leave the whole database unchanged and answer different statuses |
| Views.LastUpload | posts/serializers.py:71 | The value the serializer's `image` field reads from the request data is the last file sent under that name (posts/views.py:19 takes them all), and is absent exactly when none was sent |
| Views.FilesOf | posts/views.py:19-21 | The stored files of the uploads, one per upload, in order |
| Views.CreatePost | posts/views.py:12-21 | As written. 401 when anonymous. 400 with the failing fields, a missing text included. 500 with nothing stored when a file was sent. Otherwise the post is stored with the stripped text and the requester as author. No image row or file is ever added |
| Views.SaveReachedWithImage | posts/views.py:17-18 | A valid text with one acceptable file always passes validation and reaches the save with the image set |
| Views.SaveReachedExample | posts/views.py:17-18 | "hello world" with a 1 KB file is such a request |
| Views.CreatePostCorrected | posts/views.py:17-21 | As intended. The same 401 and 400, then the post with the stripped text and one image row and stored file per upload |
| Views.PerformCreate | posts/views.py:17-21 | The new post takes a fresh key, has the requester as author, and gets one image row per stored file |
| Views.AttachImages | posts/views.py:19-21 | The loop leaves exactly the image rows and files that the uploads describe |
| Views.NewImages | posts/views.py:19-21 | The rows for the uploads have consecutive keys from the first free one, each holding its upload |
| Views.Names | posts/views.py:19-21 | The stored names are exactly those of the uploads |
| Views.OneImagePerUpload | posts/views.py:20-21 | Exactly one image row per upload, each attached to the new post |
| Views.ApplyUpdate | posts/views.py:50 | The inherited update: 400 with the failing fields and nothing changed. Otherwise 200 and the stripped text stored when sent. The image is not stored and the author is kept |
| Views.UpdatePost | posts/views.py:43-50 | 401, 404, or 403 for a non-author, each leaving the post unchanged. Otherwise 400 with the failing fields (a missing text included), or the stripped text replaces the old one with the author kept |
| Views.PartialUpdatePost | posts/views.py:24-27 | As written, PATCH is inherited: 401 and 404 as for PUT, but no owner check. A non-author's valid text replaces the post text |
| Views.PartialUpdatePostGuarded | posts/views.py:43-50 | PATCH with PUT's owner guard: a non-author gets 403, and only the requester's own posts can change |
| Views.DestroyPost | posts/views.py:34-41 | 401, 404, or 403 for a non-author, each changing nothing. Otherwise 204 and the post is deleted with everything that refers to it |
| Views.CreateComment | posts/views.py:53-61 | 401 when anonymous, 400 on a missing, blank or short text before any lookup, then 404 for a missing post. Otherwise the comment stores the stripped text, takes its post from the URL and its author from the requester |
| Browser.CheckAuth | posts/static/posts/app.js:23-36 | No request without a token. With one, a single authorised GET, and authenticated exactly when it is ok; a thrown request reads as false |
| Browser.NoTokenNoNetwork | staticfiles/posts/app.js:30-32 | Without a token the answer is false whatever the network does |
| Browser.RemovedTokenFailsCheck | posts/static/posts/app.js:241-245 | Once the access token is removed, the check is false and sends nothing |
| Browser.WithTokens | posts/static/posts/app.js:203-205 | Both tokens are written, missing ones as "undefined", and no other key changes |
| Browser.TokensAlwaysProbe | staticfiles/posts/app.js:238-240 | After any token reply a token is stored, so the next check asks the server |
| Browser.ErrorMessage | posts/static/posts/app.js:227-230 | A single-field error object gives that field's text |
| Browser.ErrorMessageAppend | posts/static/posts/app.js:229 | Each further field adds ", " and its messages |
| Browser.RegisterErrorScenario | posts/static/posts/app.js:227-230 | The server's own messages for a malformed email and a short password are shown as one line, email first, joined by ", " |
| Browser.LikeLabel | posts/static/posts/app.js:84 | The singular word is used exactly when the count is 1 |
| PostsApp.FetchAuthorization | posts/static/posts/app.js:57-58 | An Authorization header is sent exactly when a token is stored |
| PostsApp.ListedPrefersResults | posts/static/posts/app.js:64 | A paginated reply renders its results, even when empty; a bare list renders as it is |
| PostsApp.Fetched | posts/static/posts/app.js:55-69 | One GET, with the header exactly when a token is stored. Then the list is rendered, or the failure is alerted |
| PostsApp.Refreshed | posts/static/posts/app.js:39-52 | Auth forms hidden exactly when authenticated, new-post form and user info exactly when not. Signed out: prompt shown and no fetch. Storage is unchanged |
| PostsApp.LoggedIn | posts/static/posts/app.js:189-212 | An ok reply stores both tokens and the username. A failure stores nothing and alerts |
| PostsApp.LoggedOut | posts/static/posts/app.js:241-246 | The three keys are removed. The check then fails, the prompt is shown and nothing is sent |
| PostsApp.LogoutIgnoresReplies | posts/static/posts/app.js:241-246 | Logging out does not depend on any reply |
| PostsApp.LoginThenLogout | posts/static/posts/app.js:189-246 | Login then logout leaves none of the session keys and the check false |
| PostsApp.Registered | posts/static/posts/app.js:214-239 | Success alerts and swaps the login and register forms. A rejection alerts the joined errors. Storage is never written |
| PostsApp.NewPostCheck | posts/static/posts/app.js:120-132 | Passes exactly when the trimmed text is non-empty, there are at most 10 files and a token is stored |
| PostsApp.Posted | posts/static/posts/app.js:118-149 | A failed check alerts and sends nothing. Otherwise one POST carries the trimmed text and the files, and success clears the form |
| PostsApp.PostRequestIsClean | posts/static/posts/app.js:120-128 | A sent post carries non-empty text without surrounding white space and at most 10 files |
| PostsApp.Commented | posts/static/posts/app.js:169-187 | A blank comment is refused without a request. Otherwise the untrimmed text is sent, with the stored token, or the text "null" when there is none, after "Bearer " |
| PostsApp.CommentWithoutToken | posts/static/posts/app.js:176 | Without a token a comment that is not blank still goes out, with the header "Bearer null" |
| PostsApp.Page.constructor | posts/static/posts/app.js:1-20 | A loaded page holds the stored session and nothing sent |
| PostsApp.Page.FetchPosts | posts/static/posts/app.js:55-69 | The new state is `Fetched` of the old |
| PostsApp.Page.UpdateUI | posts/static/posts/app.js:39-52 | The new state is `Refreshed` of the old |
| PostsApp.Page.HandleLogin | posts/static/posts/app.js:189-212 | The new state is `LoggedIn` of the old |
| PostsApp.Page.HandleLogout | posts/static/posts/app.js:241-246 | The new state is `LoggedOut` of the old |
| PostsApp.Page.HandleRegister | posts/static/posts/app.js:214-239 | The new state is `Registered` of the old |
| PostsApp.Page.HandleNewPost | posts/static/posts/app.js:118-149 | The new state is `Posted` of the old |
| PostsApp.Page.HandleComment | posts/static/posts/app.js:169-187 | The new state is `Commented` of the old |
| CollectedApp.GetUserFromToken | staticfiles/posts/app.js:47-61 | A user exactly when a token is stored and its payload decodes. Admin only when `is_superuser` is true, so false when it is missing |
| CollectedApp.Fetched | staticfiles/posts/app.js:96-111 | One GET with no token. A bare list renders. A paginated reply empties the list and alerts the `forEach` failure. An error status is alerted |
| CollectedApp.Refreshed | staticfiles/posts/app.js:64-86 | Signed in exactly when the check passes and the user decodes: name shown, posts fetched. Otherwise both tokens are removed and only the auth box and buttons are shown |
| CollectedApp.RefreshAgreesWithStorage | staticfiles/posts/app.js:64-86 | After a refresh the user info is shown exactly when a token is stored |
| CollectedApp.SignedOutIsStable | staticfiles/posts/app.js:64-86 | Refreshing a signed-out page again changes nothing |
| CollectedApp.LoggedOut | staticfiles/posts/app.js:89-93 | Only the two tokens are removed; the stored username survives; the check then fails |
| CollectedApp.LoggedIn | staticfiles/posts/app.js:222-245 | Both tokens are written only on an ok reply, then the page is refreshed. Otherwise the credentials error is alerted |
| CollectedApp.FailedLoginStoresNothing | staticfiles/posts/app.js:236 | A failed login leaves storage unchanged |
| CollectedApp.Registered | staticfiles/posts/app.js:248-289 | A rejection alerts the joined errors and sends no token request. Success sends a token request with the same credentials; if that fails, storage is unchanged and its own message is alerted |
| CollectedApp.FailedRegisterStoresNothing | staticfiles/posts/app.js:263-266 | A refused registration writes no token and sends only the registration |
| CollectedApp.RegisterThenSignIn | staticfiles/posts/app.js:268-285 | A registration followed by a successful sign-in ends exactly as a login with the same credentials |
| CollectedApp.Page.constructor | staticfiles/posts/app.js:1-22 | A loaded page holds the stored session and nothing sent |
| CollectedApp.Page.FetchPosts | staticfiles/posts/app.js:96-111 | The new state is `Fetched` of the old |
| CollectedApp.Page.UpdateUI | staticfiles/posts/app.js:64-86 | The new state is `Refreshed` of the old |
| CollectedApp.Page.HandleLogout | staticfiles/posts/app.js:89-93 | The new state is `LoggedOut` of the old |
| CollectedApp.Page.HandleLogin | staticfiles/posts/app.js:222-245 | The new state is `LoggedIn` of the old |
| CollectedApp.Page.HandleRegister | staticfiles/posts/app.js:248-289 | The new state is `Registered` of the old |

## Left out

- Rendering is left out: HTML templating, `innerHTML`, event wiring, `console`, dates and their locale formatting. A rendered list is the sequence of posts it shows, and the hidden classes are booleans.
- The show-login and show-register buttons are left out; they only swap two hidden flags.
- Both scripts' like handlers are not modelled. Each sends one POST to the post's `like/` URL and, on success, fetches the list again; otherwise it alerts. The server side of that request is Views.ToggleLike. The second script's post and comment handlers are not modelled either.
- The page reload after logout in staticfiles/posts/app.js is not modelled.
- Handlers are modelled as single sequential steps. Un-awaited calls, such as `updateUI()` in `handleLogout` or `fetchPosts()` in the second script, are treated as completing in order, and interleavings of concurrent handlers are not modelled.
- `fetch`, `FormData` and `response.json()` are left out. Each becomes a `Reply` argument. A body that fails to parse is folded into `Throws`. An uploaded file is reduced to the count of chosen files on the client. On the server it is the stored file (name and URL) and its size; storage chooses the name.
- CollectedApp.GetUserFromToken: decoding the JWT (`atob` and `JSON.parse` of its middle part) is not modelled. Its outcome is an argument, and any value of `is_superuser` other than `true` counts as false.
- Serializers.ValidateRegistration: the email format check of DRF's `EmailField` is an argument. Username uniqueness, maximum length and allowed characters belong to Django and are not modelled. The `trim_whitespace` and blank checks of DRF's `CharField` are modelled for the post and comment text only, not for the registration fields.
- Serializers.ValidatePost: DRF's `ImageField` also opens the file with Pillow and refuses what is not an image; that check is not modelled. A field sent with an empty value is not modelled either.
- Serializers.GetImage: `build_absolute_uri` is modelled as the request's origin followed by the URL, for URLs that start with `/`.
- Models.Database.DeletePost: Django's collector, which also sends `pre_delete` for images it cascades, is not modelled beyond its effect. Each image is deleted once with its file.
- Views.ToggleLike: the atomicity of `get_or_create` under concurrent requests is not modelled.
- Surrogate code points, which DRF's `CharField` also refuses, cannot occur in a Dafny string.
- Password hashing in `create_user` is left out, as is `FileExtensionValidator`.
- Timestamps (`created_at`) and JSON output formats are left out.
- posts/admin.py is not part of this model; it holds admin display settings only.
- posts/urls.py is not part of this model. It imports `DeleteImageView` and `DeleteCommentView`, which posts/views.py does not define.
- These inconsistencies of the source are kept as they are:
  - `LikeSerializer` is declared twice (posts/serializers.py:55-64), and the second declaration wins.
  - `PostSerializer` declares an `image` field and a `get_image` method, but `Post` has no `image` field, and no `SerializerMethodField` calls `get_image`. `GetImage` models the method on its own. What the field does to post creation is under Findings.
  - posts/static/posts/app.js:128 sends files under `images`, but posts/views.py:19 reads `image`. Against this server, that script's uploads attach no image.

## Findings

| source | as written | input that shows it | evidently intended | confidence | as-written member | corrected member |
|---|---|---|---|---|---|---|
| posts/views.py:17-21 | `serializer.save` passes the validated `image` file to `Post`, which has no `image` field. The request fails with a 500 before any post exists, so the loop that makes one image row per file never runs on a file | text "hello world" and one 1 KB file sent under `image` | save the post without `image`, then make one `PostImage` per file | high; not executed | Views.CreatePost | Views.CreatePostCorrected |
| posts/views.py:24-50 | only `put` and `delete` check the owner; the inherited PATCH does not | user 2 PATCHes `{"text": "hello world"}` to a post by user 1 | PATCH refused with 403 for a non-author, like PUT | medium; not executed | Views.PartialUpdatePost | Views.PartialUpdatePostGuarded |
