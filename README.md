# TextNest core, modelled in Dafny

TextNest is a Reddit-style site: a Spring Boot back end over MongoDB and a Svelte front end.
This project models the rules at its core and proves properties about them.

- **Accounts** (`UserService`, `Profile`, `AccountRequests`): registration, with the 13-year
  minimum age computed as `Period.between` does; the profile view with its derived age and
  adulthood; profile updates, role replacement and deletion; the signup endpoint and its
  bean-validation constraints.
- **Request security** (`AuthTokenFilter`, `WebSecurity`): the JWT filter, meaning what it skips, how it
  reads `Authorization: Bearer`, and what it puts in the security context. Then the ordered
  permit-all / authenticated rule table evaluated after it.
- **Posts** (`Posts`, `PostService`, `PostController`): the `Post` object with its
  like list and denormalised count; creation with tag lower-casing and media upload; the
  NSFW- and tag-filtered, newest-first, paged feed; like toggling; author-only update;
  author-or-admin delete with media clean-up; the controller's status-code mapping.
- **Media** (`Cloudinary`): the empty-file guard, public-id extraction from a URL, and
  the destroy guard.
- **Comments** (`CommentService`, `CommentController`): listing, creation, and
  author-or-admin deletion with its exception-to-status mapping.
- **Direct messages** (`MessageService`, `WebSocketMessageController`): saving a message, the
  conversation query, bulk mark-as-read, and the STOMP send handler.
- **Client stores** (`AuthStore`, `MessageStore`):
  - `authStore.js` is the session state, persisted in the `auth_user` / `auth_token` cookies, with
    login, logout, the authenticated fetch and the profile merge.
  - `messageStore.js` is the chat state, with per-participant conversations, the optimistic send,
    and the reconnect backoff.

Support modules: `Wrappers` (Option, Result), `Dates` (LocalDate, Period years),
`JavaStrings` (Java string semantics: lower-casing, `lastIndexOf`, `split`), `Sorting`
(a stable sort by key and page slicing), `Http` (requests and Ant-style path patterns), and
`Model` (the documents, exceptions, principals and the in-memory repositories).

### Form of the model

- Objects the source updates in place are classes with `modifies` frames:
  - the repositories (`Model.Store`);
  - a `Post`;
  - the security context;
  - the two client stores (`AuthStore.Session`, `MessageStore.ChatClient`).
- Every state-changing method states its new state exactly, either outright or through a pure
  transition function, and the lemmas are stated about those functions.
- Loops in the source stay loops, each proved against a left-recursive specification function:
  - the exclusion loop of `shouldNotFilter`;
  - the upload loop of `createPost`;
  - the media loop of `deletePost`;
  - the loop of `markMessagesAsRead`.
- Things outside the program are parameters:
  - the clock;
  - today's date;
  - generated ids;
  - the password encoder;
  - token validation and its subject claim;
  - the Cloudinary upload;
  - `JSON.parse` / `JSON.stringify`;
  - `fetch`.

### Behaviour of the code worth noting

- New accounts get the role `ROLE_USER`, as `UserService.java:82` sets it.
- Signup answers 200 with `User registered successfully!`.
- The token filter takes the caller's authorities from the stored user document. It reloads
  that document by the token's subject; it does not read the token's claims.
- The profile view does not fail for a user without a date of birth. Its age is null and
  `isAdult` is false.
- A chat message whose sender or receiver does not resolve is dropped silently. No error is
  raised.
- `getAllUsers` and `updateUserRoles` each carry an `@PreAuthorize("hasRole('ADMIN')")` guard.
  `deleteUser` has none of its own.
- `deleteUser` removes only the user document. The user's posts, comments and messages stay,
  and their `@DBRef` to the user then loads as null. Updating or deleting such a post, deleting
  such a comment, or marking such a message read dereferences the null reference. The result
  is a `NullPointerException`, even for an admin. The model represents a reference as the
  user's id, and a reference to an id no stored user has as null.
- The failures of comment deletion are answered 500, and the feed never shows NSFW posts, even
  to adults (see Findings).

## Model

| member | source | states |
|---|---|---|
| Dates.PeriodYearsIsWholeYears | backend/src/main/java/com/redditclone/backend/service/UserService.java:306 | For a date of birth not after today, `Period.between(...).getYears()` (computed from proleptic months, the day adjustment and Java's truncating division) equals the year difference minus one when this year's birthday is still ahead, and is never negative |
| Dates.PeriodYears | backend/src/main/java/com/redditclone/backend/service/UserService.java:306 | Period.between(...).getYears(): the month difference, corrected by one while the day of month is not reached, divided by 12 truncating toward zero |
| Dates.AgeOnBirthday | backend/src/main/java/com/redditclone/backend/service/UserService.java:306 | On a birthday the age is exactly the year difference |
| Dates.AgeDayBeforeBirthday | backend/src/main/java/com/redditclone/backend/service/UserService.java:306 | The day before a birthday the age is one less than the year difference |
| UserService.CalculateAge | backend/src/main/java/com/redditclone/backend/service/UserService.java:302-307 | A null date of birth is an IllegalArgumentException with its exact message; otherwise the age is Ok, and for a past date of birth it is the whole-years count |
| UserService.ThirteenOnBirthday | backend/src/main/java/com/redditclone/backend/service/UserService.java:64-69 | On the thirteenth birthday the computed age is exactly 13, so the `< 13` check lets the user in |
| UserService.TwelveTheDayBefore | backend/src/main/java/com/redditclone/backend/service/UserService.java:64-69 | The day before the thirteenth birthday the age is 12, so registration is refused |
| UserService.IsUserAdult | backend/src/main/java/com/redditclone/backend/service/UserService.java:285-295 | Unknown id gives the "User not found with id: " error; no date of birth gives false; otherwise true iff the whole-years age is at least 18 |
| UserService.ProfileAgreesWithIsUserAdult | backend/src/main/java/com/redditclone/backend/payload/response/UserProfileResponse.java:36-44 | For every stored user, isUserAdult and the profile response's isAdult give the same answer |
| UserService.CurrentAuthenticatedUser | backend/src/main/java/com/redditclone/backend/service/UserService.java:134-151 | No principal gives "Error: No authenticated principal found."; otherwise Ok iff a stored user has the principal's username, and that exact stored user is returned; the not-found message names the username |
| UserService.CurrentUserProfile | backend/src/main/java/com/redditclone/backend/service/UserService.java:159-163 | Succeeds exactly when the current user is found; the profile then carries that stored user's id, username and email |
| UserService.ApplyProfileUpdate | backend/src/main/java/com/redditclone/backend/service/UserService.java:177-196 | Fails ("Error: Email is already in use by another account!") iff a different, present email belongs to another user; otherwise the email is replaced only when one is given, the date of birth only when one is given (no age re-check), and id, username, password, roles and createdAt stay the same |
| UserService.ProfileUpdateKeepsUnique | backend/src/main/java/com/redditclone/backend/service/UserService.java:177-183 | Saving an accepted update keeps documents keyed by id and usernames and emails unique |
| UserService.EmptyProfileUpdate | backend/src/main/java/com/redditclone/backend/payload/request/UserProfileUpdateRequest.java:16-23 | A request with both fields null is valid, and applying it changes only updatedAt |
| UserService.RegisterUser | backend/src/main/java/com/redditclone/backend/service/UserService.java:53-87 | The checks run in order: username taken, then email taken, then null date of birth, then age below 13, each with its own error and no save. Success iff every check passes; it then saves exactly one user with the given username, email and date of birth, the encoded password and roles `{"ROLE_USER"}` |
| UserService.UpdateCurrentUserProfile | backend/src/main/java/com/redditclone/backend/service/UserService.java:173-201 | The caller's lookup error is returned unchanged; otherwise the result is the profile update applied to the caller, saved only on success, with the profile response of the saved user |
| UserService.UpdateUserProfile | backend/src/main/java/com/redditclone/backend/service/UserService.java:212-238 | Unknown id gives "User not found with id: " and no save; otherwise the same update is applied to that user, saved only on success |
| UserService.GetAllUsers | backend/src/main/java/com/redditclone/backend/service/UserService.java:245-249 | Non-admin callers are denied; an admin gets every stored user and nothing else |
| UserService.UpdateUserRoles | backend/src/main/java/com/redditclone/backend/service/UserService.java:251-266 | Non-admin callers are denied first (the method's hasRole('ADMIN') guard). Then an unknown user gives "User not found", checked before the roles. Null or empty roles give IllegalArgumentException. Otherwise the role set is replaced wholesale. No failure saves anything |
| UserService.HasAdminRole | backend/src/main/java/com/redditclone/backend/service/UserService.java:251 | hasRole('ADMIN'): ROLE_ADMIN is among the caller's authorities |
| UserService.DeleteUser | backend/src/main/java/com/redditclone/backend/service/UserService.java:273-277 | Unknown id gives an error and deletes nothing; otherwise exactly that user is removed. There is no role check |
| UserService.Signup | backend/src/main/java/com/redditclone/backend/controller/AuthController.java:33-41 | A body breaking the signup constraints is a 400 and nothing is saved. The only statuses are 200 and 400. A 200 carries "User registered successfully!" and leaves a stored `ROLE_USER` user with the encoded password. A 400 saves nothing |
| Profile.ToProfileResponse | backend/src/main/java/com/redditclone/backend/payload/response/UserProfileResponse.java:26-45 | id, username, email, dateOfBirth, roles, createdAt and updatedAt are copied. Without a date of birth, age is null and isAdult false. With one, age is the period in years (whole years for a past date). isAdult always equals "age present and >= 18" |
| AccountRequests.ValidSignupHasAge | backend/src/main/java/com/redditclone/backend/payload/request/SignupRequest.java:29-31 | A valid signup body has a date of birth strictly before today, so the age computed from it exists and is a non-negative whole-years count |
| AccountRequests.ValidSignup | backend/src/main/java/com/redditclone/backend/payload/request/SignupRequest.java:14-31 | Username, e-mail and password not blank, within 3-20, 0-50 and 6-40 UTF-16 code units, the e-mail of e-mail shape, and a date of birth present and in the past |
| AccountRequests.ValidProfileUpdate | backend/src/main/java/com/redditclone/backend/payload/request/UserProfileUpdateRequest.java:16-23 | An e-mail, when sent, of e-mail shape; a date of birth, when sent, in the past |
| AccountRequests.SizeWithin | backend/src/main/java/com/redditclone/backend/payload/request/SignupRequest.java:15 | @Size: the length in UTF-16 code units lies within the bounds |
| AccountRequests.SupplementaryUsernameTooLong | backend/src/main/java/com/redditclone/backend/payload/request/SignupRequest.java:15-16 | A 20-character username with a character outside the Basic Multilingual Plane is refused, being 21 code units long |
| AuthTokenFilter.ExcludedIsUnderPrefix | backend/src/main/java/com/redditclone/backend/security/jwt/AuthTokenFilter.java:42-46 | The three excluded patterns match exactly the paths equal to or below /api/auth, /api/test and /ws |
| AuthTokenFilter.ShouldNotFilter | backend/src/main/java/com/redditclone/backend/security/jwt/AuthTokenFilter.java:87-111 | The loop over the excluded patterns, with its early return, skips a request iff it is on or below one of the three prefixes or is OPTIONS |
| AuthTokenFilter.Exempt | backend/src/main/java/com/redditclone/backend/security/jwt/AuthTokenFilter.java:42-46 | The reference exemption: on or below /api/auth, /api/test or /ws, or an OPTIONS request |
| AuthTokenFilter.ParseJwt | backend/src/main/java/com/redditclone/backend/security/jwt/AuthTokenFilter.java:113-122 | Some iff the header is present and starts, case-sensitively, with "Bearer "; the header is then the prefix followed by the result |
| AuthTokenFilter.ParseJwtOfBearer | backend/src/main/java/com/redditclone/backend/security/jwt/AuthTokenFilter.java:113-122 | "Bearer " + t parses to t, and the bare prefix parses to "" |
| AuthTokenFilter.ParseJwtIsCaseSensitive | backend/src/main/java/com/redditclone/backend/security/jwt/AuthTokenFilter.java:116 | A lower-case "bearer " scheme yields no token |
| AuthTokenFilter.TokenAuthentication | backend/src/main/java/com/redditclone/backend/security/jwt/AuthTokenFilter.java:53-81 | An identity results iff a token is present, valid, has a subject and that subject names a stored user. Its principal is that user, its authorities are the user's stored roles (not the token's), and it is authenticated |
| AuthTokenFilter.DoFilterInternal | backend/src/main/java/com/redditclone/backend/security/jwt/AuthTokenFilter.java:49-84 | The chain is called exactly once. The context gets the token's authentication when there is one and is otherwise left as it was |
| AuthTokenFilter.DoFilter | backend/src/main/java/com/redditclone/backend/security/jwt/AuthTokenFilter.java:49-111 | Exempt requests pass untouched; others go through doFilterInternal; the chain runs once either way |
| WebSecurity.FirstMatch | backend/src/main/java/com/redditclone/backend/security/WebSecurityConfig.java:103-119 | A rule table yields a decision iff some rule matches (method and pattern) |
| WebSecurity.FirstMatchAppend | backend/src/main/java/com/redditclone/backend/security/WebSecurityConfig.java:103-119 | First match over two concatenated tables consults the second only when the first has no match |
| WebSecurity.AllPermitting | backend/src/main/java/com/redditclone/backend/security/WebSecurityConfig.java:105-115 | In a table of permitAll rules, the first match permits iff some rule matches |
| WebSecurity.Required | backend/src/main/java/com/redditclone/backend/security/WebSecurityConfig.java:103-119 | A request is permit-all iff one of the nine listed matchers matches it; otherwise the last rule demands authentication |
| WebSecurity.RequiredIsPublic | backend/src/main/java/com/redditclone/backend/security/WebSecurityConfig.java:105-115 | The table permits exactly: any method on or below /api/auth, /api/test or /ws; OPTIONS anywhere; /error; GET on /api/posts, /api/posts/{id} (search included) and /api/posts/{postId}/comments |
| WebSecurity.ExemptIsPublic | backend/src/main/java/com/redditclone/backend/security/WebSecurityConfig.java:105-108 | Every request the token filter skips is permitted by the table |
| WebSecurity.PostWritesNeedIdentity | backend/src/main/java/com/redditclone/backend/security/WebSecurityConfig.java:112-118 | Any method other than GET and OPTIONS on a path under /api/posts needs authentication |
| WebSecurity.OtherApisNeedIdentity | backend/src/main/java/com/redditclone/backend/security/WebSecurityConfig.java:117-118 | Any other /api path (comments, users, admin) needs authentication for every method but OPTIONS; no role is consulted |
| WebSecurity.Authorize | backend/src/main/java/com/redditclone/backend/security/WebSecurityConfig.java:118 | permitAll always allows; with no identity or the anonymous token, a request is allowed iff its rule is permitAll |
| WebSecurity.HandleRequest | backend/src/main/java/com/redditclone/backend/security/WebSecurityConfig.java:123 | With the token filter placed before authorization, public requests are allowed. Any other request is allowed iff the token yields an identity. The context ends with that identity, or else the anonymous token |
| Cloudinary.UploadFile | backend/src/main/java/com/redditclone/backend/service/CloudinaryService.java:26-38 | An empty file is refused with IllegalArgumentException before any upload; otherwise the upload's own result |
| Cloudinary.ExtractPublicId | backend/src/main/java/com/redditclone/backend/service/CloudinaryService.java:62-76 | Null or empty gives null. A result exists iff both '/' and '.' occur and the last dot is after the last slash; the URL is then prefix + "/" + id + "." + extension, and the id never contains '/' |
| Cloudinary.LastDotOf | backend/src/main/java/com/redditclone/backend/service/CloudinaryService.java:69 | The last dot of prefix/id.ext, with no dot in ext, is the one before ext |
| Cloudinary.LastSlashOf | backend/src/main/java/com/redditclone/backend/service/CloudinaryService.java:68 | The last slash of prefix/id.ext, with no slash in id or ext, is the one after prefix |
| Cloudinary.ExtractPublicIdOf | backend/src/main/java/com/redditclone/backend/service/CloudinaryService.java:66-71 | A URL ending in /<id>.<ext> (no '/' in id or ext, no '.' in ext) yields exactly id, dots inside id included |
| Cloudinary.EmptyIdBeforeDot | backend/src/main/java/com/redditclone/backend/service/CloudinaryService.java:68-71 | A dot right after the last slash yields the empty id |
| Cloudinary.NoExtensionGivesNone | backend/src/main/java/com/redditclone/backend/service/CloudinaryService.java:70-75 | A last segment without a dot (a dotted host earlier in the URL notwithstanding) yields null |
| Cloudinary.DestroyedId | backend/src/main/java/com/redditclone/backend/service/CloudinaryService.java:46-59 | destroy is called only with a non-null, non-empty extracted id, and for every such id |
| JavaStrings.ToLower | backend/src/main/java/com/redditclone/backend/service/PostService.java:105 | Same length, each character mapped by the ASCII lower-casing |
| JavaStrings.Utf16Length | backend/src/main/java/com/redditclone/backend/payload/request/SignupRequest.java:15 | String.length(): at least the character count and at most twice it, and equal to it when every character is in the Basic Multilingual Plane |
| JavaStrings.Utf16LengthConcat | backend/src/main/java/com/redditclone/backend/payload/request/SignupRequest.java:15 | The code units of a concatenation are the sum of its parts' |
| JavaStrings.NotContainsIfLacks | backend/src/main/java/com/redditclone/backend/controller/PostController.java:176 | A string lacking one of the characters of `sub` does not contain `sub` |
| JavaStrings.Contains | backend/src/main/java/com/redditclone/backend/controller/PostController.java:176 | String.contains: `sub` occurs at some position of the string (a specification helper; its uses are stated by NotContainsIfLacks and UpdateResponse) |
| JavaStrings.StartsWith | backend/src/main/java/com/redditclone/backend/security/jwt/AuthTokenFilter.java:116 | String.startsWith: the string begins with the prefix (a specification helper; ParseJwt states its round trip) |
| JavaStrings.IsBlank | backend/src/main/java/com/redditclone/backend/payload/request/PostUpdateRequest.java:15-20 | @NotBlank's failing case: every character is at most U+0020, so trim() leaves nothing, the empty string included (a specification helper of ValidPostUpdate and ValidSignup) |
| JavaStrings.LowerAll | backend/src/main/java/com/redditclone/backend/service/PostService.java:104-106 | Same length, each tag lower-cased, in order |
| JavaStrings.ToLowerIdempotent | backend/src/main/java/com/redditclone/backend/service/PostService.java:213-215 | Lower-casing stored tags again changes nothing |
| JavaStrings.LastIndexOf | backend/src/main/java/com/redditclone/backend/service/CloudinaryService.java:68-69 | -1 iff the character is absent; otherwise the position holds it and nothing after does |
| JavaStrings.LastIndexOfConcat | backend/src/main/java/com/redditclone/backend/service/CloudinaryService.java:68-69 | The last occurrence in s + t lies in t when t has one, otherwise in s |
| JavaStrings.LastIndexOfSnoc | backend/src/main/java/com/redditclone/backend/service/CloudinaryService.java:68-69 | Appending one character moves the last occurrence to the end exactly when it is that character |
| JavaStrings.SplitAll | backend/src/main/java/com/redditclone/backend/controller/PostController.java:101 | All pieces between separators, at least one, none containing the separator |
| JavaStrings.JoinSplitAll | backend/src/main/java/com/redditclone/backend/controller/PostController.java:101 | Joining the pieces with the separator gives the string back |
| JavaStrings.DropTrailingEmpty | backend/src/main/java/com/redditclone/backend/controller/PostController.java:101 | A prefix of the pieces, not ending in an empty piece, dropping only empty ones |
| JavaStrings.JavaSplit | backend/src/main/java/com/redditclone/backend/controller/PostController.java:101 | String.split: no separator gives [s]; pieces never contain the separator; trailing empty pieces are removed |
| JavaStrings.SplitAllLastNonEmpty | backend/src/main/java/com/redditclone/backend/controller/PostController.java:101 | A string not ending in the separator has a non-empty last piece |
| JavaStrings.JoinJavaSplit | backend/src/main/java/com/redditclone/backend/controller/PostController.java:101 | For a string not ending in the separator, split then join is the identity |
| Sorting.InsertBy | backend/src/main/java/com/redditclone/backend/service/PostService.java:111 | Insertion keeps the order by key and adds exactly one element |
| Sorting.SortBy | backend/src/main/java/com/redditclone/backend/service/PostService.java:111 | Ordered by key and a permutation of the input |
| Sorting.Page | backend/src/main/java/com/redditclone/backend/service/PostService.java:112 | At most `size` elements, exactly the elements at positions page*size onwards, clipped at the end; empty past the end |
| Sorting.OnItsPage | backend/src/main/java/com/redditclone/backend/service/PostService.java:112 | The k-th element is element k - (k/size)*size of page k/size |
| Sorting.PageOfSorted | backend/src/main/java/com/redditclone/backend/service/PostService.java:111-112 | A page of a sorted sequence is sorted |
| Sorting.SortByMembers | backend/src/main/java/com/redditclone/backend/service/PostService.java:111 | Sorting keeps exactly the same members |
| Posts.WithLike | backend/src/main/java/com/redditclone/backend/model/Post.java:42-47 | The user is in the result; a present user changes nothing; otherwise exactly one user is added; no duplicates are created |
| Posts.RemoveFirst | backend/src/main/java/com/redditclone/backend/model/Post.java:50-54 | An absent user changes nothing; a present one shortens the list by one; other users stay |
| Posts.RemoveFirstNoDuplicates | backend/src/main/java/com/redditclone/backend/model/Post.java:50-54 | On a duplicate-free list the user is gone afterwards and the list stays duplicate-free |
| Posts.RemoveFirstOfAppended | backend/src/main/java/com/redditclone/backend/model/Post.java:42-54 | Removing a user just appended restores the list exactly |
| Posts.Post.Doc | backend/src/main/java/com/redditclone/backend/model/Post.java:16-28 | The saved document satisfies the like invariant whenever the object does |
| Posts.Post.Create | backend/src/main/java/com/redditclone/backend/service/PostService.java:57-67 | A new post holds the given title, content, author, tags and flag, with no likes, count 0, no media and both stamps `now` |
| Posts.Post.Load | backend/src/main/java/com/redditclone/backend/model/Post.java:16-28 | The object holds exactly the stored document, and keeps the like invariant when the document does |
| Posts.Post.AddMediaUrl | backend/src/main/java/com/redditclone/backend/service/PostService.java:74 | The URL is appended to the media list |
| Posts.Post.SetUpdatedAt | backend/src/main/java/com/redditclone/backend/model/Post.java:37-39 | The update stamp becomes the given time |
| Posts.Post.AddLike | backend/src/main/java/com/redditclone/backend/model/Post.java:42-47 | Keeps no-duplicates and likeCount == |likedBy|; an absent user is appended and counted; a present one changes nothing |
| Posts.Post.RemoveLike | backend/src/main/java/com/redditclone/backend/model/Post.java:50-54 | Keeps the invariant; a present user is removed and the count drops by one; an absent one changes nothing |
| Posts.LikeThenUnlike | backend/src/main/java/com/redditclone/backend/model/Post.java:42-54 | addLike then removeLike of a user who had not liked restores likedBy and likeCount exactly |
| PostService.StoredTags | backend/src/main/java/com/redditclone/backend/service/PostService.java:62-63 | Null tags become []; otherwise each tag lower-cased, in order |
| PostService.NonEmptyFiles | backend/src/main/java/com/redditclone/backend/service/PostService.java:70-77 | The files uploaded are exactly the non-empty ones |
| PostService.UploadAll | backend/src/main/java/com/redditclone/backend/service/PostService.java:70-77 | The media loop: each non-empty file uploaded in order, its URL appended, the first failure ending the loop (a specification helper; UploadAllOneUrlPerFile and UploadAllErrSticks state its meaning) |
| PostService.UploadAllOneUrlPerFile | backend/src/main/java/com/redditclone/backend/service/PostService.java:70-77 | A successful media loop yields one URL per non-empty file, in file order, each the upload's answer for that file |
| PostService.UploadAllErrSticks | backend/src/main/java/com/redditclone/backend/service/PostService.java:71-76 | The first failed upload ends the loop with its exception |
| PostService.CreatePost | backend/src/main/java/com/redditclone/backend/service/PostService.java:52-80 | Unknown author gives "Author not found with id: " and no save. A failed upload propagates its exception and saves nothing. Otherwise one post is saved with lower-cased tags, one URL per non-empty file, and no likes |
| PostService.Selected | backend/src/main/java/com/redditclone/backend/service/PostService.java:97-108 | Exactly the posts allowed by the NSFW rule and, when tags are given, sharing one of them; no post more often than in the collection |
| PostService.InFeed | backend/src/main/java/com/redditclone/backend/service/PostService.java:97-108 | The combined Criteria for one post: NSFW allowed or the post is not NSFW, and no tags given or one of the post's tags among the lower-cased ones (a specification helper of Selected) |
| PostService.NewestFirstKey | backend/src/main/java/com/redditclone/backend/service/PostService.java:111 | Sort.by(DESC, "createdAt") as an ascending key: a later createdAt sorts earlier (a specification helper of Feed) |
| PostService.Feed | backend/src/main/java/com/redditclone/backend/service/PostService.java:97-111 | Exactly the posts the filter keeps, as many as it keeps, newest first |
| PostService.GetPosts | backend/src/main/java/com/redditclone/backend/service/PostService.java:92-120 | The page holds exactly `size` posts, or what is left of the selected posts after `page*size`, or none past the end; each comes from the collection. NSFW posts are excluded unless the caller is authenticated and adult, and tags filter by any shared lower-cased tag. Newest first |
| PostService.FeedIsPaged | backend/src/main/java/com/redditclone/backend/service/PostService.java:111-115 | Post number page*size + offset of the sorted feed is post number offset of the returned page; with the page length GetPosts states, this fixes the page |
| PostService.Toggled | backend/src/main/java/com/redditclone/backend/service/PostService.java:143-147 | The user's membership flips, everyone else's is unchanged, no duplicates |
| PostService.ToggleTwice | backend/src/main/java/com/redditclone/backend/service/PostService.java:139-150 | Toggling twice restores who liked the post, and the exact list when the user had not liked it |
| PostService.ToggleLike | backend/src/main/java/com/redditclone/backend/service/PostService.java:139-150 | Unknown post throws and saves nothing; otherwise the like flips, the count follows and updatedAt is set |
| PostService.ValidPostUpdate | backend/src/main/java/com/redditclone/backend/payload/request/PostUpdateRequest.java:15-21 | Title and content present and not blank, at most 255 and 5000 UTF-16 code units |
| PostService.UpdatePost | backend/src/main/java/com/redditclone/backend/service/PostService.java:199-224 | An unknown post fails with "Post not found". A post whose author was deleted fails with a NullPointerException. A non-author (admins included) fails with "Unauthorized to update this post.". None of these saves anything. Otherwise exactly title, content, lower-cased tags, isNsfw and updatedAt change |
| PostService.DestroyCalls | backend/src/main/java/com/redditclone/backend/service/PostService.java:242 | Only destroy calls, at most one per media URL, and a destroy of the public id of every URL that yields a non-empty one |
| PostService.DestroyCallsFromUrls | backend/src/main/java/com/redditclone/backend/service/PostService.java:242 | Conversely, every destroy call is for the public id of one of the listed URLs |
| PostService.DestroyCallsAppend | backend/src/main/java/com/redditclone/backend/service/PostService.java:242 | The calls for two lists of URLs, one after the other, are the first list's calls followed by the second's, so the calls follow URL order |
| PostService.DestroyCallsOne | backend/src/main/java/com/redditclone/backend/service/PostService.java:242 | A single URL gives one destroy of its public id when it has one, and no call otherwise |
| PostService.DeletePost | backend/src/main/java/com/redditclone/backend/service/PostService.java:233-245 | An unknown post fails. A post whose author was deleted fails with a NullPointerException, even for an admin. A requester who is neither author nor admin fails. Nothing is deleted on any failure. Otherwise every media URL's destroy is issued, then the document is removed |
| PostController.CallerFlagsAsWritten | backend/src/main/java/com/redditclone/backend/controller/PostController.java:90-98 | Authenticated iff a user principal is present. Adult is always false, because it is read from the @Transient flag, which is never stored |
| PostController.LoadedIsAdult | backend/src/main/java/com/redditclone/backend/model/User.java:26-27 | The @Transient isAdult of a user read back by findById: never persisted, so it keeps the default false that PostController.java:97 reads (a specification helper of CallerFlagsAsWritten) |
| PostController.CallerFlags | backend/src/main/java/com/redditclone/backend/controller/PostController.java:90-98 | Authenticated iff a user principal is present; adult iff isUserAdult says so for that user |
| PostController.AdultByBirthDate | backend/src/main/java/com/redditclone/backend/controller/PostController.java:97 | A caller whose stored date of birth is 18 or more whole years back is authenticated and adult |
| PostController.TagList | backend/src/main/java/com/redditclone/backend/controller/PostController.java:100-102 | Absent gives []; pieces never contain a comma; a comma-free tag is the only piece; a value not ending in a comma is recovered by joining the pieces |
| PostController.GetPostsAsWritten | backend/src/main/java/com/redditclone/backend/controller/PostController.java:86-106 | A negative page or size < 1 is an uncaught 500. Otherwise 200 with a page that never contains an NSFW post, whoever asks |
| PostController.GetPostsEndpoint | backend/src/main/java/com/redditclone/backend/controller/PostController.java:86-106 | Corrected: 200 with posts allowed by the NSFW rule for the caller's real adulthood and by the split tags |
| PostController.AdultNeverSeesNsfwAsWritten | backend/src/main/java/com/redditclone/backend/controller/PostController.java:97 | For an adult caller and one NSFW post, the feed as written is empty while the corrected feed shows the post |
| PostController.GetPostById | backend/src/main/java/com/redditclone/backend/controller/PostController.java:114-118 | 200 with the post iff it exists, otherwise 404 with no body |
| PostController.GetCommentsForPost | backend/src/main/java/com/redditclone/backend/controller/PostController.java:212-228 | Always 200 with exactly the post's comments |
| PostController.CreateResponse | backend/src/main/java/com/redditclone/backend/controller/PostController.java:68-74 | 201 iff created; IOException gives 500 "Failed to upload media or create post: " + message; any other exception 400 with its message |
| PostController.CreatePostEndpoint | backend/src/main/java/com/redditclone/backend/controller/PostController.java:56-75 | A String principal fails the cast and gives 400 with the leading part of the ClassCastException message. 201 iff the author is stored and every upload succeeds, with that post saved. 500 iff an upload threw IOException. Nothing is saved otherwise |
| PostController.ToggleResponse | backend/src/main/java/com/redditclone/backend/controller/PostController.java:151-155 | 200 with the post, or 400 with the RuntimeException's message |
| PostController.ToggleLikeEndpoint | backend/src/main/java/com/redditclone/backend/controller/PostController.java:145-156 | 200 iff there is a user principal and the post exists, with the caller's like toggled; otherwise 400 and nothing changes |
| PostController.UpdateResponse | backend/src/main/java/com/redditclone/backend/controller/PostController.java:174-181 | A message containing "Unauthorized" is 403, any other RuntimeException 400, both carrying the message |
| PostController.NullAuthorMessageLacksUnauthorized | backend/src/main/java/com/redditclone/backend/controller/PostController.java:174-181 | The NullPointerException of a deleted author does not mention "Unauthorized", so that handler answers it 400 |
| PostController.NonAuthorMessageMentionsUnauthorized | backend/src/main/java/com/redditclone/backend/service/PostService.java:204-206 | The non-author message contains "Unauthorized", so it maps to 403 |
| PostController.UpdatePostEndpoint | backend/src/main/java/com/redditclone/backend/controller/PostController.java:166-182 | A body breaking the field constraints is a 400. 200 iff the caller is the author and that user is stored, changing exactly the updatable fields. A post whose author was deleted gets 400 with the NullPointerException's message. A non-author gets 403 "Unauthorized to update this post." |
| PostController.DeleteResponse | backend/src/main/java/com/redditclone/backend/controller/PostController.java:199-203 | 200 "Post deleted successfully.", or 403 with the message for any RuntimeException |
| PostController.IsAdmin | backend/src/main/java/com/redditclone/backend/controller/PostController.java:196-197 | Whether ROLE_ADMIN is among the authorities the filter installed from the stored user |
| PostController.DeletePostEndpoint | backend/src/main/java/com/redditclone/backend/controller/PostController.java:191-204 | 200 iff the post exists, its author is stored, and the caller is that author or has ROLE_ADMIN among the installed authorities. Every failure, "Post not found" and a deleted author included, is 403 with no effect |
| CommentService.CommentsOf | backend/src/main/java/com/redditclone/backend/service/CommentService.java:29-32 | Exactly the comments of the post, each no more often than in the collection |
| CommentService.CommentsOfAppend | backend/src/main/java/com/redditclone/backend/service/CommentService.java:30 | The filter keeps scan order (distributes over concatenation) |
| CommentService.GetCommentsByPostId | backend/src/main/java/com/redditclone/backend/service/CommentService.java:29-32 | Exactly the post's comments, whatever the current user id |
| CommentService.CreateComment | backend/src/main/java/com/redditclone/backend/service/CommentService.java:41-60 | Unknown post fails before the author is looked up, then unknown author fails; neither saves. Otherwise one comment with the request's content, the post and the author is saved |
| CommentService.DeleteOutcome | backend/src/main/java/com/redditclone/backend/service/CommentService.java:70-91 | Ok iff the comment, the requester and the comment's author exist and the requester is the author or has ROLE_ADMIN in stored roles. A missing comment and a missing requester are RuntimeExceptions, in that order. Then a deleted author is a NullPointerException, even for an admin. A refused requester gets AccessDeniedException |
| CommentService.DeleteOutcomeCorrected | backend/src/main/java/com/redditclone/backend/service/CommentService.java:62-68 | Corrected: same successes; ResourceNotFoundException iff the comment is missing; UnauthorizedException iff the author is stored and the requester is refused |
| CommentService.DeleteComment | backend/src/main/java/com/redditclone/backend/service/CommentService.java:70-91 | Returns that outcome and removes the comment iff it is Ok |
| CommentController.GetCommentsForPost | backend/src/main/java/com/redditclone/backend/controller/CommentController.java:40-50 | Always 200 with exactly the post's comments |
| CommentController.CreateResponse | backend/src/main/java/com/redditclone/backend/controller/CommentController.java:59-69 | 201 with the comment, or 400 with any exception's message |
| CommentController.CreateCommentEndpoint | backend/src/main/java/com/redditclone/backend/controller/CommentController.java:58-70 | A String principal gives 400 with the leading part of the ClassCastException message. 201 iff the post and the author exist, saving the comment. The body is not validated |
| CommentController.DeleteResponse | backend/src/main/java/com/redditclone/backend/controller/CommentController.java:79-99 | No user principal gives 401 "User not authenticated."; success 200 "Comment deleted successfully!"; ResourceNotFound 404; Unauthorized 403; anything else 500 "Error deleting comment: " + message |
| CommentController.DeleteCommentAsWritten | backend/src/main/java/com/redditclone/backend/controller/CommentController.java:79-99 | With the service's real exceptions the status is always 200, 401 or 500; 200 iff the deletion is allowed |
| CommentController.DeleteCommentCorrected | backend/src/main/java/com/redditclone/backend/controller/CommentController.java:91-98 | Corrected: 404 iff the comment is missing, 403 iff its author is stored and the requester is refused, and 200 exactly as before |
| CommentController.OrphanCommentIs500 | backend/src/main/java/com/redditclone/backend/service/CommentService.java:77-87 | A comment whose author was deleted is answered 500 with the NullPointerException's message, to an admin too, both as written and corrected |
| CommentController.MissingCommentIs500AsWritten | backend/src/main/java/com/redditclone/backend/controller/CommentController.java:91-98 | A missing comment is answered 500 as written and 404 when corrected |
| CommentController.RefusedRequesterIs500AsWritten | backend/src/main/java/com/redditclone/backend/controller/CommentController.java:91-98 | A refused requester (the comment's author being stored) is answered 500 as written and 403 when corrected |
| MessageService.SaveMessage | backend/src/main/java/com/redditclone/backend/service/MessageService.java:25-29 | The saved message has timestamp `now` and read = false, stored under its id |
| MessageService.Matching | backend/src/main/java/com/redditclone/backend/repository/MessageRepository.java:12 | Exactly the messages meeting either (sender, receiver) criterion |
| MessageService.FindBySenderAndReceiverOrReceiverAndSender | backend/src/main/java/com/redditclone/backend/repository/MessageRepository.java:12 | The matching messages, in ascending timestamp order and with the same multiplicities; parameters bind in the order of the method name (Sender, Receiver, Receiver, Sender) |
| MessageService.GetMessagesBetweenUsersAsWritten | backend/src/main/java/com/redditclone/backend/service/MessageService.java:37-42 | As written: exactly the messages user1 sent to user2, ascending by timestamp |
| MessageService.GetMessagesBetweenUsers | backend/src/main/java/com/redditclone/backend/service/MessageService.java:31-36 | Corrected: the messages in both directions, ascending by timestamp |
| MessageService.ReplyMissingAsWritten | backend/src/main/java/com/redditclone/backend/service/MessageService.java:37-42 | A reply from user2 to user1 is missing as written and present when corrected |
| MessageService.MatchingSwapped | backend/src/main/java/com/redditclone/backend/repository/MessageRepository.java:12 | Swapping the two users in the corrected criteria selects the same messages in the same order |
| MessageService.ConversationSymmetric | backend/src/main/java/com/redditclone/backend/service/MessageService.java:31-36 | The corrected conversation is the same whichever participant asks |
| MessageService.MarkReadClosedForm | backend/src/main/java/com/redditclone/backend/service/MessageService.java:50-61 | Afterwards, exactly the listed messages addressed to the receiver are read; unknown ids add nothing and all other messages are unchanged |
| MessageService.MarkRead | backend/src/main/java/com/redditclone/backend/service/MessageService.java:52-58 | The loop body applied to each listed id in order: a found message addressed to the receiver and unread becomes read (a specification helper; MarkReadClosedForm states the result in closed form) |
| MessageService.MarkReadIdempotent | backend/src/main/java/com/redditclone/backend/service/MessageService.java:54 | A second call with the same arguments changes nothing |
| MessageService.MarkReadKeepsKeyed | backend/src/main/java/com/redditclone/backend/service/MessageService.java:53-56 | Every message stays under its own id |
| MessageService.FlipCountIsFlippedIds | backend/src/main/java/com/redditclone/backend/service/MessageService.java:44-49 | The number of saves equals the number of distinct listed ids of unread messages for the receiver |
| MessageService.Reached | backend/src/main/java/com/redditclone/backend/service/MessageService.java:52-54 | How far the loop gets: no id before that point has a message with a deleted receiver, and the id at that point, if any, does |
| MessageService.ReachedStep | backend/src/main/java/com/redditclone/backend/service/MessageService.java:52-56 | At each step the message the loop sees has a deleted receiver exactly when the loop has reached that point |
| MessageService.MarkMessagesAsRead | backend/src/main/java/com/redditclone/backend/service/MessageService.java:50-63 | As written: the loop marks the listed ids up to the first message whose receiver was deleted. That message gives a NullPointerException, and the earlier marks stay saved. Without such a message the whole list is marked and the returned count is always 0 |
| MessageService.MarkMessagesAsReadCounted | backend/src/main/java/com/redditclone/backend/service/MessageService.java:44-63 | Corrected: the same store update and the same NullPointerException on a deleted receiver; otherwise the count is the number of messages actually updated |
| MessageService.OneUnreadCountsOne | backend/src/main/java/com/redditclone/backend/service/MessageService.java:51-62 | One unread message for the receiver is counted 1 when corrected, where the code answers 0 |
| WebSocketMessageController.SendMessage | backend/src/main/java/com/redditclone/backend/controller/WebSocketMessageController.java:35-77 | If the principal's username or the payload's receiver does not resolve, nothing is saved or sent. Otherwise one message is saved from the authenticated sender, never the payload's, unread and stamped now. It is delivered to exactly the receiver and then the sender, both on /queue/messages |
| AuthStore.Or | frontend/src/lib/stores/authStore.js:53-54 | `a || b`: a when a is truthy, otherwise b |
| AuthStore.Member | frontend/src/lib/stores/authStore.js:60 | Property read: TypeError iff the value is null or undefined; the field when present; otherwise undefined |
| AuthStore.Merge | frontend/src/lib/stores/authStore.js:185 | Object spread: all keys of both, the new value winning |
| AuthStore.MergeIdempotent | frontend/src/lib/stores/authStore.js:183-190 | Merging the same profile twice equals merging it once |
| AuthStore.LoadInitialState | frontend/src/lib/stores/authStore.js:7-34 | A non-empty user cookie that fails to parse removes both cookies and gives user and token null. Otherwise the cookies are kept, the token is the non-empty token cookie or null, and isAuthenticated is true iff there is a token |
| AuthStore.ReceivedUser | frontend/src/lib/stores/authStore.js:61-67 | The stored user has exactly the keys id, username, email, roles and type, copied from the response |
| AuthStore.LoginTransition | frontend/src/lib/stores/authStore.js:40-95 | Success iff the response is ok and carries a truthy token; the state, both cookies and the result then hold that user and token. Every failure resets the state to the cookie-derived state plus a truthy error, preferring the server's message. An ok response without a token gives the two missing-token messages |
| AuthStore.ReloadAfterLogin | frontend/src/lib/stores/authStore.js:75-86 | After a successful login, reading the cookies back restores an authenticated state with the same user and token |
| AuthStore.AuthHeaders | frontend/src/lib/stores/authStore.js:156-159 | The caller's headers plus Authorization: Bearer <token>, which overrides any caller value |
| AuthStore.Session.constructor | frontend/src/lib/stores/authStore.js:36 | The store starts from loadInitialState |
| AuthStore.Session.Login | frontend/src/lib/stores/authStore.js:40-95 | The store and cookies become what the login transition says |
| AuthStore.Session.Logout | frontend/src/lib/stores/authStore.js:96-107 | Both cookies are removed and the state is logged out (false, null, null, null), whatever came before |
| AuthStore.Session.FetchWithAuth | frontend/src/lib/stores/authStore.js:142-180 | No token: logout and "Not authenticated." without any request. Otherwise one request with the bearer header. 401/403: logout and "Session expired or unauthorized.". A rejected fetch rethrows with the state untouched. Any other status is returned |
| AuthStore.Session.UpdateUser | frontend/src/lib/stores/authStore.js:183-191 | The user becomes the shallow merge, new fields winning; token and isAuthenticated unchanged; the user cookie rewritten |
| MessageStore.OtherParticipant | frontend/src/lib/stores/messageStore.js:61-65 | The receiver when the current user sent the message, otherwise the sender |
| MessageStore.Appended | frontend/src/lib/stores/messageStore.js:66-77 | The message is appended to that conversation only, and to the active list iff that chat is active |
| MessageStore.OnReceived | frontend/src/lib/stores/messageStore.js:59-78 | An incoming message is appended to the other participant's conversation, other conversations unchanged; the active list grows iff that participant is active |
| MessageStore.Optimistic | frontend/src/lib/stores/messageStore.js:128-140 | The sent message is appended to conversations[receiverId] and to the active list iff that chat is active |
| MessageStore.WithActiveChat | frontend/src/lib/stores/messageStore.js:149-155 | activeChatId := u and messages := that conversation, or [] if none |
| MessageStore.Cleared | frontend/src/lib/stores/messageStore.js:103 | Disconnected, with messages, conversations and activeChatId cleared |
| MessageStore.InSyncKept | frontend/src/lib/stores/messageStore.js:149-155 | Opening a chat synchronises the active list with its conversation, and every update keeps them in step |
| MessageStore.SenderSeesOwnMessageTwice | frontend/src/lib/stores/messageStore.js:128-131 | When the server echoes a sent message back to its sender, the sender's conversation with the receiver holds it twice: once optimistic, once echoed. So does the open chat |
| MessageStore.Backoff | frontend/src/lib/stores/messageStore.js:88-91 | A retry is scheduled iff fewer than 5 attempts were counted |
| MessageStore.RetryDelaysFollowSchedule | frontend/src/lib/stores/messageStore.js:84-95 | Successive failures schedule the next entries of 2000, 4000, 8000, 16000, 32000 ms and stop after the fifth |
| MessageStore.AtMostFiveRetries | frontend/src/lib/stores/messageStore.js:19-20 | From a reset counter, any run of failures schedules at most five retries, and exactly the five delays once five have failed |
| MessageStore.ChatClient.constructor | frontend/src/lib/stores/messageStore.js:9-20 | The initial store value, no connection, counter 0 |
| MessageStore.ChatClient.Connect | frontend/src/lib/stores/messageStore.js:26-56 | No token: only the error is set. An open connection is left alone. Otherwise a fresh client replaces the old one, with no subscription |
| MessageStore.ChatClient.OnConnect | frontend/src/lib/stores/messageStore.js:48-56 | Connected, error cleared, counter reset to 0. The user's queue is subscribed when a user id is known, and there is no subscription otherwise |
| MessageStore.ChatClient.OnConnectError | frontend/src/lib/stores/messageStore.js:84-95 | Failed state with no live subscription. Below 5 attempts the counter rises by one and one retry is scheduled at 2^n*1000 ms. The counter never exceeds 5 |
| MessageStore.ChatClient.Receive | frontend/src/lib/stores/messageStore.js:56-79 | A frame on the subscribed queue is filed by OnReceived; an unconnected client files nothing |
| MessageStore.ChatClient.Send | frontend/src/lib/stores/messageStore.js:111-146 | Unchanged when not connected or without a sender id; otherwise one frame is published and the optimistic update applied |
| MessageStore.ChatClient.SetActiveChat | frontend/src/lib/stores/messageStore.js:149-155 | The state becomes WithActiveChat |
| MessageStore.ChatClient.Disconnect | frontend/src/lib/stores/messageStore.js:99-109 | Afterwards there is no connection and no subscription; an open connection also has its history cleared |
| Model.CallerUserId | backend/src/main/java/com/redditclone/backend/controller/CommentController.java:41-46 | The caller's id iff the authentication is present, authenticated and not a String principal |
| Model.CallerId | backend/src/main/java/com/redditclone/backend/controller/PostController.java:64-66 | The unguarded cast: Ok with the id for a user principal, otherwise a ClassCastException whose message is the leading part of the JDK's text |
| Model.FindByUsername | backend/src/main/java/com/redditclone/backend/repository/UserRepository.java:11 | Some iff a stored user has that username, and then that stored user |

## Left out

- `searchPosts`: the regex search over titles and content is not modelled. Its endpoint is covered only as a public GET path in the security table.
- Token issuing and checking (`JwtUtils`), `authenticateUser` and the password-encoder beans: these are parameters (`valid`, `subject`, `encode`).
- CORS and STOMP broker configuration: configuration, with no rule to state.
- `signupUser` in `authStore.js`: a plain request wrapper that does not change the store.
- The `Page` metadata (total count, page number) of the feed: only the page's content is modelled.
- The order of posts with equal `createdAt`: MongoDB does not fix it, and the model uses a stable sort.
- Clocks and randomness: `LocalDateTime.now()`, `LocalDate.now()` and generated ids are parameters.
- Concurrency, such as two registrations racing past the uniqueness checks: every operation runs alone against the store.
- Unicode case mapping: `String.toLowerCase` is modelled only for ASCII letters.
- The text of a `NullPointerException`: the model uses the JDK's detailed message, which the JVM may be configured to leave out.
- Model.CallerId: the text of a `ClassCastException` is only its leading part (`CastFailure`); the JDK's module and class-loader details that follow depend on how the application is launched.
- Ant path matching of empty segments and trailing slashes: paths are given as non-empty segments.
- Spring's request-parameter binding: the comma splitting of the `tags` list of `createPost`, and the 400 for a missing required parameter.
- Errors in the Cloudinary client: exceptions from `destroy` other than `IOException`, and a null `secure_url` in an upload result.
- Null strings inside request bodies and the exact `@Email` pattern: the `@Email` pattern is the `shaped` parameter.
- JavaScript details:
  - NaN;
  - spreading strings and arrays;
  - the `window` test (the model assumes a browser);
  - header names differing only in case;
  - the client-side timestamp of a sent message;
  - the `alert`.
- The reconnect timer's firing and `clearTimeout`, SockJS socket creation, and the asynchronous disconnect callback: the model runs the callback at once.
- The `authStore` subscription that connects and disconnects the chat client: the caller invokes those transitions.
- The STOMP principal: it is given by its name.
- A null `Authentication` in the controllers: the anonymous filter always sets one.
- Logging and `console` output.
- Java integer widths: like counts and the mark-as-read count stay far below 2^31. Ages are computed with unbounded integers, and only `Period.between`'s truncating division is modelled.
- UserService.CurrentUserProfile: states only the id, username and email of the returned profile. `Profile.ToProfileResponse` states the remaining fields.
- WebSecurity.Authorize: states only the permit-all case and the no-identity/anonymous case. `WebSecurity.HandleRequest` states the full decision for a fresh request.
- UserService.Signup: states the statuses, the 400 for a bad body and the state a 200 leaves. It does not state the exact condition for a 200, which `UserService.RegisterUser` states.

## Findings

| source | as written | input that shows it | evidently intended | confidence | as-written member | corrected member |
|---|---|---|---|---|---|---|
| backend/src/main/java/com/redditclone/backend/controller/PostController.java:97 | adulthood is read from `User.isAdult`, a `@Transient` field that is never persisted, so it is always false after loading | an authenticated user born more than 18 years ago and one NSFW post: `GET /api/posts` returns an empty page | adulthood decided from the stored date of birth, as `isUserAdult` does | not executed | PostController.GetPostsAsWritten | PostController.GetPostsEndpoint |
| backend/src/main/java/com/redditclone/backend/service/MessageService.java:50-63 | `updatedCount` is never incremented, so the method always returns 0 | one unread message addressed to the receiver, its id passed: returns 0 | the number of messages marked read, as its documentation states | not executed | MessageService.MarkMessagesAsRead | MessageService.MarkMessagesAsReadCounted |
| backend/src/main/java/com/redditclone/backend/service/MessageService.java:37-42 | the derived query binds `(user1, user2, user2, user1)` to `Sender, Receiver, Receiver, Sender`, so both criteria mean "user1 sent to user2" | a reply from user2 to user1 is not among the messages between user1 and user2 | messages in both directions, as its documentation states | not executed | MessageService.GetMessagesBetweenUsersAsWritten | MessageService.GetMessagesBetweenUsers |
| backend/src/main/java/com/redditclone/backend/controller/CommentController.java:91-98 | the service throws a plain `RuntimeException` for a missing comment and an `AccessDeniedException` for a refused requester, so the 404 and 403 handlers never run | deleting an unknown comment id as a logged-in user answers 500 "Error deleting comment: Comment not found with id: …" | `ResourceNotFoundException` (404) and `UnauthorizedException` (403), as the service's documentation states | not executed | CommentController.DeleteCommentAsWritten | CommentController.DeleteCommentCorrected |
