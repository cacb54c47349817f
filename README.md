# Session, token and bookmark core of a React Native learning-app client

This Dafny project models the stateful core of a mobile course-browsing client
that talks to a public REST API:

- **Token helpers and REST calls** (`services/api.ts`, module `Api`). The bearer
  token is written to and read from the general key-value store (AsyncStorage)
  under `auth_token`, but `removeToken` deletes it from the secure store
  (SecureStore). `validateToken` re-reads the token and probes `GET …/users/me`.
  `login`, `register`, `fetchRandomUsers` and `fetchRandomProducts` return the
  parsed body whatever the HTTP status, and turn every failure into
  `Error("Network error")`.
- **Session provider** (`contexts/AuthContext.tsx`, module `Session`). A class
  `AuthProvider` with the fields `user`, `token` and `isLoading`, and the methods
  `Login`, `Logout` and `CheckAuth`.
- **Courses provider** (`contexts/CoursesContext.tsx`, module `Courses`). The
  catalogue built from the two public feeds, the list of bookmarked course
  snapshots, its toggle, and its persistence under `bookmarkedCourses`. The list
  computations (`find`, `some`, `filter`, the `map`s and the concatenation) are
  functions. The provider operations are methods of a class `CoursesProvider`.

Supporting modules: `Wrappers` (Option and Result), `Text` (decimal rendering of
an index and first-occurrence `replace`), and `KeyValue` (a class `Store<V>`
standing for a storage backend: a map updated in place, where every call may
fail).

The outside world appears as parameters:
- A storage call takes `available: bool`, which says whether the backend
  answered.
- The network is a `Server<T>`, a function from the request sent to its
  `Reply`: a delivered response (the `ok` flag and the body, if the body parsed
  as JSON) or a transport failure.
- `Math.random()` is a function `draws: nat -> Draw`, where `Draw` is a natural
  number below 100. It gives the value of `Math.floor(Math.random() * 100)` for
  each user index.

Two behaviours of the code do not follow from the operations' names, and the
model states them as the code has them:
- Logging out, and `checkAuth` rejecting a stored token, do not erase the token
  from where it is read. Deletion targets the secure store, and reads target the
  general store. `Api.TokenSurvivesRemoval` and `Session.RejectedTokenStaysStored`
  prove that the token is still returned afterwards.
- When the stored bookmark list is missing, unreadable or does not parse,
  `loadBookmarks` leaves the in-memory list as it was. It does not reset the
  list to empty.

## Model

| member | source | states |
|---|---|---|
| `Text.Decimal` | contexts/CoursesContext.tsx:63 | An index renders as a non-empty string of decimal digits, and as one digit exactly when it is below 10. |
| `Text.DecimalRoundTrip` | contexts/CoursesContext.tsx:63 | Reading back the digits of `${index}` gives the index again. |
| `Text.DecimalInjective` | contexts/CoursesContext.tsx:63 | Distinct indices give distinct texts, so synthesized ids never collide within one feed. |
| `Text.Replace` | services/api.ts:107 | `s.replace(pat, rep)` with a string pattern: the result is either `s` itself or has had exactly one occurrence's length swapped for the replacement's (the occurrence replaced is fixed by `Text.ReplaceFirst`). |
| `Text.ReplaceAbsent` | services/api.ts:107 | A string in which the pattern does not occur comes back unchanged. |
| `Text.IndexOfFrom` | services/api.ts:107 | The result is the first position at which the pattern occurs, and None means it occurs nowhere. |
| `Text.ReplaceFirst` | services/api.ts:107 | `replace` with a string pattern rewrites exactly the first occurrence. |
| `Text.ReplaceSuffix` | services/api.ts:107 | When the pattern first occurs as the string's suffix, `replace` swaps that suffix for the replacement. |
| `Api.StoreToken` | services/api.ts:28-34 | Overwrites `auth_token` in the general store. A backend failure is swallowed and leaves the store unchanged. The secure store is not touched. |
| `Api.GetToken` | services/api.ts:36-43 | Returns the general store's `auth_token`. An absent entry or a failed read gives null. |
| `Api.RemoveToken` | services/api.ts:45-51 | Deletes `auth_token` from the secure store only. A failure is swallowed and leaves it unchanged. |
| `Api.MeCall` | services/api.ts:58-63 | The validation probe is `GET https://api.freeapi.app/api/v1/users/me` with the header `Authorization: Bearer <token>`. |
| `Api.ValidateToken` | services/api.ts:53-68 | With no token, an empty token or a failed read, it sends nothing and answers false. Otherwise it sends the `/me` probe for the stored token. It answers true exactly when the response came back with ok status. A transport failure gives false. |
| `Api.Envelope` | services/api.ts:70-84 | The try/catch of the REST calls. It succeeds exactly when a response arrived and its body parsed, and then yields that body. Every other outcome is NetworkError. |
| `Api.EnvelopeIgnoresStatus` | services/api.ts:70-84 | A non-ok response is passed on exactly like an ok one. |
| `Api.LoginCall` | services/api.ts:70-84 | `login` POSTs the credentials as JSON to `…/users/login`. |
| `Api.Login` | services/api.ts:70-84 | Returns the server's parsed envelope unchanged, whatever the status. Transport and parse failures become NetworkError. |
| `Api.RegisterCall` | services/api.ts:86-102 | `register` POSTs the request as JSON to `…/users/register`. |
| `Api.Register` | services/api.ts:86-102 | Same contract as `Login`, for the register request. |
| `Api.UsersIsLastSegment` | services/api.ts:3 | The base URL is the API root followed by `/users`, and `/users` occurs nowhere earlier in it. |
| `Api.PublicFeedUrl` | services/api.ts:106-120 | The URL expression `API_BASE_URL.replace("/users", "/public/<feed>")` is `https://api.freeapi.app/api/v1/public/<feed>`, for every feed name. |
| `Api.PublicFeedCall` | services/api.ts:104-126 | A feed is fetched by an unauthenticated `GET https://api.freeapi.app/api/v1/public/<feed>` with no body: `randomusers` and `randomproducts`. |
| `Api.FetchRandomUsers` | services/api.ts:104-114 | Sends the `randomusers` feed request and returns the parsed feed body unchanged, whatever the status. Any failure becomes NetworkError. |
| `Api.FetchRandomProducts` | services/api.ts:116-126 | Sends the `randomproducts` feed request and returns the parsed feed body unchanged, whatever the status. Any failure becomes NetworkError. |
| `Api.TokenSurvivesRemoval` | services/api.ts:28-51 | After `storeToken(t)` and `removeToken()`, `getToken()` still returns t, whether or not the removal succeeded. |
| `Session.AuthProvider.constructor` | contexts/AuthContext.tsx:40-42 | The session starts with `user = null`, `token = null` and `isLoading = true`. |
| `Session.AuthProvider.Login` | contexts/AuthContext.tsx:44-47 | Sets exactly `user` and `token` to the arguments. It leaves `isLoading` and both stores unchanged and keeps the invariant that `user` is null iff `token` is null. |
| `Session.AuthProvider.Logout` | contexts/AuthContext.tsx:49-53 | Clears `user` and `token` and deletes the token from the secure store only (or nothing if that fails). `isLoading` and the general store are unchanged. |
| `Session.AuthProvider.CheckAuth` | contexts/AuthContext.tsx:55-70 | When the stored token is present and non-empty, both reads succeed and the `/me` probe is ok, it installs that token with the placeholder user {"1", "User", "user@example.com"}. In every other case it ends logged out, after the secure-store delete. `isLoading` is false afterwards, the general store is unchanged and the null-together invariant holds. |
| `Session.LogoutTwice` | contexts/AuthContext.tsx:49-53 | `logout` is idempotent: two calls leave the session and both stores as one call does. |
| `Session.RejectedTokenStaysStored` | contexts/AuthContext.tsx:57-63 | After `checkAuth` rejects a stored token and logs out, the next `getToken` still returns that token. |
| `Courses.HasId` | contexts/CoursesContext.tsx:112 | `bookmarkedCourses.some(c => c.id === courseId)`: some entry carries the id. Its index form is fixed by `Courses.FirstIndex`, and `Courses.Find` and `Courses.Without` are stated in terms of it. |
| `Courses.FirstIndex` | contexts/CoursesContext.tsx:109 | The position `find` stops at is the first one with the id. None means no course has it. |
| `Courses.Find` | contexts/CoursesContext.tsx:109 | `find` yields the course at the first index holding the id (as `Courses.FirstIndex` fixes it), so no earlier course has that id. It yields nothing exactly when no course has the id. |
| `Courses.FindAt` | contexts/CoursesContext.tsx:109 | In a list with distinct ids, `find` by the id at index k yields the entry at k. |
| `Courses.Without` | contexts/CoursesContext.tsx:116 | `filter` keeps exactly the entries whose id differs. It is strictly shorter iff the id was present, and it is the identity when the id was absent. |
| `Courses.WithoutConcat` | contexts/CoursesContext.tsx:116 | Filtering a concatenation filters each part, so the relative order of the kept entries is preserved. |
| `Courses.WithoutAt` | contexts/CoursesContext.tsx:116 | With distinct ids, removing the id at index k gives the list with exactly that entry cut out, and the rest in order. |
| `Courses.WithoutKeepsIdsDistinct` | contexts/CoursesContext.tsx:116 | Filtering keeps distinct ids distinct. |
| `Courses.Toggled` | contexts/CoursesContext.tsx:108-119 | An id not in the catalogue gives no new list. An unbookmarked id appends the course `find` returns (the first catalogue course with that id) after the unchanged earlier entries. A bookmarked id gives exactly the filtered list: every entry with that id removed and the others kept in their relative order. Either way the id's membership flips. |
| `Courses.ToggleKeepsIdsDistinct` | contexts/CoursesContext.tsx:112-118 | Toggling preserves "bookmark ids are pairwise distinct". |
| `Courses.ToggleTwiceRestores` | contexts/CoursesContext.tsx:112-118 | Toggling an unbookmarked catalogue id twice gives back the original list. |
| `Courses.ToggleTwiceReappends` | contexts/CoursesContext.tsx:112-118 | Toggling a bookmarked id twice removes it, then re-appends the current catalogue snapshot at the end. |
| `Courses.Items` | contexts/CoursesContext.tsx:56-59 | A feed whose `data` is not an array counts as an empty list. |
| `Courses.UserCourse` | contexts/CoursesContext.tsx:62-68 | A user-derived course has id `user-<index>`, title `Course by <name>`, description `Learn from <name>, a professional instructor.`, the user's name as instructor, and a price in [10, 109]. |
| `Courses.ProductCourse` | contexts/CoursesContext.tsx:69-75 | A product-derived course has id `product-<index>` and instructor "Expert Instructor", and copies the title, description and price verbatim. |
| `Courses.BuildCourses` | contexts/CoursesContext.tsx:61-76 | The catalogue has as many entries as the two feeds together (#users + #products). Entry i < #users is the course of user i. Entry #users + j is the course of product j. |
| `Courses.CatalogueIdsDistinct` | contexts/CoursesContext.tsx:61-76 | All ids of one load are pairwise distinct. |
| `Courses.UsersBeforeProducts` | contexts/CoursesContext.tsx:61-76 | Judged by id, exactly the first #users entries are user-derived, so all of them precede the product-derived ones. |
| `Courses.FindUserCourse` | contexts/CoursesContext.tsx:61-76 | Looking up `user-i` in a built catalogue finds the course of user i. |
| `Courses.FindProductCourse` | contexts/CoursesContext.tsx:61-76 | Looking up `product-i` in a built catalogue finds the course of product i. |
| `Courses.FetchCatalogue` | contexts/CoursesContext.tsx:51-76 | There is a catalogue exactly when both fetches succeed. It is then the catalogue built from the two feeds' items (user courses first, synthetic ids, field mapping), with the combined length and distinct ids. |
| `Courses.CoursesProvider.constructor` | contexts/CoursesContext.tsx:45-47 | The provider starts with no courses, no bookmarks and `isLoading = true`. |
| `Courses.CoursesProvider.LoadCourses` | contexts/CoursesContext.tsx:49-84 | When both fetches succeed, `courses` becomes the built catalogue. Otherwise it keeps its previous value. `isLoading` is false afterwards in every case, and catalogue ids stay distinct. |
| `Courses.CoursesProvider.RefreshCourses` | contexts/CoursesContext.tsx:125-128 | Loading is shown while the feeds are fetched. The end state is that of `LoadCourses`. |
| `Courses.CoursesProvider.LoadBookmarks` | contexts/CoursesContext.tsx:86-95 | Adopts the stored list when the read succeeds and the entry parses. Otherwise the in-memory list is unchanged. |
| `Courses.CoursesProvider.SaveBookmarks` | contexts/CoursesContext.tsx:97-106 | Writes the whole list under `bookmarkedCourses`. A failure is swallowed and leaves storage unchanged. |
| `Courses.CoursesProvider.ToggleBookmark` | contexts/CoursesContext.tsx:108-123 | An id outside the catalogue changes nothing and saves nothing. Otherwise the bookmark list becomes the toggled list. The list handed to `saveBookmarks` is the new in-memory list, and a failed save leaves memory ahead of storage. Distinct bookmark ids stay distinct. |
| `Courses.ToggleThenReload` | contexts/CoursesContext.tsx:121-122 | After a toggle whose save succeeded, reloading the bookmarks gives back the toggled in-memory list. |

## Left out

- React rendering, hooks and the `useEffect` startup calls are not modelled. Both providers' operations are modelled as sequential methods. The concurrent startup of `loadCourses` and `loadBookmarks` touches disjoint state and is not modelled. Overlapping `checkAuth` calls are not modelled either.
- Real HTTP, JSON parsing and serialisation are not modelled: the network is an oracle, and a response body is either parsed into the expected shape or does not parse. A parsed but ill-shaped body is not modelled. That covers `null`, a `null` feed item (whose `.name` would throw, leaving `courses` as it was), and a stored `"null"` that `JSON.parse` would install as the bookmark list.
- AsyncStorage holds both `auth_token` and `bookmarkedCourses`. The model gives each key's users a `Store` of their own, because no operation touches both keys.
- Floating point is not modelled. `Math.random` is a per-index draw below 100, and a product price is an integer copied verbatim.
- `user.name` is treated as a string inside the title and description templates, because the model does not render arbitrary JSON as text.
- The optional `bookmarked` field of a course is never set by the code and is not modelled. Neither is the untyped `user` payload inside `AuthResponse.data`.
- `Session.AuthProvider.CheckAuth`: the `catch` branch is not modelled separately. `getToken` and `validateToken` catch every error themselves, so that branch cannot be reached. It would log out exactly as the `else` branch does.
- `Text.Replace` does not model the `$` patterns of `replace`'s replacement string, because the replacements used contain none.
- `console.error` and `console.warn` logging is not modelled.
- The search over the catalogue lives in the courses screen (`app/(tabs)/courses.tsx`), not in the courses provider: a case-insensitive match of the query on title or description, run over the screen's own catalogue, which the screen loads itself. Screens are not part of this model, and case folding is not modelled.
- Notification scheduling (`services/notifications.ts`), network-status tracking (`contexts/NetworkContext.tsx`), navigation and screens (`app/`), and UI components (`components/`) are not part of this model.
