# resourcify in Dafny

resourcify is a small study-notes application: a Flask REST API over MongoDB
and a React client. A user registers, logs in and receives a JWT. They then
keep **topics**, each topic holds **subtopics**, and each subtopic holds
**resources**. A resource is a link or an uploaded file, with a title and a
free-text tag. This project models two parts of it and proves their
behaviour.

1. **The server's store and access rules** (`backend/app.py`). The four
   collections are sequences of records in an immutable `Store`. Ids are
   handed out from a counter. Every route is a pure function from the store,
   the caller's identity and the request to a status, a JSON body and the
   next store (`Store.Reply`). `Server.Handle` dispatches a `Request` to its
   route behind the JWT guard. It runs either the topic delete as written or
   the corrected one (`Server.TopicDelete`).
   - The soundness invariants are `Store.Valid` (fresh, unique ids; unique
     usernames and gmail addresses) and `Store.Linked` (no subtopic or
     resource points at a missing parent). Every request preserves `Valid`.
     Every request except the topic delete as written also preserves `Linked`.
   - The topic delete as written leaves the resources of the topic's
     subtopics behind, so it breaks `Linked`. That defect is under
     "## Findings" below.
2. **The client's view-state reducers** (`frontend/src`). The client parts are:
   - the token rules and request builders of `services/api.js`;
   - the list pages' handlers, generic in `ListPage` and specialised per page;
   - the login and register forms;
   - the router table and the guard of `App.jsx`.

   Each handler is a pure transition. It takes the page state, the user's
   event and the server's answer (`Api.Outcome`: `Success(data)` or
   `Failure(message?)`). It returns the next state and the requests it sent.

Modules, one per file: `Collections`, `Text` (helpers); `Store`, `AuthRoutes`,
`TopicRoutes`, `ResourceRoutes`, `DeleteRoutes`, `Server` (backend); `Api`,
`ListPage`, `TopicsPage`, `SubtopicsPage`, `ResourcesPage`, `LoginPage` and
`RegisterPage` (both in `auth_pages.dfy`), `App` (client); `Wire` follows a
client request into the route that answers it.

Parameters stand in for what the model does not compute:
- MongoDB's case-insensitive `$regex` match is `matches(pattern, name)`, and
  whether MongoDB accepts the pattern at all is `compiles(pattern)`.
- werkzeug's `secure_filename` is `secureName`.
- The Cloudinary upload is a `CloudResult`: a url or an error.
- The user's answer to `window.confirm` is `confirmed`.
- Every server answer the client sees is an `Api.Outcome`.

Facts about the code that the model keeps:
- Resource creation (frontend/src/pages/ResourcesPage.jsx:82-117) has no
  blank-title check. Topic and subtopic names are trim-checked.
- A successful delete drops every list entry with that id.
- The delete routes answer a JSON message.
- An empty password passes the route's own field check and then makes
  bcrypt raise, so registration answers 500.

## Model

| member | source | states |
|---|---|---|
| Store.HashPassword | backend/app.py:57 | checking a candidate against the stored hash accepts exactly the registered password |
| Store.OwnedTopic | backend/app.py:132 | the ownership lookup finds a topic iff one with that id belongs to the caller |
| Store.SubtopicById | backend/app.py:194 | the lookup finds a subtopic iff one has that id |
| AuthRoutes.Register | backend/app.py:42-66 | a missing key gives 400 (the check is key presence only); a taken username is reported before a taken gmail, each 400; then an empty password is a 500 from bcrypt; every refusal leaves the store; 201 iff all keys are present, neither name nor gmail is taken and the password is non-empty; success appends exactly one user holding a hash that checks only the given password, answers 201 with its id, and touches no other collection |
| AuthRoutes.Login | backend/app.py:69-78 | never changes the store; a missing username key is a 500; an unknown user is 401 even without a password key; with both keys it is never a 500; in a valid store 401 iff no user of that name has a matching password, and a user with that name and password gets 200 with a token naming their id |
| AuthRoutes.UniqueUsernameLookup | backend/app.py:72 | with unique usernames the user found by name is the only one with that name |
| AuthRoutes.RegisterPreservesValid | backend/app.py:51-64 | registration keeps ids fresh and unique and usernames and gmail addresses unique |
| AuthRoutes.RegisterThenLogin | backend/app.py:56-78 | a user who just registered logs in with the same username and password and gets a token naming the reported id |
| TopicRoutes.GetTopics | backend/app.py:81-91 | 200 with exactly the caller's topics, in store order, store unchanged |
| TopicRoutes.CreateTopic | backend/app.py:93-105 | a missing name is a 500; otherwise exactly one topic owned by the caller is appended under a fresh id and its id and name are echoed with 201 |
| TopicRoutes.SearchTopics | backend/app.py:107-123 | a pattern MongoDB cannot compile is a 500; otherwise 200 with a subset of the caller's topics: exactly those whose name matches the query (absent query = empty pattern); the store never changes |
| TopicRoutes.GetSubtopics | backend/app.py:126-142 | 404 "Topic not found" with no change iff the topic is not the caller's; otherwise exactly the subtopics filed under it |
| TopicRoutes.CreateSubtopic | backend/app.py:144-161 | 404 iff the topic is not the caller's, checked before the name key; then one subtopic under that topic is appended under a fresh id and echoed |
| TopicRoutes.SearchSubtopics | backend/app.py:163-184 | 404 iff not the caller's topic; for the caller's topic a pattern MongoDB cannot compile is a 500, and 200 iff it compiles, with a subset of that topic's subtopics, exactly those whose name matches |
| TopicRoutes.CreateTopicPreservesSoundness | backend/app.py:93-105 | creating a topic keeps the store valid and linked |
| TopicRoutes.CreateSubtopicPreservesSoundness | backend/app.py:144-161 | creating a subtopic keeps the store valid and linked |
| ResourceRoutes.CheckAccess | backend/app.py:193-201 | 404 "Subtopic not found" iff the subtopic is missing, else 403 "Access denied" when its topic is not the caller's; in a valid store it passes iff the caller owns the subtopic |
| ResourceRoutes.SubtopicLookupIsUnique | backend/app.py:194-201 | with unique subtopic ids, ownership of the subtopic found by id decides ownership of the subtopic |
| ResourceRoutes.GetResources | backend/app.py:187-214 | after the 404/403 checks, exactly the subtopic's resources, restricted to the given tag only when the tag is non-empty; store unchanged |
| ResourceRoutes.CreateResource | backend/app.py:216-245 | the 404/403 checks come before any key is read; a missing title, url or tag is a 500; success appends exactly one link resource under a fresh id and echoes it with 201 |
| ResourceRoutes.UploadResource | backend/app.py:248-302 | the 404/403 checks come before the missing-file 400; a failed upload is 500 with the store unchanged; success appends one resource with the hosted url, content type and sanitized name |
| ResourceRoutes.GetTags | backend/app.py:304-309 | the tags of all resources in the store, whoever owns them, each listed once |
| ResourceRoutes.CreateResourcePreservesSoundness | backend/app.py:232-238 | creating a link resource keeps the store valid and linked |
| ResourceRoutes.UploadResourcePreservesSoundness | backend/app.py:282-290 | an uploaded resource keeps the store valid and linked |
| ResourceRoutes.AppendResourceSound | backend/app.py:233-238 | a resource appended with the next id under a subtopic the caller may reach keeps the store valid and linked |
| DeleteRoutes.SubtopicIdsUnder | backend/app.py:324-326 | the collected ids are exactly the ids of the subtopics filed under the topic in the collection read |
| DeleteRoutes.DropTopic | backend/app.py:327 | with unique ids, removing the first topic with the id removes exactly that topic and keeps ids unique |
| DeleteRoutes.DeleteTopic | backend/app.py:312-329 | as written: 404 iff the topic is not the caller's; otherwise the topic and its subtopics go but the resources are left exactly as they were |
| DeleteRoutes.DeleteTopicCascade | backend/app.py:312-329 | corrected: the topic, its subtopics and every resource of those subtopics are removed, nothing else, and validity is kept |
| DeleteRoutes.DeleteSubtopic | backend/app.py:332-351 | 404 unless the subtopic is filed under that topic, checked before the 403 ownership check; then all its resources and the subtopic itself are removed |
| DeleteRoutes.DeleteResource | backend/app.py:354-376 | 404 for a resource not under the subtopic, then the subtopic's 404 and 403; success removes exactly that one resource and keeps the store valid and linked |
| DeleteRoutes.DeleteTopicCascadePreservesLinked | backend/app.py:322-327 | the corrected topic delete leaves no dangling subtopic or resource |
| DeleteRoutes.DeleteSubtopicPreservesLinked | backend/app.py:347-349 | deleting a subtopic with its resources leaves no dangling resource |
| DeleteRoutes.DeleteTopicVersionsDiffer | backend/app.py:322-326 | the two topic deletes answer alike and differ only in resources; they agree iff no resource sat under a deleted subtopic |
| DeleteRoutes.DeleteTopicOrphansResources | backend/app.py:323-326 | on a concrete valid, linked store the delete as written leaves a resource whose subtopic is gone: the store is no longer linked, the resource cannot be deleted, and its tag is still listed |
| Server.Handle | backend/app.py:42-376 | every route but register and login refuses a caller without a token with 401 and no change (that body's key is `msg`, which the client's `message` lookup misses); reads never change the store; only a 200 or 201 changes it |
| Server.HandlePreservesSoundness | backend/app.py:42-376 | every request keeps the store valid; every request but the topic delete as written keeps it linked |
| Server.AsWrittenServerOrphans | backend/app.py:312-329 | the topic delete as written, on any owned topic with a resource under one of its subtopics, answers 200 and leaves that resource with no subtopic, so the store is no longer linked |
| Server.AnonymousRequestsOnlyAuthenticate | backend/app.py:81-83 | a whole sequence of protected requests without a token leaves the store unchanged |
| Server.ReplayPreservesSoundness | backend/app.py:42-376 | with the corrected topic delete, any sequence of requests from a valid, linked store ends in one; as written, so does any sequence that deletes no topic |
| Api.AuthorizationHeader | frontend/src/services/api.js:12-18 | the header is "Bearer " followed by the token iff a non-empty token is stored |
| Api.StoreLoginToken | frontend/src/services/api.js:22-28 | a truthy access token becomes the session; otherwise the session is kept |
| Api.Logout | frontend/src/services/api.js:29-31 | after logout the user is not authenticated and no header is sent |
| Api.ErrorText | frontend/src/pages/LoginPage.jsx:28 | the server's message when present and non-empty, else the fallback |
| Api.IsAuthenticatedTracksToken | frontend/src/services/api.js:32 | no token and the empty string both count as signed out; a login that brings a non-empty token signs in; logout signs out |
| Wire.RegisterRequestIsAnswered | frontend/src/services/api.js:21 | the register form's request reaches /register with all three keys, so it is never refused for a missing field; in a valid store it creates the typed user iff neither username nor gmail is taken and the password is non-empty |
| Wire.LoginRequestIsAnswered | frontend/src/services/api.js:22-28 | the login form's request reaches /login with both keys, so it is never a 500; in a valid store 200 iff a user has the typed name and password, with that user's token |
| Api.GetAllTopics | frontend/src/services/api.js:36 | a body-less GET of exactly /topics, which no search query produces, so the list route answers it |
| Api.CreateTopic | frontend/src/services/api.js:37 | a POST to /topics whose JSON body holds only the given name |
| Api.SearchTopics | frontend/src/services/api.js:38 | a GET whose path is the search prefix followed by the query verbatim |
| Api.DeleteTopic | frontend/src/services/api.js:39 | a DELETE whose path is /topics/ followed by the id verbatim |
| Api.GetSubtopics | frontend/src/services/api.js:43 | a body-less GET of exactly the topic's /topics/{id}/subtopics path, from which the topic id is recovered; it is no search of that topic |
| Api.CreateSubtopic | frontend/src/services/api.js:44 | a POST under the topic's subtopics path whose body holds only the name |
| Api.SearchSubtopics | frontend/src/services/api.js:45 | a GET whose path ends with the query verbatim after the topic's search prefix |
| Api.DeleteSubtopic | frontend/src/services/api.js:46 | a DELETE of the literal template /topics/{topicId}/subtopics/{subtopicId} |
| Api.GetResources | frontend/src/services/api.js:50-55 | ?tag= is appended iff the tag is truthy; absent and empty tags give the bare path |
| Api.CreateResource | frontend/src/services/api.js:56 | the resource object is posted unchanged to exactly /subtopics/{id}/resources, and the subtopic id is recovered from that path |
| Wire.LinkRequestIsRead | frontend/src/services/api.js:56 | a url-mode submit carries every key the create route reads: once the access checks pass the resource is always created, with the draft's title, url and tag |
| Api.UploadResource | frontend/src/services/api.js:57-63 | a multipart POST carrying the title, tag and file to exactly /subtopics/{id}/resources/upload, from which the subtopic id is recovered |
| Wire.UploadRequestIsRead | frontend/src/services/api.js:57-63 | the upload route reads the form's title and tag and its file: created iff the access checks pass, a named file was chosen and the host took it, and then it holds the draft's title and tag and the file's MIME type, application/octet-stream when the file has none |
| Wire.ReadFile | backend/app.py:265-280 | a file part is found iff a file was chosen; it keeps the file's name, and its type is the file's own or application/octet-stream when that is empty, never empty |
| Wire.UntypedFileIsDownloaded | frontend/src/pages/ResourcesPage.jsx:131-142 | a file uploaded without a type is labelled as a download, neither image nor PDF |
| Api.GetTags | frontend/src/services/api.js:64 | a body-less GET of exactly /tags, naming no subtopic: it is neither any per-subtopic resource request nor the topic list |
| Api.DeleteResource | frontend/src/services/api.js:65 | a DELETE of the literal template /subtopics/{subtopicId}/resources/{resourceId} |
| Api.DeletePathsIdentify | frontend/src/services/api.js:39-65 | within one parent, different ids give different delete requests |
| ListPage.Fetch | frontend/src/pages/TopicsPage.jsx:17-29 | success replaces the list and clears the banner; failure keeps the list and shows the failure text; loading ends false |
| ListPage.Search | frontend/src/pages/TopicsPage.jsx:31-46 | a non-blank query's result replaces the list without clearing the banner; failure keeps the list |
| ListPage.Append | frontend/src/pages/TopicsPage.jsx:52-57 | success appends the created record after the unchanged others and resets the draft; failure only sets the banner |
| ListPage.WithoutId | frontend/src/pages/TopicsPage.jsx:65 | exactly the entries with another id remain, each as often as before, in their order |
| ListPage.Remove | frontend/src/pages/TopicsPage.jsx:61-70 | declined changes nothing; success drops every entry with the id and keeps every other entry, as often as before and in order; failure only sets the banner |
| ListPage.RemoveIsIdempotent | frontend/src/pages/TopicsPage.jsx:65 | removing an id a second time changes nothing |
| ListPage.AppendThenRemove | frontend/src/pages/TopicsPage.jsx:52-65 | creating a record with a new id and then deleting it restores the list |
| TopicsPage.MountFetch | frontend/src/pages/TopicsPage.jsx:6-29 | from the initial state the mount fetch sends one GET /topics and then shows exactly the answer, or no topics and the load-failure banner |
| TopicsPage.FetchTopics | frontend/src/pages/TopicsPage.jsx:17-29 | one GET /topics; on success the list is the answer and the banner is cleared; on failure the list stays and the banner reads "Failed to load topics. Please try again." |
| TopicsPage.HandleSearch | frontend/src/pages/TopicsPage.jsx:31-46 | a blank query behaves exactly like fetchTopics; any other query is sent untrimmed, success replaces the list, failure shows "Search failed. Please try again." |
| TopicsPage.HandleCreateTopic | frontend/src/pages/TopicsPage.jsx:48-59 | a blank name sends nothing and changes nothing; otherwise the untrimmed name is posted; success appends and clears the draft; failure keeps list and draft |
| TopicsPage.HandleDeleteTopic | frontend/src/pages/TopicsPage.jsx:61-70 | declined, nothing is sent; success drops the topics with that id and keeps every other topic, as often as before and in order; failure keeps the list |
| TopicsPage.CreateThenDeleteTopic | frontend/src/pages/TopicsPage.jsx:48-70 | a topic created and then deleted leaves the topic list as it was |
| SubtopicsPage.MountFetch | frontend/src/pages/SubtopicsPage.jsx:8-47 | the mount effect sends GET /topics and GET of the topic's subtopics; whichever answer arrives first, the page ends with the same heading and shows exactly the subtopics answered, or none |
| SubtopicsPage.FetchTopicInfo | frontend/src/pages/SubtopicsPage.jsx:20-33 | the heading becomes the first fetched topic with the route's id; none found gives "Topic not found" and keeps the heading; a failed request gives "Failed to load topic information."; the list is untouched |
| SubtopicsPage.FetchSubtopics | frontend/src/pages/SubtopicsPage.jsx:35-47 | one GET of the topic's subtopics; success replaces the list and clears the banner; failure keeps it |
| SubtopicsPage.HandleSearch | frontend/src/pages/SubtopicsPage.jsx:49-64 | a blank query is fetchSubtopics; otherwise the topic's search is sent and its result replaces the list |
| SubtopicsPage.HandleCreateSubtopic | frontend/src/pages/SubtopicsPage.jsx:66-77 | a blank name is a no-op; success appends and clears the draft; failure keeps list and draft |
| SubtopicsPage.HandleDeleteSubtopic | frontend/src/pages/SubtopicsPage.jsx:79-88 | declined is a no-op; success drops the subtopics with that id and keeps every other one as often as before and in order; failure keeps the list |
| ResourcesPage.MountFetch | frontend/src/pages/ResourcesPage.jsx:8-66 | from the initial state the mount fetch asks for every resource of the subtopic (no tag) and shows exactly the answer, or none; the tag choices become '' followed by the server's tags, or stay empty |
| ResourcesPage.FetchResources | frontend/src/pages/ResourcesPage.jsx:46-58 | requests with the selected tag (the empty tag asks for all); success replaces the list and clears the banner; failure keeps it |
| ResourcesPage.FetchTags | frontend/src/pages/ResourcesPage.jsx:60-67 | success sets the choices to '' followed by the server's tags; failure changes nothing |
| ResourcesPage.DropdownValues | frontend/src/pages/ResourcesPage.jsx:185-190 | the "All" value '' comes first and nowhere else; every other choice is offered |
| ResourcesPage.AllOfferedOnce | frontend/src/pages/ResourcesPage.jsx:63 | after fetching tags, '' appears exactly once among the dropdown values and every server tag is offered |
| ResourcesPage.CreateRequest | frontend/src/pages/ResourcesPage.jsx:89-102 | url mode posts exactly {title, url, tag}; file mode uploads title, tag and file |
| ResourcesPage.UnusedDraftFieldsNotSent | frontend/src/pages/ResourcesPage.jsx:89-102 | the draft url does not affect a file-mode request, nor the file a url-mode one |
| ResourcesPage.AddTag | frontend/src/pages/ResourcesPage.jsx:108-110 | the tag is appended iff it is not already a choice; earlier choices are unchanged; no duplicates are introduced |
| ResourcesPage.HandleCreateResource | frontend/src/pages/ResourcesPage.jsx:82-117 | one request for the mode, with no blank check; success appends, resets draft and mode, adds the tag if new and leaves no banner; failure sets "Failed to create resource. Please try again." and nothing else; loading ends false |
| ResourcesPage.CreatesKeepTagsDistinct | frontend/src/pages/ResourcesPage.jsx:108-110 | any series of creates keeps the tag choices free of duplicates |
| ResourcesPage.HandleDeleteResource | frontend/src/pages/ResourcesPage.jsx:119-129 | declined is a no-op; success drops the resources with that id and keeps every other resource, as often as before and in order; failure keeps the list |
| ResourcesPage.Label | frontend/src/pages/ResourcesPage.jsx:131-142 | no or empty file type shows the url; "image" in the type wins over "pdf"; any other type is a download |
| ResourcesPage.LabelByOccurrence | frontend/src/pages/ResourcesPage.jsx:133-138 | the label in terms of where "image" and "pdf" occur in the file type |
| LoginPage.Credentials | frontend/src/pages/LoginPage.jsx:8 | the body posted holds exactly the username and the password |
| LoginPage.HandleSubmit | frontend/src/pages/LoginPage.jsx:18-32 | the final form is the in-flight one (banner cleared) with loading false and only the banner possibly set; success stores a truthy token, sets App's flag and goes to /; failure leaves flag and token and shows the server's message or "Failed to login. Please try again." |
| LoginPage.FlagMatchesTokenAfterLogin | frontend/src/pages/LoginPage.jsx:24-25 | after a successful login the flag agrees with storage iff a truthy token came back or one was already stored |
| RegisterPage.Payload | frontend/src/pages/RegisterPage.jsx:34-38 | the body holds exactly username, password and gmail, never the confirmation |
| RegisterPage.HandleSubmit | frontend/src/pages/RegisterPage.jsx:22-45 | nothing is sent iff the passwords differ, and then the banner reads "Passwords do not match" and loading is untouched; otherwise success goes to /login and failure shows the server's message or the fallback |
| App.PrivateRoute | frontend/src/App.jsx:13-17 | the page renders iff a non-empty token is stored; otherwise a redirect to /login |
| App.Resolve | frontend/src/App.jsx:44-63 | a private page renders only with a token; only /login and /register render unguarded; every other outcome is a redirect to /login or /; every path matching no route redirects to / |
| App.LinksResolve | frontend/src/App.jsx:52-61 | /topics/{id} and /subtopics/{id} open that topic's and subtopic's page behind the guard |
| App.Init | frontend/src/App.jsx:20 | on mount the flag is true exactly when the guard lets private pages through |
| App.OnStorage | frontend/src/App.jsx:22-32 | after a storage event, whatever the flag said before, it is true exactly when the guard lets private pages through with the new token |
| App.HandleLogout | frontend/src/App.jsx:34-37 | after logout neither the flag nor storage says authenticated, and no private page renders |

## Left out

- JWT and bcrypt internals: a token is the caller's id, and a hash is checked only through `Store.CheckPassword`.
- Store.HashPassword: bcrypt uses at most 72 bytes of a password (longer ones are truncated or, in newer versions, refused), so two passwords that agree on their first 72 bytes check alike; the model treats every non-empty password as distinct.
- Malformed or expired tokens: these give 401/422 responses from the JWT extension; the model knows only "no token".
- `ObjectId` parse failures (500s), and a request body that is not JSON.
- Non-canonical id spellings in paths. Ids are opaque numbers.
- MongoDB's regex semantics. The match and the compile check are parameters; the search routes are proved to return exactly the owner-scoped records the match accepts, or a 500 when the pattern does not compile.
- The Cloudinary call and `secure_filename`. Both are parameters.
- The order of `distinct` results. `ResourceRoutes.GetTags` promises only distinctness and membership.
- Server.ReplayPreservesSoundness: promises nothing for a session that runs the topic delete as written, because that delete breaks `Linked` (see Findings).
- Non-string JSON values. `Store.Fields` maps names to strings, but the routes store `name`, `title`, `url` and `tag` as sent, so a number, `null` or an array is stored too, and MongoDB's `distinct` and `find` then treat an array tag element by element. The client only ever sends strings.
- React effect scheduling and races: the double fetch on mount, and `fetchTopicInfo` and `fetchSubtopics` overwriting each other's banner. Each handler is one sequential step; `SubtopicsPage.MountFetch` shows the heading and the list do not depend on the order.
- `fetchSubtopicInfo` (ResourcesPage.jsx:28-44). It passes a subtopic id to the topic's subtopics service, so what it shows depends only on how the server fails.
- `window.confirm` (a boolean parameter), `console.error`, and `localStorage` beyond the one token.
- axios transport, the base URL, and URL encoding. Paths are strings relative to `/api`.
- A `null` file appended to `FormData` becomes the string "null"; the model keeps it as `None`.
- React Router's case-insensitive matching, trailing slashes and parameter decoding.
- Presentation: card colours, dark mode, `NavBar.jsx`, HTML `required` attributes, and `vite.config.js`.

## Findings

| source | as written | input that shows it | evidently intended | confidence | as-written member | corrected member |
|---|---|---|---|---|---|---|
| backend/app.py:322-326 | the topic's subtopics are deleted (line 323) before they are read back to pick the resources to delete (line 325); the read finds none, so no resource is deleted | user 7 owns topic 0; subtopic 1 under it holds resource 2 tagged "video". After the delete, resource 2 still exists with no subtopic: `DELETE .../resources/2` answers 404 "Subtopic not found", and `GET /api/tags` still lists "video" | the comment on line 322 says the topic is deleted with its subtopics and their resources: collect the subtopic ids first, then delete | not executed; high | DeleteRoutes.DeleteTopic, DeleteRoutes.DeleteTopicOrphansResources | DeleteRoutes.DeleteTopicCascade, DeleteRoutes.DeleteTopicCascadePreservesLinked |
