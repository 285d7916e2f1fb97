/** The client's HTTP service layer: the one stored token (the browser's
    `localStorage` entry `token`), the header the request interceptor derives
    from it, and the method, path and body of every service call. Paths are
    relative to the `/api` base URL; path segments and queries are pasted in
    verbatim, without URL encoding. */
module Api {
  import opened Collections
  import opened Text

  /** The stored token: `None` when the entry is absent. */
  type Session = Option<string>

  /** `authService.isAuthenticated`: a stored, non-empty token. */
  predicate IsAuthenticated(session: Session) {
    Truthy(session)
  }

  /** The request interceptor: `Authorization: Bearer <token>` exactly when a
      non-empty token is stored, no header otherwise. */
  function AuthorizationHeader(session: Session): (r: Option<string>)
    ensures r.Some? <==> IsAuthenticated(session)
    ensures r.Some? ==> StartsWith(r.value, "Bearer ") && r.value[|"Bearer "|..] == session.value
  {
    if Truthy(session) then Some("Bearer " + session.value) else None
  }

  /** What `authService.login` leaves stored once the server answered with
      `access_token`: the token when it is truthy, else the old session. */
  function StoreLoginToken(session: Session, accessToken: Option<string>): (r: Session)
    ensures Truthy(accessToken) ==> r == accessToken && IsAuthenticated(r)
    ensures !Truthy(accessToken) ==> r == session
  {
    if Truthy(accessToken) then accessToken else session
  }

  /** `authService.logout` removes the token. */
  function Logout(session: Session): (r: Session)
    ensures !IsAuthenticated(r) && AuthorizationHeader(r).None?
  {
    None
  }

  /** A login that got a token makes every later request carry it. */
  lemma LoginThenHeader(session: Session, token: string)
    requires token != ""
    ensures AuthorizationHeader(StoreLoginToken(session, Some(token))) == Some("Bearer " + token)
  {
  }

  /** The stored token decides authentication: nothing stored and the empty
      string both count as signed out, a login that brings a token signs in,
      and a logout signs out. */
  lemma IsAuthenticatedTracksToken(session: Session, token: string)
    ensures !IsAuthenticated(None) && !IsAuthenticated(Some(""))
    ensures token != "" ==> IsAuthenticated(StoreLoginToken(session, Some(token)))
    ensures token == "" ==> (IsAuthenticated(StoreLoginToken(session, Some(token))) <==> IsAuthenticated(session))
    ensures !IsAuthenticated(Logout(session))
  {
  }

  /** The outcome of a request as a page sees it: the response data, or the
      rejection with the server's `message` field when the error body has one. */
  datatype Outcome<+T> = Success(data: T) | Failure(message: Option<string>)

  /** `err.response?.data?.message || fallback`: the server's message unless it
      is absent or empty. */
  function ErrorText(message: Option<string>, fallback: string): (r: string)
    ensures Truthy(message) ==> r == message.value
    ensures !Truthy(message) ==> r == fallback
    ensures fallback != "" ==> r != ""
  {
    if Truthy(message) then message.value else fallback
  }

  datatype Verb = Get | Post | Delete

  /** A chosen file: its name and MIME type. */
  datatype FileRef = FileRef(name: string, contentType: string)

  /** A JSON object of string fields, or the multipart form of an upload
      (`file` is `None` when no file was chosen). */
  datatype Payload = NoBody | Json(fields: map<string, string>) | Form(title: string, tag: string, file: Option<FileRef>)

  datatype Call = Call(verb: Verb, path: string, body: Payload)

  /** The two unauthenticated endpoints of `authService`. */
  datatype AuthEndpoint = RegisterEndpoint | LoginEndpoint

  /** `authService.register` and `authService.login` post the form's object
      as it is to `/register` or `/login`. */
  function AuthCall(endpoint: AuthEndpoint, userData: map<string, string>): (r: Call)
    ensures r.verb == Post && r.body == Json(userData)
    ensures r.path == (if endpoint == RegisterEndpoint then "/register" else "/login")
  {
    Call(Post, if endpoint == RegisterEndpoint then "/register" else "/login", Json(userData))
  }

  /** The listing request is a plain GET that no search query produces, so
      the server answers it with the list route, not the search route. */
  function GetAllTopics(): (r: Call)
    ensures r.verb == Get && r.body == NoBody && r.path == "/topics"
    ensures forall q :: r != SearchTopics(q)
  {
    var r := Call(Get, "/topics", NoBody);
    assert forall q :: |SearchTopics(q).path| > |r.path|;
    r
  }

  function CreateTopic(name: string): (r: Call)
    ensures r.verb == Post && r.path == "/topics" && r.body.Json? && r.body.fields.Keys == {"name"}
    ensures r.body.fields["name"] == name
  {
    Call(Post, "/topics", Json(map["name" := name]))
  }

  const TopicSearchPath := "/topics/search?query="

  /** The query is appended as typed: not trimmed, not encoded. */
  function SearchTopics(query: string): (r: Call)
    ensures r.verb == Get && r.body == NoBody
    ensures StartsWith(r.path, TopicSearchPath) && r.path[|TopicSearchPath|..] == query
  {
    Call(Get, TopicSearchPath + query, NoBody)
  }

  function DeleteTopic(topicId: string): (r: Call)
    ensures r.verb == Delete && r.body == NoBody
    ensures StartsWith(r.path, "/topics/") && r.path[|"/topics/"|..] == topicId
  {
    Call(Delete, "/topics/" + topicId, NoBody)
  }

  function TopicPath(topicId: string): string {
    "/topics/" + topicId + "/subtopics"
  }

  /** The topic id sits between `/topics/` and `/subtopics`, and the request
      is not a search of that topic for any query. */
  function GetSubtopics(topicId: string): (r: Call)
    ensures r.verb == Get && r.body == NoBody && r.path == TopicPath(topicId)
    ensures StartsWith(r.path, "/topics/") && |r.path| == |"/topics/"| + |topicId| + |"/subtopics"|
    ensures r.path[|"/topics/"|..|r.path| - |"/subtopics"|] == topicId
    ensures forall q :: r != SearchSubtopics(topicId, q)
  {
    var path := TopicPath(topicId);
    assert path[|"/topics/"|..|path| - |"/subtopics"|] == topicId;
    assert forall q :: |SearchSubtopics(topicId, q).path| > |path|;
    Call(Get, path, NoBody)
  }

  function CreateSubtopic(topicId: string, name: string): (r: Call)
    ensures r.verb == Post && r.path == TopicPath(topicId)
    ensures r.body.Json? && r.body.fields.Keys == {"name"} && r.body.fields["name"] == name
  {
    Call(Post, TopicPath(topicId), Json(map["name" := name]))
  }

  function SearchSubtopics(topicId: string, query: string): (r: Call)
    ensures r.verb == Get && r.body == NoBody
    ensures StartsWith(r.path, TopicPath(topicId) + "/search?query=")
    ensures r.path[|TopicPath(topicId) + "/search?query="|..] == query
  {
    Call(Get, TopicPath(topicId) + "/search?query=" + query, NoBody)
  }

  function DeleteSubtopic(topicId: string, subtopicId: string): (r: Call)
    ensures r.verb == Delete && r.body == NoBody
    ensures r.path == TopicPath(topicId) + "/" + subtopicId
  {
    Call(Delete, TopicPath(topicId) + "/" + subtopicId, NoBody)
  }

  function ResourcesPath(subtopicId: string): string {
    "/subtopics/" + subtopicId + "/resources"
  }

  /** `?tag=<tag>` is appended exactly when the tag is truthy: an absent tag
      and the empty tag both ask for every resource. */
  function GetResources(subtopicId: string, tag: Option<string>): (r: Call)
    ensures r.verb == Get && r.body == NoBody
    ensures !Truthy(tag) <==> r.path == ResourcesPath(subtopicId)
    ensures Truthy(tag) ==> r.path == ResourcesPath(subtopicId) + "?tag=" + tag.value
  {
    if Truthy(tag) then Call(Get, ResourcesPath(subtopicId) + "?tag=" + tag.value, NoBody)
    else Call(Get, ResourcesPath(subtopicId), NoBody)
  }

  /** No tag and the empty tag build the same request. */
  lemma EmptyTagIsNoTag(subtopicId: string)
    ensures GetResources(subtopicId, None) == GetResources(subtopicId, Some(""))
  {
  }

  /** The resource object is posted unchanged, and the subtopic id sits
      between `/subtopics/` and `/resources`. */
  function CreateResource(subtopicId: string, fields: map<string, string>): (r: Call)
    ensures r.verb == Post && r.body == Json(fields) && r.path == ResourcesPath(subtopicId)
    ensures StartsWith(r.path, "/subtopics/") && |r.path| == |"/subtopics/"| + |subtopicId| + |"/resources"|
    ensures r.path[|"/subtopics/"|..|r.path| - |"/resources"|] == subtopicId
  {
    var path := ResourcesPath(subtopicId);
    assert path[|"/subtopics/"|..|path| - |"/resources"|] == subtopicId;
    Call(Post, path, Json(fields))
  }

  /** The multipart form: the title and tag as typed and the chosen file, if
      any, posted under the upload path of the subtopic. */
  function UploadResource(subtopicId: string, title: string, tag: string, file: Option<FileRef>): (r: Call)
    ensures r.verb == Post && r.body == Form(title, tag, file) && r.path == ResourcesPath(subtopicId) + "/upload"
    ensures StartsWith(r.path, "/subtopics/") && |r.path| == |"/subtopics/"| + |subtopicId| + |"/resources/upload"|
    ensures r.path[|"/subtopics/"|..|r.path| - |"/resources/upload"|] == subtopicId
  {
    var path := ResourcesPath(subtopicId) + "/upload";
    assert path == "/subtopics/" + subtopicId + "/resources/upload";
    assert path[|"/subtopics/"|..|path| - |"/resources/upload"|] == subtopicId;
    Call(Post, path, Form(title, tag, file))
  }

  /** The tag list is one request for everyone: it names no subtopic, so it is
      none of the per-subtopic resource requests, and it is not the topic list. */
  function GetTags(): (r: Call)
    ensures r.verb == Get && r.body == NoBody && r.path == "/tags"
    ensures r != GetAllTopics()
    ensures forall id, tag :: r != GetResources(id, tag)
  {
    var r := Call(Get, "/tags", NoBody);
    assert forall id, tag :: GetResources(id, tag).path[1] == 's' by {
      forall id, tag ensures GetResources(id, tag).path[1] == 's' {
        assert StartsWith(GetResources(id, tag).path, ResourcesPath(id));
      }
    }
    r
  }

  function DeleteResource(subtopicId: string, resourceId: string): (r: Call)
    ensures r.verb == Delete && r.body == NoBody
    ensures r.path == ResourcesPath(subtopicId) + "/" + resourceId
  {
    Call(Delete, ResourcesPath(subtopicId) + "/" + resourceId, NoBody)
  }

  /** Within one parent, a delete path names one record: different ids give
      different requests. */
  lemma {:induction false} DeletePathsIdentify(parent: string, a: string, b: string)
    ensures DeleteTopic(a) == DeleteTopic(b) ==> a == b
    ensures DeleteSubtopic(parent, a) == DeleteSubtopic(parent, b) ==> a == b
    ensures DeleteResource(parent, a) == DeleteResource(parent, b) ==> a == b
  {
    var t := "/topics/";
    if DeleteTopic(a) == DeleteTopic(b) {
      assert a == (t + a)[|t|..] && b == (t + b)[|t|..];
    }
    var sp := TopicPath(parent) + "/";
    if DeleteSubtopic(parent, a) == DeleteSubtopic(parent, b) {
      assert sp + a == TopicPath(parent) + "/" + a;
      assert sp + b == TopicPath(parent) + "/" + b;
      assert a == (sp + a)[|sp|..] && b == (sp + b)[|sp|..];
    }
    var rp := ResourcesPath(parent) + "/";
    if DeleteResource(parent, a) == DeleteResource(parent, b) {
      assert rp + a == ResourcesPath(parent) + "/" + a;
      assert rp + b == ResourcesPath(parent) + "/" + b;
      assert a == (rp + a)[|rp|..] && b == (rp + b)[|rp|..];
    }
  }
}
