/** The Flask application as one request handler: every route of the REST API,
    selected by `Request`, behind the JWT guard. All routes but registration and
    login are `@jwt_required`: without a token they answer 401 before the route
    body runs. The topic delete is either the route as written or the
    corrected cascade (see `DeleteRoutes`), as the caller chooses. */
module Server {
  import opened Collections
  import opened Store
  import AuthRoutes
  import TopicRoutes
  import ResourceRoutes
  import DeleteRoutes

  /** flask_jwt_extended's refusal text; its JSON key is `msg`, not `message`. */
  const MissingAuthorization := "Missing Authorization Header"

  /** One HTTP request, after routing: the path parameters, query strings, JSON
      fields or multipart form the route reads. */
  datatype Request =
    | Register(data: Fields)
    | Login(data: Fields)
    | GetTopics
    | CreateTopic(data: Fields)
    | SearchTopics(query: Option<string>)
    | GetSubtopics(topicId: Id)
    | CreateSubtopic(topicId: Id, data: Fields)
    | SearchSubtopics(topicId: Id, query: Option<string>)
    | GetResources(subtopicId: Id, tag: Option<string>)
    | CreateResource(subtopicId: Id, data: Fields)
    | UploadResource(subtopicId: Id, form: Fields, file: Option<ResourceRoutes.FileUpload>,
                     cloud: ResourceRoutes.CloudResult)
    | GetTags
    | DeleteTopic(topicId: Id)
    | DeleteSubtopic(topicId: Id, subtopicId: Id)
    | DeleteResource(subtopicId: Id, resourceId: Id)

  /** What the handler takes from outside the database: MongoDB's
      case-insensitive regex match, whether MongoDB accepts a pattern at all,
      and werkzeug's `secure_filename`. */
  datatype Env = Env(matches: (string, string) -> bool, compiles: string -> bool, secureName: string -> string)

  /** Which topic delete the server runs. */
  datatype TopicDelete = AsWritten | Cascade

  /** Registration and login are the only routes open without a token. */
  predicate Protected(req: Request) {
    !(req.Register? || req.Login?)
  }

  /** The GET routes. */
  predicate IsRead(req: Request) {
    req.GetTopics? || req.SearchTopics? || req.GetSubtopics? || req.SearchSubtopics? ||
    req.GetResources? || req.GetTags?
  }

  /** Answers `req` from `caller` (`None` when the request carries no token).
      A protected route without a token is refused with 401 and touches
      nothing; a read never changes the store; and only a successful answer
      (200 or 201) can change it. That 401 comes from flask_jwt_extended, whose
      JSON carries the text under `msg`, not the routes' `message`, so the
      client's `err.response?.data?.message` never sees it; `Message` holds
      only the text. */
  function Handle(s: Store, caller: Option<Id>, req: Request, env: Env, version: TopicDelete): (r: Reply)
    ensures Protected(req) && caller.None? ==> r == Fail(s, Unauthorized, MissingAuthorization)
    ensures IsRead(req) ==> r.store == s
    ensures r.response.status != Ok && r.response.status != Created ==> r.store == s
  {
    if Protected(req) && caller.None? then Fail(s, Unauthorized, MissingAuthorization)
    else match req
      case Register(data) => AuthRoutes.Register(s, data)
      case Login(data) => AuthRoutes.Login(s, data)
      case GetTopics => TopicRoutes.GetTopics(s, caller.value)
      case CreateTopic(data) => TopicRoutes.CreateTopic(s, caller.value, data)
      case SearchTopics(query) => TopicRoutes.SearchTopics(s, caller.value, query, env.matches, env.compiles)
      case GetSubtopics(topicId) => TopicRoutes.GetSubtopics(s, caller.value, topicId)
      case CreateSubtopic(topicId, data) => TopicRoutes.CreateSubtopic(s, caller.value, topicId, data)
      case SearchSubtopics(topicId, query) =>
        TopicRoutes.SearchSubtopics(s, caller.value, topicId, query, env.matches, env.compiles)
      case GetResources(subtopicId, tag) => ResourceRoutes.GetResources(s, caller.value, subtopicId, tag)
      case CreateResource(subtopicId, data) => ResourceRoutes.CreateResource(s, caller.value, subtopicId, data)
      case UploadResource(subtopicId, form, file, cloud) =>
        ResourceRoutes.UploadResource(s, caller.value, subtopicId, form, file, cloud, env.secureName)
      case GetTags => ResourceRoutes.GetTags(s)
      case DeleteTopic(topicId) =>
        if version == AsWritten then DeleteRoutes.DeleteTopic(s, caller.value, topicId)
        else DeleteRoutes.DeleteTopicCascade(s, caller.value, topicId)
      case DeleteSubtopic(topicId, subtopicId) =>
        DeleteRoutes.DeleteSubtopic(s, caller.value, topicId, subtopicId)
      case DeleteResource(subtopicId, resourceId) =>
        DeleteRoutes.DeleteResource(s, caller.value, subtopicId, resourceId)
  }

  /** Every request keeps ids fresh and unique and usernames and gmail
      addresses unique. Every request but the topic delete as written also
      leaves no subtopic or resource pointing at a record that is gone. */
  lemma HandlePreservesSoundness(s: Store, caller: Option<Id>, req: Request, env: Env, version: TopicDelete)
    requires Valid(s) && Linked(s)
    ensures var r := Handle(s, caller, req, env, version);
            && Valid(r.store)
            && (version == Cascade || !req.DeleteTopic? ==> Linked(r.store))
  {
    if !(Protected(req) && caller.None?) {
      match req
      case Register(data) =>
        AuthRoutes.RegisterPreservesValid(s, data);
      case CreateTopic(data) =>
        TopicRoutes.CreateTopicPreservesSoundness(s, caller.value, data);
      case CreateSubtopic(topicId, data) =>
        TopicRoutes.CreateSubtopicPreservesSoundness(s, caller.value, topicId, data);
      case CreateResource(subtopicId, data) =>
        ResourceRoutes.CreateResourcePreservesSoundness(s, caller.value, subtopicId, data);
      case UploadResource(subtopicId, form, file, cloud) =>
        ResourceRoutes.UploadResourcePreservesSoundness(s, caller.value, subtopicId, form, file, cloud, env.secureName);
      case DeleteTopic(topicId) =>
        if version == Cascade {
          DeleteRoutes.DeleteTopicCascadePreservesLinked(s, caller.value, topicId);
        }
      case DeleteSubtopic(topicId, subtopicId) =>
        DeleteRoutes.DeleteSubtopicPreservesLinked(s, caller.value, topicId, subtopicId);
      case _ =>
    }
  }

  /** Without a token, nothing but registration and login gets through, and a
      whole session of such requests leaves the database as it was. */
  lemma {:induction false} AnonymousRequestsOnlyAuthenticate(s: Store, reqs: seq<Request>, env: Env, version: TopicDelete)
    requires forall i :: 0 <= i < |reqs| ==> Protected(reqs[i])
    ensures Replay(s, None, reqs, env, version) == s
  {
    if |reqs| > 0 {
      AnonymousRequestsOnlyAuthenticate(s, reqs[1..], env, version);
    }
  }

  /** The store after answering `reqs` in order from the same caller. */
  function Replay(s: Store, caller: Option<Id>, reqs: seq<Request>, env: Env, version: TopicDelete): (r: Store)
    ensures (forall i :: 0 <= i < |reqs| ==> IsRead(reqs[i])) ==> r == s
    decreases |reqs|
  {
    if |reqs| == 0 then s
    else Replay(Handle(s, caller, reqs[0], env, version).store, caller, reqs[1..], env, version)
  }

  /** With the corrected topic delete, a session of requests from a valid,
      linked database ends in one; as written, so does every session that
      deletes no topic. */
  lemma {:induction false} ReplayPreservesSoundness(s: Store, caller: Option<Id>, reqs: seq<Request>, env: Env,
                                                    version: TopicDelete)
    requires Valid(s) && Linked(s)
    ensures version == Cascade || (forall i :: 0 <= i < |reqs| ==> !reqs[i].DeleteTopic?) ==>
              Valid(Replay(s, caller, reqs, env, version)) && Linked(Replay(s, caller, reqs, env, version))
    decreases |reqs|
  {
    if |reqs| > 0 && (version == Cascade || forall i :: 0 <= i < |reqs| ==> !reqs[i].DeleteTopic?) {
      assert !reqs[0].DeleteTopic? || version == Cascade;
      HandlePreservesSoundness(s, caller, reqs[0], env, version);
      assert forall i :: 0 <= i < |reqs[1..]| ==> reqs[1..][i] == reqs[i + 1];
      ReplayPreservesSoundness(Handle(s, caller, reqs[0], env, version).store, caller, reqs[1..], env, version);
    }
  }

  /** The server as written: deleting an owned topic from a valid database
      leaves each resource of each of its subtopics in place with its subtopic
      gone, so the database is no longer linked. */
  lemma AsWrittenServerOrphans(s: Store, caller: Id, topicId: Id, env: Env, u: Subtopic, x: Resource)
    requires Valid(s) && OwnsTopic(s, caller, topicId)
    requires u in s.subtopics && u.topic == topicId && x in s.resources && x.subtopic == u.id
    ensures var r := Handle(s, Some(caller), DeleteTopic(topicId), env, AsWritten);
            && r.response.status == Ok && x in r.store.resources
            && !HasSubtopic(r.store, x.subtopic) && !Linked(r.store)
  {
  }
}
