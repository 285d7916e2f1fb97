/** The server's four MongoDB collections as immutable sequences of records, the
    ownership chain user → topic → subtopic → resource that links them, and the
    shape of an HTTP reply. Every route of the Flask application is a pure
    function from a `Store` (and its request) to a `Reply`. */
module Store {
  import opened Collections

  /** Document ids. MongoDB assigns a fresh ObjectId on every insert; here the
      store hands out `next` and then advances it. */
  type Id = nat

  /** A bcrypt hash, kept abstract: all the routes rely on is that checking a
      candidate against the hash of a password accepts exactly that password. */
  datatype PasswordHash = Hashed(secret: string)

  function HashPassword(password: string): (h: PasswordHash)
    ensures forall candidate :: CheckPassword(h, candidate) <==> candidate == password
  {
    Hashed(password)
  }

  predicate CheckPassword(h: PasswordHash, candidate: string) {
    h.secret == candidate
  }

  datatype User = User(id: Id, username: string, password: PasswordHash, gmail: string)

  /** `owner` is the JWT identity of the user who created the topic. */
  datatype Topic = Topic(id: Id, name: string, owner: Id)

  /** `topic` is the topic id taken from the request path. */
  datatype Subtopic = Subtopic(id: Id, name: string, topic: Id)

  /** The two fields only an uploaded file has. */
  datatype Upload = Upload(fileType: Option<string>, fileName: string)

  /** `title` and `tag` are absent (`None`) when a multipart upload omits them. */
  datatype Resource = Resource(id: Id, title: Option<string>, url: string, tag: Option<string>,
                               subtopic: Id, upload: Option<Upload>)

  datatype Store = Store(users: seq<User>, topics: seq<Topic>, subtopics: seq<Subtopic>,
                         resources: seq<Resource>, next: Id)

  /** A JSON request body or form: field name to value. */
  type Fields = map<string, string>

  /** The JSON document a route answers with. */
  datatype Body =
    | Message(text: string)
    | UserCreated(userId: Id)
    | AccessToken(identity: Id)
    | TopicList(topics: seq<Topic>)
    | SubtopicList(subtopics: seq<Subtopic>)
    | ResourceList(resources: seq<Resource>)
    | Named(id: Id, name: string)
    | ResourceEcho(id: Id, title: Option<string>, url: string, tag: Option<string>, upload: Option<Upload>)
    | TagList(tags: seq<Option<string>>)

  datatype Response = Response(status: int, body: Body)

  /** The answer of a route together with the store it leaves behind. */
  datatype Reply = Reply(response: Response, store: Store)

  const Ok := 200
  const Created := 201
  const BadRequest := 400
  const Unauthorized := 401
  const Forbidden := 403
  const NotFound := 404
  const ServerError := 500

  /** Flask's answer to an exception the route does not catch (a missing JSON
      key, for instance); the store is left as it was. */
  function Crash(s: Store): Reply {
    Reply(Response(ServerError, Message("Internal Server Error")), s)
  }

  function Fail(s: Store, status: int, text: string): Reply {
    Reply(Response(status, Message(text)), s)
  }

  function EmptyStore(): Store {
    Store([], [], [], [], 0)
  }

  function UserKey(u: User): Id { u.id }
  function UsernameKey(u: User): string { u.username }
  function GmailKey(u: User): string { u.gmail }
  function TopicKey(t: Topic): Id { t.id }
  function SubtopicKey(u: Subtopic): Id { u.id }
  function ResourceKey(r: Resource): Id { r.id }

  /** `topics.find_one({"_id": id, "user_id": caller})`. */
  function OwnedTopic(s: Store, id: Id, caller: Id): (r: Option<Topic>)
    ensures r.Some? <==> OwnsTopic(s, caller, id)
    ensures r.Some? ==> r.value in s.topics && r.value.id == id && r.value.owner == caller
  {
    Find(s.topics, (t: Topic) => t.id == id && t.owner == caller)
  }

  /** `subtopics.find_one({"_id": id})`. */
  function SubtopicById(s: Store, id: Id): (r: Option<Subtopic>)
    ensures r.Some? <==> HasSubtopic(s, id)
    ensures r.Some? ==> r.value in s.subtopics && r.value.id == id
  {
    Find(s.subtopics, (u: Subtopic) => u.id == id)
  }

  ghost predicate OwnsTopic(s: Store, caller: Id, id: Id) {
    exists t :: t in s.topics && t.id == id && t.owner == caller
  }

  ghost predicate HasTopic(s: Store, id: Id) {
    exists t :: t in s.topics && t.id == id
  }

  ghost predicate HasSubtopic(s: Store, id: Id) {
    exists u :: u in s.subtopics && u.id == id
  }

  /** The caller may reach subtopic `id`: it exists and its topic is the caller's.
      With unique ids (`Valid`) this is what the resource routes check. */
  ghost predicate OwnsSubtopic(s: Store, caller: Id, id: Id) {
    exists u :: u in s.subtopics && u.id == id && OwnsTopic(s, caller, u.topic)
  }

  /** Every id was handed out by the store, ids are unique within each
      collection, and so are usernames and gmail addresses. */
  ghost predicate Valid(s: Store) {
    && (forall u :: u in s.users ==> u.id < s.next)
    && (forall t :: t in s.topics ==> t.id < s.next)
    && (forall u :: u in s.subtopics ==> u.id < s.next)
    && (forall r :: r in s.resources ==> r.id < s.next)
    && UniqueBy(s.users, UserKey)
    && UniqueBy(s.users, UsernameKey)
    && UniqueBy(s.users, GmailKey)
    && UniqueBy(s.topics, TopicKey)
    && UniqueBy(s.subtopics, SubtopicKey)
    && UniqueBy(s.resources, ResourceKey)
  }

  /** The ownership chain has no dangling links: every subtopic's topic and every
      resource's subtopic exists. */
  ghost predicate Linked(s: Store) {
    && (forall u :: u in s.subtopics ==> HasTopic(s, u.topic))
    && (forall r :: r in s.resources ==> HasSubtopic(s, r.subtopic))
  }

  /** The empty database is valid and linked. */
  lemma EmptyStoreIsSound()
    ensures Valid(EmptyStore()) && Linked(EmptyStore())
  {
  }
}
