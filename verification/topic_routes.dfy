/** The topic routes (`/api/topics`, `/api/topics/search`) and the subtopic
    routes nested under a topic (`/api/topics/<topic_id>/subtopics[/search]`).
    MongoDB's case-insensitive `$regex` match is the abstract `matches(pattern, name)`. */
module TopicRoutes {
  import opened Collections
  import opened Store

  const TopicNotFound := "Topic not found"

  /** `request.args.get("query", "")`. */
  function QueryOrEmpty(query: Option<string>): string {
    if query.Some? then query.value else ""
  }

  /** `GET /api/topics`: exactly the caller's topics, in store order. */
  function GetTopics(s: Store, caller: Id): (r: Reply)
    ensures r.store == s && r.response.status == Ok && r.response.body.TopicList?
    ensures forall t :: t in r.response.body.topics ==> t in s.topics && t.owner == caller
    ensures forall t :: t in s.topics && t.owner == caller ==> t in r.response.body.topics
    ensures IsSubseq(r.response.body.topics, s.topics)
  {
    var mine := Filter(s.topics, (t: Topic) => t.owner == caller);
    FilterIsSubseq(s.topics, (t: Topic) => t.owner == caller);
    Reply(Response(Ok, TopicList(mine)), s)
  }

  /** `POST /api/topics`: a missing `name` key is an uncaught error; otherwise one
      topic owned by the caller is appended under a fresh id, and its id and name
      are echoed with 201. */
  function CreateTopic(s: Store, caller: Id, data: Fields): (r: Reply)
    ensures "name" !in data ==> r == Crash(s)
    ensures "name" in data ==>
              && r.response.status == Created
              && |r.store.topics| == |s.topics| + 1
              && r.store.topics[..|s.topics|] == s.topics
              && var t := r.store.topics[|s.topics|];
              && t.name == data["name"] && t.owner == caller
              && (Valid(s) ==> forall other :: other in s.topics ==> other.id != t.id)
              && r.response.body == Named(t.id, data["name"])
              && r.store.users == s.users && r.store.subtopics == s.subtopics
              && r.store.resources == s.resources
  {
    if "name" !in data then Crash(s)
    else
      var t := Topic(s.next, data["name"], caller);
      assert (s.topics + [t])[..|s.topics|] == s.topics;
      CreatedIdIsFresh(s, t.id);
      Reply(Response(Created, Named(t.id, t.name)), s.(topics := s.topics + [t], next := s.next + 1))
  }

  /** `GET /api/topics/search`: the caller's topics whose name matches the query
      (an absent query is the empty pattern); always a subset of `GetTopics`. The
      query goes to `$regex` as typed, and a pattern MongoDB cannot compile makes
      the `find` raise, an uncaught error (500). */
  function SearchTopics(s: Store, caller: Id, query: Option<string>, matches: (string, string) -> bool,
                        compiles: string -> bool): (r: Reply)
    ensures r.store == s
    ensures !compiles(QueryOrEmpty(query)) ==> r == Crash(s)
    ensures r.response.status == Ok <==> compiles(QueryOrEmpty(query))
    ensures compiles(QueryOrEmpty(query)) ==>
              && r.response.body.TopicList?
              && (forall t :: t in r.response.body.topics ==> t in GetTopics(s, caller).response.body.topics)
              && (forall t :: t in r.response.body.topics <==>
                    t in s.topics && t.owner == caller && matches(QueryOrEmpty(query), t.name))
  {
    var q := QueryOrEmpty(query);
    if !compiles(q) then Crash(s)
    else Reply(Response(Ok, TopicList(Filter(s.topics, (t: Topic) => t.owner == caller && matches(q, t.name)))), s)
  }

  /** `GET /api/topics/<topic_id>/subtopics`: 404 unless the topic exists and is
      the caller's; then every subtopic filed under that topic id. */
  function GetSubtopics(s: Store, caller: Id, topicId: Id): (r: Reply)
    ensures r.store == s
    ensures !OwnsTopic(s, caller, topicId) <==> r.response.status == NotFound
    ensures !OwnsTopic(s, caller, topicId) ==> r.response.body == Message(TopicNotFound)
    ensures OwnsTopic(s, caller, topicId) ==>
              && r.response.status == Ok && r.response.body.SubtopicList?
              && (forall u :: u in r.response.body.subtopics <==> u in s.subtopics && u.topic == topicId)
  {
    if OwnedTopic(s, topicId, caller).None? then Fail(s, NotFound, TopicNotFound)
    else Reply(Response(Ok, SubtopicList(Filter(s.subtopics, (u: Subtopic) => u.topic == topicId))), s)
  }

  /** `POST /api/topics/<topic_id>/subtopics`: 404 (store unchanged) unless the
      topic is the caller's; then a missing `name` is an uncaught error; otherwise
      one subtopic is appended under that topic and echoed with 201. */
  function CreateSubtopic(s: Store, caller: Id, topicId: Id, data: Fields): (r: Reply)
    ensures !OwnsTopic(s, caller, topicId) <==> r.response.status == NotFound
    ensures !OwnsTopic(s, caller, topicId) ==> r == Fail(s, NotFound, TopicNotFound)
    ensures OwnsTopic(s, caller, topicId) && "name" !in data ==> r == Crash(s)
    ensures OwnsTopic(s, caller, topicId) && "name" in data ==>
              && r.response.status == Created
              && |r.store.subtopics| == |s.subtopics| + 1
              && r.store.subtopics[..|s.subtopics|] == s.subtopics
              && var u := r.store.subtopics[|s.subtopics|];
              && u.name == data["name"] && u.topic == topicId
              && (Valid(s) ==> forall v :: v in s.subtopics ==> v.id != u.id)
              && r.response.body == Named(u.id, data["name"])
              && r.store.users == s.users && r.store.topics == s.topics
              && r.store.resources == s.resources
  {
    if OwnedTopic(s, topicId, caller).None? then Fail(s, NotFound, TopicNotFound)
    else if "name" !in data then Crash(s)
    else
      var u := Subtopic(s.next, data["name"], topicId);
      assert (s.subtopics + [u])[..|s.subtopics|] == s.subtopics;
      CreatedIdIsFresh(s, u.id);
      Reply(Response(Created, Named(u.id, u.name)), s.(subtopics := s.subtopics + [u], next := s.next + 1))
  }

  /** `GET /api/topics/<topic_id>/subtopics/search`: 404 unless the topic is the
      caller's; then a pattern MongoDB cannot compile is an uncaught error (500);
      otherwise the subtopics of that topic whose name matches. */
  function SearchSubtopics(s: Store, caller: Id, topicId: Id, query: Option<string>,
                           matches: (string, string) -> bool, compiles: string -> bool): (r: Reply)
    ensures r.store == s
    ensures !OwnsTopic(s, caller, topicId) <==> r.response.status == NotFound
    ensures !OwnsTopic(s, caller, topicId) ==> r.response.body == Message(TopicNotFound)
    ensures OwnsTopic(s, caller, topicId) && !compiles(QueryOrEmpty(query)) ==> r == Crash(s)
    ensures r.response.status == Ok <==> OwnsTopic(s, caller, topicId) && compiles(QueryOrEmpty(query))
    ensures OwnsTopic(s, caller, topicId) && compiles(QueryOrEmpty(query)) ==>
              && r.response.body.SubtopicList?
              && (forall u :: u in r.response.body.subtopics ==>
                                u in GetSubtopics(s, caller, topicId).response.body.subtopics)
              && (forall u :: u in r.response.body.subtopics <==>
                                u in s.subtopics && u.topic == topicId && matches(QueryOrEmpty(query), u.name))
  {
    var q := QueryOrEmpty(query);
    if OwnedTopic(s, topicId, caller).None? then Fail(s, NotFound, TopicNotFound)
    else if !compiles(q) then Crash(s)
    else Reply(Response(Ok, SubtopicList(Filter(s.subtopics, (u: Subtopic) => u.topic == topicId && matches(q, u.name)))), s)
  }

  /** In a valid store the next id is used by no record. */
  lemma CreatedIdIsFresh(s: Store, id: Id)
    requires id == s.next
    ensures Valid(s) ==> (forall t :: t in s.topics ==> t.id != id) && (forall u :: u in s.subtopics ==> u.id != id)
                         && (forall x :: x in s.resources ==> x.id != id)
  {
  }

  /** A topic just created is listed by the next `GET /api/topics` of its owner. */
  lemma CreateTopicThenList(s: Store, caller: Id, data: Fields)
    requires "name" in data
    ensures var r := CreateTopic(s, caller, data);
            var t := r.store.topics[|s.topics|];
            t in GetTopics(r.store, caller).response.body.topics && r.response.body == Named(t.id, t.name)
  {
  }

  /** Creating a topic keeps the store valid and linked: its id is fresh. */
  lemma CreateTopicPreservesSoundness(s: Store, caller: Id, data: Fields)
    requires Valid(s) && Linked(s)
    ensures var r := CreateTopic(s, caller, data); Valid(r.store) && Linked(r.store)
  {
    var r := CreateTopic(s, caller, data);
    if "name" in data {
      var t := r.store.topics[|s.topics|];
      assert r.store.topics == s.topics + [t];
      AppendUniqueBy(s.topics, t, TopicKey);
      forall u | u in r.store.subtopics ensures HasTopic(r.store, u.topic) {
        var w :| w in s.topics && w.id == u.topic;
        assert w in r.store.topics;
      }
    }
  }

  /** Creating a subtopic keeps the store valid and linked: its id is fresh
      and its topic was just found. */
  lemma CreateSubtopicPreservesSoundness(s: Store, caller: Id, topicId: Id, data: Fields)
    requires Valid(s) && Linked(s)
    ensures var r := CreateSubtopic(s, caller, topicId, data); Valid(r.store) && Linked(r.store)
  {
    var r := CreateSubtopic(s, caller, topicId, data);
    if r.response.status == Created {
      var u := r.store.subtopics[|s.subtopics|];
      assert r.store.subtopics == s.subtopics + [u];
      AppendUniqueBy(s.subtopics, u, SubtopicKey);
      forall x | x in r.store.resources ensures HasSubtopic(r.store, x.subtopic) {
        var w :| w in s.subtopics && w.id == x.subtopic;
        assert w in r.store.subtopics;
      }
    }
  }
}
