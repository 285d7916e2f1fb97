/** The subtopics page (`/topics/:topicId`): the topic's heading, its subtopics,
    a search box and a create form. Every request names the route's topic id. */
module SubtopicsPage {
  import opened Collections
  import opened Text
  import Api
  import opened ListPage

  const TopicMissing := "Topic not found"
  const TopicLoadFailed := "Failed to load topic information."
  const LoadFailed := "Failed to load subtopics. Please try again."
  const SearchFailed := "Search failed. Please try again."
  const CreateFailed := "Failed to create subtopic. Please try again."
  const DeleteFailed := "Failed to delete subtopic. Please try again."

  /** `topic` is the heading, `None` until found. */
  datatype State = State(topicId: string, topic: Option<Entity>, list: ListState<Entity, string>)

  function Initial(topicId: string): (r: State)
    ensures r.topicId == topicId && r.topic.None? && r.list.items == [] && r.list.loading && r.list.error == ""
  {
    State(topicId, None, ListState([], "", "", true, ""))
  }

  /** `fetchTopicInfo`: fetches all the caller's topics and takes the first
      whose id is the route's; none found is an error and keeps the old heading,
      and so is a failed request. The subtopic list is not touched. */
  function FetchTopicInfo(st: State, outcome: Api.Outcome<seq<Entity>>): (r: Step<State>)
    ensures r.sent == [Api.GetAllTopics()]
    ensures r.state.topicId == st.topicId && r.state.list.items == st.list.items
    ensures r.state.list == st.list.(error := r.state.list.error)
    ensures outcome.Success? && (exists t :: t in outcome.data && t.id == st.topicId) ==>
              && r.state.list.error == st.list.error
              && r.state.topic.Some? && r.state.topic.value.id == st.topicId
              && exists i :: 0 <= i < |outcome.data| && outcome.data[i] == r.state.topic.value
                             && forall j :: 0 <= j < i ==> outcome.data[j].id != st.topicId
    ensures outcome.Success? && (forall t :: t in outcome.data ==> t.id != st.topicId) ==>
              r.state == st.(list := st.list.(error := TopicMissing))
    ensures outcome.Failure? ==> r.state == st.(list := st.list.(error := TopicLoadFailed))
  {
    var sent := [Api.GetAllTopics()];
    match outcome
    case Success(topics) =>
      var found := Find(topics, (t: Entity) => t.id == st.topicId);
      if found.None? then Step(st.(list := st.list.(error := TopicMissing)), sent)
      else Step(st.(topic := found), sent)
    case Failure(_) => Step(st.(list := st.list.(error := TopicLoadFailed)), sent)
  }

  /** `fetchSubtopics`: one `GET` of the topic's subtopics; success replaces the
      list and clears the banner, failure keeps the list. */
  function FetchSubtopics(st: State, outcome: Api.Outcome<seq<Entity>>): (r: Step<State>)
    ensures r.sent == [Api.GetSubtopics(st.topicId)]
    ensures r.state.topicId == st.topicId && r.state.topic == st.topic
    ensures !r.state.list.loading && r.state.list.query == st.list.query && r.state.list.draft == st.list.draft
    ensures outcome.Success? ==> r.state.list.items == outcome.data && r.state.list.error == ""
    ensures outcome.Failure? ==> r.state.list.items == st.list.items && r.state.list.error == LoadFailed
  {
    Step(st.(list := Fetch(st.list, outcome, LoadFailed)), [Api.GetSubtopics(st.topicId)])
  }

  /** The mount effect starts `fetchTopicInfo` and `fetchSubtopics` together.
      Whichever answer arrives first, the page ends with the same heading and
      the same list: the subtopics answered, or none when that request failed. */
  lemma MountFetch(topicId: string, topics: Api.Outcome<seq<Entity>>, subtopics: Api.Outcome<seq<Entity>>)
    ensures var info := FetchTopicInfo(Initial(topicId), topics);
            var list := FetchSubtopics(info.state, subtopics);
            var list' := FetchSubtopics(Initial(topicId), subtopics);
            var info' := FetchTopicInfo(list'.state, topics);
            && info.sent + list.sent == [Api.GetAllTopics(), Api.GetSubtopics(topicId)]
            && list.state.topic == info'.state.topic
            && list.state.list.items == info'.state.list.items
            && list.state.list.items == (if subtopics.Success? then subtopics.data else [])
            && !list.state.list.loading && !info'.state.list.loading
  {
  }

  /** `handleSearch`: a blank query is a refetch, any other is sent as typed. */
  function HandleSearch(st: State, outcome: Api.Outcome<seq<Entity>>): (r: Step<State>)
    ensures IsBlank(st.list.query) ==> r == FetchSubtopics(st, outcome)
    ensures !IsBlank(st.list.query) ==>
              && r.sent == [Api.SearchSubtopics(st.topicId, st.list.query)]
              && r.state.topicId == st.topicId && r.state.topic == st.topic && !r.state.list.loading
              && (outcome.Success? ==> r.state.list.items == outcome.data && r.state.list.error == st.list.error)
              && (outcome.Failure? ==> r.state.list.items == st.list.items && r.state.list.error == SearchFailed)
  {
    var sent := if Trim(st.list.query) == "" then [Api.GetSubtopics(st.topicId)]
                else [Api.SearchSubtopics(st.topicId, st.list.query)];
    Step(st.(list := Search(st.list, outcome, LoadFailed, SearchFailed)), sent)
  }

  /** `handleCreateSubtopic`: a blank name is a no-op; otherwise the untrimmed
      name is posted under the topic and the result appended. */
  function HandleCreateSubtopic(st: State, outcome: Api.Outcome<Entity>): (r: Step<State>)
    ensures IsBlank(st.list.draft) ==> r == Step(st, [])
    ensures !IsBlank(st.list.draft) ==> r.sent == [Api.CreateSubtopic(st.topicId, st.list.draft)]
    ensures !IsBlank(st.list.draft) && outcome.Success? ==>
              && r.state == st.(list := r.state.list)
              && r.state.list.items == st.list.items + [outcome.data]
              && r.state.list.draft == "" && r.state.list.error == st.list.error
    ensures !IsBlank(st.list.draft) && outcome.Failure? ==> r.state == st.(list := st.list.(error := CreateFailed))
  {
    if Trim(st.list.draft) == "" then Step(st, [])
    else
      var l := Append(st.list, outcome, "", CreateFailed);
      assert outcome.Success? ==> l.items == l.items[..|st.list.items|] + [l.items[|st.list.items|]];
      Step(st.(list := l), [Api.CreateSubtopic(st.topicId, st.list.draft)])
  }

  /** `handleDeleteSubtopic`: confirmed, one delete under the topic; on success
      the subtopics with that id leave the list, and every other one stays,
      as often as before and in its order. */
  function HandleDeleteSubtopic(st: State, subtopicId: string, confirmed: bool, outcome: Api.Outcome<()>)
    : (r: Step<State>)
    ensures !confirmed ==> r == Step(st, [])
    ensures confirmed ==> r.sent == [Api.DeleteSubtopic(st.topicId, subtopicId)]
    ensures confirmed && outcome.Success? ==>
              && r.state == st.(list := st.list.(items := r.state.list.items))
              && (forall u :: u in r.state.list.items <==> u in st.list.items && u.id != subtopicId)
              && (forall u :: u in st.list.items ==>
                    multiset(r.state.list.items)[u] == if u.id != subtopicId then multiset(st.list.items)[u] else 0)
              && IsSubseq(r.state.list.items, st.list.items)
    ensures confirmed && outcome.Failure? ==> r.state == st.(list := st.list.(error := DeleteFailed))
  {
    Step(st.(list := Remove(st.list, EntityId, subtopicId, confirmed, outcome, DeleteFailed)),
         if confirmed then [Api.DeleteSubtopic(st.topicId, subtopicId)] else [])
  }
}
