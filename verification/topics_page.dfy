/** The topics page (`/`): the caller's topics, a search box and a create form. */
module TopicsPage {
  import opened Collections
  import opened Text
  import Api
  import opened ListPage

  const LoadFailed := "Failed to load topics. Please try again."
  const SearchFailed := "Search failed. Please try again."
  const CreateFailed := "Failed to create topic. Please try again."
  const DeleteFailed := "Failed to delete topic. Please try again."

  /** The draft is the new topic's name. */
  type State = ListState<Entity, string>

  /** Before the mount effect's fetch has answered: no topics, loading. */
  function Initial(): (r: State)
    ensures r.items == [] && r.loading && r.error == "" && r.query == "" && r.draft == ""
  {
    ListState([], "", "", true, "")
  }

  /** `fetchTopics`: one `GET /topics`; the list becomes the answer and the
      banner is cleared, or on failure the list stays and the banner says so. */
  function FetchTopics(st: State, outcome: Api.Outcome<seq<Entity>>): (r: Step<State>)
    ensures r.sent == [Api.GetAllTopics()]
    ensures !r.state.loading && r.state.query == st.query && r.state.draft == st.draft
    ensures outcome.Success? ==> r.state.items == outcome.data && r.state.error == ""
    ensures outcome.Failure? ==> r.state.items == st.items && r.state.error == LoadFailed
  {
    Step(Fetch(st, outcome, LoadFailed), [Api.GetAllTopics()])
  }

  /** The mount effect's fetch from the initial state: one `GET /topics`, after
      which the page shows exactly the answer, or nothing and the load-failure
      banner. */
  lemma MountFetch(outcome: Api.Outcome<seq<Entity>>)
    ensures var r := FetchTopics(Initial(), outcome);
            && r.sent == [Api.GetAllTopics()] && !r.state.loading
            && r.state.items == (if outcome.Success? then outcome.data else [])
            && r.state.error == (if outcome.Success? then "" else LoadFailed)
  {
  }

  /** `handleSearch`: a blank query is a refetch; any other query is sent as
      typed, and its result replaces the list without clearing the banner. */
  function HandleSearch(st: State, outcome: Api.Outcome<seq<Entity>>): (r: Step<State>)
    ensures IsBlank(st.query) ==> r == FetchTopics(st, outcome)
    ensures !IsBlank(st.query) ==>
              && r.sent == [Api.SearchTopics(st.query)]
              && !r.state.loading && r.state.query == st.query && r.state.draft == st.draft
              && (outcome.Success? ==> r.state.items == outcome.data && r.state.error == st.error)
              && (outcome.Failure? ==> r.state.items == st.items && r.state.error == SearchFailed)
  {
    var sent := if Trim(st.query) == "" then [Api.GetAllTopics()] else [Api.SearchTopics(st.query)];
    Step(Search(st, outcome, LoadFailed, SearchFailed), sent)
  }

  /** `handleCreateTopic`: a name that trims to nothing sends nothing and
      changes nothing; otherwise the untrimmed name is posted, and the created
      topic is appended and the draft cleared, or the failure is shown. */
  function HandleCreateTopic(st: State, outcome: Api.Outcome<Entity>): (r: Step<State>)
    ensures IsBlank(st.draft) ==> r == Step(st, [])
    ensures !IsBlank(st.draft) ==> r.sent == [Api.CreateTopic(st.draft)]
    ensures !IsBlank(st.draft) && outcome.Success? ==>
              && r.state.items == st.items + [outcome.data]
              && r.state.draft == "" && r.state.error == st.error && r.state.loading == st.loading
    ensures !IsBlank(st.draft) && outcome.Failure? ==> r.state == st.(error := CreateFailed)
  {
    if Trim(st.draft) == "" then Step(st, [])
    else
      var r := Append(st, outcome, "", CreateFailed);
      assert outcome.Success? ==> r.items == r.items[..|st.items|] + [r.items[|st.items|]];
      Step(r, [Api.CreateTopic(st.draft)])
  }

  /** `handleDeleteTopic`: declined, nothing is sent; confirmed, one delete is
      sent and on success every topic with that id leaves the list, the others
      staying, each as often as before and in their order. */
  function HandleDeleteTopic(st: State, topicId: string, confirmed: bool, outcome: Api.Outcome<()>): (r: Step<State>)
    ensures !confirmed ==> r == Step(st, [])
    ensures confirmed ==> r.sent == [Api.DeleteTopic(topicId)]
    ensures confirmed && outcome.Success? ==>
              && r.state == st.(items := r.state.items)
              && (forall t :: t in r.state.items <==> t in st.items && t.id != topicId)
              && (forall t :: t in st.items ==>
                    multiset(r.state.items)[t] == if t.id != topicId then multiset(st.items)[t] else 0)
              && IsSubseq(r.state.items, st.items)
    ensures confirmed && outcome.Failure? ==> r.state == st.(error := DeleteFailed)
  {
    Step(Remove(st, EntityId, topicId, confirmed, outcome, DeleteFailed),
         if confirmed then [Api.DeleteTopic(topicId)] else [])
  }

  /** A topic created and then deleted leaves the list as it was. */
  lemma CreateThenDeleteTopic(st: State, created: Entity)
    requires !IsBlank(st.draft)
    requires forall t :: t in st.items ==> t.id != created.id
    ensures var added := HandleCreateTopic(st, Api.Success(created)).state;
            HandleDeleteTopic(added, created.id, true, Api.Success(())).state.items == st.items
  {
    AppendThenRemove(st, EntityId, created, "", CreateFailed, DeleteFailed);
  }
}
