/** The resources page (`/subtopics/:subtopicId`): the subtopic's resources, a
    tag filter, and a create form that either posts a link or uploads a file. */
module ResourcesPage {
  import opened Collections
  import opened Text
  import Api
  import opened ListPage

  const LoadFailed := "Failed to load resources. Please try again."
  const CreateFailed := "Failed to create resource. Please try again."
  const DeleteFailed := "Failed to delete resource. Please try again."

  /** A resource as the client holds it; `fileType` is set on uploads only. */
  datatype Resource = Resource(id: string, title: Option<string>, url: string, tag: Option<string>,
                               fileType: Option<string>)

  function ResourceId(x: Resource): string { x.id }

  /** The form's radio buttons. */
  datatype Mode = UrlMode | FileMode

  datatype Draft = Draft(title: string, url: string, tag: string, file: Option<Api.FileRef>)

  const EmptyDraft := Draft("", "", "", None)

  /** `tags` are the filter's choices, `''` standing for "all"; a tag may be
      `null` on the server, hence `Option`. */
  datatype State = State(subtopicId: string, list: ListState<Resource, Draft>, tags: seq<Option<string>>,
                         selectedTag: string, mode: Mode)

  function Initial(subtopicId: string): (r: State)
    ensures r.list.items == [] && r.list.draft == EmptyDraft && r.list.loading && r.list.error == ""
    ensures r.tags == [] && r.selectedTag == "" && r.mode == UrlMode
  {
    State(subtopicId, ListState([], "", EmptyDraft, true, ""), [], "", UrlMode)
  }

  /** `fetchResources`: asks for the subtopic's resources with the selected tag
      (the empty tag asks for all of them). */
  function FetchResources(st: State, outcome: Api.Outcome<seq<Resource>>): (r: Step<State>)
    ensures r.sent == [Api.GetResources(st.subtopicId, Some(st.selectedTag))]
    ensures st.selectedTag == "" ==> r.sent == [Api.GetResources(st.subtopicId, None)]
    ensures r.state == st.(list := r.state.list)
    ensures !r.state.list.loading && r.state.list.draft == st.list.draft
    ensures outcome.Success? ==> r.state.list.items == outcome.data && r.state.list.error == ""
    ensures outcome.Failure? ==> r.state.list.items == st.list.items && r.state.list.error == LoadFailed
  {
    Step(st.(list := Fetch(st.list, outcome, LoadFailed)), [Api.GetResources(st.subtopicId, Some(st.selectedTag))])
  }

  /** The mount effect's fetches from the initial state: the filter starts at
      `''`, so every resource of the subtopic is asked for, and the page then
      shows exactly the answer (or nothing, with the banner); the tag choices
      become `''` followed by the server's tags, or stay empty. */
  lemma MountFetch(subtopicId: string, resources: Api.Outcome<seq<Resource>>,
                   tags: Api.Outcome<seq<Option<string>>>)
    ensures var listed := FetchResources(Initial(subtopicId), resources);
            var tagged := FetchTags(listed.state, tags);
            && listed.sent == [Api.GetResources(subtopicId, None)]
            && tagged.state.list.items == (if resources.Success? then resources.data else [])
            && !tagged.state.list.loading
            && tagged.state.tags == (if tags.Success? then [Some("")] + tags.data else [])
  {
  }

  /** `fetchTags`: the choices become `''` followed by the server's tags; a
      failure is only logged. */
  function FetchTags(st: State, outcome: Api.Outcome<seq<Option<string>>>): (r: Step<State>)
    ensures r.sent == [Api.GetTags()]
    ensures outcome.Success? ==> r.state == st.(tags := [Some("")] + outcome.data)
    ensures outcome.Failure? ==> r.state == st
  {
    match outcome
    case Success(tags) => Step(st.(tags := [Some("")] + tags), [Api.GetTags()])
    case Failure(_) => Step(st, [Api.GetTags()])
  }

  /** The values of the filter dropdown: the fixed "All" option (value `''`)
      followed by every choice except `''`. */
  function DropdownValues(tags: seq<Option<string>>): (r: seq<Option<string>>)
    ensures |r| >= 1 && r[0] == Some("")
    ensures forall i :: 1 <= i < |r| ==> r[i] != Some("")
    ensures forall t :: t in tags && t != Some("") ==> t in r
    ensures forall t :: t in r ==> t == Some("") || t in tags
  {
    [Some("")] + Filter(tags, (t: Option<string>) => t != Some(""))
  }

  /** However many empty tags the server reports, "All" is offered once and
      every other tag is offered. */
  lemma AllOfferedOnce(st: State, serverTags: seq<Option<string>>)
    ensures var values := DropdownValues(FetchTags(st, Api.Success(serverTags)).state.tags);
            && (forall i :: 0 <= i < |values| ==> (values[i] == Some("") <==> i == 0))
            && (forall t :: t in serverTags ==> t in values)
  {
  }

  /** The request a submit sends: in url mode a JSON object with exactly the
      title, url and tag; in file mode a multipart form with the title, the tag
      and the chosen file, the draft url playing no part. */
  function CreateRequest(st: State): (r: Api.Call)
    ensures st.mode == UrlMode ==>
              && r.body.Json? && r == Api.CreateResource(st.subtopicId, r.body.fields)
              && r.body.fields.Keys == {"title", "url", "tag"}
              && r.body.fields["title"] == st.list.draft.title && r.body.fields["url"] == st.list.draft.url
              && r.body.fields["tag"] == st.list.draft.tag
    ensures st.mode == FileMode ==>
              r == Api.UploadResource(st.subtopicId, st.list.draft.title, st.list.draft.tag, st.list.draft.file)
  {
    var d := st.list.draft;
    if st.mode == UrlMode then Api.CreateResource(st.subtopicId, map["title" := d.title, "url" := d.url, "tag" := d.tag])
    else Api.UploadResource(st.subtopicId, d.title, d.tag, d.file)
  }

  /** In file mode the draft url is not sent; in url mode the chosen file is not. */
  lemma UnusedDraftFieldsNotSent(st: State, url: string, file: Option<Api.FileRef>)
    ensures st.mode == FileMode ==> CreateRequest(st.(list := st.list.(draft := st.list.draft.(url := url)))) == CreateRequest(st)
    ensures st.mode == UrlMode ==> CreateRequest(st.(list := st.list.(draft := st.list.draft.(file := file)))) == CreateRequest(st)
  {
  }

  /** The created resource's tag joins the choices unless it is already one. */
  function AddTag(tags: seq<Option<string>>, tag: Option<string>): (r: seq<Option<string>>)
    ensures forall t :: t in r <==> t in tags || t == tag
    ensures |r| >= |tags| && r[..|tags|] == tags
    ensures tag in tags ==> r == tags
    ensures tag !in tags ==> |r| == |tags| + 1
    ensures NoDup(tags) ==> NoDup(r)
  {
    if tag in tags then tags
    else
      assert (tags + [tag])[..|tags|] == tags;
      tags + [tag]
  }

  /** `handleCreateResource`: clears the banner, sends the request for the
      current mode (no blank check), and on success appends the created
      resource, resets the draft and the mode, and adds its tag if new; on
      failure only the banner changes. `loading` is false afterwards. */
  function HandleCreateResource(st: State, outcome: Api.Outcome<Resource>): (r: Step<State>)
    ensures r.sent == [CreateRequest(st)]
    ensures !r.state.list.loading && r.state.subtopicId == st.subtopicId && r.state.selectedTag == st.selectedTag
    ensures outcome.Success? ==>
              && r.state.list.items == st.list.items + [outcome.data]
              && r.state.list.draft == EmptyDraft && r.state.mode == UrlMode
              && r.state.tags == AddTag(st.tags, outcome.data.tag)
              && r.state.list.error == ""
    ensures outcome.Failure? ==>
              r.state == st.(list := st.list.(error := CreateFailed, loading := false))
  {
    var cleared := st.list.(error := "", loading := true);
    var sent := [CreateRequest(st)];
    match outcome
    case Success(created) =>
      var l := Append(cleared, outcome, EmptyDraft, CreateFailed);
      assert l.items == l.items[..|st.list.items|] + [l.items[|st.list.items|]];
      Step(st.(list := l.(loading := false), mode := UrlMode, tags := AddTag(st.tags, created.tag)), sent)
    case Failure(_) => Step(st.(list := cleared.(error := CreateFailed, loading := false)), sent)
  }

  /** Creating resources never puts a tag twice among the choices. */
  lemma {:induction false} CreatesKeepTagsDistinct(st: State, outcomes: seq<Api.Outcome<Resource>>)
    requires NoDup(st.tags)
    ensures NoDup(CreateAll(st, outcomes).tags)
    decreases |outcomes|
  {
    if |outcomes| > 0 {
      var next := HandleCreateResource(st, outcomes[0]).state;
      assert NoDup(next.tags);
      CreatesKeepTagsDistinct(next, outcomes[1..]);
    }
  }

  /** The state after a series of submits with these outcomes. */
  function CreateAll(st: State, outcomes: seq<Api.Outcome<Resource>>): (r: State)
    ensures r.subtopicId == st.subtopicId
    decreases |outcomes|
  {
    if |outcomes| == 0 then st else CreateAll(HandleCreateResource(st, outcomes[0]).state, outcomes[1..])
  }

  /** `handleDeleteResource`: confirmed, one delete; on success the resources
      with that id leave the list and the rest stay, in their order. */
  function HandleDeleteResource(st: State, resourceId: string, confirmed: bool, outcome: Api.Outcome<()>)
    : (r: Step<State>)
    ensures !confirmed ==> r == Step(st, [])
    ensures confirmed ==> r.sent == [Api.DeleteResource(st.subtopicId, resourceId)]
    ensures confirmed && outcome.Success? ==>
              && r.state == st.(list := st.list.(items := r.state.list.items))
              && (forall x :: x in r.state.list.items <==> x in st.list.items && x.id != resourceId)
              && (forall x :: x in st.list.items ==>
                    multiset(r.state.list.items)[x] == if x.id != resourceId then multiset(st.list.items)[x] else 0)
              && IsSubseq(r.state.list.items, st.list.items)
    ensures confirmed && outcome.Failure? ==> r.state == st.(list := st.list.(error := DeleteFailed))
  {
    Step(st.(list := Remove(st.list, ResourceId, resourceId, confirmed, outcome, DeleteFailed)),
         if confirmed then [Api.DeleteResource(st.subtopicId, resourceId)] else [])
  }

  /** What a resource's link shows. */
  datatype LinkLabel = ShowUrl(url: string) | ViewImage | ViewPdf | DownloadFile

  /** `renderResourceLink`: a resource without a (non-empty) file type shows
      its url; otherwise "image" anywhere in the type wins over "pdf", and any
      other type is a download. */
  function Label(x: Resource): (r: LinkLabel)
    ensures r == ShowUrl(x.url) <==> !Truthy(x.fileType)
    ensures r == ViewImage <==> Truthy(x.fileType) && Contains(x.fileType.value, "image")
    ensures r == ViewPdf <==> Truthy(x.fileType) && !Contains(x.fileType.value, "image") && Contains(x.fileType.value, "pdf")
  {
    if !Truthy(x.fileType) then ShowUrl(x.url)
    else if Contains(x.fileType.value, "image") then ViewImage
    else if Contains(x.fileType.value, "pdf") then ViewPdf
    else DownloadFile
  }

  /** The label in terms of where the words occur in the file type. */
  lemma LabelByOccurrence(x: Resource)
    requires Truthy(x.fileType)
    ensures Label(x) == ViewImage <==> exists k :: OccursAt(x.fileType.value, "image", k)
    ensures Label(x) == DownloadFile <==>
              (forall k :: !OccursAt(x.fileType.value, "image", k)) && (forall k :: !OccursAt(x.fileType.value, "pdf", k))
  {
    ContainsIffOccurs(x.fileType.value, "image");
    ContainsIffOccurs(x.fileType.value, "pdf");
  }
}
