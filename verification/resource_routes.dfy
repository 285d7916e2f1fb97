/** The resource routes under `/api/subtopics/<subtopic_id>/resources` and
    `GET /api/tags`. Each resource route first looks the subtopic up (404 when
    missing), then checks that the subtopic's topic is the caller's (403). */
module ResourceRoutes {
  import opened Collections
  import opened Text
  import opened Store

  const SubtopicNotFound := "Subtopic not found"
  const AccessDenied := "Access denied"
  const NoFile := "No file uploaded"
  const UploadFailed := "File upload failed"

  /** The `file` part of a multipart request. */
  datatype FileUpload = FileUpload(filename: string, contentType: Option<string>)

  /** What the file host (Cloudinary) answers: the public `secure_url`, or an exception. */
  datatype CloudResult = Uploaded(secureUrl: string) | CloudError

  /** The ownership checks every resource route starts with, in order: 404 when
      no subtopic has the id, 403 when its topic is not the caller's. `None` means
      both passed. With unique subtopic ids, 403 means exactly that the subtopic
      exists but belongs to someone else. */
  function CheckAccess(s: Store, caller: Id, subtopicId: Id): (r: Option<Reply>)
    ensures r.Some? ==> r.value.store == s
    ensures r == Some(Fail(s, NotFound, SubtopicNotFound)) <==> !HasSubtopic(s, subtopicId)
    ensures r.Some? ==> r == Some(Fail(s, NotFound, SubtopicNotFound)) || r == Some(Fail(s, Forbidden, AccessDenied))
    ensures Valid(s) ==> (r.None? <==> OwnsSubtopic(s, caller, subtopicId))
  {
    var sub := SubtopicById(s, subtopicId);
    if sub.None? then Some(Fail(s, NotFound, SubtopicNotFound))
    else
      SubtopicLookupIsUnique(s, caller, subtopicId, sub.value);
      if OwnedTopic(s, sub.value.topic, caller).None? then Some(Fail(s, Forbidden, AccessDenied))
      else None
  }

  /** With unique subtopic ids the subtopic found by id decides ownership. */
  lemma SubtopicLookupIsUnique(s: Store, caller: Id, id: Id, found: Subtopic)
    requires found in s.subtopics && found.id == id
    ensures Valid(s) ==> (OwnsSubtopic(s, caller, id) <==> OwnsTopic(s, caller, found.topic))
  {
    if Valid(s) && OwnsSubtopic(s, caller, id) {
      var u :| u in s.subtopics && u.id == id && OwnsTopic(s, caller, u.topic);
      UniqueKeyMembers(s.subtopics, SubtopicKey, u, found);
    }
  }

  /** A resource passes the tag filter: any tag when the filter is absent or
      empty, else exactly the filter's tag. */
  predicate TagMatches(filter: Option<string>, x: Resource) {
    Truthy(filter) ==> x.tag == filter
  }

  /** `GET /api/subtopics/<subtopic_id>/resources[?tag=...]`. */
  function GetResources(s: Store, caller: Id, subtopicId: Id, tag: Option<string>): (r: Reply)
    ensures r.store == s
    ensures r.response.status == NotFound <==> !HasSubtopic(s, subtopicId)
    ensures CheckAccess(s, caller, subtopicId).Some? ==> r == CheckAccess(s, caller, subtopicId).value
    ensures Valid(s) ==> (r.response.status == Ok <==> OwnsSubtopic(s, caller, subtopicId))
    ensures r.response.status == Ok ==>
              && r.response.body.ResourceList?
              && (forall x :: x in r.response.body.resources <==>
                                x in s.resources && x.subtopic == subtopicId && TagMatches(tag, x))
  {
    var denied := CheckAccess(s, caller, subtopicId);
    if denied.Some? then denied.value
    else
      var found := Filter(s.resources, (x: Resource) => x.subtopic == subtopicId && TagMatches(tag, x));
      Reply(Response(Ok, ResourceList(found)), s)
  }

  /** `POST /api/subtopics/<subtopic_id>/resources` with a JSON `{title, url, tag}`:
      after the two access checks, a missing key is an uncaught error; otherwise
      one link resource is appended under the subtopic and echoed with 201. */
  function CreateResource(s: Store, caller: Id, subtopicId: Id, data: Fields): (r: Reply)
    ensures CheckAccess(s, caller, subtopicId).Some? ==> r == CheckAccess(s, caller, subtopicId).value
    ensures CheckAccess(s, caller, subtopicId).None? && !("title" in data && "url" in data && "tag" in data) ==>
              r == Crash(s)
    ensures r.response.status == Created <==>
              CheckAccess(s, caller, subtopicId).None? && "title" in data && "url" in data && "tag" in data
    ensures r.response.status != Created ==> r.store == s
    ensures r.response.status == Created ==>
              && |r.store.resources| == |s.resources| + 1
              && r.store.resources[..|s.resources|] == s.resources
              && r.store == s.(resources := r.store.resources, next := s.next + 1)
              && var x := r.store.resources[|s.resources|];
              && x.id == s.next && x.subtopic == subtopicId && x.upload.None?
              && x.title == Some(data["title"]) && x.url == data["url"] && x.tag == Some(data["tag"])
              && r.response.body == ResourceEcho(x.id, x.title, x.url, x.tag, None)
  {
    var denied := CheckAccess(s, caller, subtopicId);
    if denied.Some? then denied.value
    else if !("title" in data && "url" in data && "tag" in data) then Crash(s)
    else
      var x := Resource(s.next, Some(data["title"]), data["url"], Some(data["tag"]), subtopicId, None);
      assert (s.resources + [x])[..|s.resources|] == s.resources;
      Reply(Response(Created, ResourceEcho(x.id, x.title, x.url, x.tag, None)),
            s.(resources := s.resources + [x], next := s.next + 1))
  }

  /** werkzeug's `FileStorage` is falsy when the part is missing or has an empty file name. */
  predicate HasFile(file: Option<FileUpload>) {
    file.Some? && file.value.filename != ""
  }

  /** `POST /api/subtopics/<subtopic_id>/resources/upload` (multipart): after the
      two access checks, 400 when no file came; 500 when the file host fails;
      otherwise one resource carrying the hosted url, the content type and the
      sanitized file name is appended and echoed with 201. `title` and `tag` are
      optional form fields. `secureName` stands for werkzeug's `secure_filename`. */
  function UploadResource(s: Store, caller: Id, subtopicId: Id, form: Fields, file: Option<FileUpload>,
                          cloud: CloudResult, secureName: string -> string): (r: Reply)
    ensures CheckAccess(s, caller, subtopicId).Some? ==> r == CheckAccess(s, caller, subtopicId).value
    ensures CheckAccess(s, caller, subtopicId).None? && !HasFile(file) ==> r == Fail(s, BadRequest, NoFile)
    ensures CheckAccess(s, caller, subtopicId).None? && HasFile(file) && cloud.CloudError? ==>
              r == Fail(s, ServerError, UploadFailed)
    ensures r.response.status == Created <==> CheckAccess(s, caller, subtopicId).None? && HasFile(file) && cloud.Uploaded?
    ensures r.response.status != Created ==> r.store == s
    ensures r.response.status == Created ==>
              && |r.store.resources| == |s.resources| + 1
              && r.store.resources[..|s.resources|] == s.resources
              && r.store == s.(resources := r.store.resources, next := s.next + 1)
              && var x := r.store.resources[|s.resources|];
              && x.id == s.next && x.subtopic == subtopicId && x.url == cloud.secureUrl
              && x.title == (if "title" in form then Some(form["title"]) else None)
              && x.tag == (if "tag" in form then Some(form["tag"]) else None)
              && x.upload == Some(Upload(file.value.contentType, secureName(file.value.filename)))
              && r.response.body == ResourceEcho(x.id, x.title, x.url, x.tag, x.upload)
  {
    var denied := CheckAccess(s, caller, subtopicId);
    if denied.Some? then denied.value
    else
      var title := if "title" in form then Some(form["title"]) else None;
      var tag := if "tag" in form then Some(form["tag"]) else None;
      if !HasFile(file) then Fail(s, BadRequest, NoFile)
      else if cloud.CloudError? then Fail(s, ServerError, UploadFailed)
      else
        var upload := Upload(file.value.contentType, secureName(file.value.filename));
        var x := Resource(s.next, title, cloud.secureUrl, tag, subtopicId, Some(upload));
        assert (s.resources + [x])[..|s.resources|] == s.resources;
        Reply(Response(Created, ResourceEcho(x.id, x.title, x.url, x.tag, x.upload)),
              s.(resources := s.resources + [x], next := s.next + 1))
  }

  function ResourceTag(x: Resource): Option<string> { x.tag }

  /** `GET /api/tags`: every distinct tag value of every resource in the store,
      whoever owns it. */
  function GetTags(s: Store): (r: Reply)
    ensures r.store == s && r.response.status == Ok && r.response.body.TagList?
    ensures NoDup(r.response.body.tags)
    ensures forall t :: t in r.response.body.tags ==> exists x :: x in s.resources && x.tag == t
    ensures forall x :: x in s.resources ==> x.tag in r.response.body.tags
  {
    var all := Keys(s.resources, ResourceTag);
    assert forall x :: x in s.resources ==> x.tag in all by {
      forall x | x in s.resources ensures x.tag in all {
        var i :| 0 <= i < |s.resources| && s.resources[i] == x;
        assert all[i] == x.tag;
      }
    }
    Reply(Response(Ok, TagList(Distinct(all))), s)
  }

  /** Adding a link resource keeps the store valid and linked: its id is fresh
      and its subtopic was just found. */
  lemma CreateResourcePreservesSoundness(s: Store, caller: Id, subtopicId: Id, data: Fields)
    requires Valid(s) && Linked(s)
    ensures var r := CreateResource(s, caller, subtopicId, data); Valid(r.store) && Linked(r.store)
  {
    var r := CreateResource(s, caller, subtopicId, data);
    if r.response.status == Created {
      AppendResourceSound(s, r.store, subtopicId, caller);
    }
  }

  /** The same for an uploaded file. */
  lemma UploadResourcePreservesSoundness(s: Store, caller: Id, subtopicId: Id, form: Fields,
                                         file: Option<FileUpload>, cloud: CloudResult, secureName: string -> string)
    requires Valid(s) && Linked(s)
    ensures var r := UploadResource(s, caller, subtopicId, form, file, cloud, secureName);
            Valid(r.store) && Linked(r.store)
  {
    var r := UploadResource(s, caller, subtopicId, form, file, cloud, secureName);
    if r.response.status == Created {
      AppendResourceSound(s, r.store, subtopicId, caller);
    }
  }

  /** A record appended under an accessible subtopic with the next id keeps
      the store valid and linked. */
  lemma AppendResourceSound(s: Store, s': Store, subtopicId: Id, caller: Id)
    requires Valid(s) && Linked(s)
    requires CheckAccess(s, caller, subtopicId).None?
    requires |s'.resources| == |s.resources| + 1
    requires s'.resources[..|s.resources|] == s.resources
    requires s' == s.(resources := s'.resources, next := s.next + 1)
    requires s'.resources[|s.resources|].id == s.next && s'.resources[|s.resources|].subtopic == subtopicId
    ensures Valid(s') && Linked(s')
  {
    var x := s'.resources[|s.resources|];
    assert s'.resources == s.resources + [x];
    AppendUniqueBy(s.resources, x, ResourceKey);
  }
}
