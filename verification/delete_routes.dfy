/** The three DELETE routes. `delete_many` is a filter keeping what does not
    match; `delete_one` removes the first match (with unique ids, the only one). */
module DeleteRoutes {
  import opened Collections
  import opened Store
  import TopicRoutes
  import ResourceRoutes

  const TopicDeleted := "Topic deleted successfully"
  const SubtopicDeleted := "Subtopic deleted successfully"
  const ResourceDeleted := "Resource deleted successfully"
  const ResourceNotFound := "Resource not found"

  /** The ids of the subtopics filed under `topicId`, as `str(subtopic["_id"])`
      over `subtopics.find({"topic_id": topicId})` collects them. */
  function SubtopicIdsUnder(subtopics: seq<Subtopic>, topicId: Id): (r: seq<Id>)
    ensures forall id :: id in r <==> exists u :: u in subtopics && u.topic == topicId && u.id == id
  {
    var under := Filter(subtopics, (u: Subtopic) => u.topic == topicId);
    var r := Keys(under, SubtopicKey);
    assert forall u :: u in under ==> u.id in r by {
      forall u | u in under ensures u.id in r {
        var i :| 0 <= i < |under| && under[i] == u;
        assert r[i] == u.id;
      }
    }
    r
  }

  /** Removes the topic with id `topicId` (the first, which a valid store makes the only one). */
  function DropTopic(topics: seq<Topic>, topicId: Id): (r: seq<Topic>)
    ensures forall t :: t in r ==> t in topics
    ensures UniqueBy(topics, TopicKey) ==>
              && UniqueBy(r, TopicKey)
              && forall t :: t in r <==> t in topics && t.id != topicId
  {
    var p := (t: Topic) => t.id == topicId;
    var q := (t: Topic) => t.id != topicId;
    RemoveFirstOfUnique(topics, TopicKey, topicId, p, q);
    FilterUniqueBy(topics, q, TopicKey);
    RemoveFirst(topics, p)
  }

  /** `DELETE /api/topics/<topic_id>` AS WRITTEN: 404 unless the topic is the
      caller's; then the topic's subtopics are deleted, and only afterwards are
      the subtopics of the topic read back to choose which resources to delete.
      The read finds none, so no resource is ever removed. */
  function DeleteTopic(s: Store, caller: Id, topicId: Id): (r: Reply)
    ensures !OwnsTopic(s, caller, topicId) <==> r.response.status == NotFound
    ensures !OwnsTopic(s, caller, topicId) ==> r == Fail(s, NotFound, TopicRoutes.TopicNotFound)
    ensures OwnsTopic(s, caller, topicId) ==>
              && r.response == Response(Ok, Message(TopicDeleted))
              && (forall u :: u in r.store.subtopics <==> u in s.subtopics && u.topic != topicId)
              && r.store.resources == s.resources
              && (Valid(s) ==> forall t :: t in r.store.topics <==> t in s.topics && t.id != topicId)
              && r.store.users == s.users && r.store.next == s.next
    ensures Valid(s) ==> Valid(r.store)
  {
    if OwnedTopic(s, topicId, caller).None? then Fail(s, NotFound, TopicRoutes.TopicNotFound)
    else
      var other := (u: Subtopic) => u.topic != topicId;
      FilterUniqueBy(s.subtopics, other, SubtopicKey);
      var s1 := s.(subtopics := Filter(s.subtopics, other));
      var doomed := SubtopicIdsUnder(s1.subtopics, topicId);
      var keep := (x: Resource) => x.subtopic !in doomed;
      FilterAll(s1.resources, keep);
      var s2 := s1.(resources := Filter(s1.resources, keep));
      var s3 := s2.(topics := DropTopic(s2.topics, topicId));
      Reply(Response(Ok, Message(TopicDeleted)), s3)
  }

  /** `DELETE /api/topics/<topic_id>` CORRECTED: the ids of the topic's subtopics
      are collected before anything is deleted, so their resources go too, as the
      route's own comment promises. */
  function DeleteTopicCascade(s: Store, caller: Id, topicId: Id): (r: Reply)
    ensures !OwnsTopic(s, caller, topicId) <==> r.response.status == NotFound
    ensures !OwnsTopic(s, caller, topicId) ==> r == Fail(s, NotFound, TopicRoutes.TopicNotFound)
    ensures OwnsTopic(s, caller, topicId) ==>
              && r.response == Response(Ok, Message(TopicDeleted))
              && (forall u :: u in r.store.subtopics <==> u in s.subtopics && u.topic != topicId)
              && (forall x :: x in r.store.resources <==>
                    x in s.resources && !exists u :: u in s.subtopics && u.topic == topicId && u.id == x.subtopic)
              && (Valid(s) ==> forall t :: t in r.store.topics <==> t in s.topics && t.id != topicId)
              && r.store.users == s.users && r.store.next == s.next
    ensures Valid(s) ==> Valid(r.store)
  {
    if OwnedTopic(s, topicId, caller).None? then Fail(s, NotFound, TopicRoutes.TopicNotFound)
    else
      var doomed := SubtopicIdsUnder(s.subtopics, topicId);
      var other := (u: Subtopic) => u.topic != topicId;
      var keep := (x: Resource) => x.subtopic !in doomed;
      FilterUniqueBy(s.subtopics, other, SubtopicKey);
      FilterUniqueBy(s.resources, keep, ResourceKey);
      var s1 := s.(subtopics := Filter(s.subtopics, other));
      var s2 := s1.(resources := Filter(s1.resources, keep));
      var s3 := s2.(topics := DropTopic(s2.topics, topicId));
      Reply(Response(Ok, Message(TopicDeleted)), s3)
  }

  ghost predicate SubtopicUnder(s: Store, topicId: Id, subtopicId: Id) {
    exists u :: u in s.subtopics && u.id == subtopicId && u.topic == topicId
  }

  /** `DELETE /api/topics/<topic_id>/subtopics/<subtopic_id>`: 404 unless that
      subtopic is filed under that topic, checked BEFORE ownership; then 403
      unless the topic is the caller's; then the subtopic's resources and the
      subtopic itself are removed. */
  function DeleteSubtopic(s: Store, caller: Id, topicId: Id, subtopicId: Id): (r: Reply)
    ensures !SubtopicUnder(s, topicId, subtopicId) <==> r.response.status == NotFound
    ensures !SubtopicUnder(s, topicId, subtopicId) ==> r == Fail(s, NotFound, ResourceRoutes.SubtopicNotFound)
    ensures SubtopicUnder(s, topicId, subtopicId) && !OwnsTopic(s, caller, topicId) ==>
              r == Fail(s, Forbidden, ResourceRoutes.AccessDenied)
    ensures SubtopicUnder(s, topicId, subtopicId) && OwnsTopic(s, caller, topicId) ==>
              && r.response == Response(Ok, Message(SubtopicDeleted))
              && (forall x :: x in r.store.resources <==> x in s.resources && x.subtopic != subtopicId)
              && |r.store.subtopics| == |s.subtopics| - 1
              && (Valid(s) ==> forall u :: u in r.store.subtopics <==> u in s.subtopics && u.id != subtopicId)
              && r.store.users == s.users && r.store.topics == s.topics && r.store.next == s.next
    ensures Valid(s) ==> Valid(r.store)
  {
    if Find(s.subtopics, (u: Subtopic) => u.id == subtopicId && u.topic == topicId).None? then
      Fail(s, NotFound, ResourceRoutes.SubtopicNotFound)
    else if OwnedTopic(s, topicId, caller).None? then Fail(s, Forbidden, ResourceRoutes.AccessDenied)
    else
      var p := (u: Subtopic) => u.id == subtopicId;
      var q := (u: Subtopic) => u.id != subtopicId;
      var keep := (x: Resource) => x.subtopic != subtopicId;
      RemoveFirstOfUnique(s.subtopics, SubtopicKey, subtopicId, p, q);
      FilterUniqueBy(s.subtopics, q, SubtopicKey);
      FilterUniqueBy(s.resources, keep, ResourceKey);
      var s1 := s.(resources := Filter(s.resources, keep));
      Reply(Response(Ok, Message(SubtopicDeleted)), s1.(subtopics := RemoveFirst(s1.subtopics, p)))
  }

  ghost predicate ResourceUnder(s: Store, subtopicId: Id, resourceId: Id) {
    exists x :: x in s.resources && x.id == resourceId && x.subtopic == subtopicId
  }

  /** `DELETE /api/subtopics/<subtopic_id>/resources/<resource_id>`: 404 unless
      that resource is filed under that subtopic; then the resource routes' 404
      and 403 checks on the subtopic; then exactly that one resource is removed. */
  function DeleteResource(s: Store, caller: Id, subtopicId: Id, resourceId: Id): (r: Reply)
    ensures !ResourceUnder(s, subtopicId, resourceId) ==> r == Fail(s, NotFound, ResourceNotFound)
    ensures ResourceUnder(s, subtopicId, resourceId) && ResourceRoutes.CheckAccess(s, caller, subtopicId).Some? ==>
              r == ResourceRoutes.CheckAccess(s, caller, subtopicId).value
    ensures r.response.status == Ok <==>
              ResourceUnder(s, subtopicId, resourceId) && ResourceRoutes.CheckAccess(s, caller, subtopicId).None?
    ensures r.response.status != Ok ==> r.store == s
    ensures r.response.status == Ok ==>
              && r.response.body == Message(ResourceDeleted)
              && |r.store.resources| == |s.resources| - 1
              && (Valid(s) ==> forall x :: x in r.store.resources <==> x in s.resources && x.id != resourceId)
              && r.store == s.(resources := r.store.resources)
    ensures Valid(s) ==> Valid(r.store)
    ensures Linked(s) ==> Linked(r.store)
  {
    if Find(s.resources, (x: Resource) => x.id == resourceId && x.subtopic == subtopicId).None? then
      Fail(s, NotFound, ResourceNotFound)
    else
      var denied := ResourceRoutes.CheckAccess(s, caller, subtopicId);
      if denied.Some? then denied.value
      else
        var p := (x: Resource) => x.id == resourceId;
        var q := (x: Resource) => x.id != resourceId;
        RemoveFirstOfUnique(s.resources, ResourceKey, resourceId, p, q);
        FilterUniqueBy(s.resources, q, ResourceKey);
        Reply(Response(Ok, Message(ResourceDeleted)), s.(resources := RemoveFirst(s.resources, p)))
  }

  /** The corrected topic delete keeps the ownership chain free of dangling
      links: the subtopics it removes take their resources with them. */
  lemma DeleteTopicCascadePreservesLinked(s: Store, caller: Id, topicId: Id)
    requires Valid(s) && Linked(s)
    ensures Linked(DeleteTopicCascade(s, caller, topicId).store)
  {
    var r := DeleteTopicCascade(s, caller, topicId);
    if r.response.status == Ok {
      forall u | u in r.store.subtopics ensures HasTopic(r.store, u.topic) {
        var t :| t in s.topics && t.id == u.topic;
        assert t in r.store.topics;
      }
      forall x | x in r.store.resources ensures HasSubtopic(r.store, x.subtopic) {
        var w :| w in s.subtopics && w.id == x.subtopic;
        assert w in r.store.subtopics;
      }
    }
  }

  /** The subtopic delete keeps the chain linked: the resources of the removed
      subtopic go with it. */
  lemma DeleteSubtopicPreservesLinked(s: Store, caller: Id, topicId: Id, subtopicId: Id)
    requires Valid(s) && Linked(s)
    ensures Linked(DeleteSubtopic(s, caller, topicId, subtopicId).store)
  {
    var r := DeleteSubtopic(s, caller, topicId, subtopicId);
    if r.response.status == Ok {
      forall x | x in r.store.resources ensures HasSubtopic(r.store, x.subtopic) {
        var w :| w in s.subtopics && w.id == x.subtopic;
        assert w in r.store.subtopics;
      }
    }
  }

  /** The two topic deletes answer alike and leave the same topics and
      subtopics; they differ only in resources, where the corrected one removes
      the resources of the deleted subtopics and the one as written removes none. */
  lemma DeleteTopicVersionsDiffer(s: Store, caller: Id, topicId: Id)
    ensures var written := DeleteTopic(s, caller, topicId);
            var fixed := DeleteTopicCascade(s, caller, topicId);
            && written.response == fixed.response
            && written.store.(resources := fixed.store.resources) == fixed.store
            && (forall x :: x in fixed.store.resources ==> x in written.store.resources)
            && (written.store.resources == fixed.store.resources <==>
                  !OwnsTopic(s, caller, topicId) ||
                  forall x :: x in s.resources ==> x.subtopic !in SubtopicIdsUnder(s.subtopics, topicId))
  {
    var written := DeleteTopic(s, caller, topicId);
    var fixed := DeleteTopicCascade(s, caller, topicId);
    if OwnsTopic(s, caller, topicId) {
      var keep := (x: Resource) => x.subtopic !in SubtopicIdsUnder(s.subtopics, topicId);
      if forall x :: x in s.resources ==> keep(x) {
        FilterAll(s.resources, keep);
      } else {
        var x :| x in s.resources && !keep(x);
        assert x !in fixed.store.resources;
      }
    }
  }

  /** A concrete store on which the topic delete as written leaves a resource
      whose subtopic is gone: nobody can delete it any more (the resource delete
      answers 404 "Subtopic not found"), and its tag is still listed by
      `GET /api/tags`. The corrected delete removes it. */
  lemma DeleteTopicOrphansResources()
    ensures var s := Store([], [Topic(0, "t", 7)], [Subtopic(1, "s", 0)],
                           [Resource(2, Some("r"), "https://x", Some("video"), 1, None)], 3);
            var after := DeleteTopic(s, 7, 0).store;
            && Valid(s) && Linked(s)
            && DeleteTopic(s, 7, 0).response.status == Ok
            && !Linked(after)
            && DeleteResource(after, 7, 1, 2) == Fail(after, NotFound, ResourceRoutes.SubtopicNotFound)
            && Some("video") in ResourceRoutes.GetTags(after).response.body.tags
            && DeleteTopicCascade(s, 7, 0).store.resources == []
  {
    var s := Store([], [Topic(0, "t", 7)], [Subtopic(1, "s", 0)],
                   [Resource(2, Some("r"), "https://x", Some("video"), 1, None)], 3);
    var after := DeleteTopic(s, 7, 0).store;
    assert OwnsTopic(s, 7, 0) by {
      assert s.topics[0] in s.topics;
    }
    assert s.resources[0] in after.resources;
    assert ResourceUnder(after, 1, 2) by {
      assert after.resources[0] in after.resources;
    }
    var fixed := DeleteTopicCascade(s, 7, 0).store;
    assert fixed.resources == [] by {
      assert s.subtopics[0] in s.subtopics;
    }
  }
}
