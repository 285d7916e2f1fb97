/** The list state the three page controllers share and the transitions their
    handlers make on it. Each handler is one sequential step: the server's
    answer is a parameter (`Api.Outcome`), and `loading`, set while the request
    is in flight, is false again once the `finally` block has run. */
module ListPage {
  import opened Collections
  import opened Text
  import Api

  /** `items` is the rendered list, `query` the search box, `draft` the create
      form, `error` the banner ('' shows none). */
  datatype ListState<T, D> = ListState(items: seq<T>, query: string, draft: D, loading: bool, error: string)

  /** A topic or subtopic as the client holds it: the `_id` string and the name. */
  datatype Entity = Entity(id: string, name: string)

  function EntityId(e: Entity): string { e.id }

  /** A handler's new state and the requests it issued, in order. */
  datatype Step<S> = Step(state: S, sent: seq<Api.Call>)

  /** A fetch: on success the list becomes the response and the error banner is
      cleared; on failure the list is kept, not emptied, and the banner shows
      `failText`. Nothing else changes. */
  function Fetch<T, D>(st: ListState<T, D>, outcome: Api.Outcome<seq<T>>, failText: string): (r: ListState<T, D>)
    ensures !r.loading && r.query == st.query && r.draft == st.draft
    ensures outcome.Success? ==> r.items == outcome.data && r.error == ""
    ensures outcome.Failure? ==> r.items == st.items && r.error == failText
  {
    match outcome
    case Success(data) => st.(items := data, error := "", loading := false)
    case Failure(_) => st.(error := failText, loading := false)
  }

  /** A search: a query that trims to nothing runs the fetch instead (with the
      fetch's failure text); otherwise the list becomes the search result and,
      unlike a fetch, a stale error banner stays. */
  function Search<T, D>(st: ListState<T, D>, outcome: Api.Outcome<seq<T>>, fetchFailText: string, searchFailText: string)
    : (r: ListState<T, D>)
    ensures !r.loading && r.query == st.query && r.draft == st.draft
    ensures !IsBlank(st.query) && outcome.Success? ==> r.items == outcome.data && r.error == st.error
    ensures !IsBlank(st.query) && outcome.Failure? ==> r.items == st.items && r.error == searchFailText
  {
    if Trim(st.query) == "" then Fetch(st, outcome, fetchFailText)
    else match outcome
      case Success(data) => st.(items := data, loading := false)
      case Failure(_) => st.(error := searchFailText, loading := false)
  }

  /** A search whose query is blank is exactly a fetch. */
  lemma BlankSearchIsFetch<T, D>(st: ListState<T, D>, outcome: Api.Outcome<seq<T>>, fetchFailText: string, searchFailText: string)
    requires IsBlank(st.query)
    ensures Search(st, outcome, fetchFailText, searchFailText) == Fetch(st, outcome, fetchFailText)
  {
  }

  /** A create that reached the server: on success the created record is
      appended after the others and the draft is reset; on failure the list and
      the draft are kept and the banner shows `failText`. */
  function Append<T, D>(st: ListState<T, D>, outcome: Api.Outcome<T>, emptyDraft: D, failText: string): (r: ListState<T, D>)
    ensures r.query == st.query && r.loading == st.loading
    ensures outcome.Success? ==>
              && |r.items| == |st.items| + 1
              && r.items[..|st.items|] == st.items && r.items[|st.items|] == outcome.data
              && r.draft == emptyDraft && r.error == st.error
    ensures outcome.Failure? ==> r == st.(error := failText)
  {
    match outcome
    case Success(data) =>
      assert (st.items + [data])[..|st.items|] == st.items;
      st.(items := st.items + [data], draft := emptyDraft)
    case Failure(_) => st.(error := failText)
  }

  /** The items whose id differs from `id`, in their order: every occurrence
      of such an item is kept, and nothing else. */
  function WithoutId<T>(items: seq<T>, idOf: T -> string, id: string): (r: seq<T>)
    ensures forall x :: x in r ==> x in items && idOf(x) != id
    ensures forall x :: x in items && idOf(x) != id ==> x in r
    ensures forall x :: x in items ==> multiset(r)[x] == if idOf(x) != id then multiset(items)[x] else 0
    ensures IsSubseq(r, items)
  {
    var keep := (x: T) => idOf(x) != id;
    FilterIsSubseq(items, keep);
    assert forall x :: x in items && idOf(x) != id ==> x in Filter(items, keep) by {
      forall x | x in items && idOf(x) != id ensures x in Filter(items, keep) {
        assert keep(x);
      }
    }
    forall x | x in items
      ensures multiset(Filter(items, keep))[x] == if idOf(x) != id then multiset(items)[x] else 0
    {
      FilterCount(items, keep, x);
    }
    Filter(items, keep)
  }

  /** A delete: declined at the confirmation prompt, nothing happens and nothing
      is sent; once the server succeeds, every item with that id is dropped and
      the rest keep their order; on failure the list is kept and the banner shows
      `failText`. */
  function Remove<T, D>(st: ListState<T, D>, idOf: T -> string, id: string, confirmed: bool,
                        outcome: Api.Outcome<()>, failText: string): (r: ListState<T, D>)
    ensures !confirmed ==> r == st
    ensures confirmed && outcome.Success? ==>
              && r == st.(items := r.items)
              && (forall x :: x in r.items ==> x in st.items && idOf(x) != id)
              && (forall x :: x in st.items && idOf(x) != id ==> x in r.items)
              && (forall x :: x in st.items ==>
                    multiset(r.items)[x] == if idOf(x) != id then multiset(st.items)[x] else 0)
              && IsSubseq(r.items, st.items)
    ensures confirmed && outcome.Failure? ==> r == st.(error := failText)
  {
    if !confirmed then st
    else match outcome
      case Success(_) => st.(items := WithoutId(st.items, idOf, id))
      case Failure(_) => st.(error := failText)
  }

  /** Removing an id twice removes it once. */
  lemma {:induction false} RemoveIsIdempotent<T, D>(st: ListState<T, D>, idOf: T -> string, id: string, failText: string)
    ensures var once := Remove(st, idOf, id, true, Api.Success(()), failText);
            Remove(once, idOf, id, true, Api.Success(()), failText) == once
  {
    var keep := (x: T) => idOf(x) != id;
    FilterIdempotent(st.items, keep);
  }

  /** Creating a record whose id is new and then deleting it gives back the list
      the page had before. */
  lemma {:induction false} AppendThenRemove<T, D>(st: ListState<T, D>, idOf: T -> string, created: T, emptyDraft: D,
                                                  createFailText: string, deleteFailText: string)
    requires forall x :: x in st.items ==> idOf(x) != idOf(created)
    ensures var added := Append(st, Api.Success(created), emptyDraft, createFailText);
            Remove(added, idOf, idOf(created), true, Api.Success(()), deleteFailText).items == st.items
  {
    var keep := (x: T) => idOf(x) != idOf(created);
    FilterAppend(st.items, [created], keep);
    FilterAll(st.items, keep);
    assert Filter([created], keep) == [];
  }
}
