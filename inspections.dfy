/**
 * The inspections list screen: a paginated accumulator. Each fetch either appends one page
 * of items, bumps the page counter and recomputes `hasMore`, or leaves the list alone; the
 * `onEndReached` guard decides whether another fetch starts. A fetch is split in two steps,
 * `BeginFetch` (up to the first await) and `CompleteFetch` (the reply and the `finally`),
 * so that the state between them, with `loading` set, is visible.
 */
module Inspections {
  import opened Wrappers
  import opened Js
  import opened Paging

  /** The accumulated list state. */
  datatype ListState = ListState(items: seq<Value>, page: int, hasMore: bool)

  /** `Array.isArray(data.items) ? data.items : []`. */
  function PageItems(data: Value): (r: seq<Value>)
    ensures Field(data, "items").Some? && Field(data, "items").value.Arr? ==> r == Field(data, "items").value.items
    ensures !(Field(data, "items").Some? && Field(data, "items").value.Arr?) ==> r == []
  {
    match Field(data, "items")
    case Some(Arr(xs)) => xs
    case _ => []
  }

  /** `if (data.success)`: the parsed reply exists and its success field is truthy. A reply
      that threw (token lookup, network, parsing) or a null body is a failure. */
  predicate Succeeded(reply: Read<Value>)
    ensures Succeeded(reply) ==> reply.Value? && reply.value.Obj? && "success" in reply.value.fields
  {
    reply.Value? && Truthy(Field(reply.value, "success"))
  }

  /** The effect of one reply on the list, as `fetchInspections` applies it after its await. */
  function Apply(s: ListState, reply: Read<Value>): (r: ListState)
    ensures Succeeded(reply) ==>
              && r.items == s.items + PageItems(reply.value)
              && r.page == s.page + 1
              && (r.hasMore <==> |PageItems(reply.value)| == PageSize
                                 || Field(reply.value, "has_more") == Some(Bool(true)))
    ensures !Succeeded(reply) ==> r == s
    ensures |r.items| >= |s.items| && r.items[..|s.items|] == s.items
  {
    if Succeeded(reply) then
      var pageItems := PageItems(reply.value);
      ListState(s.items + pageItems, s.page + 1,
                |pageItems| == PageSize || Field(reply.value, "has_more") == Some(Bool(true)))
    else s
  }

  /** The replies of a run of fetches applied in order. */
  function ApplyAll(s: ListState, replies: seq<Read<Value>>): ListState
    decreases |replies|
  {
    if replies == [] then s else ApplyAll(Apply(s, replies[0]), replies[1..])
  }

  /** The pages of the successful replies, concatenated. */
  function SuccessfulPages(replies: seq<Read<Value>>): seq<Value>
    decreases |replies|
  {
    if replies == [] then []
    else (if Succeeded(replies[0]) then PageItems(replies[0].value) else []) + SuccessfulPages(replies[1..])
  }

  function SuccessCount(replies: seq<Read<Value>>): nat
    decreases |replies|
  {
    if replies == [] then 0 else (if Succeeded(replies[0]) then 1 else 0) + SuccessCount(replies[1..])
  }

  /** After any run of fetches the list is the old list followed by every successful page
      in arrival order, and the page counter has advanced once per success. */
  lemma {:induction false} ApplyAllAccumulates(s: ListState, replies: seq<Read<Value>>)
    ensures ApplyAll(s, replies).items == s.items + SuccessfulPages(replies)
    ensures ApplyAll(s, replies).page == s.page + SuccessCount(replies)
    decreases |replies|
  {
    if replies != [] {
      var head := if Succeeded(replies[0]) then PageItems(replies[0].value) else [];
      var rest := replies[1..];
      var next := Apply(s, replies[0]);
      assert next.items == s.items + head;
      assert next.page == s.page + (if Succeeded(replies[0]) then 1 else 0);
      assert ApplyAll(s, replies) == ApplyAll(next, rest);
      ApplyAllAccumulates(next, rest);
      assert SuccessfulPages(replies) == head + SuccessfulPages(rest);
      assert s.items + head + SuccessfulPages(rest) == s.items + (head + SuccessfulPages(rest));
    }
  }

  class InspectionsScreen {
    var items: seq<Value>
    var loading: bool
    var page: int
    var hasMore: bool
    /** The `pageToLoad` of every fetch started, in order. */
    var requested: seq<int>

    function State(): ListState
      reads this
    {
      ListState(items, page, hasMore)
    }

    /** The initial state, then the mount effect's `fetchInspections(1)`. */
    constructor Mount()
      ensures items == [] && page == 1 && hasMore
      ensures loading && requested == [1]
    {
      items, loading, page, hasMore, requested := [], false, 1, true, [];
      new;
      BeginFetch(1);
    }

    /** `fetchInspections(pageToLoad)` up to its first await: `setLoading(true)`. */
    method BeginFetch(pageToLoad: int)
      modifies this
      ensures loading
      ensures requested == old(requested) + [pageToLoad]
      ensures State() == old(State())
    {
      loading := true;
      requested := requested + [pageToLoad];
    }

    /** The rest of `fetchInspections`: apply the reply, then `setLoading(false)`. */
    method CompleteFetch(reply: Read<Value>)
      modifies this
      ensures !loading
      ensures State() == Apply(old(State()), reply)
      ensures requested == old(requested)
    {
      if reply.Value? && Truthy(Field(reply.value, "success")) {
        var pageItems := PageItems(reply.value);
        items := items + pageItems;
        hasMore := |pageItems| == PageSize || Field(reply.value, "has_more") == Some(Bool(true));
        page := page + 1;
      }
      loading := false;
    }

    /** The list's `onEndReached` handler: `fetchInspections(page)` when the guard allows. */
    method OnEndReached() returns (started: bool)
      modifies this
      ensures started == ShouldFetchMore(old(loading), old(hasMore))
      ensures started ==> loading && requested == old(requested) + [old(page)]
      ensures !started ==> loading == old(loading) && requested == old(requested)
      ensures State() == old(State())
    {
      started := !loading && hasMore;
      if started {
        BeginFetch(page);
      }
    }
  }

  /** While a fetch is running, reaching the end of the list starts nothing. */
  method NoSecondFetchWhileLoading() returns (again: bool, pages: seq<int>)
    ensures !again
    ensures pages == [1]
  {
    var screen := new InspectionsScreen.Mount();
    again := screen.OnEndReached();
    pages := screen.requested;
  }

  /** A full page followed by a short one: two fetches, pages 1 and 2, then no more. */
  method TwoPages(first: seq<Value>, second: seq<Value>)
    returns (items: seq<Value>, pages: seq<int>, hasMore: bool, again: bool)
    requires |first| == PageSize && |second| < PageSize
    ensures items == first + second
    ensures pages == [1, 2]
    ensures !hasMore && !again
  {
    var screen := new InspectionsScreen.Mount();
    screen.CompleteFetch(Value(Obj(map["success" := Bool(true), "items" := Arr(first)])));
    var _ := screen.OnEndReached();
    screen.CompleteFetch(Value(Obj(map["success" := Bool(true), "items" := Arr(second)])));
    again := screen.OnEndReached();
    items, pages, hasMore := screen.items, screen.requested, screen.hasMore;
  }
}
