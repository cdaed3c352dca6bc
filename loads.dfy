/**
 * The loads list screen: the same paginated accumulator as the inspections screen, with
 * its own rules (`hasMore` is exactly "a full page", with no server override) and a query
 * string built from the stored user's role and id.
 */
module Loads {
  import opened Wrappers
  import opened Js
  import opened Paging

  datatype ListState = ListState(loads: seq<Value>, page: int, hasMore: bool)

  /** The query parameters, in append order (URL encoding is not modelled). */
  type Query = seq<(string, string)>

  /** The query `fetchLoads` builds: `page`, then `role=driver` plus `user_id` when it is truthy, or
      `role=admin` for any other (or no) user. */
  function QueryParams(pageToLoad: int, user: Value): (q: Query)
    ensures 2 <= |q| <= 3
    ensures q[0] == ("page", IntToString(pageToLoad))
    ensures Field(user, "role") == Some(Str("driver")) ==> q[1] == ("role", "driver")
    ensures Field(user, "role") != Some(Str("driver")) ==> q == q[..2] && q[1] == ("role", "admin")
    ensures |q| == 3 <==> Field(user, "role") == Some(Str("driver")) && Truthy(Field(user, "user_id"))
    ensures |q| == 3 ==> q[2] == ("user_id", ToJsString(Field(user, "user_id").value))
  {
    var params := [("page", IntToString(pageToLoad))];
    if Field(user, "role") == Some(Str("driver")) then
      var withRole := params + [("role", "driver")];
      var userId := Field(user, "user_id");
      if Truthy(userId) then withRole + [("user_id", ToJsString(userId.value))] else withRole
    else params + [("role", "admin")]
  }

  /** `if (data.success)` with `data.loads` an array. A success reply whose `loads` is not
      an array throws at `data.loads.length` and, like a thrown reply, changes nothing. */
  predicate Succeeded(reply: Read<Value>)
    ensures Succeeded(reply) ==> reply.Value? && reply.value.Obj? && "loads" in reply.value.fields && reply.value.fields["loads"].Arr?
  {
    reply.Value? && Truthy(Field(reply.value, "success"))
    && Field(reply.value, "loads").Some? && Field(reply.value, "loads").value.Arr?
  }

  /** The effect of one reply on the list, as `fetchLoads` applies it after its await. */
  function Apply(s: ListState, reply: Read<Value>): (r: ListState)
    ensures Succeeded(reply) ==>
              var page := Field(reply.value, "loads").value.items;
              && r.loads == s.loads + page
              && r.page == s.page + 1
              && (r.hasMore <==> |page| == PageSize)
    ensures !Succeeded(reply) ==> r == s
    ensures |r.loads| >= |s.loads| && r.loads[..|s.loads|] == s.loads
  {
    if Succeeded(reply) then
      var page := Field(reply.value, "loads").value.items;
      ListState(s.loads + page, s.page + 1, |page| == PageSize)
    else s
  }

  /** Unlike the inspections screen, a server `has_more` flag is ignored. */
  lemma HasMoreIgnoresServerFlag(s: ListState, page: seq<Value>)
    requires |page| < PageSize
    ensures !Apply(s, Value(Obj(map["success" := Bool(true), "loads" := Arr(page),
                                    "has_more" := Bool(true)]))).hasMore
  {
    var data := Obj(map["success" := Bool(true), "loads" := Arr(page), "has_more" := Bool(true)]);
    assert Field(data, "loads") == Some(Arr(page));
  }

  /** The `loads` array of a successful reply. */
  function PageOf(reply: Read<Value>): (r: seq<Value>)
    requires Succeeded(reply)
    ensures Field(reply.value, "loads") == Some(Arr(r))
  {
    Field(reply.value, "loads").value.items
  }

  /** The replies of a run of fetches applied in order. */
  function ApplyAll(s: ListState, replies: seq<Read<Value>>): ListState
    decreases |replies|
  {
    if replies == [] then s else ApplyAll(Apply(s, replies[0]), replies[1..])
  }

  /** The pages of the successful replies, concatenated. */
  function SuccessfulPages(replies: seq<Read<Value>>): seq<Value>
    decreases |replies|
  {
    if replies == [] then []
    else (if Succeeded(replies[0]) then PageOf(replies[0]) else []) + SuccessfulPages(replies[1..])
  }

  function SuccessCount(replies: seq<Read<Value>>): nat
    decreases |replies|
  {
    if replies == [] then 0 else (if Succeeded(replies[0]) then 1 else 0) + SuccessCount(replies[1..])
  }

  /** After any run of fetches the list is the old list followed by every successful page
      in arrival order, and the page counter has advanced once per success. */
  lemma {:induction false} ApplyAllAccumulates(s: ListState, replies: seq<Read<Value>>)
    ensures ApplyAll(s, replies).loads == s.loads + SuccessfulPages(replies)
    ensures ApplyAll(s, replies).page == s.page + SuccessCount(replies)
    decreases |replies|
  {
    if replies != [] {
      var head := if Succeeded(replies[0]) then PageOf(replies[0]) else [];
      var rest := replies[1..];
      var next := Apply(s, replies[0]);
      assert next.loads == s.loads + head;
      assert next.page == s.page + (if Succeeded(replies[0]) then 1 else 0);
      assert ApplyAll(s, replies) == ApplyAll(next, rest);
      ApplyAllAccumulates(next, rest);
      assert SuccessfulPages(replies) == head + SuccessfulPages(rest);
      assert s.loads + head + SuccessfulPages(rest) == s.loads + (head + SuccessfulPages(rest));
    }
  }

  class LoadsScreen {
    var loads: seq<Value>
    var loading: bool
    var page: int
    var hasMore: bool
    /** The page of the fetch in flight. */
    var pending: int
    /** The `pageToLoad` of every fetch started, in order. */
    var requested: seq<int>
    /** The query of every request sent to the loads endpoint, in order. */
    var queries: seq<Query>

    function State(): ListState
      reads this
    {
      ListState(loads, page, hasMore)
    }

    /** The initial state, then the mount effect's `fetchLoads(1)`. */
    constructor Mount()
      ensures loads == [] && page == 1 && hasMore
      ensures loading && pending == 1 && requested == [1] && queries == []
    {
      loads, loading, page, hasMore, pending, requested, queries := [], false, 1, true, 1, [], [];
      new;
      BeginFetch(1);
    }

    /** `fetchLoads(pageToLoad)` up to its first await: `setLoading(true)`. */
    method BeginFetch(pageToLoad: int)
      modifies this
      ensures loading && pending == pageToLoad
      ensures requested == old(requested) + [pageToLoad]
      ensures State() == old(State()) && queries == old(queries)
    {
      loading := true;
      pending := pageToLoad;
      requested := requested + [pageToLoad];
    }

    /** The rest of `fetchLoads`: read the user (which may throw), send the request, apply
        the reply, then `setLoading(false)`. */
    method CompleteFetch(user: Read<Value>, reply: Read<Value>)
      modifies this
      ensures !loading
      ensures queries == old(queries) + (if user.Value? then [QueryParams(pending, user.value)] else [])
      ensures State() == (if user.Value? then Apply(old(State()), reply) else old(State()))
      ensures requested == old(requested) && pending == old(pending)
    {
      if user.Value? {
        var role := Field(user.value, "role");
        var userId := Field(user.value, "user_id");
        var params := [("page", IntToString(pending))];
        if role == Some(Str("driver")) {
          params := params + [("role", "driver")];
          if Truthy(userId) {
            params := params + [("user_id", ToJsString(userId.value))];
          }
        } else {
          params := params + [("role", "admin")];
        }
        queries := queries + [params];
        if reply.Value? && Truthy(Field(reply.value, "success")) {
          var items := Field(reply.value, "loads");
          if items.Some? && items.value.Arr? {
            loads := loads + items.value.items;
            hasMore := |items.value.items| == PageSize;
            page := page + 1;
          }
        }
      }
      loading := false;
    }

    /** The list's `onEndReached` handler: `fetchLoads(page)` when the guard allows. */
    method OnEndReached() returns (started: bool)
      modifies this
      ensures started == ShouldFetchMore(old(loading), old(hasMore))
      ensures started ==> loading && pending == old(page) && requested == old(requested) + [old(page)]
      ensures !started ==> loading == old(loading) && requested == old(requested) && pending == old(pending)
      ensures State() == old(State()) && queries == old(queries)
    {
      started := !loading && hasMore;
      if started {
        BeginFetch(page);
      }
    }
  }

  /** A driver without a user_id gets `page` and `role=driver` only. */
  method DriverWithoutId() returns (q: Query)
    ensures q == [("page", "1"), ("role", "driver")]
  {
    var user := Obj(map["role" := Str("driver"), "user_id" := Str("")]);
    var screen := new LoadsScreen.Mount();
    screen.CompleteFetch(Value(user), Threw("offline"));
    q := screen.queries[0];
    assert q == QueryParams(1, user);
    assert Field(user, "role") == Some(Str("driver")) && Field(user, "user_id") == Some(Str(""));
    assert IntToString(1) == "1";
  }
}
