/**
 * The loads notification feed (`initLoadNotifications`). It keeps no module state: every
 * call registers the push token again and attaches a fresh pair of listeners. The class
 * records what the feed did to the outside world: the POSTs it issued, the listener
 * handles still registered with the OS, and the load ids passed to `onOpenLoad`.
 */
module LoadFeed {
  import opened Wrappers
  import opened Js
  import opened Payload
  import opened Push

  /** What the tap and cold-start handlers pass to `onOpenLoad` for a payload: the decoded
      id when there is one (`if (loadId) onOpenLoad(loadId)`), nothing otherwise. */
  function OpenedFor(data: Value): (r: seq<string>)
    ensures |r| <= 1
    ensures r == [] <==> ExtractLoadId(data).None?
    ensures r != [] ==> Some(r[0]) == ExtractLoadId(data)
  {
    var loadId := ExtractLoadId(data);
    if loadId.Some? && loadId.value != "" then [loadId.value] else []
  }

  class LoadNotifications {
    var posts: seq<TokenPost>
    var receivedSubs: set<nat>
    var responseSubs: set<nat>
    var nextHandle: nat
    var openedIds: seq<string>

    /** Every registered handle was handed out before. */
    ghost predicate Valid()
      reads this
    {
      && (forall h | h in receivedSubs :: h < nextHandle)
      && (forall h | h in responseSubs :: h < nextHandle)
    }

    constructor ()
      ensures Valid()
      ensures posts == [] && receivedSubs == {} && responseSubs == {} && openedIds == []
    {
      posts, receivedSubs, responseSubs, nextHandle, openedIds := [], {}, {}, 0, [];
    }

    /** `initLoadNotifications(onOpenLoad)`: register, attach both listeners, then replay the
        cold-start response (`lastData` is its `data`, None when there is no response, it has
        no data, or the lookup threw). Nothing escapes as an exception. */
    method Init(device: Device, user: Value, permission: Permission, expoToken: string, fault: Fault,
                lastData: Option<Value>)
      returns (unsubscribe: Subscription)
      requires Valid()
      modifies this
      ensures Valid()
      ensures posts == old(posts) + PostsOf(Register(device, user, permission, expoToken, fault))
      ensures unsubscribe == Detach(old(nextHandle), old(nextHandle) + 1)
      ensures receivedSubs == old(receivedSubs) + {unsubscribe.received}
      ensures responseSubs == old(responseSubs) + {unsubscribe.response}
      ensures |responseSubs| == |old(responseSubs)| + 1
      ensures openedIds == old(openedIds) + OpenedFor(Coalesce(lastData, Null))
    {
      RegisterToken(device, user, permission, expoToken, fault);
      unsubscribe := AttachListeners();
      ColdStart(lastData);
    }

    /** Step 1: token registration on a real, non-web device; every failure is swallowed. */
    method RegisterToken(device: Device, user: Value, permission: Permission, expoToken: string, fault: Fault)
      modifies this
      ensures posts == old(posts) + PostsOf(Register(device, user, permission, expoToken, fault))
      ensures receivedSubs == old(receivedSubs) && responseSubs == old(responseSubs)
      ensures nextHandle == old(nextHandle) && openedIds == old(openedIds)
    {
      var attempt := Register(device, user, permission, expoToken, fault);
      if attempt.post.Some? {
        posts := posts + [attempt.post.value];
      }
    }

    /** Step 3: a fresh pair of listeners, registered under two new handles. */
    method AttachListeners() returns (unsubscribe: Subscription)
      requires Valid()
      modifies this
      ensures Valid()
      ensures unsubscribe == Detach(old(nextHandle), old(nextHandle) + 1)
      ensures receivedSubs == old(receivedSubs) + {unsubscribe.received}
      ensures responseSubs == old(responseSubs) + {unsubscribe.response}
      ensures |responseSubs| == |old(responseSubs)| + 1
      ensures posts == old(posts) && openedIds == old(openedIds)
    {
      var received, response := nextHandle, nextHandle + 1;
      receivedSubs := receivedSubs + {received};
      responseSubs := responseSubs + {response};
      nextHandle := nextHandle + 2;
      unsubscribe := Detach(received, response);
    }

    /** Step 4: the cold-start response, `data ?? null`. */
    method ColdStart(lastData: Option<Value>)
      modifies this
      ensures openedIds == old(openedIds) + OpenedFor(Coalesce(lastData, Null))
      ensures posts == old(posts) && receivedSubs == old(receivedSubs)
      ensures responseSubs == old(responseSubs) && nextHandle == old(nextHandle)
    {
      var loadId := ExtractLoadId(Coalesce(lastData, Null));
      if loadId.Some? && loadId.value != "" {
        openedIds := openedIds + [loadId.value];
      }
    }

    /** A tap on a notification: every attached response listener decodes the payload
        (`data` defaults to `{}`) and opens the load when an id is found. */
    method Tap(data: Option<Value>)
      modifies this
      ensures openedIds == old(openedIds) + Flatten(OpenedFor(Coalesce(data, Obj(map[]))), |responseSubs|)
      ensures ExtractLoadId(Coalesce(data, Obj(map[]))).None? ==> openedIds == old(openedIds)
      ensures posts == old(posts) && receivedSubs == old(receivedSubs)
      ensures responseSubs == old(responseSubs) && nextHandle == old(nextHandle)
    {
      var ids := OpenedFor(Coalesce(data, Obj(map[])));
      openedIds := openedIds + Flatten(ids, |responseSubs|);
    }

    /** The returned unsubscribe: remove the received listener, then the response listener;
        a throw is swallowed and skips what follows it. */
    method Unsubscribe(subscription: Subscription, removal: RemovalFault)
      requires Valid()
      modifies this
      ensures Valid()
      ensures subscription.Detach? && removal != FirstRemovalThrows
              ==> receivedSubs == old(receivedSubs) - {subscription.received}
      ensures subscription.Detach? && removal == RemovesCleanly
              ==> responseSubs == old(responseSubs) - {subscription.response}
      ensures subscription.NoOp? || removal == FirstRemovalThrows ==> receivedSubs == old(receivedSubs)
      ensures subscription.NoOp? || removal != RemovesCleanly ==> responseSubs == old(responseSubs)
      ensures posts == old(posts) && openedIds == old(openedIds) && nextHandle == old(nextHandle)
    {
      if subscription.Detach? && removal != FirstRemovalThrows {
        receivedSubs := receivedSubs - {subscription.received};
        if removal == RemovesCleanly {
          responseSubs := responseSubs - {subscription.response};
        }
      }
    }
  }

  /** Two live listeners deliver a single id twice. */
  lemma FlattenTwice(id: string)
    ensures Flatten([id], 2) == [id, id]
  {
    assert Flatten([id], 1) == [id];
  }

  /** A fresh feed initialised twice with no cold-start response: two equal POSTs, two tap
      listeners, nothing opened yet. */
  method InitTwiceFresh(device: Device, user: Value, expoToken: string) returns (feed: LoadNotifications)
    requires DeviceEligible(device) && IsDriverWithId(user)
    ensures fresh(feed)
    ensures |feed.posts| == 2 && feed.posts[0] == feed.posts[1]
    ensures |feed.responseSubs| == 2 && feed.openedIds == []
  {
    assert ExtractLoadId(Null).None?;
    feed := new LoadNotifications();
    var _ := feed.Init(device, user, Granted, expoToken, NoFault, None);
    var _ := feed.Init(device, user, Granted, expoToken, NoFault, None);
  }

  /** Initialising the feed twice issues two POSTs and leaves two tap listeners, so one
      tap opens the load twice: the loads feed has no once-flag. */
  method InitTwiceThenTap(device: Device, user: Value, expoToken: string, loadId: nat)
    returns (posts: seq<TokenPost>, listeners: nat, openedIds: seq<string>)
    requires DeviceEligible(device) && IsDriverWithId(user)
    ensures |posts| == 2 && posts[0] == posts[1]
    ensures listeners == 2
    ensures openedIds == [IntToString(loadId), IntToString(loadId)]
  {
    var feed := InitTwiceFresh(device, user, expoToken);
    var data := Obj(map["load_id" := Num(loadId)]);
    LoadIdFirstMatch(data, 0);
    FlattenTwice(IntToString(loadId));
    feed.Tap(Some(data));
    posts, listeners, openedIds := feed.posts, |feed.responseSubs|, feed.openedIds;
  }
}
