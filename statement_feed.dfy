/**
 * The statements notification feed (`initStatementNotifications`). Unlike the loads feed it
 * keeps two module-level flags: `_tokenRegisteredOnce` (the push token has been POSTed and
 * the POST completed) and `_listenersAttached` (a pair of listeners is live). The class holds
 * both flags and records the POSTs issued, the listener handles registered with the OS and
 * the intents passed to `onOpenStatement`.
 */
module StatementFeed {
  import opened Wrappers
  import opened Js
  import opened Payload
  import opened Push

  /** What the tap and cold-start handlers pass to `onOpenStatement` for a payload: the
      decoded intent when `type === "statement"` (even with both parts missing), nothing
      otherwise. */
  function IntentsFor(data: Value): (r: seq<StatementIntent>)
    ensures |r| <= 1
    ensures r != [] <==> Field(data, "type") == Some(Str("statement"))
    ensures r != [] ==> r[0] == StatementInfo(data)
  {
    if IsStatementPayload(data) then [StatementInfo(data)] else []
  }

  class StatementNotifications {
    var tokenRegisteredOnce: bool
    var listenersAttached: bool
    var posts: seq<TokenPost>
    var receivedSubs: set<nat>
    var responseSubs: set<nat>
    var nextHandle: nat
    var intents: seq<StatementIntent>

    /** Every registered handle was handed out before. */
    ghost predicate Valid()
      reads this
    {
      && (forall h | h in receivedSubs :: h < nextHandle)
      && (forall h | h in responseSubs :: h < nextHandle)
    }

    /** A fresh process: both flags false, nothing sent or attached. */
    constructor ()
      ensures Valid()
      ensures !tokenRegisteredOnce && !listenersAttached
      ensures posts == [] && receivedSubs == {} && responseSubs == {} && intents == []
    {
      tokenRegisteredOnce, listenersAttached := false, false;
      posts, receivedSubs, responseSubs, nextHandle, intents := [], {}, {}, 0, [];
    }

    /** `initStatementNotifications(onOpenStatement)`. Registration runs only while the token
        has not been registered; the flag is set only when the POST completed. Listeners are
        attached only when none are live; otherwise the call returns a no-op unsubscribe and
        skips the cold-start check as well. */
    method Init(device: Device, user: Value, permission: Permission, expoToken: string, fault: Fault,
                lastData: Option<Value>)
      returns (unsubscribe: Subscription)
      requires Valid()
      modifies this
      ensures Valid()
      ensures old(tokenRegisteredOnce) ==> posts == old(posts) && tokenRegisteredOnce
      ensures !old(tokenRegisteredOnce) ==>
                var attempt := Register(device, user, permission, expoToken, fault);
                posts == old(posts) + PostsOf(attempt) && tokenRegisteredOnce == attempt.completed
      ensures listenersAttached
      ensures old(listenersAttached) ==>
                && unsubscribe == NoOp
                && receivedSubs == old(receivedSubs) && responseSubs == old(responseSubs)
                && intents == old(intents)
      ensures !old(listenersAttached) ==>
                && unsubscribe == Detach(old(nextHandle), old(nextHandle) + 1)
                && receivedSubs == old(receivedSubs) + {unsubscribe.received}
                && responseSubs == old(responseSubs) + {unsubscribe.response}
                && |responseSubs| == |old(responseSubs)| + 1
                && intents == old(intents) + IntentsFor(Coalesce(lastData, Null))
    {
      RegisterToken(device, user, permission, expoToken, fault);
      if listenersAttached {
        return NoOp;
      }
      unsubscribe := AttachListeners();
      ColdStart(lastData);
    }

    /** Step 1: token registration while the token is unregistered, on a real, non-web
        device; every failure is swallowed and leaves the flag as it was. */
    method RegisterToken(device: Device, user: Value, permission: Permission, expoToken: string, fault: Fault)
      modifies this
      ensures old(tokenRegisteredOnce) ==> posts == old(posts) && tokenRegisteredOnce
      ensures !old(tokenRegisteredOnce) ==>
                var attempt := Register(device, user, permission, expoToken, fault);
                posts == old(posts) + PostsOf(attempt) && tokenRegisteredOnce == attempt.completed
      ensures listenersAttached == old(listenersAttached) && intents == old(intents)
      ensures receivedSubs == old(receivedSubs) && responseSubs == old(responseSubs)
      ensures nextHandle == old(nextHandle)
    {
      if !tokenRegisteredOnce && DeviceEligible(device) {
        var attempt := Register(device, user, permission, expoToken, fault);
        if attempt.post.Some? {
          posts := posts + [attempt.post.value];
          if attempt.completed {
            tokenRegisteredOnce := true;
          }
        }
      }
    }

    /** Step 3 past the early return: set the flag, then register a pair of listeners. */
    method AttachListeners() returns (unsubscribe: Subscription)
      requires Valid()
      modifies this
      ensures Valid()
      ensures listenersAttached
      ensures unsubscribe == Detach(old(nextHandle), old(nextHandle) + 1)
      ensures receivedSubs == old(receivedSubs) + {unsubscribe.received}
      ensures responseSubs == old(responseSubs) + {unsubscribe.response}
      ensures |responseSubs| == |old(responseSubs)| + 1
      ensures tokenRegisteredOnce == old(tokenRegisteredOnce)
      ensures posts == old(posts) && intents == old(intents)
    {
      listenersAttached := true;
      var received, response := nextHandle, nextHandle + 1;
      receivedSubs := receivedSubs + {received};
      responseSubs := responseSubs + {response};
      nextHandle := nextHandle + 2;
      unsubscribe := Detach(received, response);
    }

    /** Step 4: the cold-start response, `data ?? null`, delivered when it is a statement. */
    method ColdStart(lastData: Option<Value>)
      modifies this
      ensures intents == old(intents) + IntentsFor(Coalesce(lastData, Null))
      ensures tokenRegisteredOnce == old(tokenRegisteredOnce) && listenersAttached == old(listenersAttached)
      ensures posts == old(posts) && receivedSubs == old(receivedSubs)
      ensures responseSubs == old(responseSubs) && nextHandle == old(nextHandle)
    {
      var data := Coalesce(lastData, Null);
      if IsStatementPayload(data) {
        var statementId, weekRange := ExtractStatementInfo(data);
        intents := intents + [StatementIntent(statementId, weekRange)];
      }
    }

    /** A tap on a notification: every attached response listener checks the payload's type
        (`data` defaults to `{}`) and calls back with the decoded intent. */
    method Tap(data: Option<Value>)
      modifies this
      ensures intents == old(intents) + Flatten(IntentsFor(Coalesce(data, Obj(map[]))), |responseSubs|)
      ensures !IsStatementPayload(Coalesce(data, Obj(map[]))) ==> intents == old(intents)
      ensures tokenRegisteredOnce == old(tokenRegisteredOnce) && listenersAttached == old(listenersAttached)
      ensures posts == old(posts) && receivedSubs == old(receivedSubs)
      ensures responseSubs == old(responseSubs) && nextHandle == old(nextHandle)
    {
      var payload := Coalesce(data, Obj(map[]));
      var decoded: seq<StatementIntent> := [];
      if IsStatementPayload(payload) {
        var statementId, weekRange := ExtractStatementInfo(payload);
        decoded := [StatementIntent(statementId, weekRange)];
      }
      intents := intents + Flatten(decoded, |responseSubs|);
    }

    /** The returned unsubscribe. The real one removes the received listener, then the
        response listener (a throw skips the rest) and, in every case, clears
        `_listenersAttached`; the no-op one changes nothing. */
    method Unsubscribe(subscription: Subscription, removal: RemovalFault)
      requires Valid()
      modifies this
      ensures Valid()
      ensures subscription.Detach? ==> !listenersAttached
      ensures subscription.NoOp? ==> listenersAttached == old(listenersAttached)
      ensures subscription.Detach? && removal != FirstRemovalThrows
              ==> receivedSubs == old(receivedSubs) - {subscription.received}
      ensures subscription.Detach? && removal == RemovesCleanly
              ==> responseSubs == old(responseSubs) - {subscription.response}
      ensures subscription.NoOp? || removal == FirstRemovalThrows ==> receivedSubs == old(receivedSubs)
      ensures subscription.NoOp? || removal != RemovesCleanly ==> responseSubs == old(responseSubs)
      ensures tokenRegisteredOnce == old(tokenRegisteredOnce)
      ensures posts == old(posts) && intents == old(intents) && nextHandle == old(nextHandle)
    {
      if subscription.Detach? {
        if removal != FirstRemovalThrows {
          receivedSubs := receivedSubs - {subscription.received};
          if removal == RemovesCleanly {
            responseSubs := responseSubs - {subscription.response};
          }
        }
        listenersAttached := false;
      }
    }
  }

  /** Two initialisations on the granted path: one POST, one pair of listeners, and the
      second call's unsubscribe is the no-op. */
  method InitTwice(device: Device, user: Value, expoToken: string)
    returns (posts: seq<TokenPost>, listeners: nat, second: Subscription)
    requires DeviceEligible(device) && IsDriverWithId(user)
    ensures |posts| == 1
    ensures listeners == 1
    ensures second == NoOp
  {
    var feed := new StatementNotifications();
    var _ := feed.Init(device, user, Granted, expoToken, NoFault, None);
    second := feed.Init(device, user, Granted, expoToken, NoFault, None);
    posts, listeners := feed.posts, |feed.responseSubs|;
  }

  /** A denied permission leaves the token unregistered, so the next call tries again. */
  method RetryAfterDenied(device: Device, user: Value, expoToken: string)
    returns (posts: seq<TokenPost>, registered: bool)
    requires DeviceEligible(device) && IsDriverWithId(user)
    ensures |posts| == 1 && posts[0].expoPushToken == expoToken
    ensures registered
  {
    var feed := new StatementNotifications();
    var _ := feed.Init(device, user, Denied, expoToken, NoFault, None);
    assert feed.posts == [] && !feed.tokenRegisteredOnce;
    var _ := feed.Init(device, user, Granted, expoToken, NoFault, None);
    posts, registered := feed.posts, feed.tokenRegisteredOnce;
  }

  /** The real unsubscribe re-arms attachment even when removing a listener throws, so the
      next call attaches a second pair while the first tap listener may still be live. */
  method UnsubscribeRearms(device: Device, user: Value, removal: RemovalFault)
    returns (first: Subscription, second: Subscription, listeners: nat)
    ensures first.Detach? && second.Detach? && first != second
    ensures listeners == (if removal == RemovesCleanly then 1 else 2)
  {
    var feed := new StatementNotifications();
    first := feed.Init(device, user, Denied, "", NoFault, None);
    feed.Unsubscribe(first, removal);
    second := feed.Init(device, user, Denied, "", NoFault, None);
    listeners := |feed.responseSubs|;
  }
}
