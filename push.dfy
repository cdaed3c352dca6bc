/**
 * Push-token registration as both notification feeds perform it, and the listener handles
 * they hand out. The operating-system and network calls are inputs: whether the app runs on
 * a physical device, the platform, the stored user record, the permission prompt's answer,
 * the push token the OS issues, and which awaited call (if any) throws.
 */
module Push {
  import opened Wrappers
  import opened Js

  datatype Platform = Ios | Android | Web | OtherPlatform

  /** `Device.isDevice` and `Platform.OS`. */
  datatype Device = Device(isDevice: bool, platform: Platform)

  /** `perms.status` of the permission request. */
  datatype Permission = Granted | Denied | Undetermined

  /** The first awaited call of the registration sequence that throws, if any. */
  datatype Fault = NoFault | GetUserThrows | PermissionThrows | TokenThrows | PostThrows

  /** One `POST /api/drivers/<driver_id>/update_push_token` request. */
  datatype TokenPost = TokenPost(driverId: string, authorization: string, expoPushToken: string)

  /** What one registration attempt did: the POST it issued, if any, and whether that
      POST completed without throwing. */
  datatype Attempt = Attempt(post: Option<TokenPost>, completed: bool)

  /** Registration is only tried on a physical device that is not a web build. */
  predicate DeviceEligible(device: Device)
    ensures DeviceEligible(device) ==> device.isDevice
    ensures device.platform == Web ==> !DeviceEligible(device)
  {
    device.isDevice && device.platform != Web
  }

  /** `user && user.role === "driver" && user.driver_id`. */
  predicate IsDriverWithId(user: Value)
    ensures IsDriverWithId(user) ==> user.Obj? && "driver_id" in user.fields
    ensures IsDriverWithId(user) ==> "role" in user.fields && user.fields["role"] == Str("driver")
  {
    Truthy(Some(user)) && Field(user, "role") == Some(Str("driver")) && Truthy(Field(user, "driver_id"))
  }

  /** `Bearer ${user.token || ""}`. */
  function Bearer(user: Value): (r: string)
    ensures Truthy(Field(user, "token")) ==> r == "Bearer " + ToJsString(user.fields["token"])
    ensures !Truthy(Field(user, "token")) ==> r == "Bearer "
  {
    var token := Field(user, "token");
    "Bearer " + (if Truthy(token) then ToJsString(token.value) else "")
  }

  /** The registration step of `initLoadNotifications` and `initStatementNotifications`:
      POST the push token when every gate passes; a denied permission or a thrown error is
      swallowed. */
  function Register(device: Device, user: Value, permission: Permission, expoToken: string, fault: Fault): (a: Attempt)
    ensures a.post.Some? <==>
              DeviceEligible(device) && IsDriverWithId(user) && permission == Granted
              && fault != GetUserThrows && fault != PermissionThrows && fault != TokenThrows
    ensures a.post.Some? ==>
              a.post.value == TokenPost(ToJsString(Field(user, "driver_id").value), Bearer(user), expoToken)
    ensures a.completed <==> a.post.Some? && fault != PostThrows
  {
    if !DeviceEligible(device) then Attempt(None, false)
    else if fault == GetUserThrows then Attempt(None, false)
    else if !IsDriverWithId(user) then Attempt(None, false)
    else if fault == PermissionThrows then Attempt(None, false)
    else if permission != Granted then Attempt(None, false)
    else if fault == TokenThrows then Attempt(None, false)
    else
      var post := TokenPost(ToJsString(Field(user, "driver_id").value), Bearer(user), expoToken);
      Attempt(Some(post), fault != PostThrows)
  }

  /** The POSTs an attempt adds to the request log. */
  function PostsOf(a: Attempt): (r: seq<TokenPost>)
    ensures |r| <= 1
    ensures r == [] <==> a.post.None?
    ensures a.post.Some? ==> r == [a.post.value]
  {
    if a.post.Some? then [a.post.value] else []
  }

  /** The unsubscribe function `init` returns: a no-op, or removal of the two listeners
      registered under these handles. */
  datatype Subscription = NoOp | Detach(received: nat, response: nat)

  /** Which `removeNotificationSubscription` call throws, if any; a throw skips the rest. */
  datatype RemovalFault = RemovesCleanly | FirstRemovalThrows | SecondRemovalThrows

  /** One copy of a handler's callbacks `xs` per live tap listener. */
  function Flatten<T>(xs: seq<T>, n: nat): (r: seq<T>)
    ensures |r| == n * |xs|
    ensures xs == [] ==> r == []
    ensures forall k | 0 <= k < |r| :: r[k] == xs[k % |xs|]
  {
    if n == 0 then []
    else
      var front := Flatten(xs, n - 1);
      var r := front + xs;
      assert forall k | |front| <= k < |r| :: r[k] == xs[k % |xs|] by {
        forall k | |front| <= k < |r| ensures r[k] == xs[k % |xs|] {
          assert |front| == |xs| * (n - 1);
          ModUnique(k, |xs|, n - 1, k - |front|);
        }
      }
      r
  }

  lemma MulAtLeast(m: int, d: int)
    requires m > 0 && d >= 1
    ensures m * d >= m
  {
  }

  /** Euclidean remainders are unique: `x == m * q + r` with `0 <= r < m` fixes `x % m`. */
  lemma ModUnique(x: int, m: int, q: int, r: int)
    requires m > 0 && 0 <= r < m && x == m * q + r
    ensures x % m == r
  {
    var q2, r2 := x / m, x % m;
    assert x == m * q2 + r2;
    assert m * (q - q2) == r2 - r;
    if q > q2 {
      MulAtLeast(m, q - q2);
    } else if q < q2 {
      MulAtLeast(m, q2 - q);
    }
  }
}
