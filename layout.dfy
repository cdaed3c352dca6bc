/**
 * The root layout: the settings icon, the settings sheet (a modal) and its two actions,
 * change password and logout. Navigation and storage calls are recorded as effects.
 */
module Layout {
  import opened Wrappers
  import opened Js

  const SettingsPath := "/settings"
  const LoginPath := "/login"

  /** `isAuthenticated && pathname !== "/settings"`; the guard's value is None (`null`)
      until it has read the stored user. */
  function ShowSettingsIcon(isAuthenticated: Option<bool>, pathname: string): (r: bool)
    ensures pathname == SettingsPath ==> !r
    ensures isAuthenticated != Some(true) ==> !r
    ensures isAuthenticated == Some(true) && pathname != SettingsPath ==> r
  {
    isAuthenticated == Some(true) && pathname != SettingsPath
  }

  /** The layout renders nothing until the guard has decided. */
  function Renders(isAuthenticated: Option<bool>): (r: bool)
    ensures r <==> isAuthenticated == Some(false) || isAuthenticated == Some(true)
  {
    match isAuthenticated
    case None => false
    case Some(_) => true
  }

  /** The outside effects of the layout's handlers. */
  datatype Effect =
    | Push(path: string)
    | Replace(path: string)
    | ClearPushToken(driverId: string, authorization: string)
    | ClearUser

  /** `user?.role === "driver" && user?.driver_id && user?.token`. */
  predicate ShouldClearPushToken(user: Value)
    ensures ShouldClearPushToken(user) ==> user.Obj? && "role" in user.fields && user.fields["role"] == Str("driver")
    ensures ShouldClearPushToken(user) ==> "driver_id" in user.fields && "token" in user.fields
  {
    Field(user, "role") == Some(Str("driver")) && Truthy(Field(user, "driver_id")) && Truthy(Field(user, "token"))
  }

  /** The effects of `handleLogout` after the modal closes: the best-effort clear call (its
      failure is swallowed and changes nothing), then, in the `finally`, clearing the stored
      user and replacing the route with the login page. `getUser` throwing skips the clear
      call only. */
  function LogoutEffects(user: Read<Value>): (r: seq<Effect>)
    ensures 2 <= |r| <= 3
    ensures r[|r| - 2..] == [ClearUser, Replace(LoginPath)]
    ensures |r| == 3 <==> user.Value? && ShouldClearPushToken(user.value)
    ensures |r| == 3 ==>
              r[0] == ClearPushToken(ToJsString(Field(user.value, "driver_id").value),
                                     "Bearer " + ToJsString(Field(user.value, "token").value))
  {
    var tail := [ClearUser, Replace(LoginPath)];
    if user.Value? && ShouldClearPushToken(user.value) then
      var r := [ClearPushToken(ToJsString(Field(user.value, "driver_id").value),
                               "Bearer " + ToJsString(Field(user.value, "token").value))] + tail;
      assert r[1..] == tail;
      r
    else tail
  }

  /** Whatever the stored user holds, logout ends on the login page with no user stored, and
      no push-token call comes after the user is cleared. */
  lemma LogoutAlwaysEndsLoggedOut(user: Read<Value>)
    ensures var r := LogoutEffects(user);
            && r[|r| - 1] == Replace(LoginPath)
            && (forall i | 0 <= i < |r| && r[i].ClearPushToken? :: forall j | 0 <= j < |r| && r[j] == ClearUser :: i < j)
  {
  }

  class RootLayout {
    var modalVisible: bool
    /** Every effect the handlers caused, in order. */
    var effects: seq<Effect>

    constructor ()
      ensures !modalVisible && effects == []
    {
      modalVisible, effects := false, [];
    }

    /** `toggleModal`: the sheet's button, backdrop, back button and swipe all flip it. */
    method ToggleModal()
      modifies this
      ensures modalVisible == !old(modalVisible)
      ensures effects == old(effects)
    {
      modalVisible := !modalVisible;
    }

    /** `handleChangePassword`: close the sheet, then open the settings screen. */
    method ChangePassword()
      modifies this
      ensures !modalVisible
      ensures effects == old(effects) + [Push(SettingsPath)]
    {
      modalVisible := false;
      effects := effects + [Push(SettingsPath)];
    }

    /** `handleLogout`: close the sheet first, then the try/finally sequence. */
    method Logout(user: Read<Value>)
      modifies this
      ensures !modalVisible
      ensures effects == old(effects) + LogoutEffects(user)
    {
      modalVisible := false;
      if user.Value? {
        var u := user.value;
        if Field(u, "role") == Some(Str("driver")) && Truthy(Field(u, "driver_id")) && Truthy(Field(u, "token")) {
          effects := effects + [ClearPushToken(ToJsString(Field(u, "driver_id").value),
                                               "Bearer " + ToJsString(Field(u, "token").value))];
        }
      }
      effects := effects + [ClearUser];
      effects := effects + [Replace(LoginPath)];
    }
  }

  /** Opening the sheet and logging out as a driver without a token: no push-token call. */
  method LogoutWithoutToken() returns (visible: bool, effects: seq<Effect>)
    ensures !visible
    ensures effects == [ClearUser, Replace(LoginPath)]
  {
    var layout := new RootLayout();
    layout.ToggleModal();
    layout.Logout(Value(Obj(map["role" := Str("driver"), "driver_id" := Num(5)])));
    visible, effects := layout.modalVisible, layout.effects;
  }

  /** Toggling twice leaves the sheet as it was. */
  method ToggleTwice() returns (visible: bool)
    ensures !visible
  {
    var layout := new RootLayout();
    layout.ToggleModal();
    layout.ToggleModal();
    visible := layout.modalVisible;
  }
}
