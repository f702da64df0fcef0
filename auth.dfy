/** Logging out (app/.../auth/AuthManager.kt). */
module Auth {
  import opened Wrappers
  import opened Notifications
  import UserInfo
  import AlarmScheduler
  import SessionState

  /** `clearSavedCookies`: only the WebView's cookies go; clearing the saved cookie
      preferences is commented out in this revision. */
  method ClearSavedCookies(cookies: SessionState.CookieJar)
    modifies cookies
    ensures cookies.webViewCookies == {}
    ensures cookies.savedCookies == old(cookies.savedCookies)
  {
    cookies.RemoveAllWebViewCookies();
  }

  /** `logOut`: mark the stored user logged out, cancel the refresh alarm, clear the
      cookies, publish the logged-out state, and tell the user. The first-use flag and
      the stored personal code are kept. */
  method LogOut(users: UserInfo.UserInfoStore, alarms: AlarmScheduler.AlarmSlot,
                cookies: SessionState.CookieJar, loginState: SessionState.LoginState, notifier: Notifier)
    modifies users, alarms, cookies, loginState, notifier
    ensures users.info == old(users.info).(loggedIn := false)
    ensures alarms.pending == None && !alarms.IsAlarmSet()
    ensures cookies.webViewCookies == {} && cookies.savedCookies == old(cookies.savedCookies)
    ensures !loginState.isLoggedIn
    ensures notifier.shown == old(notifier.shown) + [LoggedOut]
  {
    users.SetLoggedIn(false);
    alarms.CancelRefresh();
    ClearSavedCookies(cookies);
    loginState.SetLoggedIn(false);
    notifier.Show(LoggedOut);
  }
}
