/** The session collaborators that the core clears or flips: the cookie stores and the
    observable login state. */
module SessionState {

  /** The session cookies: those of the WebView's `CookieManager` and those saved in the
      "auth_cookies" shared preferences. */
  class CookieJar {
    var webViewCookies: set<string>
    var savedCookies: set<string>

    constructor(webView: set<string>, saved: set<string>)
      ensures webViewCookies == webView && savedCookies == saved
    {
      webViewCookies, savedCookies := webView, saved;
    }

    /** `CookieManager.removeAllCookies`. */
    method RemoveAllWebViewCookies()
      modifies this
      ensures webViewCookies == {} && savedCookies == old(savedCookies)
    {
      webViewCookies := {};
    }

    /** Clearing the saved preferences and then the WebView cookies. */
    method ClearAll()
      modifies this
      ensures webViewCookies == {} && savedCookies == {}
    {
      savedCookies := {};
      webViewCookies := {};
    }
  }

  /** The login state the interface observes. */
  class LoginState {
    var isLoggedIn: bool

    constructor(loggedIn: bool)
      ensures isLoggedIn == loggedIn
    {
      isLoggedIn := loggedIn;
    }

    method SetLoggedIn(b: bool)
      modifies this
      ensures isLoggedIn == b
    {
      isLoggedIn := b;
    }
  }
}
