/** The signed-in user's persisted record and the JWT cookie lookup
    (app/.../user_info/UserInfoManager.kt). Each update of the record is a pure
    transformation of the current value, applied by `UserInfoStore`. */
module UserInfo {
  import opened Wrappers
  import opened Text

  /** `UserInfoProto`; `firstUse` has presence tracking (`hasFirstUse`). */
  datatype UserInfo = UserInfo(
    personalCode: string,
    firstName: string,
    firstUse: Option<bool>,
    loggedIn: bool)

  /** `UserInfoJson`, the decoded identity claims; absent claims decode to "". */
  datatype UserInfoJson = UserInfoJson(personalCode: string, firstName: string)

  // ----- the JWT cookie -----

  const TokenPrefix := "JWTTOKEN="

  /** The cookie string's `;`-separated pieces, each trimmed. */
  function Segments(cookie: string): (r: seq<string>)
    ensures |r| == |Split(cookie, ';')|
    ensures forall k :: 0 <= k < |r| ==> r[k] == Trim(Split(cookie, ';')[k])
  {
    var parts := Split(cookie, ';');
    seq(|parts|, k requires 0 <= k < |parts| => Trim(parts[k]))
  }

  /** Segment `k` is the first one that starts with `JWTTOKEN=`. */
  ghost predicate FirstTokenAt(segments: seq<string>, k: int) {
    && 0 <= k < |segments|
    && StartsWith(segments[k], TokenPrefix)
    && forall j :: 0 <= j < k ==> !StartsWith(segments[j], TokenPrefix)
  }

  /** `find { it.startsWith("JWTTOKEN=") }?.substringAfter("JWTTOKEN=")`; the first
      occurrence of the prefix in such a segment is at its start. */
  function FindToken(segments: seq<string>): (r: Option<string>)
    ensures r.None? <==> forall k :: 0 <= k < |segments| ==> !StartsWith(segments[k], TokenPrefix)
    ensures r.Some? ==>
      exists k :: FirstTokenAt(segments, k) && r.value == segments[k][|TokenPrefix|..]
  {
    if segments == [] then None
    else if StartsWith(segments[0], TokenPrefix) then
      assert FirstTokenAt(segments, 0);
      Some(segments[0][|TokenPrefix|..])
    else
      var r := FindToken(segments[1..]);
      assert r.Some? ==>
        exists k :: FirstTokenAt(segments, k) && r.value == segments[k][|TokenPrefix|..]
      by {
        if r.Some? {
          var k :| FirstTokenAt(segments[1..], k) && r.value == segments[1..][k][|TokenPrefix|..];
          assert FirstTokenAt(segments, k + 1);
        }
      }
      r
  }

  /** `extractJwtToken`: no token for a missing or empty cookie string; otherwise the
      text after `JWTTOKEN=` in the first trimmed segment that starts with it. */
  function ExtractJwtToken(cookie: Option<string>): (r: Option<string>)
    ensures cookie.None? || cookie == Some("") ==> r.None?
    ensures cookie.Some? && cookie.value != "" ==>
      (r.None? <==> forall k :: 0 <= k < |Segments(cookie.value)| ==>
                      !StartsWith(Segments(cookie.value)[k], TokenPrefix))
    ensures r.Some? ==>
      cookie.Some? &&
      exists k :: FirstTokenAt(Segments(cookie.value), k) && r.value == Segments(cookie.value)[k][|TokenPrefix|..]
  {
    if cookie.None? || cookie.value == "" then None
    else FindToken(Segments(cookie.value))
  }

  /** No trimmed segment holds the separator. */
  lemma SegmentAvoidsSeparator(cookie: string, k: nat)
    requires k < |Segments(cookie)|
    ensures ';' !in Segments(cookie)[k]
  {
    TrimAvoids(Split(cookie, ';')[k], ';');
  }

  /** A token never holds the cookie separator `;`. */
  lemma TokenHasNoSemicolon(cookie: Option<string>)
    requires ExtractJwtToken(cookie).Some?
    ensures ';' !in ExtractJwtToken(cookie).value
  {
    var segs := Segments(cookie.value);
    var token := ExtractJwtToken(cookie).value;
    var k :| FirstTokenAt(segs, k) && token == segs[k][|TokenPrefix|..];
    SegmentAvoidsSeparator(cookie.value, k);
    SuffixAvoids(segs[k], |TokenPrefix|, ';');
  }

  /** A cookie string that is exactly `JWTTOKEN=<t>` yields `t`, when `t` holds no `;`
      and does not end in whitespace. */
  lemma TokenRoundTrip(t: string)
    requires ';' !in t
    requires t == [] || !IsWhitespace(t[|t| - 1])
    ensures ExtractJwtToken(Some(TokenPrefix + t)) == Some(t)
  {
    var c := TokenPrefix + t;
    TokenCookieIsOneSegment(t);
    assert StartsWith(c, TokenPrefix) && c[|TokenPrefix|..] == t;
    TokenOfSingleSegment(c);
  }

  lemma TokenOfSingleSegment(c: string)
    requires Segments(c) == [c] && StartsWith(c, TokenPrefix)
    ensures ExtractJwtToken(Some(c)) == Some(c[|TokenPrefix|..])
  {
    assert c != "";
  }

  lemma TokenCookieIsOneSegment(t: string)
    requires ';' !in t
    requires t == [] || !IsWhitespace(t[|t| - 1])
    ensures Segments(TokenPrefix + t) == [TokenPrefix + t]
  {
    var c := TokenPrefix + t;
    TokenCookieTrimmed(t);
    TokenCookieAvoidsSeparator(t);
    SingleSegment(c);
  }

  lemma SingleSegment(c: string)
    requires ';' !in c && Trim(c) == c
    ensures Segments(c) == [c]
  {
    assert Split(c, ';') == [c];
  }

  lemma TokenCookieTrimmed(t: string)
    requires t == [] || !IsWhitespace(t[|t| - 1])
    ensures Trim(TokenPrefix + t) == TokenPrefix + t
  {
    var c := TokenPrefix + t;
    assert c[|c| - 1] == if t == [] then '=' else t[|t| - 1];
    TrimUnchanged(c);
  }

  lemma TokenCookieAvoidsSeparator(t: string)
    requires ';' !in t
    ensures ';' !in TokenPrefix + t
  {
    var c := TokenPrefix + t;
    assert forall i :: 0 <= i < |c| ==> c[i] == if i < |TokenPrefix| then TokenPrefix[i] else t[i - |TokenPrefix|];
  }

  // ----- updates of the persisted record -----

  /** `personalCode.removePrefix("EE")`. */
  function CleanPersonalCode(code: string): (r: string)
    ensures StartsWith(code, "EE") ==> "EE" + r == code
    ensures !StartsWith(code, "EE") ==> r == code
  {
    RemovePrefix(code, "EE")
  }

  /** The transformation in `saveUserInfo`: the cleaned personal code and the first
      name are stored when non-empty; nothing else changes. */
  function SavedUserInfo(current: UserInfo, json: UserInfoJson): (r: UserInfo)
    ensures r.firstUse == current.firstUse && r.loggedIn == current.loggedIn
    ensures StartsWith(json.personalCode, "EE") && |json.personalCode| > 2 ==>
      "EE" + r.personalCode == json.personalCode
    ensures !StartsWith(json.personalCode, "EE") && json.personalCode != "" ==>
      r.personalCode == json.personalCode
    ensures json.personalCode == "" || json.personalCode == "EE" ==>
      r.personalCode == current.personalCode
    ensures json.firstName != "" ==> r.firstName == json.firstName
    ensures json.firstName == "" ==> r.firstName == current.firstName
  {
    var code := CleanPersonalCode(json.personalCode);
    var withCode := if code != "" then current.(personalCode := code) else current;
    if json.firstName != "" then withCode.(firstName := json.firstName) else withCode
  }

  /** Only one leading "EE" is removed. */
  lemma OneCountryPrefixRemoved(current: UserInfo, rest: string)
    requires rest != ""
    ensures SavedUserInfo(current, UserInfoJson("EE" + rest, "")).personalCode == rest
  {
    assert StartsWith("EE" + rest, "EE");
  }

  /** The transformation in the one-argument `setFirstUse`: set the flag to true
      only when it is unset. */
  function MarkedFirstUse(current: UserInfo): (r: UserInfo)
    ensures current.firstUse.Some? ==> r == current
    ensures current.firstUse.None? ==> r == current.(firstUse := Some(true))
  {
    if current.firstUse.Some? then current else current.(firstUse := Some(true))
  }

  /** Marking first use twice is the same as marking it once. */
  lemma MarkedFirstUseIdempotent(u: UserInfo)
    ensures MarkedFirstUse(MarkedFirstUse(u)) == MarkedFirstUse(u)
    ensures MarkedFirstUse(u).firstUse.Some?
  {
  }

  /** `isFirstUse`: the proto getter, false while the flag is unset. */
  function IsFirstUse(u: UserInfo): (b: bool)
    ensures b <==> u.firstUse == Some(true)
  {
    u.firstUse.GetOr(false)
  }

  /** The store that `userInfoDataStore` persists. */
  class UserInfoStore {
    var info: UserInfo

    constructor(initial: UserInfo)
      ensures info == initial
    {
      info := initial;
    }

    /** `saveUserInfo`. */
    method SaveUserInfo(json: UserInfoJson)
      modifies this
      ensures info == SavedUserInfo(old(info), json)
    {
      info := SavedUserInfo(info, json);
    }

    /** `setFirstUse(context)`. */
    method MarkFirstUse()
      modifies this
      ensures info == MarkedFirstUse(old(info))
    {
      if info.firstUse.Some? {
        return;
      }
      info := info.(firstUse := Some(true));
    }

    /** `setFirstUse(context, isFirstUse)`: overwrites the flag and nothing else. */
    method SetFirstUse(isFirstUse: bool)
      modifies this
      ensures info == old(info).(firstUse := Some(isFirstUse))
      ensures info.personalCode == old(info).personalCode && info.firstName == old(info).firstName
      ensures info.loggedIn == old(info).loggedIn
    {
      info := info.(firstUse := Some(isFirstUse));
    }

    /** `setLoggedIn`: overwrites the login flag and nothing else. */
    method SetLoggedIn(isLoggedIn: bool)
      modifies this
      ensures info == old(info).(loggedIn := isLoggedIn)
      ensures info.personalCode == old(info).personalCode && info.firstName == old(info).firstName
      ensures info.firstUse == old(info).firstUse
    {
      info := info.(loggedIn := isLoggedIn);
    }

    /** `isFirstUse(context)`. */
    function FirstUse(): bool
      reads this
    {
      IsFirstUse(info)
    }
  }
}
