/** The token store of src/lib/auth.ts: one cookie, named "token", holding the
    bearer token and the day from which the browser stops returning it. Time is
    a day counter supplied by the caller. */
module Auth {
  import opened Js

  /** `{ expires: 7 }`: the cookie's lifetime in days. */
  const LifetimeDays: nat := 7

  /** The cookie as the browser holds it. `expiresAt` is the first day on which
      it is no longer returned; None is a session cookie (no expiry option). */
  datatype Jar = Jar(token: Option<string>, expiresAt: Option<nat>)

  const NoCookie: Jar := Jar(None, None)

  /** `Cookies.get(TOKEN_KEY)` on day `now`. */
  function Get(j: Jar, now: nat): Option<string>
  {
    if j.token.Some? && (j.expiresAt.None? || now < j.expiresAt.value) then j.token else None
  }

  /** `!!getAuthToken()` on day `now`. */
  predicate IsAuthenticated(j: Jar, now: nat)
  {
    TruthyOpt(Get(j, now))
  }

  /** `setAuthToken(t)` on day `now`: one key, so whatever was stored before is
      replaced; `t` is returned on every day before `now + 7`, and on no later day. */
  function Set(j: Jar, t: string, now: nat): (r: Jar)
    ensures forall day: nat :: Get(r, day) == if day < now + LifetimeDays then Some(t) else None
  {
    Jar(Some(t), Some(now + LifetimeDays))
  }

  /** `cookie.set("token", t)` without the expiry option (the login page): a
      session cookie, returned on every day. */
  function SetSession(j: Jar, t: string): (r: Jar)
    ensures forall day: nat :: Get(r, day) == Some(t)
  {
    Jar(Some(t), None)
  }

  /** `removeAuthToken()`: nothing is returned afterwards, on any day. */
  function Remove(j: Jar): (r: Jar)
    ensures forall day: nat :: Get(r, day) == None && !IsAuthenticated(r, day)
  {
    NoCookie
  }

  /** Locked versus Unlocked is this presence test; an empty token counts as
      absent (`!!""` is false). */
  lemma AuthenticatedIffNonEmpty(j: Jar, now: nat)
    ensures IsAuthenticated(j, now) <==> exists t :: Get(j, now) == Some(t) && t != ""
  {
    if IsAuthenticated(j, now) {
      assert Get(j, now) == Some(Get(j, now).value);
    }
  }

  /** Setting replaces: the previous state leaves no trace. */
  lemma SetReplaces(j1: Jar, j2: Jar, t: string, now: nat)
    ensures Set(j1, t, now) == Set(j2, t, now)
  {
  }

  /** After `setAuthToken(t)`, reads before the seventh day return `t`. */
  lemma SetThenGet(j: Jar, t: string, now: nat, day: nat)
    requires now <= day < now + LifetimeDays
    ensures Get(Set(j, t, now), day) == Some(t)
    ensures IsAuthenticated(Set(j, t, now), day) <==> t != ""
  {
  }

  /** Seven days after the last `setAuthToken`, the store is locked again. */
  lemma ExpiredAfterLifetime(j: Jar, t: string, now: nat, day: nat)
    requires now + LifetimeDays <= day
    ensures Get(Set(j, t, now), day) == None
    ensures !IsAuthenticated(Set(j, t, now), day)
  {
  }

  /** Removing twice is removing once. */
  lemma RemoveIdempotent(j: Jar)
    ensures Remove(Remove(j)) == Remove(j)
  {
  }

  /** The store object shared by every page: the single cookie's fields,
      updated in place by the setters. */
  class TokenStore {
    var token: Option<string>
    var expiresAt: Option<nat>

    /** The abstract value of the store. */
    function State(): Jar
      reads this
    {
      Jar(token, expiresAt)
    }

    constructor ()
      ensures State() == NoCookie
    {
      token, expiresAt := None, None;
    }

    /** `setAuthToken` (src/lib/auth.ts). */
    method SetAuthToken(t: string, now: nat)
      modifies this
      ensures State() == Set(old(State()), t, now)
    {
      token := Some(t);
      expiresAt := Some(now + LifetimeDays);
    }

    /** `cookie.set("token", t)` with no options (src/pages/Login.tsx). */
    method SetWithoutExpiry(t: string)
      modifies this
      ensures State() == SetSession(old(State()), t)
    {
      token := Some(t);
      expiresAt := None;
    }

    /** `removeAuthToken`. */
    method RemoveAuthToken()
      modifies this
      ensures State() == Remove(old(State()))
    {
      token := None;
      expiresAt := None;
    }

    /** `getAuthToken` on day `now`. */
    method GetAuthToken(now: nat) returns (r: Option<string>)
      ensures r == Get(State(), now)
    {
      if token.Some? && (expiresAt.None? || now < expiresAt.value) {
        r := token;
      } else {
        r := None;
      }
    }

    /** `isAuthenticated` on day `now`. */
    method IsAuthenticatedNow(now: nat) returns (b: bool)
      ensures b == IsAuthenticated(State(), now)
    {
      var t := GetAuthToken(now);
      b := t.Some? && t.value != "";
    }
  }
}
