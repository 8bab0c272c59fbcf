/** The user list of src/pages/Users.tsx: one authenticated GET on mount and
    a search over names and e-mail addresses. */
module Users {
  import opened Js
  import opened Http
  import opened Lists

  /** A user record; `name` and `email` may be missing from the reply. */
  datatype User = User(id: string, name: Option<string>, email: Option<string>, role: string)

  const UsersPath: string := "/api/users/allusers"

  /** `user.name?.toLowerCase().includes(term.toLowerCase())`: false when the
      field is missing. */
  predicate FieldMatches(field: Option<string>, term: string)
  {
    field.Some? && Includes(Lower(field.value), Lower(term))
  }

  predicate UserMatches(term: string, u: User)
  {
    FieldMatches(u.name, term) || FieldMatches(u.email, term)
  }

  /** `filteredUsers`: the users, in order, whose name or e-mail contains the
      term, ignoring case. */
  function FilteredUsers(users: seq<User>, term: string): (r: seq<User>)
    ensures IsSubsequence(r, users)
    ensures forall i :: 0 <= i < |r| ==> r[i] in users && (FieldMatches(r[i].name, term) || FieldMatches(r[i].email, term))
    ensures forall i :: 0 <= i < |users| && UserMatches(term, users[i]) ==> users[i] in r
  {
    Filter((u: User) => UserMatches(term, u), users)
  }

  /** With an empty search, exactly the users with a name or an e-mail are
      listed: a record missing both never shows. */
  lemma EmptySearchShowsUsersWithAField(users: seq<User>)
    ensures FilteredUsers(users, "") == Filter((u: User) => u.name.Some? || u.email.Some?, users)
  {
    var p := (u: User) => UserMatches("", u);
    var q := (u: User) => u.name.Some? || u.email.Some?;
    FilterSamePredicate(p, q, users) by {
      forall u: User ensures p(u) == q(u) {
        if u.name.Some? { IncludesEmpty(Lower(u.name.value)); }
        if u.email.Some? { IncludesEmpty(Lower(u.email.value)); }
      }
    }
  }

  /** The search ignores the case of the term. */
  lemma SearchIgnoresTermCase(users: seq<User>, term: string)
    ensures FilteredUsers(users, Lower(term)) == FilteredUsers(users, term)
  {
    LowerIdempotent(term);
    FilterSamePredicate((u: User) => UserMatches(Lower(term), u), (u: User) => UserMatches(term, u), users);
  }

  /** The request `fetchUsers` sends: `Bearer ${token}` with no fallback, so a
      missing cookie sends "Bearer undefined". */
  function UsersRequest(apiUrl: string, token: Option<string>): (r: Request<()>)
    ensures r.verb == GET && r.url == apiUrl + "/api/users/allusers" && r.body == None
    ensures r.headers.Keys == {AuthorizationHeader}
    ensures token.Some? ==> r.headers[AuthorizationHeader] == "Bearer " + token.value
    ensures token.None? ==> r.headers[AuthorizationHeader] == "Bearer undefined"
  {
    Request(GET, apiUrl + UsersPath, map[AuthorizationHeader := Bearer(Interpolate(token))], None)
  }

  /** The list after `fetchUsers`: the reply as it came on success; on failure
      the list is kept (the error is only logged). */
  function FetchUsers(users: seq<User>, reply: Outcome<seq<User>>): (r: seq<User>)
    ensures reply.Fulfilled? ==> r == reply.data
    ensures reply.Rejected? ==> r == users
  {
    match reply
    case Fulfilled(data) => data
    case Rejected(_) => users
  }

  /** What the list shows after the fetch: a failed fetch leaves the shown
      list as it was, and a successful one shows the search over the reply. */
  lemma FetchThenSearch(users: seq<User>, reply: Outcome<seq<User>>, term: string)
    ensures reply.Rejected? ==> FilteredUsers(FetchUsers(users, reply), term) == FilteredUsers(users, term)
    ensures reply.Fulfilled? ==> FilteredUsers(FetchUsers(users, reply), term) == FilteredUsers(reply.data, term)
  {
  }
}
