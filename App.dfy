/** The application shell: the route table and its role guard, the OAuth
    callback that turns a `session_id` in the location hash into a signed-in
    user, and the auth provider that keeps the current user in memory and in
    local storage. */
module App {
  import opened Common
  import opened Domain

  // ---------------------------------------------------------------------------
  // Route guard

  /** What `ProtectedRoute` renders. */
  datatype Guard = Spinner | ToLogin(from: string) | ToHome | Children

  /** `ProtectedRoute`: a spinner while the session check runs, the login
      page (remembering where the visitor was going) without a user, the
      landing page for a user whose type the route does not allow, and the
      page itself otherwise. `allowedRoles` is `None` when the route lists
      none; an empty list lets nobody in. */
  function ProtectedRoute(loading: bool, user: Option<User>, allowedRoles: Option<seq<string>>, location: string): (r: Guard)
    ensures r == Spinner <==> loading
    ensures r.ToLogin? <==> !loading && user.None?
    ensures r.ToLogin? ==> r.from == location
    ensures r == ToHome <==> !loading && user.Some? && allowedRoles.Some? && user.value.userType !in allowedRoles.value
    ensures r == Children <==> !loading && user.Some? && (allowedRoles.None? || user.value.userType in allowedRoles.value)
  {
    if loading then Spinner
    else if user.None? then ToLogin(location)
    else if allowedRoles.Some? && user.value.userType !in allowedRoles.value then ToHome
    else Children
  }

  const ApplyPath: string := "/counselor/apply"

  /** The roles each guarded route admits; `None` for the public routes. */
  function RouteRoles(path: string): (r: Option<seq<string>>)
    ensures r.Some? <==> path in {ApplyPath, StudentHome, CounselorHome, AdminPath}
    ensures r.Some? ==> |r.value| == 1
  {
    if path == ApplyPath || path == StudentHome then Some(["student"])
    else if path == CounselorHome then Some(["counselor"])
    else if path == AdminPath then Some(["admin"])
    else None
  }

  /** A student, counselor or admin sent to their own home is let in by its
      guard once the session check is over. */
  lemma HomeAdmitsItsRole(u: User, location: string)
    requires u.userType in {"student", "counselor", "admin"}
    ensures ProtectedRoute(false, Some(u), RouteRoles(RoleHome(u.userType, StudentHome)), location) == Children
  {
  }

  /** A user of any other type lands on the student dashboard and is sent on
      to the landing page. */
  lemma UnknownRoleBouncedHome(u: User, location: string)
    requires u.userType !in {"student", "counselor", "admin"}
    ensures RoleHome(u.userType, StudentHome) == StudentHome
    ensures ProtectedRoute(false, Some(u), RouteRoles(StudentHome), location) == ToHome
  {
  }

  /** The application form admits students only: a counselor who reaches it
      is sent to the landing page. */
  lemma ApplyAdmitsOnlyStudents(u: User, location: string)
    ensures ProtectedRoute(false, Some(u), RouteRoles(ApplyPath), location) == Children <==> u.userType == "student"
    ensures u.userType == "counselor" ==> ProtectedRoute(false, Some(u), RouteRoles(ApplyPath), location) == ToHome
  {
  }

  // ---------------------------------------------------------------------------
  // The OAuth callback

  /** What the router renders. */
  datatype Screen = Callback | RouteTable

  /** `AppRouter`: the callback whenever the hash mentions `session_id=`. */
  function RouterScreen(hash: string): (r: Screen)
    ensures r == Callback <==> exists i :: OccursAt(hash, SessionKey + "=", i)
  {
    IncludesIffOccurs(hash, SessionKey + "=");
    if Includes(hash, SessionKey + "=") then Callback else RouteTable
  }

  /** `s.replace(a, b)` with a one-character pattern: only the first `a` is
      replaced. */
  function ReplaceFirst(s: string, a: char, b: char): (r: string)
    ensures |r| == |s|
    ensures forall i :: 0 <= i < |s| ==> r[i] == if i == |FirstSegment(s, a)| then b else s[i]
    ensures a !in s ==> r == s
  {
    var h := FirstSegment(s, a);
    if |h| == |s| then s else h + [b] + s[|h| + 1..]
  }

  /** `new URLSearchParams(query).get(name)`: a leading `?` is dropped, the
      rest is split on `&`, each non-empty pair on its first `=`, and the
      value of the first pair named `name` is returned (empty when the pair
      has no `=`). Percent-decoding is not modelled. */
  function SearchParam(query: string, name: string): (r: Option<string>)
    ensures r.Some? ==> '&' !in r.value
  {
    var q := if query != [] && query[0] == '?' then query[1..] else query;
    FirstValue(q, name)
  }

  function FirstValue(q: string, name: string): (r: Option<string>)
    ensures r.Some? ==> '&' !in r.value
    decreases |q|
  {
    var pair := FirstSegment(q, '&');
    if Names(pair, name) then Some(PairValue(pair))
    else if |pair| == |q| then None
    else FirstValue(q[|pair| + 1..], name)
  }

  /** A pair names `name` when it is not empty and its text before the
      first `=` is `name`. */
  predicate Names(pair: string, name: string)
  {
    pair != [] && FirstSegment(pair, '=') == name
  }

  /** The text after a pair's first `=`, empty when it has none. */
  function PairValue(pair: string): string
  {
    var key := FirstSegment(pair, '=');
    if |key| == |pair| then [] else pair[|key| + 1..]
  }

  /** Pieces joined back with a separator between neighbours. */
  function JoinWith(ps: seq<string>, sep: char): string
    decreases |ps|
  {
    if ps == [] then [] else if |ps| == 1 then ps[0] else ps[0] + [sep] + JoinWith(ps[1..], sep)
  }

  /** `q.split('&')`: the separator-free pieces of the query, which joined
      back with `&` give the query. */
  function Pairs(q: string): (ps: seq<string>)
    ensures |ps| >= 1
    ensures forall i :: 0 <= i < |ps| ==> '&' !in ps[i]
    ensures JoinWith(ps, '&') == q
    decreases |q|
  {
    var pair := FirstSegment(q, '&');
    if |pair| == |q| then
      assert pair == q;
      [q]
    else
      var ps := [pair] + Pairs(q[|pair| + 1..]);
      assert ps[1..] == Pairs(q[|pair| + 1..]);
      assert q == pair + ['&'] + q[|pair| + 1..];
      ps
  }

  /** `get(name)` on the pieces of a split query: there is a value exactly
      when some pair names `name`, and then it is the value of the first
      such pair. */
  function Lookup(ps: seq<string>, name: string): (r: Option<string>)
    ensures r.None? <==> forall i :: 0 <= i < |ps| ==> !Names(ps[i], name)
    ensures r.Some? ==>
              exists i :: 0 <= i < |ps| && Names(ps[i], name) && r.value == PairValue(ps[i]) &&
                          forall j :: 0 <= j < i ==> !Names(ps[j], name)
    decreases |ps|
  {
    if ps == [] then None
    else if Names(ps[0], name) then Some(PairValue(ps[0]))
    else
      var r := Lookup(ps[1..], name);
      assert forall i :: 1 <= i < |ps| ==> ps[i] == ps[1..][i - 1];
      r
  }

  /** Scanning the query pair by pair finds what a lookup in its split
      finds. */
  lemma {:induction false} FirstValueIsFirstMatch(q: string, name: string)
    ensures FirstValue(q, name) == Lookup(Pairs(q), name)
    decreases |q|
  {
    var pair := FirstSegment(q, '&');
    if |pair| < |q| {
      var rest := q[|pair| + 1..];
      FirstValueIsFirstMatch(rest, name);
      assert Pairs(q) == [pair] + Pairs(rest);
      assert Pairs(q)[1..] == Pairs(rest);
    } else {
      assert Pairs(q) == [q] && pair == q;
    }
  }

  /** The whole of a string free of the separator is its first segment. */
  lemma FirstSegmentWhole(s: string, sep: char)
    requires sep !in s
    ensures FirstSegment(s, sep) == s
  {
  }

  /** A pair `name=value` at the front of the query is found, whatever
      follows it. */
  lemma {:induction false} FirstValueOfPair(name: string, value: string, rest: Option<string>)
    requires name != [] && '=' !in name && '&' !in name && '&' !in value
    ensures var q := name + "=" + value + (if rest.Some? then "&" + rest.value else "");
            FirstValue(q, name) == Some(value)
  {
    var pair := name + "=" + value;
    var q := pair + (if rest.Some? then "&" + rest.value else "");
    assert '&' !in pair by {
      forall i | 0 <= i < |pair| ensures pair[i] != '&' {
        if i < |name| { assert pair[i] == name[i]; }
        else if i > |name| { assert pair[i] == value[i - |name| - 1]; }
      }
    }
    if rest.Some? {
      assert q == pair + ['&'] + rest.value;
      FirstSegmentOfJoin(pair, '&', rest.value);
    } else {
      assert q == pair;
      FirstSegmentWhole(pair, '&');
    }
    assert pair == name + ['='] + value;
    FirstSegmentOfJoin(name, '=', value);
    assert pair[|name| + 1..] == value;
  }

  /** The parameter that carries the OAuth session. */
  const SessionKey: string := "session_id"

  lemma SessionKeyIsPlain()
    ensures SessionKey != [] && '=' !in SessionKey && '&' !in SessionKey
  {
  }

  /** The `session_id` the callback reads from the location hash. */
  function SessionId(hash: string): (r: Option<string>)
  {
    SearchParam(ReplaceFirst(hash, '#', '?'), SessionKey)
  }

  /** For a hash, which starts with `#`, the parameters are what follows
      the `#`. */
  lemma SessionIdOfHash(hash: string)
    requires hash != [] && hash[0] == '#'
    ensures SessionId(hash) == FirstValue(hash[1..], SessionKey)
  {
    assert FirstSegment(hash, '#') == [];
    var r := ReplaceFirst(hash, '#', '?');
    assert r[0] == '?';
    assert r[1..] == hash[1..];
  }

  /** A hash `#session_id=V`, alone or followed by further parameters,
      yields `V`. */
  lemma {:induction false} SessionIdRoundTrip(v: string, rest: Option<string>)
    requires '&' !in v
    ensures SessionId("#" + SessionKey + "=" + v + (if rest.Some? then "&" + rest.value else "")) == Some(v)
  {
    var tail := SessionKey + "=" + v + (if rest.Some? then "&" + rest.value else "");
    var hash := "#" + tail;
    assert hash == "#" + SessionKey + "=" + v + (if rest.Some? then "&" + rest.value else "");
    SessionIdOfHash(hash);
    assert hash[1..] == tail;
    SessionKeyIsPlain();
    FirstValueOfPair(SessionKey, v, rest);
  }

  /** A query made of one pair with another key has no value for `name`. */
  lemma FirstValueOtherKey(key: string, value: string, name: string)
    requires '=' !in key && '&' !in key && '&' !in value && key != name
    ensures FirstValue(key + "=" + value, name) == None
  {
    var q := key + "=" + value;
    assert '&' !in q by {
      forall i | 0 <= i < |q| ensures q[i] != '&' {
        if i < |key| { assert q[i] == key[i]; }
        else if i > |key| { assert q[i] == value[i - |key| - 1]; }
      }
    }
    FirstSegmentWhole(q, '&');
    assert q == key + ['='] + value;
    FirstSegmentOfJoin(key, '=', value);
  }

  /** A hash whose first parameter's value starts with `session_id=` shows
      the callback. */
  lemma MentionShowsCallback(key: string, value: string)
    requires StartsWith(value, SessionKey + "=")
    ensures RouterScreen("#" + key + "=" + value) == Callback
  {
    var hash := "#" + key + "=" + value;
    var needle := SessionKey + "=";
    var k := |key| + 2;
    assert hash == ("#" + key + "=") + value;
    assert hash[k..k + |needle|] == value[..|needle|];
    assert OccursAt(hash, needle, k);
  }

  /** Mentioning `session_id=` is not enough: in `#state=session_id=1` the
      parameter is named `state`, so the router shows the callback and the
      callback finds no session. */
  lemma MentionWithoutSession(key: string, value: string)
    requires '=' !in key && '&' !in key && '&' !in value && key != SessionKey
    requires StartsWith(value, SessionKey + "=")
    ensures RouterScreen("#" + key + "=" + value) == Callback
    ensures SessionId("#" + key + "=" + value) == None
  {
    MentionShowsCallback(key, value);
    OtherKeyHasNoSession(key, value);
  }

  /** A hash holding one parameter with another name has no session. */
  lemma OtherKeyHasNoSession(key: string, value: string)
    requires '=' !in key && '&' !in key && '&' !in value && key != SessionKey
    ensures SessionId("#" + key + "=" + value) == None
  {
    var q := key + "=" + value;
    var hash := "#" + q;
    assert hash == "#" + key + "=" + value;
    SessionIdOfHash(hash);
    assert hash[1..] == q;
    FirstValueOtherKey(key, value, SessionKey);
  }

  /** Where the callback sends the visitor: the login page without a
      session id or when the server refuses it, otherwise the home of the
      user's role (students and unknown types to the student dashboard). */
  function CallbackTarget(hash: string, reply: Option<User>): (r: string)
    ensures SessionId(hash).None? || SessionId(hash).value == "" ==> r == LoginPath
    ensures SessionId(hash).Some? && SessionId(hash).value != "" && reply.None? ==> r == LoginPath
    ensures SessionId(hash).Some? && SessionId(hash).value != "" && reply.Some? ==>
              r == RoleHome(reply.value.userType, StudentHome) && r != LoginPath
  {
    var sid := SessionId(hash);
    if sid.None? || sid.value == "" || reply.None? then LoginPath
    else RoleHome(reply.value.userType, StudentHome)
  }

  // ---------------------------------------------------------------------------
  // Local storage and the auth provider

  /** The `user` entry of local storage: absent, a user written by the app,
      or text that does not parse. */
  datatype Stored = Absent | Json(user: User) | Garbage

  /** The two local storage entries the app uses. */
  class LocalStorage {
    var user: Stored
    var token: Option<string>

    constructor (user: Stored, token: Option<string>)
      ensures this.user == user && this.token == token
    {
      this.user := user;
      this.token := token;
    }
  }

  /** `AuthCallback`, with its `hasProcessed` ref and the session ids it
      has posted. */
  class AuthCallback {
    var hasProcessed: bool
    var posted: seq<string>
    var navigateTo: Option<string>
    const storage: LocalStorage

    /** At most one session id is ever posted, and only once processed. */
    predicate Valid()
      reads this
    {
      |posted| <= 1 && (posted != [] ==> hasProcessed)
    }

    constructor (storage: LocalStorage)
      ensures Valid() && !hasProcessed && posted == [] && navigateTo.None?
      ensures this.storage == storage
    {
      hasProcessed := false;
      posted := [];
      navigateTo := None;
      this.storage := storage;
    }

    /** The callback's effect, with the server's reply to the session post
        (`None` on failure). A second run does nothing; the first marks the
        callback processed, posts a non-empty session id, stores the user on
        success, and navigates. */
    method Effect(hash: string, reply: Option<User>)
      requires Valid()
      modifies this, storage
      ensures Valid()
      ensures old(hasProcessed) ==> posted == old(posted) && navigateTo == old(navigateTo) && storage.user == old(storage.user)
      ensures !old(hasProcessed) ==> hasProcessed && navigateTo == Some(CallbackTarget(hash, reply))
      ensures !old(hasProcessed) ==>
                posted == (if SessionId(hash).Some? && SessionId(hash).value != "" then [SessionId(hash).value] else [])
      ensures !old(hasProcessed) && posted != [] && reply.Some? ==> storage.user == Json(reply.value)
      ensures !old(hasProcessed) && (posted == [] || reply.None?) ==> storage.user == old(storage.user)
      ensures storage.token == old(storage.token)
    {
      if hasProcessed {
        return;
      }
      hasProcessed := true;
      var sid := SessionId(hash);
      if sid.Some? && sid.value != "" {
        posted := [sid.value];
        if reply.Some? {
          storage.user := Json(reply.value);
        }
      }
      navigateTo := Some(CallbackTarget(hash, reply));
    }
  }

  /** The user the provider holds after reading storage: the stored user
      when the entry parses, the current one otherwise. */
  function Restored(s: Stored, current: Option<User>): (r: Option<User>)
    ensures s.Json? ==> r == Some(s.user)
    ensures !s.Json? ==> r == current
  {
    if s.Json? then Some(s.user) else current
  }

  /** The server's reply to a login or registration. */
  datatype AuthReply = AuthReply(user: User, token: string)

  /** The requests the provider issues. */
  datatype AuthRequest =
    | Me
    | LoginPost(email: string, password: string)
    | RegisterPost(body: RegisterBody)
    | LogoutPost

  class AuthProvider {
    var user: Option<User>
    var loading: bool
    var requests: seq<AuthRequest>
    const storage: LocalStorage

    /** The user in memory is the one in storage. */
    predicate Synced()
      reads this, storage
    {
      user.Some? ==> storage.user == Json(user.value)
    }

    constructor (storage: LocalStorage)
      ensures user.None? && loading && requests == [] && this.storage == storage
      ensures Synced()
    {
      user := None;
      loading := true;
      requests := [];
      this.storage := storage;
    }

    /** `checkAuth`, with the outcome of `/auth/me`: the user or the HTTP
        status of the failure (`None` without a response). Storage is read
        first; then a success replaces the user in both places, a 401
        clears both, and any other failure keeps what storage gave. */
    method CheckAuth(server: Result<User, Option<int>>)
      modifies this, storage
      ensures !loading && requests == old(requests) + [Me]
      ensures server.Ok? ==> user == Some(server.value) && storage.user == Json(server.value)
      ensures server == Err(Some(401)) ==> user.None? && storage.user == Absent
      ensures server.Err? && server.error != Some(401) ==>
                user == Restored(old(storage.user), old(user)) &&
                storage.user == (if old(storage.user).Garbage? then Absent else old(storage.user))
      ensures storage.token == old(storage.token)
      ensures old(Synced()) ==> Synced()
    {
      if storage.user.Json? {
        user := Some(storage.user.user);
      } else if storage.user.Garbage? {
        storage.user := Absent;
      }
      requests := requests + [Me];
      if server.Ok? {
        user := Some(server.value);
        storage.user := Json(server.value);
      } else if server.error == Some(401) {
        storage.user := Absent;
        user := None;
      }
      loading := false;
    }

    /** `login`: on success the user and token are kept in memory and in
        storage; a failure changes nothing and reaches the caller. */
    method Login(email: string, password: string, reply: Result<AuthReply, Option<string>>)
      returns (r: Result<AuthReply, Option<string>>)
      modifies this, storage
      ensures requests == old(requests) + [LoginPost(email, password)]
      ensures r == reply
      ensures reply.Ok? ==> user == Some(reply.value.user) && storage.user == Json(reply.value.user) && storage.token == Some(reply.value.token)
      ensures reply.Err? ==> user == old(user) && storage.user == old(storage.user) && storage.token == old(storage.token)
      ensures loading == old(loading)
      ensures old(Synced()) ==> Synced()
    {
      requests := requests + [LoginPost(email, password)];
      if reply.Ok? {
        user := Some(reply.value.user);
        storage.user := Json(reply.value.user);
        storage.token := Some(reply.value.token);
      }
      r := reply;
    }

    /** `register`: the same as `login`, posting the registration body. */
    method Register(body: RegisterBody, reply: Result<AuthReply, Option<string>>)
      returns (r: Result<AuthReply, Option<string>>)
      modifies this, storage
      ensures requests == old(requests) + [RegisterPost(body)]
      ensures r == reply
      ensures reply.Ok? ==> user == Some(reply.value.user) && storage.user == Json(reply.value.user) && storage.token == Some(reply.value.token)
      ensures reply.Err? ==> user == old(user) && storage.user == old(storage.user) && storage.token == old(storage.token)
      ensures loading == old(loading)
      ensures old(Synced()) ==> Synced()
    {
      requests := requests + [RegisterPost(body)];
      if reply.Ok? {
        user := Some(reply.value.user);
        storage.user := Json(reply.value.user);
        storage.token := Some(reply.value.token);
      }
      r := reply;
    }

    /** `logout`: whether or not the server accepts it, the user is
        forgotten in memory and in storage. */
    method Logout(ok: bool)
      modifies this, storage
      ensures requests == old(requests) + [LogoutPost]
      ensures user.None? && storage.user == Absent && storage.token.None?
      ensures loading == old(loading)
      ensures Synced()
    {
      requests := requests + [LogoutPost];
      user := None;
      storage.user := Absent;
      storage.token := None;
    }
  }
}
