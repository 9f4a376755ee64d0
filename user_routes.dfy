/**
 * The user routes (Backend/routes/userRoutes.js) over an in-memory User
 * collection: POST creates a user unless one with the uid exists, GET looks a
 * user up by uid, PUT assigns every key of the body to the user and saves.
 *
 * Mongoose drops `undefined` values from a query filter, so a POST body
 * without `uid` looks up `findOne({})`, which finds any stored user.
 */
module UserRoutes {
  import opened Common
  import opened UserSchema

  /** A PUT body: its keys in `Object.keys` order, each with its JSON value. */
  type Body = seq<(string, Value)>

  datatype UserResponse =
    | UserCreated(user: UserDoc)
    | UserAbsent
    | UserFound(user: UserDoc)
    | UserUpdated(user: UserDoc)
    | Failure(status: nat, message: string)

  /** Matches `findOne({ uid })`; an absent uid is no condition at all. */
  predicate MatchesUid(d: UserDoc, uid: Option<string>) {
    uid.None? || At(d, "uid") == Some(Str(uid.value))
  }

  function FindOne(users: seq<UserDoc>, uid: Option<string>): (r: Option<nat>)
    ensures r.Some? ==> r.value < |users| && MatchesUid(users[r.value], uid)
    ensures r.None? ==> forall k :: 0 <= k < |users| ==> !MatchesUid(users[k], uid)
  {
    if users == [] then None
    else if MatchesUid(users[0], uid) then Some(0)
    else match FindOne(users[1..], uid)
      case None => None
      case Some(k) => Some(k + 1)
  }

  /** The unique indexes: no other stored user has the same uid or email. */
  predicate UniqueAgainst(users: seq<UserDoc>, d: UserDoc, skip: int) {
    forall k :: 0 <= k < |users| && k != skip ==>
      At(users[k], "uid") != At(d, "uid") && At(users[k], "email") != At(d, "email")
  }

  ghost predicate StoreInvariant(users: seq<UserDoc>) {
    forall k :: 0 <= k < |users| ==> ValidUser(users[k]) && UniqueAgainst(users, users[k], k)
  }

  /** POST /. */
  function CreateUserSpec(users: seq<UserDoc>, uid: Option<string>, email: Option<string>, fullName: Option<string>, now: int)
    : (seq<UserDoc>, UserResponse)
  {
    if FindOne(users, uid).Some? then (users, Failure(400, "User already exists"))
    else
      var d := PreSave(NewUser(uid, email, fullName, now), now);
      if ValidUser(d) && UniqueAgainst(users, d, -1) then (users + [d], UserCreated(d))
      else (users, Failure(500, "Server error while creating user"))
  }

  /** GET /:uid. */
  function GetUserSpec(users: seq<UserDoc>, uid: string): UserResponse {
    match FindOne(users, Some(uid))
    case None => UserAbsent
    case Some(i) => UserFound(users[i])
  }

  /** `user[key] = value` on a Mongoose document: keys outside the schema are ignored; a failed cast assigns nothing. */
  function Assign(d: UserDoc, key: string, v: Value): UserDoc {
    match PathTypeOf(key)
    case None => d
    case Some(t) =>
      match Cast(t, v)
      case None => d
      case Some(c) => d[key := c]
  }

  predicate CastFails(key: string, v: Value) {
    PathTypeOf(key).Some? && Cast(PathTypeOf(key).value, v).None?
  }

  /** The document after the `forEach` over the body's keys. */
  function Merge(d: UserDoc, body: Body): UserDoc
    decreases |body|
  {
    if body == [] then d
    else Assign(Merge(d, body[..|body| - 1]), body[|body| - 1].0, body[|body| - 1].1)
  }

  /** Whether some assignment recorded a cast error. */
  predicate AnyCastFails(body: Body) {
    exists i :: 0 <= i < |body| && CastFails(body[i].0, body[i].1)
  }

  /** What the body assigns to `key`: the cast value of its last schema-typed pair with that key, if it casts. */
  function Assigned(body: Body, key: string): Option<Value>
    decreases |body|
  {
    if body == [] then None
    else
      var (k, v) := body[|body| - 1];
      if k == key && PathTypeOf(k).Some? && Cast(PathTypeOf(k).value, v).Some? then Cast(PathTypeOf(k).value, v)
      else Assigned(body[..|body| - 1], key)
  }

  /** PUT /:uid. */
  function UpdateUserSpec(users: seq<UserDoc>, uid: string, body: Body, now: int): (seq<UserDoc>, UserResponse) {
    match FindOne(users, Some(uid))
    case None => (users, Failure(404, "User not found"))
    case Some(i) =>
      var d := PreSave(Merge(users[i], body), now);
      if !AnyCastFails(body) && ValidUser(d) && UniqueAgainst(users, d, i) then (users[i := d], UserUpdated(d))
      else (users, Failure(500, "Server error while updating user"))
  }

  // ---- What the routes promise ----

  /** The update is exact, key by key: a key the body assigns gets that value, every other key keeps its old one. */
  lemma {:induction false} MergeAt(d: UserDoc, body: Body, key: string)
    ensures At(Merge(d, body), key) == if Assigned(body, key).Some? then Assigned(body, key) else At(d, key)
    decreases |body|
  {
    if body != [] {
      MergeAt(d, body[..|body| - 1], key);
    }
  }

  /** With distinct keys (as `Object.keys` gives them), a schema key of the body that casts ends up with its value. */
  lemma {:induction false} AssignedDistinct(body: Body, i: nat)
    requires i < |body| && forall a, b :: 0 <= a < b < |body| ==> body[a].0 != body[b].0
    requires PathTypeOf(body[i].0).Some? && !CastFails(body[i].0, body[i].1)
    ensures Assigned(body, body[i].0) == Some(body[i].1)
    decreases |body|
  {
    if i < |body| - 1 {
      AssignedDistinct(body[..|body| - 1], i);
    }
  }

  /** A key that the body does not mention keeps its value. */
  lemma {:induction false} AssignedUnmentioned(body: Body, key: string)
    requires forall i :: 0 <= i < |body| ==> body[i].0 != key
    ensures Assigned(body, key) == None
    decreases |body|
  {
    if body != [] {
      AssignedUnmentioned(body[..|body| - 1], key);
    }
  }

  lemma MapsEqualAt(m1: UserDoc, m2: UserDoc)
    requires forall k :: At(m1, k) == At(m2, k)
    ensures m1 == m2
  {
    assert m1.Keys == m2.Keys by {
      forall k ensures k in m1 <==> k in m2 {
        assert At(m1, k) == At(m2, k);
      }
    }
    forall k | k in m1 ensures m1[k] == m2[k] {
      assert At(m1, k) == At(m2, k);
    }
  }

  /** Applying the same body twice leaves the same fields as applying it once. */
  lemma MergeIdempotent(d: UserDoc, body: Body)
    ensures Merge(Merge(d, body), body) == Merge(d, body)
  {
    forall k ensures At(Merge(Merge(d, body), body), k) == At(Merge(d, body), k) {
      MergeAt(Merge(d, body), body, k);
      MergeAt(d, body, k);
    }
    MapsEqualAt(Merge(Merge(d, body), body), Merge(d, body));
  }

  /**
   * So a repeated successful PUT stores the same fields again, apart from the
   * updatedAt stamp, provided the body does not move the user to another uid
   * (otherwise the second request addresses nobody).
   */
  lemma UpdateTwice(users: seq<UserDoc>, uid: string, body: Body, t1: int, t2: int)
    requires UpdateUserSpec(users, uid, body, t1).1.UserUpdated?
    requires Assigned(body, "uid").None? || Assigned(body, "uid") == Some(Str(uid))
    ensures var (users1, r1) := UpdateUserSpec(users, uid, body, t1);
      var (users2, r2) := UpdateUserSpec(users1, uid, body, t2);
      r2.UserUpdated? && r2.user == PreSave(r1.user, t2)
  {
    var i := FindOne(users, Some(uid)).value;
    var (users1, r1) := UpdateUserSpec(users, uid, body, t1);
    var d1 := PreSave(Merge(users[i], body), t1);
    assert users1 == users[i := d1];
    MergeAt(users[i], body, "uid");
    FindOneAfterUpdate(users, uid, i, d1);
    StampedMergeIdempotent(users[i], body, t1, t2);
    var d2 := PreSave(Merge(d1, body), t2);
    assert UniqueAgainst(users1, d2, i) by {
      forall k | 0 <= k < |users1| && k != i
        ensures At(users1[k], "uid") != At(d2, "uid") && At(users1[k], "email") != At(d2, "email")
      {
        assert users1[k] == users[k];
        assert At(d2, "uid") == At(d1, "uid") && At(d2, "email") == At(d1, "email");
      }
    }
  }

  lemma StampedMergeIdempotent(d: UserDoc, body: Body, t1: int, t2: int)
    ensures PreSave(Merge(PreSave(Merge(d, body), t1), body), t2) == PreSave(PreSave(Merge(d, body), t1), t2)
  {
    var d1 := PreSave(Merge(d, body), t1);
    forall k ensures At(PreSave(Merge(d1, body), t2), k) == At(PreSave(d1, t2), k) {
      MergeAt(d1, body, k);
      MergeAt(d, body, k);
    }
    MapsEqualAt(PreSave(Merge(d1, body), t2), PreSave(d1, t2));
  }

  /** Replacing a user by one with the same uid keeps it the first match for that uid. */
  lemma FindOneAfterUpdate(users: seq<UserDoc>, uid: string, i: nat, d: UserDoc)
    requires FindOne(users, Some(uid)) == Some(i) && At(d, "uid") == Some(Str(uid))
    ensures FindOne(users[i := d], Some(uid)) == Some(i)
  {
    if i > 0 {
      assert !MatchesUid(users[0], Some(uid));
      assert users[i := d][1..] == users[1..][i - 1 := d];
      FindOneAfterUpdate(users[1..], uid, i - 1, d);
    }
  }

  /** POST with a uid that is already stored refuses with 400 and changes nothing. */
  lemma CreateExistingRefused(users: seq<UserDoc>, uid: string, email: Option<string>, fullName: Option<string>, now: int)
    requires exists k :: 0 <= k < |users| && At(users[k], "uid") == Some(Str(uid))
    ensures CreateUserSpec(users, Some(uid), email, fullName, now) == (users, Failure(400, "User already exists"))
  {
    var k :| 0 <= k < |users| && At(users[k], "uid") == Some(Str(uid));
    assert MatchesUid(users[k], Some(uid));
  }

  /** POST with a new uid and all three fields creates exactly that user with the defaults. */
  lemma CreateNewUser(users: seq<UserDoc>, uid: string, email: string, fullName: string, now: int)
    requires StoreInvariant(users)
    requires forall k :: 0 <= k < |users| ==> At(users[k], "uid") != Some(Str(uid)) && At(users[k], "email") != Some(Str(email))
    requires uid != [] && email != [] && fullName != []
    ensures var (users', resp) := CreateUserSpec(users, Some(uid), Some(email), Some(fullName), now);
      resp.UserCreated? && users' == users + [resp.user]
      && At(resp.user, "uid") == Some(Str(uid)) && At(resp.user, "email") == Some(Str(email))
      && At(resp.user, "fullName") == Some(Str(fullName))
      && At(resp.user, "onboardingComplete") == Some(Bool(false))
      && StoreInvariant(users')
  {
    var d := PreSave(NewUser(Some(uid), Some(email), Some(fullName), now), now);
    assert FindOne(users, Some(uid)).None?;
    assert At(d, "uid") == Some(Str(uid)) && At(d, "email") == Some(Str(email));
    assert ValidUser(d);
    var users' := users + [d];
    forall k | 0 <= k < |users'| ensures ValidUser(users'[k]) && UniqueAgainst(users', users'[k], k) {
      if k < |users| {
        assert UniqueAgainst(users, users[k], k);
        assert users'[k] == users[k];
      }
    }
  }

  /** PUT on an unknown uid is 404 and changes nothing. */
  lemma UpdateUnknownRefused(users: seq<UserDoc>, uid: string, body: Body, now: int)
    requires forall k :: 0 <= k < |users| ==> At(users[k], "uid") != Some(Str(uid))
    ensures UpdateUserSpec(users, uid, body, now) == (users, Failure(404, "User not found"))
  {
    if FindOne(users, Some(uid)).Some? {
      var i := FindOne(users, Some(uid)).value;
      assert MatchesUid(users[i], Some(uid));
    }
  }

  // ---- The collection ----

  class UserStore {
    var users: seq<UserDoc>

    ghost predicate Valid()
      reads this
    {
      StoreInvariant(users)
    }

    constructor ()
      ensures Valid() && users == []
    {
      users := [];
    }

    method CreateUser(uid: Option<string>, email: Option<string>, fullName: Option<string>, now: int) returns (resp: UserResponse)
      requires Valid()
      modifies this
      ensures Valid()
      ensures (users, resp) == CreateUserSpec(old(users), uid, email, fullName, now)
    {
      if FindOne(users, uid).Some? {
        return Failure(400, "User already exists");
      }
      var d := NewUser(uid, email, fullName, now);
      d := PreSave(d, now);
      if ValidUser(d) && UniqueAgainst(users, d, -1) {
        AppendKeepsInvariant(users, d);
        users := users + [d];
        resp := UserCreated(d);
      } else {
        resp := Failure(500, "Server error while creating user");
      }
    }

    method GetUser(uid: string) returns (resp: UserResponse)
      requires Valid()
      ensures resp == GetUserSpec(users, uid)
      ensures resp.UserAbsent? <==> forall k :: 0 <= k < |users| ==> At(users[k], "uid") != Some(Str(uid))
      ensures resp.UserFound? ==> resp.user in users && At(resp.user, "uid") == Some(Str(uid))
    {
      resp := GetUserSpec(users, uid);
      if resp.UserAbsent? {
        assert FindOne(users, Some(uid)).None?;
      }
    }

    method UpdateUser(uid: string, body: Body, now: int) returns (resp: UserResponse)
      requires Valid()
      modifies this
      ensures Valid()
      ensures (users, resp) == UpdateUserSpec(old(users), uid, body, now)
    {
      var found := FindOne(users, Some(uid));
      if found.None? {
        return Failure(404, "User not found");
      }
      var i := found.value;
      var user := users[i];
      var castError := false;
      var n := 0;
      while n < |body|
        invariant 0 <= n <= |body|
        invariant user == Merge(users[i], body[..n])
        invariant castError <==> AnyCastFails(body[..n])
      {
        var (key, value) := body[n];
        assert body[..n + 1][..n] == body[..n];
        if CastFails(key, value) {
          castError := true;
        }
        user := Assign(user, key, value);
        n := n + 1;
      }
      assert body[..n] == body;
      user := PreSave(user, now);
      if !castError && ValidUser(user) && UniqueAgainst(users, user, i) {
        ReplaceKeepsInvariant(users, i, user);
        users := users[i := user];
        resp := UserUpdated(user);
      } else {
        resp := Failure(500, "Server error while updating user");
      }
    }
  }

  lemma AppendKeepsInvariant(users: seq<UserDoc>, d: UserDoc)
    requires StoreInvariant(users) && ValidUser(d) && UniqueAgainst(users, d, -1)
    ensures StoreInvariant(users + [d])
  {
    var users' := users + [d];
    forall k | 0 <= k < |users'| ensures ValidUser(users'[k]) && UniqueAgainst(users', users'[k], k) {
      if k < |users| {
        assert UniqueAgainst(users, users[k], k);
        assert users'[k] == users[k];
      }
    }
  }

  lemma ReplaceKeepsInvariant(users: seq<UserDoc>, i: nat, d: UserDoc)
    requires StoreInvariant(users) && i < |users| && ValidUser(d) && UniqueAgainst(users, d, i)
    ensures StoreInvariant(users[i := d])
  {
    var users' := users[i := d];
    forall k | 0 <= k < |users'| ensures ValidUser(users'[k]) && UniqueAgainst(users', users'[k], k) {
      if k != i {
        assert UniqueAgainst(users, users[k], k);
        assert users'[k] == users[k];
      }
    }
  }
}
