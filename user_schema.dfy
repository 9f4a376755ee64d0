/**
 * The User collection's records (Backend/models/User.js). A user document is
 * kept as a map from schema path to value, because the update route assigns
 * fields by name. uid, email and fullName are required strings; uid and email
 * carry unique indexes; occupation, workHours and sleepHours are optional;
 * onboardingComplete defaults to false; createdAt/updatedAt default to the
 * current time and every save stamps updatedAt.
 */
module UserSchema {
  import opened Common

  /** A JSON value from a request body; arrays and objects are one case. */
  datatype Value = Str(s: string) | Num(n: real) | Bool(b: bool) | Null | Composite

  datatype PathType = StringPath | NumberPath | BooleanPath | DatePath

  type UserDoc = map<string, Value>

  /** The schema's paths and their types; any other key is not part of a user. */
  function PathTypeOf(key: string): Option<PathType> {
    if key in {"uid", "email", "fullName", "occupation"} then Some(StringPath)
    else if key in {"workHours", "sleepHours"} then Some(NumberPath)
    else if key == "onboardingComplete" then Some(BooleanPath)
    else if key in {"createdAt", "updatedAt"} then Some(DatePath)
    else None
  }

  /** Casting an assigned value to the path's type; None is a cast error, which makes the next save fail. */
  function Cast(t: PathType, v: Value): (r: Option<Value>)
    ensures r.Some? ==> r.value == v
    ensures v == Null ==> r == Some(Null)
  {
    match (t, v)
    case (_, Null) => Some(Null)
    case (StringPath, Str(_)) => Some(v)
    case (NumberPath, Num(_)) => Some(v)
    case (BooleanPath, Bool(_)) => Some(v)
    case (DatePath, Num(_)) => Some(v)
    case _ => None
  }

  const RequiredPaths: set<string> := {"uid", "email", "fullName"}

  /** `required: true` on a String path: present, a string, and not empty. */
  predicate HasRequired(d: UserDoc, key: string) {
    key in d && d[key].Str? && d[key].s != []
  }

  predicate SchemaKeys(d: UserDoc) {
    forall k :: k in d ==> PathTypeOf(k).Some?
  }

  predicate ValidUser(d: UserDoc) {
    SchemaKeys(d) && HasRequired(d, "uid") && HasRequired(d, "email") && HasRequired(d, "fullName")
  }

  /** `new User({ uid, email, fullName })`: the given fields, then the defaults. */
  function NewUser(uid: Option<string>, email: Option<string>, fullName: Option<string>, now: int): (d: UserDoc)
    ensures SchemaKeys(d)
    ensures At(d, "uid") == StrField(uid) && At(d, "email") == StrField(email) && At(d, "fullName") == StrField(fullName)
    ensures At(d, "onboardingComplete") == Some(Bool(false))
    ensures At(d, "createdAt") == Some(Num(now as real)) && At(d, "updatedAt") == Some(Num(now as real))
    ensures "occupation" !in d && "workHours" !in d && "sleepHours" !in d
    ensures ValidUser(d) <==> NonEmpty(uid) && NonEmpty(email) && NonEmpty(fullName)
  {
    var base := map["onboardingComplete" := Bool(false), "createdAt" := Num(now as real), "updatedAt" := Num(now as real)];
    var withUid := if uid.Some? then base["uid" := Str(uid.value)] else base;
    var withEmail := if email.Some? then withUid["email" := Str(email.value)] else withUid;
    if fullName.Some? then withEmail["fullName" := Str(fullName.value)] else withEmail
  }

  /** The value stored under a key, if any. */
  function At(d: UserDoc, key: string): Option<Value> {
    if key in d then Some(d[key]) else None
  }

  /** An optional string field as a stored value. */
  function StrField(s: Option<string>): Option<Value> {
    match s
    case Some(x) => Some(Str(x))
    case None => None
  }

  /** A present, non-empty string. */
  predicate NonEmpty(s: Option<string>) {
    s.Some? && s.value != []
  }

  /** The pre-save hook. */
  function PreSave(d: UserDoc, now: int): (r: UserDoc)
    ensures At(r, "updatedAt") == Some(Num(now as real))
    ensures forall k :: k != "updatedAt" ==> At(r, k) == At(d, k)
  {
    d["updatedAt" := Num(now as real)]
  }

  lemma PreSaveKeepsValid(d: UserDoc, now: int)
    requires ValidUser(d)
    ensures ValidUser(PreSave(d, now))
  {
  }
}
