/** The username handling of the `register` and `login` endpoints
    (controller.py): both normalise the name with `strip().lower()` before
    looking it up, so the stored name and later logins agree. */
module Accounts {
  import opened Outcomes
  import opened Text
  import opened Json

  /** `username.strip().lower()`. */
  function NormalizeUsername(s: string): (r: string)
    ensures Trimmed(r)
    ensures forall i :: 0 <= i < |r| ==> !('A' <= r[i] <= 'Z')
    ensures PaddedBy(Lower(s), r)
  {
    NormalizedShape(s);
    Lower(Strip(s))
  }

  /** What `strip().lower()` leaves, stated once for the function above. */
  lemma NormalizedShape(s: string)
    ensures Trimmed(Lower(Strip(s)))
    ensures forall i :: 0 <= i < |Lower(Strip(s))| ==> !('A' <= Lower(Strip(s))[i] <= 'Z')
    ensures PaddedBy(Lower(s), Lower(Strip(s)))
  {
    LowerKeepsShape(Strip(s));
    LowerPadsNormalized(s);
  }

  /** The lower-cased name is the normalised name between whitespace. */
  lemma LowerPadsNormalized(s: string)
    ensures PaddedBy(Lower(s), Lower(Strip(s)))
  {
    LowerStripCommute(s);
    var p, q := StripSplits(Lower(s));
  }

  /** Normalising a normalised name changes nothing. */
  lemma NormalizeIdempotent(s: string)
    ensures NormalizeUsername(NormalizeUsername(s)) == NormalizeUsername(s)
  {
    var n := NormalizeUsername(s);
    StripOfTrimmed(n);
    LowerOfLowerCase(n);
  }

  /** A string without upper-case ASCII letters is its own lower case. */
  lemma LowerOfLowerCase(n: string)
    requires forall i :: 0 <= i < |n| ==> !('A' <= n[i] <= 'Z')
    ensures Lower(n) == n
  {
    assert forall i :: 0 <= i < |n| ==> Lower(n)[i] == n[i];
  }

  /** Names that agree after lower-casing normalise alike. */
  lemma NormalizeSeesOnlyLowerCase(a: string, b: string)
    requires Lower(a) == Lower(b)
    ensures NormalizeUsername(a) == NormalizeUsername(b)
  {
    LowerStripCommute(a);
    LowerStripCommute(b);
  }

  /** Surrounding whitespace and the case of ASCII letters do not matter:
      a padded or differently-cased spelling normalises to the same name. */
  lemma NormalizeIgnoresPaddingAndCase(p: string, s: string, s': string, q: string)
    requires AllSpace(p) && AllSpace(q)
    requires Lower(s') == Lower(s)
    ensures NormalizeUsername(p + s' + q) == NormalizeUsername(s)
  {
    StripIgnoresPadding(p, s', q);
    NormalizeSeesOnlyLowerCase(s', s);
  }

  /** An HTTP status with the `message` or `error` text of the JSON reply. */
  datatype Response = Response(status: int, text: string)

  const CredentialsRequired := Response(400, "Username and password required")

  /** `not data or not data.get('username') or not data.get('password')`. */
  predicate MissingCredentials(data: Option<Object>) {
    || data.None?
    || "username" !in data.value || !Truthy(data.value["username"])
    || "password" !in data.value || !Truthy(data.value["password"])
  }

  /** `register`: the user store after the request, as a set of stored
      names. Password hashing is foreign and not modelled. */
  function Register(users: set<string>, data: Option<Object>): (res: (Response, set<string>))
    ensures res.0.status == 201 <==>
              !MissingCredentials(data) && data.value["username"].JString?
              && NormalizeUsername(data.value["username"].s) !in users
    ensures res.0.status == 201 ==> res.1 == users + {NormalizeUsername(data.value["username"].s)}
    ensures res.0.status != 201 ==> res.1 == users
  {
    if MissingCredentials(data) then (CredentialsRequired, users)
    else match data.value["username"]
      case JString(name) =>
        var username := NormalizeUsername(name);
        if username in users then (Response(400, "Username already exists"), users)
        else (Response(201, "User registered successfully"), users + {username})
      case _ => (Response(500, "Registration failed"), users)
  }

  /** `login`: `passwordMatches` stands for `check_password_hash` on the
      stored hash, whose implementation is foreign. */
  function Login(users: set<string>, data: Option<Object>, passwordMatches: bool): (res: Response)
    ensures res.status == 200 <==>
              !MissingCredentials(data) && data.value["username"].JString?
              && NormalizeUsername(data.value["username"].s) in users && passwordMatches
  {
    if MissingCredentials(data) then CredentialsRequired
    else match data.value["username"]
      case JString(name) =>
        if NormalizeUsername(name) in users && passwordMatches then Response(200, "Login successful")
        else Response(401, "Invalid credentials")
      case _ => Response(500, "Login failed")
  }

  /** After registering, the user can log in under any spelling that
      differs only in surrounding whitespace or letter case. */
  lemma RegisteredUserCanLogIn(users: set<string>, name: string, login: string,
                               p: string, q: string, password: Json)
    requires Truthy(password)
    requires Register(users, Some(map["username" := JString(name), "password" := password])).0.status == 201
    requires login != "" && AllSpace(p) && AllSpace(q) && Lower(login) == Lower(name)
    ensures Login(Register(users, Some(map["username" := JString(name), "password" := password])).1,
                  Some(map["username" := JString(p + login + q), "password" := password]), true).status == 200
  {
    var data := Some(map["username" := JString(name), "password" := password]);
    var stored := Register(users, data).1;
    assert stored == users + {NormalizeUsername(name)};
    var attempt := Some(map["username" := JString(p + login + q), "password" := password]);
    NormalizeIgnoresPaddingAndCase(p, name, login, q);
    assert |p + login + q| > 0;
    assert !MissingCredentials(attempt);
    assert NormalizeUsername(attempt.value["username"].s) in stored;
  }

  /** Registering a name whose normalised form is already stored changes nothing. */
  lemma DuplicateRegistrationRejected(users: set<string>, name: string, password: Json)
    requires Truthy(password) && name != ""
    requires NormalizeUsername(name) in users
    ensures Register(users, Some(map["username" := JString(name), "password" := password]))
         == (Response(400, "Username already exists"), users)
  {
    var attempt := Some(map["username" := JString(name), "password" := password]);
    assert !MissingCredentials(attempt);
    assert attempt.value["username"] == JString(name);
  }

  /** A second registration under a padded or differently-cased spelling is
      turned away as a duplicate. */
  lemma VariantRegistrationRejected(users: set<string>, name: string, other: string,
                                    p: string, q: string, password: Json)
    requires Truthy(password) && other != ""
    requires NormalizeUsername(name) in users
    requires AllSpace(p) && AllSpace(q) && Lower(other) == Lower(name)
    ensures Register(users, Some(map["username" := JString(p + other + q), "password" := password]))
         == (Response(400, "Username already exists"), users)
  {
    NormalizeIgnoresPaddingAndCase(p, name, other, q);
    assert |p + other + q| > 0;
    DuplicateRegistrationRejected(users, p + other + q, password);
  }

  /** The presence check runs before stripping, so a username of
      whitespace only is accepted and stored as the empty name. */
  lemma BlankUsernameStoredEmpty(users: set<string>, blank: string, password: Json)
    requires Truthy(password) && "" !in users
    requires blank != "" && AllSpace(blank)
    ensures Register(users, Some(map["username" := JString(blank), "password" := password]))
         == (Response(201, "User registered successfully"), users + {""})
  {
    StripUnique(blank, "", "");
    assert blank + "" + "" == blank;
  }
}
