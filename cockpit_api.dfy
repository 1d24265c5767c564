/** The REST controller of the Cockpit module
    (modules/Cockpit/Controller/RestApi.php): logging in with a token,
    checking a session, creating and updating accounts, activating them,
    resetting passwords, listing accounts and assets, and the option set of
    the image endpoint. */
module CockpitApi {
  import opened PhpValues
  import opened Http
  import Templates

  // ===========================================================================
  // Tokens

  /** The claims of a token: the account id and, on session and reset
      tokens, the time after which the token is refused. */
  datatype Claims = Claims(whoisit: Value, expire: Option<int>)

  const LoginLifetime := 15 * 60
  const ResetLifetime := 60 * 60

  /** The token `authUser` issues at `now`. */
  function LoginClaims(id: Value, now: int): (c: Claims)
    ensures c.whoisit == id && c.expire == Some(now + 900)
  {
    Claims(id, Some(now + LoginLifetime))
  }

  /** The token `resetPassword` mails at `now`. */
  function ResetClaims(id: Value, now: int): (c: Claims)
    ensures c.whoisit == id && c.expire == Some(now + 3600)
  {
    Claims(id, Some(now + ResetLifetime))
  }

  /** `$token->expire < time()`. A token without `expire` reads it as null,
      and PHP compares null with an integer as two booleans, so such a token
      counts as expired unless the clock reads 0. */
  predicate Expired(claims: Claims, now: int) {
    match claims.expire
    case Some(e) => e < now
    case None => now != 0
  }

  /** A token is refused only once its expiry time has passed: at the very
      second it names it is still accepted. */
  lemma ExpiryBoundary(id: Value, e: int, now: int)
    ensures Expired(Claims(id, Some(e)), now) <==> e < now
    ensures !Expired(Claims(id, Some(now)), now)
  {
  }

  /** A login token is accepted for fifteen minutes, a reset token for an
      hour, both counted from the moment of issue. */
  lemma TokenLifetimes(id: Value, issued: int, now: int)
    ensures !Expired(LoginClaims(id, issued), now) <==> now <= issued + 900
    ensures !Expired(ResetClaims(id, issued), now) <==> now <= issued + 3600
  {
  }

  // ===========================================================================
  // The collaborators

  /** What the controller reads besides the request: the clock, the
      `cockpit` module's `authenticate`, the token codec with the configured
      key (`decode` is `None` when it throws), the password hash, the mail
      templates, the configuration, and the mailer's result. */
  datatype Services = Services(
    now: int,
    authenticate: (Value, Value) -> Value,
    encode: Claims -> string,
    decode: Value -> Option<Claims>,
    hash: string -> string,
    templates: string -> string,
    host: string,
    edition: Value,
    mailSent: bool)

  /** The store: the accounts in their natural order (what `findOne` scans),
      and the results of the `find`/`count` queries whose filters the model
      does not evaluate. */
  datatype Storage = Storage(
    accounts: seq<Value>,
    findAccounts: map<string, Value> -> seq<Value>,
    findAssets: map<string, Value> -> seq<Value>,
    countAssets: Value -> nat)

  const Accounts := "cockpit/accounts"

  /** The account of a token. */
  function Owner(store: Storage, claims: Claims): Value {
    FindOne(store.accounts, "_id", claims.whoisit)
  }

  // ===========================================================================
  // Stripping secrets from responses

  /** `unset($user["password"])` when it is set. */
  function StripPassword(v: Value): (r: Value)
    ensures !Isset(r, "password")
    ensures IsArray(r) <==> IsArray(v)
    ensures forall k :: k != "password" ==> Get(r, k) == Get(v, k)
  {
    if Isset(v, "password") then Unset(v, "password") else v
  }

  /** `password` and then `api_key` unset when they are set. */
  function StripSecrets(v: Value): (r: Value)
    ensures !Isset(r, "password") && !Isset(r, "api_key")
    ensures IsArray(r) <==> IsArray(v)
    ensures forall k :: k != "password" && k != "api_key" ==> Get(r, k) == Get(v, k)
  {
    var p := StripPassword(v);
    if Isset(p, "api_key") then Unset(p, "api_key") else p
  }

  // ===========================================================================
  // authUser and isLogged

  const BadCredentials := "The email address or password you entered is incorrect!<br/>Or maybe your account is not verified yet."

  function AuthUser(req: Request, s: Services): (out: Outcome)
    ensures out.writes == [] && out.mails == []
    ensures !Truthy(Param(req, "user", Null)) || !Truthy(Param(req, "password", Null)) ==>
              out.response == Stop(412, Error("Missing user or password"))
    ensures out.response.Ok? <==>
              Truthy(Param(req, "user", Null)) && Truthy(Param(req, "password", Null)) &&
              Truthy(s.authenticate(Param(req, "user", Null), Param(req, "password", Null)))
    ensures out.response.Ok? ==>
              var account := s.authenticate(Param(req, "user", Null), Param(req, "password", Null));
              out.response.value == Obj(map["user" := account,
                                            "jwt" := Str(s.encode(LoginClaims(Get(account, "_id"), s.now)))])
    ensures Truthy(Param(req, "user", Null)) && Truthy(Param(req, "password", Null)) &&
            !Truthy(s.authenticate(Param(req, "user", Null), Param(req, "password", Null))) ==>
              out.response == Stop(401, Error(BadCredentials))
  {
    var name := Param(req, "user", Null);
    var password := Param(req, "password", Null);
    if !Truthy(name) || !Truthy(password) then Fail(412, "Missing user or password")
    else
      var account := s.authenticate(name, password);
      if !Truthy(account) then Fail(401, BadCredentials)
      else Reply(Ok(Obj(map["user" := account, "jwt" := Str(s.encode(LoginClaims(Get(account, "_id"), s.now)))])))
  }

  function IsLogged(req: Request, s: Services, store: Storage): (out: Outcome)
    ensures out.writes == [] && out.mails == []
    ensures !Truthy(Param(req, "jwt", Null)) ==> out.response == Stop(412, Error("Missing jwt"))
    ensures Truthy(Param(req, "jwt", Null)) ==>
              match s.decode(Param(req, "jwt", Null))
              case None => out.response == Thrown
              case Some(claims) =>
                if Expired(claims, s.now) then out.response == Stop(401, Error("jwt expired"))
                else out.response.Ok? && out.response.value.Obj? &&
                     out.response.value.fields.Keys == {"user"} &&
                     var user := out.response.value.fields["user"];
                     !Isset(user, "password") &&
                     (Owner(store, claims) == Null ==> user == Null) &&
                     (IsArray(Owner(store, claims)) ==> user.Obj?) &&
                     forall k :: k != "password" ==> Get(user, k) == Get(Owner(store, claims), k)
  {
    var jwt := Param(req, "jwt", Null);
    if !Truthy(jwt) then Fail(412, "Missing jwt")
    else match s.decode(jwt)
      case None => Reply(Thrown)
      case Some(claims) =>
        if Expired(claims, s.now) then Fail(401, "jwt expired")
        else Reply(Ok(Obj(map["user" := Unset(Owner(store, claims), "password")])))
  }

  /** A token `authUser` issued is a valid session until fifteen minutes
      later, for the account it was issued to. */
  lemma LoginTokenOpensSession(req: Request, s: Services, store: Storage, id: Value, issued: int)
    requires Truthy(Param(req, "jwt", Null)) && s.decode(Param(req, "jwt", Null)) == Some(LoginClaims(id, issued))
    ensures IsLogged(req, s, store).response.Ok? <==> s.now <= issued + 900
  {
  }

  // ===========================================================================
  // saveUser

  const AccountDefaults: map<string, Value> := map[
    "user" := Str("admin"), "name" := Str(""), "email" := Str(""),
    "active" := Bool(true), "group" := Str("user"), "i18n" := Str("en")]

  /** `array_merge($defaults, $data)` on string keys: every submitted value
      replaces the default of the same key. */
  function Merge(defaults: map<string, Value>, data: map<string, Value>): (m: map<string, Value>)
    ensures m.Keys == defaults.Keys + data.Keys
    ensures forall k :: k in data ==> m[k] == data[k]
    ensures forall k :: k in defaults && k !in data ==> m[k] == defaults[k]
  {
    defaults + data
  }

  const PasswordRequired := "User password required"
  const NicknameRequired := "User nickname required"
  const DuplicateUser := "Sorry, this email already exists!"

  /** The checks of `saveUser` in their order; the first that fails gives the
      response. A logged-in user who is not a super-admin may only update
      their own record; a new record needs a password and a login name that
      no stored account has. */
  function SaveUserGuard(data: Value, user: Value, superAdmin: bool, store: Storage): Option<Response> {
    if !Truthy(data) then Some(Ok(Bool(false)))
    else if Truthy(user) && !Isset(data, "_id") && !superAdmin then Some(Stop(401, NoBody))
    else if Truthy(user) && !superAdmin && Get(data, "_id") != Get(user, "_id") then Some(Stop(401, NoBody))
    else if Isset(data, "_id") then None
    else if !Isset(data, "password") then Some(Stop(412, Error(PasswordRequired)))
    else if !Isset(data, "user") then Some(Stop(412, Error(NicknameRequired)))
    else if Truthy(FindOne(store.accounts, "user", Get(data, "user"))) then Some(Stop(412, Error(DuplicateUser)))
    else None
  }

  /** For a logged-in user who is not a super-admin, a record without `_id`
      and a record with someone else's `_id` are both refused with 401. */
  lemma SaveUserOwnRecordOnly(data: Value, user: Value, store: Storage)
    requires Truthy(data) && Truthy(user)
    ensures !Isset(data, "_id") ==> SaveUserGuard(data, user, false, store) == Some(Stop(401, NoBody))
    ensures Get(data, "_id") != Get(user, "_id") ==> SaveUserGuard(data, user, false, store) == Some(Stop(401, NoBody))
    ensures Isset(data, "_id") && Get(data, "_id") == Get(user, "_id") ==> SaveUserGuard(data, user, false, store).None?
  {
  }

  /** The record the accounts store receives for the submitted `data`.
      A new record is the defaults overridden by the submitted fields, with a
      generated API key and a creation time; a non-empty password is stored
      hashed and an empty one is dropped; the modification time is `now`;
      every other field is kept. */
  predicate StoredAccount(data: Value, stored: Value, now: int, hash: string -> string, apiKey: string) {
    && data.Obj? && stored.Obj?
    && var isNew := !Isset(data, "_id");
       var merged := if isNew then Merge(AccountDefaults, data.fields)["api_key" := Str(apiKey)] else data.fields;
       var pw := Get(data, "password");
       && "_modified" in stored.fields && stored.fields["_modified"] == Num(now)
       && (isNew ==> "_created" in stored.fields && stored.fields["_created"] == Num(now))
       && (Isset(data, "password") && |ToStr(pw)| > 0 ==> Get(stored, "password") == Str(hash(ToStr(pw))))
       && (Isset(data, "password") && |ToStr(pw)| == 0 ==> "password" !in stored.fields)
       && (!Isset(data, "password") ==> Get(stored, "password") == pw)
       && (forall k :: k in merged && k != "password" && k != "_modified" && (isNew ==> k != "_created") ==>
             k in stored.fields && stored.fields[k] == merged[k])
       && (forall k :: k in stored.fields ==> k in merged || k == "_modified" || (isNew && k == "_created"))
  }

  /** A submitted field wins over its default; a default fills every field
      left out; the API key is the generated one. */
  lemma NewAccountDefaults(data: Value, stored: Value, now: int, hash: string -> string, apiKey: string, k: string)
    requires StoredAccount(data, stored, now, hash, apiKey) && !Isset(data, "_id")
    requires k != "password" && k != "_modified" && k != "_created" && k != "api_key"
    ensures k in AccountDefaults && k !in data.fields ==> Get(stored, k) == AccountDefaults[k]
    ensures k in data.fields ==> Get(stored, k) == data.fields[k]
    ensures Get(stored, "api_key") == Str(apiKey)
  {
    var merged := Merge(AccountDefaults, data.fields)["api_key" := Str(apiKey)];
    assert "api_key" in merged;
    if k in merged {
      assert k in stored.fields && stored.fields[k] == merged[k];
    }
  }

  /** The id the saved account ends up with: its own, or the one the store
      assigns to a new record. */
  function AccountId(data: Value, assignedId: Value): Value {
    if Isset(data, "_id") then Get(data, "_id") else assignedId
  }

  function CodeMailSubstitutions(s: Services, name: Value, jwt: string): (subs: Templates.Substitutions)
    ensures Templates.WellFormed(subs)
  {
    [("{{server}}", s.host), ("{{name}}", ToStr(name)), ("{{code}}", jwt)]
  }

  const VerifyTemplates: seq<string> := ["verify.html", "verify_plain.html"]

  /** The steps of `saveUser` that turn the submitted fields into the stored
      record: for a new record the merge with the defaults and the API key,
      then the password, then the timestamps. */
  method AccountRecord(submitted: map<string, Value>, isNew: bool, now: int, hash: string -> string, apiKey: string)
    returns (record: map<string, Value>)
    requires isNew <==> !Isset(Obj(submitted), "_id")
    ensures StoredAccount(Obj(submitted), Obj(record), now, hash, apiKey)
  {
    record := submitted;
    if isNew {
      record := Merge(AccountDefaults, record)["api_key" := Str(apiKey)];
    }
    ghost var merged := record;
    if "password" in record && record["password"] != Null {
      if |ToStr(record["password"])| > 0 {
        record := record["password" := Str(hash(ToStr(record["password"])))];
      } else {
        record := record - {"password"};
      }
    }
    record := record["_modified" := Num(now)];
    if isNew {
      record := record["_created" := record["_modified"]];
    }
  }

  /** `$data` once the store has given a new record its id and the password
      has been unset: what the photographer entry and the mail are built
      from. */
  function AfterSave(stored: Value, assignedId: Value): (data: Value)
    requires stored.Obj?
    ensures !Isset(data, "password")
    ensures Get(data, "_id") == if Isset(stored, "_id") then Get(stored, "_id") else assignedId
    ensures forall k :: k != "_id" && k != "password" ==> Get(data, k) == Get(stored, k)
  {
    var withId := if !Isset(stored, "_id") then SetKey(stored, "_id", assignedId) else stored;
    if Isset(withId, "password") then Unset(withId, "password") else withId
  }

  /** An account saved under `_id` keeps the `_id` it was submitted with, and
      a new record has none until the store assigns it. */
  lemma StoredAccountId(data: Value, stored: Value, now: int, hash: string -> string, apiKey: string, assignedId: Value)
    requires StoredAccount(data, stored, now, hash, apiKey)
    ensures Get(AfterSave(stored, assignedId), "_id") == AccountId(data, assignedId)
  {
    if Isset(data, "_id") {
      assert "_id" in data.fields;
    } else if "_id" in stored.fields {
      assert Get(stored, "_id") == Null;
    }
  }

  /** The photographer entry `saveUser` creates beside the account. */
  function PhotographerEntry(s: Services, data: Value): Value {
    Obj(map["name" := Get(data, "name"), "edition" := s.edition, "email" := Get(data, "email")])
  }

  /** What follows the write of the account: the photographer entry and the
      activation mail, whose code is a token without expiry naming the
      account's id once the store has assigned it. */
  method ConfirmAccount(s: Services, stored: Value, assignedId: Value) returns (out: Outcome)
    requires stored.Obj?
    ensures out.response == Ok(Bool(s.mailSent))
    ensures out.writes == [Save(Accounts, stored), Save("photographers", PhotographerEntry(s, stored))]
    ensures var id := Get(AfterSave(stored, assignedId), "_id");
            var subs := CodeMailSubstitutions(s, Get(stored, "name"), s.encode(Claims(id, None)));
            out.mails == [Mail(Get(stored, "email"), "Activating your account",
                               Templates.Substitute(s.templates(VerifyTemplates[0]), subs),
                               Templates.Substitute(s.templates(VerifyTemplates[1]), subs))]
  {
    var data := AfterSave(stored, assignedId);
    assert Get(data, "name") == Get(stored, "name") && Get(data, "email") == Get(stored, "email");
    var jwt := s.encode(Claims(Get(data, "_id"), None));
    var bodies := Templates.RenderBodies(VerifyTemplates, s.templates, CodeMailSubstitutions(s, Get(data, "name"), jwt));
    out := Outcome(Ok(Bool(s.mailSent)), [Save(Accounts, stored), Save("photographers", PhotographerEntry(s, data))],
                   [Mail(Get(data, "email"), "Activating your account", bodies[0], bodies[1])]);
  }

  /** `saveUser`. `apiKey` is the generated `uniqid` key; `assignedId` is the
      id the store gives a new record (it sets `_id` on `$data` in place). */
  method SaveUser(req: Request, user: Value, superAdmin: bool, s: Services, store: Storage,
                  apiKey: string, assignedId: Value) returns (out: Outcome)
    ensures var data := Param(req, "user", Bool(false));
            SaveUserGuard(data, user, superAdmin, store).Some? ==>
              out == Reply(SaveUserGuard(data, user, superAdmin, store).value)
    ensures var data := Param(req, "user", Bool(false));
            SaveUserGuard(data, user, superAdmin, store).None? ==>
              && out.response == Ok(Bool(s.mailSent))
              && |out.writes| == 2 && out.writes[0].Save? && out.writes[0].collection == Accounts
              && var stored := out.writes[0].doc;
                 var jwt := s.encode(Claims(AccountId(data, assignedId), None));
                 var subs := CodeMailSubstitutions(s, Get(stored, "name"), jwt);
                 && StoredAccount(data, stored, s.now, s.hash, apiKey)
                 && out.writes[1] == Save("photographers", PhotographerEntry(s, stored))
                 && out.mails == [Mail(Get(stored, "email"), "Activating your account",
                                       Templates.Substitute(s.templates(VerifyTemplates[0]), subs),
                                       Templates.Substitute(s.templates(VerifyTemplates[1]), subs))]
  {
    var data := Param(req, "user", Bool(false));
    var guard := SaveUserGuard(data, user, superAdmin, store);
    if guard.Some? {
      return Reply(guard.value);
    }
    if Isset(data, "_id") { NonIndexKey("_id"); } else { NonIndexKey("password"); }
    var record := AccountRecord(data.fields, !Isset(data, "_id"), s.now, s.hash, apiKey);
    var stored := Obj(record);
    StoredAccountId(data, stored, s.now, s.hash, apiKey, assignedId);
    out := ConfirmAccount(s, stored, assignedId);
  }

  /** A key that starts with a letter never addresses an element of a list. */
  lemma NonIndexKey(k: string)
    requires |k| > 0 && !IsDigit(k[0])
    ensures forall items: seq<Value> :: Get(List(items), k) == Null
  {
  }

  // ===========================================================================
  // resetPassword

  const NotRegistered := "This email is not registered in our system!<br/>Please try again!"
  const ResetTemplates: seq<string> := ["reset_password.html", "reset_password_plain.html"]

  method ResetPassword(req: Request, s: Services, store: Storage) returns (out: Outcome)
    ensures out.writes == []
    ensures !Truthy(Param(req, "email", Null)) ==> out == Fail(412, "Missing email")
    ensures Truthy(Param(req, "email", Null)) && !Truthy(FindOne(store.accounts, "email", Param(req, "email", Null))) ==>
              out == Fail(412, NotRegistered)
    ensures var email := Param(req, "email", Null);
            var account := FindOne(store.accounts, "email", email);
            Truthy(email) && Truthy(account) ==>
              && account in store.accounts && Get(account, "email") == email
              && var subs := CodeMailSubstitutions(s, Get(account, "name"), s.encode(ResetClaims(Get(account, "_id"), s.now)));
                 out == Outcome(Ok(Bool(s.mailSent)), [],
                                [Mail(email, "Reset your password",
                                      Templates.Substitute(s.templates(ResetTemplates[0]), subs),
                                      Templates.Substitute(s.templates(ResetTemplates[1]), subs))])
  {
    var email := Param(req, "email", Null);
    if !Truthy(email) {
      return Fail(412, "Missing email");
    }
    var account := FindOne(store.accounts, "email", email);
    if !Truthy(account) {
      return Fail(412, NotRegistered);
    }
    var jwt := s.encode(ResetClaims(Get(account, "_id"), s.now));
    var bodies := Templates.RenderBodies(ResetTemplates, s.templates, CodeMailSubstitutions(s, Get(account, "name"), jwt));
    out := Outcome(Ok(Bool(s.mailSent)), [], [Mail(email, "Reset your password", bodies[0], bodies[1])]);
  }

  // ===========================================================================
  // verifyEmail

  const AccountProblem := "Sorry, there is a problem with your account. Please contact me at guillaume@fiiiirst.com"
  const AlreadyActive := "Thank you, your account is already activated!"

  function VerifyEmail(req: Request, s: Services, store: Storage): (out: Outcome)
    ensures out.mails == []
    ensures !Truthy(Param(req, "jwt", Null)) ==> out == Fail(412, "Missing jwt")
    ensures Truthy(Param(req, "jwt", Null)) ==>
              match s.decode(Param(req, "jwt", Null))
              case None => out == Reply(Thrown)
              case Some(claims) =>
                var account := Owner(store, claims);
                if !Truthy(account) then out == Fail(412, AccountProblem)
                else if Truthy(Get(account, "active")) then out == Reply(Stop(412, Warning(AlreadyActive)))
                else
                  var activated := SetKey(account, "active", Bool(true));
                  out.writes == [Save(Accounts, activated)] && out.response == Ok(StripPassword(activated))
  {
    var jwt := Param(req, "jwt", Null);
    if !Truthy(jwt) then Fail(412, "Missing jwt")
    else match s.decode(jwt)
      case None => Reply(Thrown)
      case Some(claims) =>
        var account := Owner(store, claims);
        if !Truthy(account) then Fail(412, AccountProblem)
        else if Truthy(Get(account, "active")) then Reply(Stop(412, Warning(AlreadyActive)))
        else
          var activated := SetKey(account, "active", Bool(true));
          Outcome(Ok(StripPassword(activated)), [Save(Accounts, activated)], [])
  }

  /** Activation stores the account with `active` set and nothing else
      changed, and answers without the password. */
  lemma VerifyEmailActivates(req: Request, s: Services, store: Storage)
    requires VerifyEmail(req, s, store).writes != []
    requires forall i :: 0 <= i < |store.accounts| ==> IsArray(store.accounts[i])
    ensures var claims := s.decode(Param(req, "jwt", Null)).value;
            var doc := VerifyEmail(req, s, store).writes[0].doc;
            && Get(doc, "active") == Bool(true)
            && (forall k :: k != "active" ==> Get(doc, k) == Get(Owner(store, claims), k))
            && !Isset(VerifyEmail(req, s, store).response.value, "password")
  {
    var claims := s.decode(Param(req, "jwt", Null)).value;
    assert Owner(store, claims) in store.accounts;
  }

  /** Once an account is activated and saved, verifying the same link again
      only answers that the account is already active, and saves nothing. */
  lemma VerifyEmailTwice(req: Request, s: Services, store: Storage)
    requires VerifyEmail(req, s, store).writes != []
    requires forall i :: 0 <= i < |store.accounts| ==> IsArray(store.accounts[i])
    ensures var after := store.(accounts := Upsert(store.accounts, VerifyEmail(req, s, store).writes[0].doc));
            VerifyEmail(req, s, after) == Reply(Stop(412, Warning(AlreadyActive)))
  {
    var claims := s.decode(Param(req, "jwt", Null)).value;
    var account := Owner(store, claims);
    assert account in store.accounts;
    var activated := SetKey(account, "active", Bool(true));
    assert Get(activated, "_id") == claims.whoisit;
    FindOneAfterUpsert(store.accounts, activated);
  }

  // ===========================================================================
  // verifyLostPassLink and savePassword

  const LinkExpired := "Sorry, this link to reset your password has expired.<br/>Please, send a new request to reset."
  const LinkInvalid := "Sorry, this link is not valid.<br/>Please contact me at guillaume@fiiiirst.com"

  function VerifyLostPassLink(req: Request, s: Services, store: Storage): (out: Outcome)
    ensures out.writes == [] && out.mails == []
    ensures !Truthy(Param(req, "code", Null)) ==> out.response == Stop(412, Error("Missing JWT"))
    ensures Truthy(Param(req, "code", Null)) ==>
              match s.decode(Param(req, "code", Null))
              case None => out.response == Thrown
              case Some(claims) =>
                if Expired(claims, s.now) then out.response == Stop(401, Error(LinkExpired))
                else if !Truthy(Owner(store, claims)) then out.response == Stop(412, Error(LinkInvalid))
                else out.response.Ok? && (IsArray(Owner(store, claims)) ==> IsArray(out.response.value)) &&
                     !Isset(out.response.value, "password") && !Isset(out.response.value, "api_key") &&
                     forall k :: k != "password" && k != "api_key" ==>
                       Get(out.response.value, k) == Get(Owner(store, claims), k)
  {
    var code := Param(req, "code", Null);
    if !Truthy(code) then Fail(412, "Missing JWT")
    else match s.decode(code)
      case None => Reply(Thrown)
      case Some(claims) =>
        if Expired(claims, s.now) then Fail(401, LinkExpired)
        else
          var account := Owner(store, claims);
          if !Truthy(account) then Fail(412, LinkInvalid)
          else Reply(Ok(StripSecrets(account)))
  }

  const PasswordAccountProblem := "Sorry, there is a problem with your account.<br/>Please contact me at guillaume@fiiiirst.com"

  function SavePassword(req: Request, s: Services, store: Storage): (out: Outcome)
    ensures out.mails == []
    ensures out.response.Stop? || out.response.Thrown? <==> out.writes == []
    ensures !Truthy(Param(req, "password", Null)) || !Truthy(Param(req, "jwt", Null)) ==>
              out == Fail(412, "Missing parameters")
    ensures Truthy(Param(req, "password", Null)) && Truthy(Param(req, "jwt", Null)) ==>
              match s.decode(Param(req, "jwt", Null))
              case None => out == Reply(Thrown)
              case Some(claims) =>
                if !Truthy(Owner(store, claims)) then out == Fail(412, PasswordAccountProblem)
                else out.writes != []
    ensures out.writes != [] ==>
              s.decode(Param(req, "jwt", Null)).Some? &&
              var claims := s.decode(Param(req, "jwt", Null)).value;
              var updated := SetKey(Owner(store, claims), "password", Str(s.hash(ToStr(Param(req, "password", Null)))));
              && Truthy(Owner(store, claims))
              && out.writes == [Save(Accounts, updated)]
              && out.response == Ok(StripSecrets(updated))
  {
    var password := Param(req, "password", Null);
    var jwt := Param(req, "jwt", Null);
    if !Truthy(password) || !Truthy(jwt) then Fail(412, "Missing parameters")
    else match s.decode(jwt)
      case None => Reply(Thrown)
      case Some(claims) =>
        var account := Owner(store, claims);
        if !Truthy(account) then Fail(412, PasswordAccountProblem)
        else
          var updated := SetKey(account, "password", Str(s.hash(ToStr(password))));
          Outcome(Ok(StripSecrets(updated)), [Save(Accounts, updated)], [])
  }

  /** `savePassword` never looks at the token's expiry: a decodable token
      naming an existing account changes its password, however old it is. */
  lemma SavePasswordIgnoresExpiry(req: Request, s: Services, store: Storage, claims: Claims)
    requires Truthy(Param(req, "password", Null)) && Truthy(Param(req, "jwt", Null))
    requires s.decode(Param(req, "jwt", Null)) == Some(claims) && Truthy(Owner(store, claims))
    requires forall i :: 0 <= i < |store.accounts| ==> IsArray(store.accounts[i])
    ensures SavePassword(req, s, store).writes != []
    ensures Get(SavePassword(req, s, store).writes[0].doc, "password") == Str(s.hash(ToStr(Param(req, "password", Null))))
  {
    assert Owner(store, claims) in store.accounts;
  }

  /** `savePassword` with the expiry check `verifyLostPassLink` makes: a
      token past its expiry is refused like an expired reset link. */
  function SavePasswordChecked(req: Request, s: Services, store: Storage): (out: Outcome)
    ensures out.mails == []
    ensures out.response.Stop? || out.response.Thrown? <==> out.writes == []
    ensures Truthy(Param(req, "password", Null)) && Truthy(Param(req, "jwt", Null)) &&
            s.decode(Param(req, "jwt", Null)).Some? && Expired(s.decode(Param(req, "jwt", Null)).value, s.now) ==>
              out == Fail(401, LinkExpired)
    ensures out.writes != [] ==> out == SavePassword(req, s, store)
    ensures !Truthy(Param(req, "password", Null)) || !Truthy(Param(req, "jwt", Null)) ==>
              out == Fail(412, "Missing parameters")
    ensures Truthy(Param(req, "password", Null)) && Truthy(Param(req, "jwt", Null)) ==>
              match s.decode(Param(req, "jwt", Null))
              case None => out == Reply(Thrown)
              case Some(claims) => !Expired(claims, s.now) ==> out == SavePassword(req, s, store)
  {
    var password := Param(req, "password", Null);
    var jwt := Param(req, "jwt", Null);
    if !Truthy(password) || !Truthy(jwt) then Fail(412, "Missing parameters")
    else match s.decode(jwt)
      case None => Reply(Thrown)
      case Some(claims) =>
        if Expired(claims, s.now) then Fail(401, LinkExpired)
        else SavePassword(req, s, store)
  }

  /** With the check, a reset link accepted by `verifyLostPassLink` is the
      only kind that changes a password: every write comes from a token that
      has not expired, and every request `verifyLostPassLink` rejects as
      expired is rejected here too. */
  lemma SavePasswordCheckedHonoursExpiry(req: Request, s: Services, store: Storage)
    requires SavePasswordChecked(req, s, store).writes != []
    ensures s.decode(Param(req, "jwt", Null)).Some?
    ensures !Expired(s.decode(Param(req, "jwt", Null)).value, s.now)
  {
  }

  /** The input that shows the missing check: a reset token issued two hours
      ago, which `verifyLostPassLink` refuses, still sets the password. */
  lemma SavePasswordAcceptsExpiredReset(req: Request, s: Services, store: Storage, id: Value)
    requires Truthy(Param(req, "password", Null)) && Truthy(Param(req, "jwt", Null))
    requires s.decode(Param(req, "jwt", Null)) == Some(ResetClaims(id, s.now - 7200))
    requires forall i :: 0 <= i < |store.accounts| ==> IsArray(store.accounts[i])
    requires Truthy(Owner(store, ResetClaims(id, s.now - 7200)))
    ensures Expired(ResetClaims(id, s.now - 7200), s.now)
    ensures SavePassword(req, s, store).writes != []
    ensures SavePasswordChecked(req, s, store) == Fail(401, LinkExpired)
  {
    SavePasswordIgnoresExpiry(req, s, store, ResetClaims(id, s.now - 7200));
  }

  // ===========================================================================
  // listUsers

  /** The `$regex` clause on one account field. */
  function RegexOn(field: string, pattern: Value): Value {
    Obj(map[field := Obj(map["$regex" := pattern])])
  }

  /** The options of `listUsers`: sorted by login name, with a string filter
      searched in name, login name and email. */
  function ListUsersOptions(req: Request): (options: map<string, Value>)
    ensures "sort" in options && options["sort"] == Obj(map["user" := Num(1)])
    ensures "filter" in options <==> Truthy(Param(req, "filter", Null))
    ensures options.Keys <= {"sort", "filter"}
    ensures "filter" in options && Param(req, "filter", Null).Str? ==>
              options["filter"] == Obj(map["$or" := List([RegexOn("name", Param(req, "filter", Null)),
                                                          RegexOn("user", Param(req, "filter", Null)),
                                                          RegexOn("email", Param(req, "filter", Null))])])
    ensures "filter" in options && !Param(req, "filter", Null).Str? ==> options["filter"] == Param(req, "filter", Null)
  {
    var options := map["sort" := Obj(map["user" := Num(1)])];
    var filter := Param(req, "filter", Null);
    if !Truthy(filter) then options
    else if filter.Str? then
      options["filter" := Obj(map["$or" := List([RegexOn("name", filter), RegexOn("user", filter), RegexOn("email", filter)])])]
    else options["filter" := filter]
  }

  /** `listUsers`: the accounts found, each without its password. */
  method ListUsers(req: Request, store: Storage) returns (out: Outcome)
    ensures out.writes == [] && out.mails == []
    ensures var found := store.findAccounts(ListUsersOptions(req));
            && out.response.Ok? && out.response.value.List?
            && |out.response.value.items| == |found|
            && forall i :: 0 <= i < |found| ==>
                 var a := out.response.value.items[i];
                 && (IsArray(found[i]) ==> a.Obj? && !Isset(a, "password"))
                 && (!IsArray(found[i]) ==> a == found[i])
                 && forall k :: k != "password" ==> Get(a, k) == Get(found[i], k)
  {
    var accounts := store.findAccounts(ListUsersOptions(req));
    var result := accounts;
    for i := 0 to |accounts|
      invariant |result| == |accounts|
      invariant forall j :: 0 <= j < i ==> result[j] == Unset(accounts[j], "password")
      invariant forall j :: i <= j < |accounts| ==> result[j] == accounts[j]
    {
      result := result[i := Unset(result[i], "password")];
    }
    out := Reply(Ok(List(result)));
  }

  // ===========================================================================
  // image

  const ImageFilters: seq<string> := [
    "blur", "brighten", "colorize", "contrast", "darken", "desaturate", "edge detect",
    "emboss", "flip", "invert", "opacity", "pixelate", "sepia", "sharpen", "sketch"]

  /** The options `image` sets from its short parameters, with their
      defaults. */
  function BaseImageOptions(req: Request): map<string, Value> {
    map[
      "src" := Param(req, "src", Bool(false)),
      "mode" := Param(req, "m", Str("thumbnail")),
      "width" := Num(IntVal(Param(req, "w", Null))),
      "height" := Num(IntVal(Param(req, "h", Null))),
      "quality" := Num(IntVal(Param(req, "q", Num(100)))),
      "rebuild" := Num(IntVal(Param(req, "r", Bool(false)))),
      "base64" := Num(IntVal(Param(req, "b64", Bool(false)))),
      "output" := Num(IntVal(Param(req, "o", Bool(false)))),
      "domain" := Num(IntVal(Param(req, "d", Bool(false))))]
  }

  /** Without parameters the thumbnail is in `thumbnail` mode at quality 100,
      sized 0 by 0, with no source and every flag off. */
  lemma ImageDefaults(req: Request)
    requires req.params == map[]
    ensures BaseImageOptions(req) == map[
      "src" := Bool(false), "mode" := Str("thumbnail"), "width" := Num(0), "height" := Num(0),
      "quality" := Num(100), "rebuild" := Num(0), "base64" := Num(0), "output" := Num(0), "domain" := Num(0)]
  {
  }

  /** The base options with the filters in `filters` added, one after the
      other, each only when its parameter is truthy. */
  function AddFilters(req: Request, base: map<string, Value>, filters: seq<string>): map<string, Value>
    decreases |filters|
  {
    if filters == [] then base
    else
      var options := AddFilters(req, base, filters[..|filters| - 1]);
      var f := filters[|filters| - 1];
      if Truthy(Param(req, f, Null)) then options[f := Param(req, f, Null)] else options
  }

  /** A key is an option exactly when it is a base option or a listed filter
      whose parameter is truthy; a listed filter carries its parameter, and a
      base option that is not a filter name keeps its value. */
  lemma {:induction false} AddFiltersSpec(req: Request, base: map<string, Value>, filters: seq<string>, k: string)
    ensures k in AddFilters(req, base, filters) <==> k in base || (k in filters && Truthy(Param(req, k, Null)))
    ensures k in filters && Truthy(Param(req, k, Null)) ==> AddFilters(req, base, filters)[k] == Param(req, k, Null)
    ensures k in base && k !in filters ==> AddFilters(req, base, filters)[k] == base[k]
    decreases |filters|
  {
    if filters != [] {
      var init := filters[..|filters| - 1];
      AddFiltersSpec(req, base, init, k);
      assert filters == init + [filters[|filters| - 1]];
    }
  }

  /** The names of the base options. */
  lemma BaseImageKeys(req: Request)
    ensures BaseImageOptions(req).Keys == {"src", "mode", "width", "height", "quality", "rebuild", "base64", "output", "domain"}
  {
  }

  /** No image filter is named like a base option. */
  lemma FilterNamesAreNotBase(k: string)
    requires k in ImageFilters
    ensures k != "src" && k != "mode" && k != "width" && k != "height" && k != "quality"
    ensures k != "rebuild" && k != "base64" && k != "output" && k != "domain"
  {
  }

  /** The options `image` hands to the thumbnailer. */
  method ImageOptions(req: Request) returns (options: map<string, Value>)
    ensures options == AddFilters(req, BaseImageOptions(req), ImageFilters)
  {
    options := BaseImageOptions(req);
    for i := 0 to |ImageFilters|
      invariant options == AddFilters(req, BaseImageOptions(req), ImageFilters[..i])
    {
      var f := ImageFilters[i];
      assert ImageFilters[..i + 1][..i] == ImageFilters[..i];
      if Truthy(Param(req, f, Null)) {
        options := options[f := Param(req, f, Null)];
      }
    }
    assert ImageFilters[..|ImageFilters|] == ImageFilters;
  }

  /** What the thumbnailer receives: every base option with its value, and
      every image filter whose parameter is truthy, with that parameter. */
  lemma ImageOptionsContents(req: Request, k: string)
    ensures var options := AddFilters(req, BaseImageOptions(req), ImageFilters);
            && (k in options <==> k in BaseImageOptions(req) || (k in ImageFilters && Truthy(Param(req, k, Null))))
            && (k in options && k in ImageFilters ==> options[k] == Param(req, k, Null))
            && (k in BaseImageOptions(req) ==> options[k] == BaseImageOptions(req)[k])
  {
    var base := BaseImageOptions(req);
    AddFiltersSpec(req, base, ImageFilters, k);
    BaseImageKeys(req);
    assert k in base ==> k !in ImageFilters by {
      if k in ImageFilters {
        FilterNamesAreNotBase(k);
      }
    }
  }

  // ===========================================================================
  // assets

  /** `key` is an option exactly when its parameter is truthy, and then it
      is that parameter. */
  predicate CopiedWhenTruthy(req: Request, options: map<string, Value>, key: string) {
    && (key in options <==> Truthy(Param(req, key, Null)))
    && (key in options ==> options[key] == Param(req, key, Null))
  }

  /** The options of `assets`: newest first unless a sort is given, and each
      of filter, fields, limit, sort and skip copied when truthy. */
  function AssetsOptions(req: Request): (options: map<string, Value>)
    ensures "sort" in options
    ensures Truthy(Param(req, "sort", Null)) ==> options["sort"] == Param(req, "sort", Null)
    ensures !Truthy(Param(req, "sort", Null)) ==> options["sort"] == Obj(map["created" := Num(-1)])
    ensures CopiedWhenTruthy(req, options, "filter") && CopiedWhenTruthy(req, options, "fields")
    ensures CopiedWhenTruthy(req, options, "limit") && CopiedWhenTruthy(req, options, "skip")
    ensures forall k :: k in options ==> k == "filter" || k == "fields" || k == "limit" || k == "sort" || k == "skip"
  {
    var o := map["sort" := Obj(map["created" := Num(-1)])];
    CopyIfTruthy(req, CopyIfTruthy(req, CopyIfTruthy(req, CopyIfTruthy(req, CopyIfTruthy(req, o,
      "filter"), "fields"), "limit"), "sort"), "skip")
  }

  /** `if ($v = $this->param($key, null)) $options[$key] = $v;` */
  function CopyIfTruthy(req: Request, options: map<string, Value>, key: string): (r: map<string, Value>)
    ensures Truthy(Param(req, key, Null)) ==> key in r && r[key] == Param(req, key, Null)
    ensures !Truthy(Param(req, key, Null)) ==> r == options
    ensures forall k :: k != key ==> (k in r <==> k in options) && (k in r ==> r[k] == options[k])
  {
    if Truthy(Param(req, key, Null)) then options[key := Param(req, key, Null)] else options
  }

  /** `assets`: the page of assets and its `total`, the page length when
      neither skip nor limit is given and otherwise the count of the raw
      filter. */
  function Assets(req: Request, store: Storage): (out: Outcome)
    ensures out.writes == [] && out.mails == []
    ensures var found := store.findAssets(AssetsOptions(req));
            var paged := Truthy(Param(req, "skip", Null)) || Truthy(Param(req, "limit", Null));
            out.response == Ok(Obj(map[
              "assets" := List(found),
              "total" := Num(if paged then store.countAssets(Param(req, "filter", Null)) else |found|)]))
  {
    var found := store.findAssets(AssetsOptions(req));
    var total := PageTotal(Param(req, "skip", Null), Param(req, "limit", Null), |found|,
                           store.countAssets(Param(req, "filter", Null)));
    Reply(Ok(Obj(map["assets" := List(found), "total" := Num(total)])))
  }
}
