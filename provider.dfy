/** The identity-provider configuration (src/provider.js): the account lookup
    and its claims callback, the URL of an interaction, the issuer and the
    lifetimes of the provider's artefacts. */
module Provider {
  import opened Common
  import opened Json
  import opened Onche

  // ---------------------------------------------------------------------
  // findAccount and claims

  /** What `findAccount(ctx, id)` returns; its `claims` method is `Claims`. */
  datatype Account = Account(accountId: string)

  function FindAccount(id: string): (a: Account)
    ensures a.accountId == id
  {
    Account(id)
  }

  /** The keys of the object `getProfile` resolves to. */
  const ProfileKeys: set<string> := {"username", "level", "signup_date", "last_login_date", "msg_count"}

  /** The profile record as the JavaScript object it is spread from. */
  function ProfileObject(p: Profile): (o: map<string, Json>)
    ensures o.Keys == ProfileKeys
    ensures forall k :: k in o ==> o[k].JStr?
    ensures o["username"] == JStr(p.username) && o["level"] == JStr(p.level) &&
      o["signup_date"] == JStr(p.signupDate) && o["last_login_date"] == JStr(p.lastLoginDate) &&
      o["msg_count"] == JStr(p.msgCount)
  {
    map["username" := JStr(p.username), "level" := JStr(p.level), "signup_date" := JStr(p.signupDate),
        "last_login_date" := JStr(p.lastLoginDate), "msg_count" := JStr(p.msgCount)]
  }

  /** `{sub: id, ...obj}`: the keys of `obj` laid over `sub`. */
  function SubSpread(id: string, obj: map<string, Json>): (c: map<string, Json>)
    ensures c.Keys == obj.Keys + {"sub"}
    ensures forall k :: k in obj ==> c[k] == obj[k]
    ensures "sub" !in obj ==> c["sub"] == JStr(id)
  {
    map["sub" := JStr(id)] + obj
  }

  /** `account.claims(use, scope)` with the profile lookup's answer as input
      (`getProfile(id) || {}`): `sub` is the account id, and the profile's
      fields, when there is a profile, come along unchanged. */
  function Claims(id: string, profile: Option<Profile>): (c: map<string, Json>)
    ensures profile.None? ==> c == map["sub" := JStr(id)]
    ensures profile.Some? ==> c.Keys == ProfileKeys + {"sub"}
    ensures c["sub"] == JStr(id)
    ensures profile.Some? ==> forall k :: k in ProfileKeys ==> c[k] == ProfileObject(profile.value)[k]
  {
    SubSpread(id, if profile.Some? then ProfileObject(profile.value) else map[])
  }

  /** An object that has its own `sub` wins over the account id. */
  lemma SpreadOverridesSub(id: string, obj: map<string, Json>)
    requires "sub" in obj
    ensures SubSpread(id, obj)["sub"] == obj["sub"]
  {
  }

  /** `account.claims(use, scope)` as written: the module never imports the
      `onche` namespace it calls, so the callback rejects with a
      `ReferenceError` before any lookup. */
  function ClaimsAsWritten(id: string, profile: Option<Profile>): Result<map<string, Json>, string>
  {
    Err("onche is not defined")
  }

  /** Every account's claims request fails as written, while the corrected
      callback always releases at least `sub`. */
  lemma ClaimsAsWrittenRejects(id: string, profile: Option<Profile>)
    ensures ClaimsAsWritten(id, profile).Err?
    ensures "sub" in Claims(id, profile) && Claims(id, profile)["sub"] == JStr(id)
  {
  }

  // ---------------------------------------------------------------------
  // interactions.url

  const InteractionPrefix := "/interaction/"

  function InteractionUrl(uid: string): string
  {
    InteractionPrefix + uid
  }

  /** The `:uid` that the route `/interaction/:uid` takes out of a path: a
      non-empty segment without `/`. */
  function RouteUid(path: string): (uid: Option<string>)
    ensures uid.Some? ==> uid.value != "" && '/' !in uid.value && path == InteractionPrefix + uid.value
  {
    var n := |InteractionPrefix|;
    if |path| > n && path[..n] == InteractionPrefix && '/' !in path[n..] then Some(path[n..]) else None
  }

  /** The URL of an interaction leads back to that interaction's route exactly
      when its uid is a non-empty segment without `/`. */
  lemma InteractionRoute(uid: string)
    ensures RouteUid(InteractionUrl(uid)) == Some(uid) <==> uid != "" && '/' !in uid
  {
    var p := InteractionUrl(uid);
    assert p[..|InteractionPrefix|] == InteractionPrefix;
    assert p[|InteractionPrefix|..] == uid;
  }

  // ---------------------------------------------------------------------
  // The issuer and the ttl table

  const DefaultIssuer := "http://localhost:3000"

  /** `process.env.OIDC_ISSUER || 'http://localhost:3000'`. */
  function Issuer(env: Option<string>): (issuer: string)
    ensures Truthy(env) ==> issuer == env.value
    ensures !Truthy(env) ==> issuer == DefaultIssuer
  {
    if Truthy(env) then env.value else DefaultIssuer
  }

  datatype Artefact = AccessToken | AuthorizationCode | IdToken | RefreshToken | Interaction

  /** The configured lifetime of each artefact, in seconds. */
  function Ttl(a: Artefact): nat
  {
    match a
    case AccessToken => 3600
    case AuthorizationCode => 600
    case IdToken => 3600
    case RefreshToken => 86400
    case Interaction => 300
  }
}
