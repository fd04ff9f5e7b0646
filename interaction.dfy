/** The interaction routes of the login flow (src/index.js): the form
    selection, the PIN send, the PIN check and the consent step.

    What the identity-provider library reports (`interactionDetails`) and
    whether it throws are inputs; so is whether `interactionFinished` throws.
    Every response is described by what it renders or sends, with the result
    object handed to `interactionFinished` and its merge flag. */
module Interaction {
  import opened Common
  import opened Text
  import opened Json
  import opened Onche
  import opened Pin
  import Provider

  /** The parts of `provider.interactionDetails(req, res)` the routes read. */
  datatype Details = Details(uid: string, promptName: string, clientId: Option<string>,
                             accountId: Option<string>, grantId: Option<string>)

  /** The rendered EJS views. */
  datatype View =
    | LoginForm(uid: string)
    | ConsentForm(uid: string)
    | OtpForm(uid: string, username: Option<string>, session: string, error: Option<string>)

  /** The result object given to `interactionFinished`. */
  datatype Finish = LoginFinish(accountId: Option<string>) | ConsentFinish(grantId: string)

  datatype Response =
    | Render(view: View)
    | PassOn(error: string)
    | JsonError(success: Option<bool>, error: string)
    | TextError(body: string)
    | Finished(result: Finish, mergeWithLastSubmission: bool)

  // ---------------------------------------------------------------------
  // GET /interaction/:uid

  /** The form selection: the login form exactly for the `login` prompt, the
      consent form for every other prompt; a failed lookup goes to `next`. */
  function FormStep(details: Result<Details, string>): (r: Response)
    ensures details.Err? ==> r == PassOn(details.error)
    ensures details.Ok? ==> (r == Render(LoginForm(details.value.uid)) <==> details.value.promptName == "login")
    ensures details.Ok? ==> (r == Render(ConsentForm(details.value.uid)) <==> details.value.promptName != "login")
  {
    if details.Err? then PassOn(details.error)
    else if details.value.promptName == "login" then Render(LoginForm(details.value.uid))
    else Render(ConsentForm(details.value.uid))
  }

  // ---------------------------------------------------------------------
  // POST /interaction/:uid/username

  const SendFailure := "Failed to send PIN"

  /** The response once `sendPin` has answered: the OTP form showing the
      session token, or the 500 reply. */
  function UsernameResponse(uid: string, username: Option<string>, sent: Result<string, SendError>): (r: Response)
    ensures r.Render? <==> sent.Ok?
    ensures sent.Ok? ==> r == Render(OtpForm(uid, username, sent.value, None))
    ensures sent.Err? ==> r == JsonError(None, SendFailure)
  {
    if sent.Ok? then Render(OtpForm(uid, username, sent.value, None)) else JsonError(None, SendFailure)
  }

  /** The PIN-send route. An absent `username` field reaches `sendPin` as
      `undefined` and is printed as such in the key, the profile URL and
      the chat lookup. */
  method PostUsername(svc: PinService, details: Result<Details, string>, paramUid: string, username: Option<string>,
                      now: int, d: Draws, net: Network) returns (resp: Response)
    requires DrawsInRange(d) && NetworkShaped(net)
    modifies svc, svc.upstream
    ensures details.Err? ==>
      resp == JsonError(None, SendFailure) && svc.store == old(svc.store) &&
      svc.upstream.cookie == old(svc.upstream.cookie) && svc.upstream.sent == old(svc.upstream.sent)
    ensures details.Ok? ==>
      var run := SendPinRun(svc.upstream.creds, old(svc.upstream.cookie), old(svc.store), Show(username), paramUid, now, d, net, ProfileScraped(net.scrape));
      resp == UsernameResponse(details.value.uid, username, run.result) &&
      svc.store == run.store && svc.upstream.cookie == run.cookie && svc.upstream.sent == old(svc.upstream.sent) + run.requests
  {
    if details.Err? {
      return JsonError(None, SendFailure);
    }
    var sent := svc.SendPin(Show(username), paramUid, now, d, net);
    resp := UsernameResponse(details.value.uid, username, sent);
  }

  // ---------------------------------------------------------------------
  // POST /interaction/:uid/verify

  /** `${pin1}${pin2}${pin3}${pin4}${pin5}${pin6}`, an absent field printing
      as `undefined`. */
  function SubmittedPin(p1: Option<string>, p2: Option<string>, p3: Option<string>,
                        p4: Option<string>, p5: Option<string>, p6: Option<string>): string
  {
    Show(p1) + Show(p2) + Show(p3) + Show(p4) + Show(p5) + Show(p6)
  }

  /** The six one-digit fields, in order, give back the PIN they were typed
      from. */
  lemma SubmittedPinJoins(pin: string)
    requires |pin| == 6
    ensures SubmittedPin(Some(pin[0..1]), Some(pin[1..2]), Some(pin[2..3]), Some(pin[3..4]), Some(pin[4..5]), Some(pin[5..6])) == pin
  {
    assert pin == pin[0..1] + pin[1..2] + pin[2..3] + pin[3..4] + pin[4..5] + pin[5..6];
  }

  /** A submission with an absent field is never a minted PIN. */
  lemma SubmittedPinMissingField(p1: Option<string>, p2: Option<string>, p3: Option<string>,
                                 p4: Option<string>, p5: Option<string>, p6: Option<string>, draw: int)
    requires 0 <= draw < PinSpan
    requires p1.None? || p2.None? || p3.None? || p4.None? || p5.None? || p6.None?
    ensures SubmittedPin(p1, p2, p3, p4, p5, p6) != PinCode(draw)
  {
    assert |SubmittedPin(p1, p2, p3, p4, p5, p6)| >= |"undefined"|;
  }

  const MaskedSession := "******"
  const PinRejected := "PIN invalide"

  /** The response once `verifyPin` has answered, as intended: a wrong PIN
      re-renders the OTP form with the session masked; a right one finishes
      the interaction with the user as the account, without merging; an
      exception from `interactionFinished` becomes the 500 reply carrying its
      message. */
  function VerifyResponse(uid: string, username: Option<string>, valid: bool, finishError: Option<string>): (r: Response)
    ensures r.Finished? <==> valid && finishError.None?
    ensures r.Finished? ==> r == Finished(LoginFinish(username), false)
    ensures !valid ==> r == Render(OtpForm(uid, username, MaskedSession, Some(PinRejected)))
    ensures valid && finishError.Some? ==> r == JsonError(Some(false), finishError.value)
  {
    if !valid then Render(OtpForm(uid, username, MaskedSession, Some(PinRejected)))
    else if finishError.Some? then JsonError(Some(false), finishError.value)
    else Finished(LoginFinish(username), false)
  }

  /** The same response as written: the re-render names a `uid` that the
      handler never declares, so a wrong PIN ends in the 500 reply. */
  function VerifyResponseAsWritten(username: Option<string>, valid: bool, finishError: Option<string>): Response
  {
    if !valid then JsonError(Some(false), "uid is not defined")
    else if finishError.Some? then JsonError(Some(false), finishError.value)
    else Finished(LoginFinish(username), false)
  }

  /** The input that shows it: every wrong PIN is answered with a 500 instead
      of the OTP form; right PINs are answered the same either way. */
  lemma VerifyAsWrittenRejectsWith500(uid: string, username: Option<string>, valid: bool, finishError: Option<string>)
    ensures !valid ==> VerifyResponseAsWritten(username, valid, finishError) == JsonError(Some(false), "uid is not defined")
    ensures !valid ==> VerifyResponse(uid, username, valid, finishError).Render?
    ensures valid ==> VerifyResponseAsWritten(username, valid, finishError) == VerifyResponse(uid, username, valid, finishError)
  {
  }

  /** The PIN-check route, with the corrected re-render. */
  method PostVerify(svc: PinService, details: Result<Details, string>, paramUid: string, username: Option<string>,
                    p1: Option<string>, p2: Option<string>, p3: Option<string>,
                    p4: Option<string>, p5: Option<string>, p6: Option<string>,
                    now: int, finishError: Option<string>) returns (resp: Response)
    modifies svc`store
    ensures details.Err? ==> resp == JsonError(Some(false), details.error) && svc.store == old(svc.store)
    ensures details.Ok? ==>
      var (valid, after) := VerifyRun(old(svc.store), Key(Show(username), paramUid), SubmittedPin(p1, p2, p3, p4, p5, p6), now);
      svc.store == after && resp == VerifyResponse(details.value.uid, username, valid, finishError)
  {
    if details.Err? {
      return JsonError(Some(false), details.error);
    }
    var pin := SubmittedPin(p1, p2, p3, p4, p5, p6);
    var valid := svc.VerifyPin(Show(username), paramUid, pin, now);
    resp := VerifyResponse(details.value.uid, username, valid, finishError);
  }

  // ---------------------------------------------------------------------
  // GET /interaction/:uid/consent

  /** A grant as far as the route touches it. */
  datatype Grant = Grant(accountId: string, clientId: Option<string>, scopes: set<string>, claims: set<string>)

  const ConsentScope := "openid profile"
  const ConsentClaims := ["sub", "id", "name", "picture", "onche_level", "onche_signup_date", "onche_last_login_date", "onche_msg_count"]
  const ConsentFailure := "Oops! Something went wrong"

  /** `new provider.Grant({accountId, clientId})`. */
  function NewGrant(accountId: string, clientId: Option<string>): Grant
  {
    Grant(accountId, clientId, {}, {})
  }

  /** The scopes named by a space-separated scope string. */
  function ScopeSet(scope: string): set<string>
  {
    set s | s in Split(scope, ' ')
  }

  /** The claims named by a claim list. */
  function ClaimSet(claims: seq<string>): set<string>
  {
    set c | c in claims
  }

  /** `grant.addOIDCScope(scope)`: every space-separated scope is granted. */
  function AddOidcScope(g: Grant, scope: string): (g': Grant)
    ensures g'.scopes == g.scopes + ScopeSet(scope)
    ensures g'.accountId == g.accountId && g'.clientId == g.clientId && g'.claims == g.claims
  {
    g.(scopes := g.scopes + ScopeSet(scope))
  }

  /** `grant.addOIDCClaims(claims)`: every listed claim is granted. */
  function AddOidcClaims(g: Grant, claims: seq<string>): (g': Grant)
    ensures g'.claims == g.claims + ClaimSet(claims)
    ensures g'.accountId == g.accountId && g'.clientId == g.clientId && g'.scopes == g.scopes
  {
    g.(claims := g.claims + ClaimSet(claims))
  }

  /** The consent scope is exactly `openid` and `profile`. */
  lemma ConsentScopes()
    ensures ScopeSet(ConsentScope) == {"openid", "profile"}
  {
    var parts := ["openid", "profile"];
    assert ' ' !in parts[0] && ' ' !in parts[1];
    assert Join(parts, ' ') == ConsentScope;
    SplitJoin(parts, ' ');
  }

  /** The grants kept by the provider, by id. */
  class GrantStore {
    var grants: map<string, Grant>

    constructor (grants: map<string, Grant>)
      ensures this.grants == grants
    {
      this.grants := grants;
    }

    /** `provider.Grant.find(id)`; an `undefined` id finds nothing. */
    method Find(id: Option<string>) returns (g: Option<Grant>)
      ensures g.Some? <==> id.Some? && id.value in grants
      ensures g.Some? ==> g.value == grants[id.value]
    {
      if id.Some? && id.value in grants { g := Some(grants[id.value]); } else { g := None; }
    }

    /** `grant.save()` under `id`. */
    method Save(id: string, g: Grant)
      modifies this
      ensures grants == old(grants)[id := g]
    {
      grants := grants[id := g];
    }
  }

  /** The grant the consent step saves, and the id it is saved under: the
      found grant keeps its id, a new grant gets `freshId`, an id the provider
      has not used yet. Either way it ends with the consent scope and the
      eight consent claims added. */
  function ConsentGrant(grants: map<string, Grant>, d: Details, accountId: string, freshId: string): (r: (string, Grant))
    requires freshId !in grants
    ensures (r.0 in grants) <==> d.grantId.Some? && d.grantId.value in grants
    ensures ConsentClaims[0] in r.1.claims && forall c :: c in ConsentClaims ==> c in r.1.claims
    ensures d.grantId.Some? && d.grantId.value in grants ==>
      var g := grants[d.grantId.value];
      r.0 == d.grantId.value && r.1.accountId == g.accountId && r.1.clientId == g.clientId &&
      r.1.scopes == g.scopes + {"openid", "profile"} && r.1.claims == g.claims + ClaimSet(ConsentClaims)
    ensures !(d.grantId.Some? && d.grantId.value in grants) ==>
      r == (freshId, Grant(accountId, d.clientId, {"openid", "profile"}, ClaimSet(ConsentClaims)))
  {
    ConsentScopes();
    var found := d.grantId.Some? && d.grantId.value in grants;
    var g := if found then grants[d.grantId.value] else NewGrant(accountId, d.clientId);
    var g' := AddOidcClaims(AddOidcScope(g, ConsentScope), ConsentClaims);
    assert !found ==> g'.scopes == {"openid", "profile"} && g'.claims == ClaimSet(ConsentClaims);
    (if found then d.grantId.value else freshId, g')
  }

  /** The consent route: with no logged-in account nothing is looked up or
      saved and the 500 text is sent; otherwise the grant is found or made,
      extended, saved, and the interaction finishes with its id, merging with
      the last submission. A new grant never replaces a saved one. */
  method Consent(store: GrantStore, details: Result<Details, string>, freshId: string, finishError: Option<string>)
    returns (resp: Response)
    requires freshId !in store.grants
    modifies store
    ensures details.Err? || !Truthy(details.value.accountId) ==>
      resp == TextError(ConsentFailure) && store.grants == old(store.grants)
    ensures details.Ok? && Truthy(details.value.accountId) ==>
      var (id, g) := ConsentGrant(old(store.grants), details.value, details.value.accountId.value, freshId);
      store.grants == old(store.grants)[id := g] &&
      resp == if finishError.None? then Finished(ConsentFinish(id), true) else TextError(ConsentFailure)
  {
    if details.Err? {
      return TextError(ConsentFailure);
    }
    var d := details.value;
    if !Truthy(d.accountId) {
      return TextError(ConsentFailure);
    }
    var accountId := d.accountId.value;
    var found := store.Find(d.grantId);
    var grant: Grant;
    if found.None? {
      grant := NewGrant(accountId, d.clientId);
    } else {
      grant := found.value;
    }
    grant := AddOidcScope(grant, ConsentScope);
    grant := AddOidcClaims(grant, ConsentClaims);
    var grantId := if found.Some? then d.grantId.value else freshId;
    ConsentScopes();
    store.Save(grantId, grant);
    if finishError.Some? {
      return TextError(ConsentFailure);
    }
    return Finished(ConsentFinish(grantId), true);
  }

  /** The claims released for an account and the claims the consent step
      grants share only `sub`: the profile fields are released under names
      (`username`, `level`, ...) that are not among the granted ones. */
  lemma GrantedAndReleasedClaims(id: string, p: Profile)
    ensures (ClaimSet(ConsentClaims)) * Provider.Claims(id, Some(p)).Keys == {"sub"}
  {
    var granted := ClaimSet(ConsentClaims);
    var released := Provider.Claims(id, Some(p)).Keys;
    assert released == Provider.ProfileKeys + {"sub"};
    forall k | k in granted * released ensures k == "sub" {
      assert k in ConsentClaims;
    }
    assert "sub" in granted by { assert ConsentClaims[0] == "sub"; }
  }
}
