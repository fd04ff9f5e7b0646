/** The upstream client (src/onche.js): a session cookie held between calls,
    the scripted login that refreshes it, the bounded fetch-and-relogin retry
    used for the chat page and the profile page, and the two chat endpoints.

    The network is an oracle: every fetch the client makes is recorded as a
    `Request` in `sent`, and what the fetch produced is an input (`Reply` for
    HTML pages, `JsonReply` for the JSON endpoints). A reply of `Threw`
    stands for any exception on that step (a network failure, or a body that
    cannot be read or parsed). */
module Onche {
  import opened Common
  import opened Text
  import opened Json
  import opened Markup

  const LoginUrl := "https://onche.org/account/login"
  const ChatUrl := "https://onche.org/chat"
  const ProfilePrefix := "https://onche.org/profile/"

  function ProfileUrl(username: string): string
  {
    ProfilePrefix + username
  }

  /** `https://onche.org/chat/${chatId}`. */
  function ChatPostUrl(chatId: Json): string
  {
    ChatUrl + "/" + Interp(chatId)
  }

  datatype Verb = Get | Post

  /** One fetch: its method, URL, headers and form fields in order. */
  datatype Request = Request(verb: Verb, url: string, headers: map<string, string>, form: seq<(string, string)>)

  /** What fetching an HTML page gave: an exception, or a response with its
      status, its body and its `Set-Cookie` header (`None` for `null`). */
  datatype Reply = Threw | Reply(status: int, body: string, setCookie: Option<string>)

  /** What fetching a JSON endpoint gave: an exception, or the parsed body. */
  datatype JsonReply = JsonThrew | JsonReply(data: Json)

  /** The account the client logs in with (environment variables that may be
      unset). */
  datatype Creds = Creds(username: Option<string>, password: Option<string>)

  // ---------------------------------------------------------------------
  // login

  /** Where `login` stopped. Every outcome but `LoggedIn` leaves the cookie
      as it was: the captcha, the missing `Set-Cookie` header and a failed
      fetch are thrown and caught inside `login`, the missing form token is
      an early `return ""`. */
  datatype LoginOutcome = LoggedIn | CaptchaDetected | NoFormToken | NoSetCookie | FetchFailed

  datatype LoginStep = LoginStep(outcome: LoginOutcome, cookie: Option<string>, requests: seq<Request>)

  const CaptchaMarker := "h-captcha"
  const AuthPrefix := "auth="
  const SessPrefix := "sess="

  /** `auth=${auth}; sess=${sess}` from a `Set-Cookie` header, each value
      being the first match of `auth=([^;]+)` / `sess=([^;]+)` or the text
      `undefined` when there is none. */
  function CookieString(setCookie: string): string
  {
    AuthPrefix + Show(CookieValue(setCookie, AuthPrefix)) + "; " + SessPrefix + Show(CookieValue(setCookie, SessPrefix))
  }

  function LoginGet(): Request
  {
    Request(Get, LoginUrl, map[], [])
  }

  function LoginPost(creds: Creds, cookie: Option<string>, token: string): Request
  {
    Request(Post, LoginUrl, Headers(cookie, map[]),
      [("login", Show(creds.username)), ("password", Show(creds.password)), ("token", token)])
  }

  /** One run of `login` from cookie `cookie`, given what the GET of the login
      page and the POST of the form produced. */
  function LoginRun(creds: Creds, cookie: Option<string>, page: Reply, post: Reply): (st: LoginStep)
    ensures st.outcome != LoggedIn ==> st.cookie == cookie
    ensures st.outcome == LoggedIn ==> post.Reply? && Truthy(post.setCookie) && st.cookie == Some(CookieString(post.setCookie.value))
    ensures |st.requests| >= 1 && st.requests[0] == LoginGet()
    ensures st.outcome == CaptchaDetected <==> page.Reply? && Contains(page.body, CaptchaMarker)
    ensures st.outcome == CaptchaDetected || st.outcome == NoFormToken ==> |st.requests| == 1
    ensures |st.requests| == 2 <==>
      page.Reply? && !Contains(page.body, CaptchaMarker) && ExtractInputValue(page.body, "token").Some?
    ensures |st.requests| == 2 ==>
      st.requests[1] == LoginPost(creds, cookie, ExtractInputValue(page.body, "token").value)
    ensures |st.requests| <= 2
    // Which outcome a run ends in, from what the two fetches gave.
    ensures st.outcome == NoFormToken <==>
      page.Reply? && !Contains(page.body, CaptchaMarker) && ExtractInputValue(page.body, "token").None?
    ensures st.outcome == FetchFailed <==> page.Threw? || (|st.requests| == 2 && post.Threw?)
    ensures st.outcome == LoggedIn <==>
      page.Reply? && !Contains(page.body, CaptchaMarker) && ExtractInputValue(page.body, "token").Some? &&
      post.Reply? && Truthy(post.setCookie)
  {
    if page.Threw? then LoginStep(FetchFailed, cookie, [LoginGet()])
    else if Contains(page.body, CaptchaMarker) then LoginStep(CaptchaDetected, cookie, [LoginGet()])
    else
      var token := ExtractInputValue(page.body, "token");
      if token.None? then LoginStep(NoFormToken, cookie, [LoginGet()])
      else
        var reqs := [LoginGet(), LoginPost(creds, cookie, token.value)];
        if post.Threw? then LoginStep(FetchFailed, cookie, reqs)
        else if !Truthy(post.setCookie) then LoginStep(NoSetCookie, cookie, reqs)
        else LoginStep(LoggedIn, Some(CookieString(post.setCookie.value)), reqs)
  }

  /** The cookie the client stores splits on `;` into exactly its `auth=`
      and ` sess=` parts, neither of which carries a stray `;`. */
  lemma CookieParts(setCookie: string)
    ensures Split(CookieString(setCookie), ';') ==
      [AuthPrefix + Show(CookieValue(setCookie, AuthPrefix)), " " + SessPrefix + Show(CookieValue(setCookie, SessPrefix))]
  {
    var a := Show(CookieValue(setCookie, AuthPrefix));
    var s := Show(CookieValue(setCookie, SessPrefix));
    var parts := [AuthPrefix + a, " " + SessPrefix + s];
    assert ';' !in a && ';' !in s;
    assert ';' !in parts[0] by {
      assert forall k :: 0 <= k < |parts[0]| ==> parts[0][k] == if k < 5 then AuthPrefix[k] else a[k - 5];
    }
    assert ';' !in parts[1] by {
      assert forall k :: 0 <= k < |parts[1]| ==> parts[1][k] == if k < 6 then (" " + SessPrefix)[k] else s[k - 6];
    }
    assert Join(parts, ';') == CookieString(setCookie);
    SplitJoin(parts, ';');
  }

  // ---------------------------------------------------------------------
  // The relogin retry of fetchChatToken and getProfile

  /** The number of fetches the retry may make: `retry` runs from 0 and the
      call with `retry > 2` gives up after its relogin. */
  const MaxAttempts := 4

  /** What one try sees: the page fetch, and the two replies of the `login`
      it triggers when the page is not a 200. */
  datatype Attempt = Attempt(reply: Reply, loginPage: Reply, loginPost: Reply)

  datatype Run<T> = Run(result: Option<T>, cookie: Option<string>, requests: seq<Request>)

  function PageGet(url: string, cookie: Option<string>): Request
  {
    Request(Get, url, Headers(cookie, map[]), [])
  }

  /** The recursion of `fetchChatToken(retry)` / `getProfile(username, retry)`
      on page `url`: a thrown fetch gives `null`; a non-200 status runs
      `login` and, unless `retry > 2`, tries again with `retry + 1`; a 200
      gives what `onOk` makes of the body. */
  function RetryRun<T>(creds: Creds, cookie: Option<string>, url: string, attempts: seq<Attempt>, retry: nat,
                       onOk: string -> Option<T>): Run<T>
    requires retry < |attempts| == MaxAttempts
    decreases MaxAttempts - retry
  {
    var a := attempts[retry];
    var get := PageGet(url, cookie);
    if a.reply.Threw? then Run(None, cookie, [get])
    else if a.reply.status != 200 then
      var l := LoginRun(creds, cookie, a.loginPage, a.loginPost);
      if retry > 2 then Run(None, l.cookie, [get] + l.requests)
      else
        var rest := RetryRun(creds, l.cookie, url, attempts, retry + 1, onOk);
        Run(rest.result, rest.cookie, [get] + l.requests + rest.requests)
    else Run(onOk(a.reply.body), cookie, [get])
  }

  /** A try that ends the retry: a thrown fetch or a 200. */
  predicate Decisive(a: Attempt)
  {
    a.reply.Threw? || a.reply.status == 200
  }

  /** The first decisive try at or after `retry`, if any is left. */
  function FirstDecisive(attempts: seq<Attempt>, retry: nat): (k: Option<nat>)
    requires retry <= |attempts|
    ensures k.Some? ==> retry <= k.value < |attempts| && Decisive(attempts[k.value])
    ensures k.Some? ==> forall j :: retry <= j < k.value ==> !Decisive(attempts[j])
    ensures k.None? ==> forall j :: retry <= j < |attempts| ==> !Decisive(attempts[j])
    decreases |attempts| - retry
  {
    if retry == |attempts| then None
    else if Decisive(attempts[retry]) then Some(retry)
    else FirstDecisive(attempts, retry + 1)
  }

  /** The independent description of the retry's answer: what `onOk` makes
      of the first decisive try when that try is a 200, `null` otherwise
      (a thrown fetch, or four non-200 statuses in a row). */
  function RetryAnswer<T>(attempts: seq<Attempt>, retry: nat, onOk: string -> Option<T>): Option<T>
    requires retry <= |attempts|
  {
    var k := FirstDecisive(attempts, retry);
    if k.Some? && attempts[k.value].reply.Reply? then onOk(attempts[k.value].reply.body) else None
  }

  /** The number of page fetches the retry makes from `retry` on. */
  function Tries(attempts: seq<Attempt>, retry: nat): nat
    requires retry <= |attempts|
  {
    var k := FirstDecisive(attempts, retry);
    if k.Some? then k.value - retry + 1 else |attempts| - retry
  }

  /** The number of logins the retry runs from `retry` on. */
  function Relogins(attempts: seq<Attempt>, retry: nat): nat
    requires retry <= |attempts|
  {
    var k := FirstDecisive(attempts, retry);
    if k.Some? then k.value - retry else |attempts| - retry
  }

  /** The retry answers exactly what the first decisive try says. */
  lemma {:induction false} RetryRunAnswer<T>(creds: Creds, cookie: Option<string>, url: string, attempts: seq<Attempt>,
                                             retry: nat, onOk: string -> Option<T>)
    requires retry < |attempts| == MaxAttempts
    ensures RetryRun(creds, cookie, url, attempts, retry, onOk).result == RetryAnswer(attempts, retry, onOk)
    decreases MaxAttempts - retry
  {
    var a := attempts[retry];
    if !Decisive(a) && retry <= 2 {
      var l := LoginRun(creds, cookie, a.loginPage, a.loginPost);
      RetryRunAnswer(creds, l.cookie, url, attempts, retry + 1, onOk);
    }
  }

  /** How many requests of `reqs` are GETs of `url`. */
  function Gets(reqs: seq<Request>, url: string): nat
  {
    if reqs == [] then 0
    else (if reqs[0].verb == Get && reqs[0].url == url then 1 else 0) + Gets(reqs[1..], url)
  }

  lemma {:induction false} GetsAppend(a: seq<Request>, b: seq<Request>, url: string)
    ensures Gets(a + b, url) == Gets(a, url) + Gets(b, url)
    decreases |a|
  {
    if a == [] {
      assert a + b == b;
    } else {
      assert (a + b)[1..] == a[1..] + b;
      GetsAppend(a[1..], b, url);
    }
  }

  /** A login GETs the login page exactly once, and fetches nothing else. */
  lemma LoginGets(creds: Creds, cookie: Option<string>, page: Reply, post: Reply, url: string)
    requires url != LoginUrl
    ensures Gets(LoginRun(creds, cookie, page, post).requests, LoginUrl) == 1
    ensures Gets(LoginRun(creds, cookie, page, post).requests, url) == 0
  {
    var reqs := LoginRun(creds, cookie, page, post).requests;
    assert reqs[0].verb == Get && reqs[0].url == LoginUrl;
    if |reqs| == 2 {
      assert reqs[1].verb == Post;
      assert reqs[1..][1..] == [];
      assert Gets(reqs[1..], url) == 0 && Gets(reqs[1..], LoginUrl) == 0;
    } else {
      assert reqs[1..] == [];
    }
  }

  /** Each try fetches the page once; each non-200 try runs one login. The
      page is fetched at most four times and the login page at most four
      times: the recursion is bounded. */
  lemma {:induction false} RetryRunCounts<T>(creds: Creds, cookie: Option<string>, url: string, attempts: seq<Attempt>,
                                             retry: nat, onOk: string -> Option<T>)
    requires retry < |attempts| == MaxAttempts
    requires url != LoginUrl
    ensures Gets(RetryRun(creds, cookie, url, attempts, retry, onOk).requests, url) == Tries(attempts, retry)
    ensures Gets(RetryRun(creds, cookie, url, attempts, retry, onOk).requests, LoginUrl) == Relogins(attempts, retry)
    ensures 1 <= Tries(attempts, retry) <= MaxAttempts && Relogins(attempts, retry) <= MaxAttempts
    decreases MaxAttempts - retry
  {
    var a := attempts[retry];
    var get := PageGet(url, cookie);
    assert Gets([get], url) == 1 && Gets([get], LoginUrl) == 0 by {
      assert [get][1..] == [];
    }
    if !Decisive(a) {
      var l := LoginRun(creds, cookie, a.loginPage, a.loginPost);
      LoginGets(creds, cookie, a.loginPage, a.loginPost, url);
      GetsAppend([get], l.requests, url);
      GetsAppend([get], l.requests, LoginUrl);
      if retry <= 2 {
        var rest := RetryRun(creds, l.cookie, url, attempts, retry + 1, onOk);
        RetryRunCounts(creds, l.cookie, url, attempts, retry + 1, onOk);
        GetsAppend([get] + l.requests, rest.requests, url);
        GetsAppend([get] + l.requests, rest.requests, LoginUrl);
      }
    }
  }

  lemma ProfileUrlIsNotLogin(username: string)
    ensures ProfileUrl(username) != LoginUrl && ChatUrl != LoginUrl
  {
    assert ProfileUrl(username)[18] == 'p' && LoginUrl[18] == 'a';
  }

  // ---------------------------------------------------------------------
  // The profile record that a 200 profile page is scraped into

  datatype Profile = Profile(username: string, level: string, signupDate: string, lastLoginDate: string, msgCount: string)

  /** The 200 branch of `getProfile` as written: it loads the undeclared
      `data`, the `ReferenceError` is caught, and the answer is `null`. */
  function ProfileAsWritten(html: string): Option<Profile>
  {
    None
  }

  /** The 200 branch of `getProfile` as intended: the scraped record. */
  function ProfileScraped(scrape: string -> Profile): string -> Option<Profile>
  {
    html => Some(scrape(html))
  }

  /** As written, `getProfile` answers `null` whatever the site returns. */
  lemma GetProfileAsWrittenIsNull(creds: Creds, cookie: Option<string>, username: string, attempts: seq<Attempt>)
    requires |attempts| == MaxAttempts
    ensures RetryRun(creds, cookie, ProfileUrl(username), attempts, 0, ProfileAsWritten).result == None
  {
    RetryRunAnswer(creds, cookie, ProfileUrl(username), attempts, 0, ProfileAsWritten);
  }

  /** The input that shows it: a profile page served with status 200 at the
      first try still gives `null`. */
  lemma GetProfileAsWrittenLosesPage(creds: Creds, cookie: Option<string>, username: string, html: string)
    ensures var a := Attempt(Reply(200, html, None), Threw, Threw);
      RetryRun(creds, cookie, ProfileUrl(username), [a, a, a, a], 0, ProfileAsWritten).result == None
  {
  }

  /** Corrected, a profile page that is eventually served with status 200
      yields the record scraped from it. */
  lemma GetProfileFinds(creds: Creds, cookie: Option<string>, username: string, attempts: seq<Attempt>,
                        scrape: string -> Profile)
    requires |attempts| == MaxAttempts
    ensures var k := FirstDecisive(attempts, 0);
      RetryRun(creds, cookie, ProfileUrl(username), attempts, 0, ProfileScraped(scrape)).result ==
        if k.Some? && attempts[k.value].reply.Reply? then Some(scrape(attempts[k.value].reply.body)) else None
  {
    RetryRunAnswer(creds, cookie, ProfileUrl(username), attempts, 0, ProfileScraped(scrape));
  }

  /** The 200 branch of `fetchChatToken`: the `chat` data-token, or `null`. */
  function ChatToken(html: string): Option<string>
  {
    ExtractDataToken(html, "chat")
  }

  /** `fetchChatToken` answers a non-empty `chat` data-token read from the
      first page served with status 200, or `null`. */
  lemma FetchChatTokenAnswer(creds: Creds, cookie: Option<string>, attempts: seq<Attempt>)
    requires |attempts| == MaxAttempts
    ensures var t := RetryRun(creds, cookie, ChatUrl, attempts, 0, ChatToken).result;
      var k := FirstDecisive(attempts, 0);
      (t.Some? ==>
         t.value != "" && k.Some? && attempts[k.value].reply.Reply? &&
         exists p, q, s :: TokenFirst(attempts[k.value].reply.body, IdAttr("chat"), p, q, s) &&
           t.value == attempts[k.value].reply.body[q + |DataTokenAttr|..s]) &&
      (t.None? ==>
         k.None? || attempts[k.value].reply.Threw? ||
         forall p, q, s :: !TokenMatch(attempts[k.value].reply.body, IdAttr("chat"), p, q, s))
  {
    RetryRunAnswer(creds, cookie, ChatUrl, attempts, 0, ChatToken);
  }

  // ---------------------------------------------------------------------
  // getChatId and sendChatMsg

  /** `data?.id || null` from the chat lookup's reply; a thrown fetch or
      parse gives `null`. */
  function ChatIdOf(reply: JsonReply): (id: Option<Json>)
    ensures id.Some? <==> reply.JsonReply? && JsonTruthy(Prop(reply.data, "id"))
    ensures id.Some? ==> id == Prop(reply.data, "id")
  {
    if reply.JsonThrew? then None
    else
      var id := Prop(reply.data, "id");
      if JsonTruthy(id) then id else None
  }

  /** `data?.blocked === "no"` from the send's reply; a thrown fetch or parse
      gives `false`. */
  predicate Delivered(reply: JsonReply)
  {
    reply.JsonReply? && reply.data.JObj? && "blocked" in reply.data.fields && reply.data.fields["blocked"] == JStr("no")
  }

  lemma DeliveredMeans(reply: JsonReply)
    ensures Delivered(reply) <==> reply.JsonReply? && Prop(reply.data, "blocked") == Some(JStr("no"))
  {
  }

  /** What `sendChatMsg` does: return its boolean, or throw "Chat ID is
      missing" before sending. */
  datatype SendOutcome = Returned(ok: bool) | ChatIdMissing

  function ChatLookup(cookie: Option<string>, to: string, token: string): Request
  {
    Request(Post, ChatUrl, Headers(cookie, map[]), [("username", to), ("token", token)])
  }

  function ChatSend(cookie: Option<string>, chatId: Json, msg: string, token: string): Request
  {
    Request(Post, ChatPostUrl(chatId), Headers(cookie, map[]), [("message", msg), ("token", token)])
  }

  /** `sendChatMsg(msg, to, token)`: the outcome and the requests, given the
      replies of the chat lookup and of the message post. */
  function SendRun(cookie: Option<string>, msg: string, to: string, token: string, idReply: JsonReply,
                   sendReply: JsonReply): (r: (SendOutcome, seq<Request>))
    ensures r.0 == ChatIdMissing <==> ChatIdOf(idReply).None?
    ensures r.0 == ChatIdMissing ==> r.1 == [ChatLookup(cookie, to, token)]
    ensures r.0 == Returned(true) <==> ChatIdOf(idReply).Some? && Delivered(sendReply)
    ensures r.0.Returned? ==> r.1 == [ChatLookup(cookie, to, token), ChatSend(cookie, ChatIdOf(idReply).value, msg, token)]
  {
    var id := ChatIdOf(idReply);
    if id.None? then (ChatIdMissing, [ChatLookup(cookie, to, token)])
    else (Returned(Delivered(sendReply)), [ChatLookup(cookie, to, token), ChatSend(cookie, id.value, msg, token)])
  }

  // ---------------------------------------------------------------------
  // The client object

  /** The loop of `FetchWithRelogin` has already sent `sent` (starting from
      `s0`), and what is left of the run is `rest`: together they make up the
      whole run. */
  ghost predicate Continues<T>(whole: Run<T>, rest: Run<T>, s0: seq<Request>, sent: seq<Request>)
  {
    whole.result == rest.result && whole.cookie == rest.cookie && s0 + whole.requests == sent + rest.requests
  }

  lemma AppendAssoc(a: seq<Request>, b: seq<Request>, c: seq<Request>)
    ensures a + b + c == a + (b + c)
  {
  }

  /** The module state of src/onche.js: the credentials, the held cookie,
      and the log of every request made. */
  class Upstream {
    const creds: Creds
    var cookie: Option<string>
    var sent: seq<Request>

    constructor (creds: Creds)
      ensures this.creds == creds && cookie == None && sent == []
    {
      this.creds := creds;
      cookie := None;
      sent := [];
    }

    /** `login()`. */
    method Login(page: Reply, post: Reply) returns (outcome: LoginOutcome)
      modifies this
      ensures var st := LoginRun(creds, old(cookie), page, post);
        outcome == st.outcome && cookie == st.cookie && sent == old(sent) + st.requests
    {
      sent := sent + [LoginGet()];
      if page.Threw? { return FetchFailed; }
      if Contains(page.body, CaptchaMarker) { return CaptchaDetected; }
      var token := ExtractInputValue(page.body, "token");
      if token.None? { return NoFormToken; }
      sent := sent + [LoginPost(creds, cookie, token.value)];
      if post.Threw? { return FetchFailed; }
      if !Truthy(post.setCookie) { return NoSetCookie; }
      cookie := Some(CookieString(post.setCookie.value));
      return LoggedIn;
    }

    /** The retry shared by `fetchChatToken` and `getProfile`, written as a
        loop over the `retry` counter. */
    method FetchWithRelogin<T>(url: string, attempts: seq<Attempt>, onOk: string -> Option<T>) returns (r: Option<T>)
      requires |attempts| == MaxAttempts
      modifies this
      ensures var run := RetryRun(creds, old(cookie), url, attempts, 0, onOk);
        r == run.result && cookie == run.cookie && sent == old(sent) + run.requests
    {
      ghost var s0 := sent;
      ghost var whole := RetryRun(creds, cookie, url, attempts, 0, onOk);
      var retry := 0;
      while true
        invariant 0 <= retry < MaxAttempts
        invariant Continues(whole, RetryRun(creds, cookie, url, attempts, retry, onOk), s0, sent)
        decreases MaxAttempts - retry
      {
        var a := attempts[retry];
        ghost var before, c := sent, cookie;
        sent := sent + [PageGet(url, cookie)];
        if a.reply.Threw? {
          return None;
        }
        if a.reply.status != 200 {
          var _ := Login(a.loginPage, a.loginPost);
          ghost var l := LoginRun(creds, c, a.loginPage, a.loginPost);
          assert sent == before + ([PageGet(url, c)] + l.requests);
          if retry > 2 {
            return None;
          }
          ghost var rest := RetryRun(creds, cookie, url, attempts, retry + 1, onOk);
          AppendAssoc(before, [PageGet(url, c)] + l.requests, rest.requests);
          retry := retry + 1;
        } else {
          return onOk(a.reply.body);
        }
      }
    }

    /** `fetchChatToken()`. */
    method FetchChatToken(attempts: seq<Attempt>) returns (token: Option<string>)
      requires |attempts| == MaxAttempts
      modifies this
      ensures var run := RetryRun(creds, old(cookie), ChatUrl, attempts, 0, ChatToken);
        token == run.result && cookie == run.cookie && sent == old(sent) + run.requests
    {
      token := FetchWithRelogin(ChatUrl, attempts, ChatToken);
    }

    /** `getProfile(username)` as written (always `null`). */
    method GetProfileAsWritten(username: string, attempts: seq<Attempt>) returns (profile: Option<Profile>)
      requires |attempts| == MaxAttempts
      modifies this
      ensures var run := RetryRun(creds, old(cookie), ProfileUrl(username), attempts, 0, ProfileAsWritten);
        profile == run.result && cookie == run.cookie && sent == old(sent) + run.requests
      ensures profile == None
    {
      profile := FetchWithRelogin(ProfileUrl(username), attempts, ProfileAsWritten);
      GetProfileAsWrittenIsNull(creds, old(cookie), username, attempts);
    }

    /** `getProfile(username)` with the page body handed to the scraper. */
    method GetProfile(username: string, attempts: seq<Attempt>, scrape: string -> Profile) returns (profile: Option<Profile>)
      requires |attempts| == MaxAttempts
      modifies this
      ensures var run := RetryRun(creds, old(cookie), ProfileUrl(username), attempts, 0, ProfileScraped(scrape));
        profile == run.result && cookie == run.cookie && sent == old(sent) + run.requests
    {
      profile := FetchWithRelogin(ProfileUrl(username), attempts, ProfileScraped(scrape));
    }

    /** `getChatId(to, token)`. */
    method GetChatId(to: string, token: string, reply: JsonReply) returns (id: Option<Json>)
      modifies this`sent
      ensures id == ChatIdOf(reply) && sent == old(sent) + [ChatLookup(cookie, to, token)]
    {
      sent := sent + [ChatLookup(cookie, to, token)];
      if reply.JsonThrew? { return None; }
      var v := Prop(reply.data, "id");
      if JsonTruthy(v) { id := v; } else { id := None; }
    }

    /** `sendChatMsg(msg, to, token)`. */
    method SendChatMsg(msg: string, to: string, token: string, idReply: JsonReply, sendReply: JsonReply)
      returns (outcome: SendOutcome)
      modifies this`sent
      ensures var run := SendRun(cookie, msg, to, token, idReply, sendReply);
        outcome == run.0 && sent == old(sent) + run.1
    {
      var chatId := GetChatId(to, token, idReply);
      if chatId.None? { return ChatIdMissing; }
      sent := sent + [ChatSend(cookie, chatId.value, msg, token)];
      outcome := Returned(Delivered(sendReply));
    }
  }
}
