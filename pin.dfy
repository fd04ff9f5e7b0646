/** The one-time PIN service (src/pin.js): a Redis store of PINs with expiry,
    `sendPin`, which mints a PIN and a session token, stores the PIN and
    delivers both to the user's chat, and `verifyPin`, which compares a
    submitted PIN with the stored one and consumes it on a match.

    Redis is a map from full key (with the client's `oidc:` prefix) to the
    stored value and the instant it expires; the clock is a parameter in
    seconds. The two random draws and everything the network answers are
    inputs. */
module Pin {
  import opened Common
  import opened Text
  import opened Json
  import opened Onche

  /** The key prefix the Redis client is configured with. */
  const KeyPrefix := "oidc:"

  /** Seconds a PIN stays in the store. */
  const PinTtl := 600

  /** `Math.floor(100000 + Math.random() * 900000)` lies in
      `[PinLow, PinLow + PinSpan)`. */
  const PinLow := 100000
  const PinSpan := 900000

  /** The number of random bytes behind a session token. */
  const SessionBytes := 4

  /** `pin:${username}:${uid}` as stored, prefix included. */
  function Key(username: string, uid: string): string
  {
    KeyPrefix + "pin:" + username + ":" + uid
  }

  datatype Entry = Entry(value: string, expiresAt: int)

  type Store = map<string, Entry>

  /** `redis.get(key)` at instant `now`: an entry is returned strictly before
      it expires, and `null` (`None`) afterwards or when there is none. */
  function Lookup(store: Store, key: string, now: int): (v: Option<string>)
    ensures v.Some? <==> key in store && now < store[key].expiresAt
    ensures v.Some? ==> v.value == store[key].value
  {
    if key in store && now < store[key].expiresAt then Some(store[key].value) else None
  }

  /** `redis.setex(key, ttl, value)` at instant `now`. */
  function SetEx(store: Store, key: string, ttl: nat, value: string, now: int): (s: Store)
    ensures s.Keys == store.Keys + {key}
    ensures forall t :: now <= t < now + ttl ==> Lookup(s, key, t) == Some(value)
    ensures forall t :: now + ttl <= t ==> Lookup(s, key, t).None?
    ensures forall k, t :: k != key ==> Lookup(s, k, t) == Lookup(store, k, t)
  {
    store[key := Entry(value, now + ttl)]
  }

  /** `storedPin && storedPin === pin`. */
  predicate Accepts(store: Store, key: string, pin: string, now: int)
  {
    Truthy(Lookup(store, key, now)) && Lookup(store, key, now).value == pin
  }

  // ---------------------------------------------------------------------
  // The PIN and the session token

  /** `String(Math.floor(100000 + Math.random() * 900000))`, with the draw
      `Math.floor(Math.random() * 900000)` as input: six decimal digits, the
      first of them not zero. */
  function PinCode(draw: int): (pin: string)
    requires 0 <= draw < PinSpan
    ensures |pin| == 6 && AllDigits(pin) && pin[0] != '0'
    ensures ParseDecimal(pin) == PinLow + draw
  {
    var n := PinLow + draw;
    assert Pow10(5) == PinLow && Pow10(6) == PinLow + PinSpan;
    DecimalWidth(n, 6);
    DecimalRoundTrip(n);
    Decimal(n)
  }

  /** Distinct draws give distinct PINs. */
  lemma PinCodeInjective(d1: int, d2: int)
    requires 0 <= d1 < PinSpan && 0 <= d2 < PinSpan
    requires PinCode(d1) == PinCode(d2)
    ensures d1 == d2
  {
    assert ParseDecimal(PinCode(d1)) == PinLow + d1;
  }

  /** `randomBytes(4).toString('hex')`: eight lowercase hexadecimal digits
      that encode the four bytes. */
  function SessionToken(bytes: seq<Byte>): (s: string)
    requires |bytes| == SessionBytes
    ensures |s| == 8 && forall i :: 0 <= i < |s| ==> IsLowerHex(s[i])
    ensures ParseHex(s) == bytes
  {
    HexRoundTrip(bytes);
    Hex(bytes)
  }

  // ---------------------------------------------------------------------
  // The chat message

  const MessageHead := "[b][ONCHE CONNECT][/b] Code PIN pour la session [i]["
  const MessageMid := "][/i]: [b]"
  const MessageTail := "[/b]"

  function MessageText(session: string, pin: string): string
  {
    MessageHead + session + MessageMid + pin + MessageTail
  }

  /** The (session, PIN) pair a reader takes out of a message with an
      eight-character session and a six-digit PIN in the fixed frame. */
  function ReadMessage(m: string): Option<(string, string)>
  {
    var a := |MessageHead|;
    var b := a + 8 + |MessageMid|;
    if |m| == b + 6 + |MessageTail| && m[..a] == MessageHead && m[a + 8..b] == MessageMid && m[b + 6..] == MessageTail
    then Some((m[a..a + 8], m[b..b + 6]))
    else None
  }

  /** The message carries the session token and the PIN where the reader
      finds them. */
  lemma MessageRoundTrip(session: string, pin: string)
    requires |session| == 8 && |pin| == 6
    ensures ReadMessage(MessageText(session, pin)) == Some((session, pin))
  {
    var m := MessageText(session, pin);
    var a := |MessageHead|;
    var b := a + 8 + |MessageMid|;
    assert m[..a] == MessageHead;
    assert m[a..a + 8] == session;
    assert m[a + 8..b] == MessageMid;
    assert m[b..b + 6] == pin;
    assert m[b + 6..] == MessageTail;
  }

  /** So the text contains both. */
  lemma MessageContains(session: string, pin: string)
    ensures Contains(MessageText(session, pin), session)
    ensures Contains(MessageText(session, pin), pin)
  {
    var m := MessageText(session, pin);
    var a := |MessageHead|;
    var b := a + |session| + |MessageMid|;
    assert LitAt(m, a, session) by { assert m[a..a + |session|] == session; }
    assert LitAt(m, b, pin) by { assert m[b..b + |pin|] == pin; }
  }

  // ---------------------------------------------------------------------
  // verifyPin

  /** `verifyPin` on `key`: whether it answers `true`, and the store after. */
  function VerifyRun(store: Store, key: string, pin: string, now: int): (r: (bool, Store))
    ensures r.0 <==> key in store && now < store[key].expiresAt && store[key].value != "" && store[key].value == pin
    ensures r.1 == if r.0 then store - {key} else store
  {
    if Accepts(store, key, pin, now) then (true, store - {key}) else (false, store)
  }

  /** A successful verify consumes the PIN: a second verify of the same key
      fails, whatever is submitted. */
  lemma VerifySingleUse(store: Store, key: string, pin: string, pin': string, now: int, later: int)
    requires VerifyRun(store, key, pin, now).0
    ensures !VerifyRun(VerifyRun(store, key, pin, now).1, key, pin', later).0
  {
  }

  /** Verifying one key leaves every other key as it was. */
  lemma VerifyFrame(store: Store, key: string, pin: string, now: int, other: string, t: int)
    requires other != key
    ensures Lookup(VerifyRun(store, key, pin, now).1, other, t) == Lookup(store, other, t)
  {
  }

  /** A PIN is refused from the instant it expires. */
  lemma VerifyExpired(store: Store, key: string, pin: string, now: int)
    requires key in store && store[key].expiresAt <= now
    ensures VerifyRun(store, key, pin, now) == (false, store)
  {
  }

  /** Issuing again overwrites: only the newest PIN of a key is accepted. */
  lemma ReissueInvalidates(store: Store, key: string, earlier: string, newer: string, now: int, t: int)
    requires earlier != newer
    ensures !VerifyRun(SetEx(store, key, PinTtl, newer, now), key, earlier, t).0
  {
  }

  /** A freshly issued PIN is accepted at any instant before its time to live
      runs out. */
  lemma IssuedIsAccepted(store: Store, username: string, uid: string, draw: int, now: int, t: int)
    requires 0 <= draw < PinSpan
    requires now <= t < now + PinTtl
    ensures VerifyRun(SetEx(store, Key(username, uid), PinTtl, PinCode(draw), now), Key(username, uid), PinCode(draw), t).0
  {
  }

  /** Keys determine the user and the interaction when the user name has no
      `:` in it. */
  lemma {:induction false} KeyInjective(u1: string, i1: string, u2: string, i2: string)
    requires ':' !in u1 && ':' !in u2
    requires Key(u1, i1) == Key(u2, i2)
    ensures u1 == u2 && i1 == i2
    decreases |u1|
  {
    var n := |KeyPrefix + "pin:"|;
    KeyLayout(u1, i1);
    KeyLayout(u2, i2);
    assert |u1| == |u2|;
    assert u1 == Key(u1, i1)[n..n + |u1|];
    assert u2 == Key(u2, i2)[n..n + |u2|];
    assert i1 == Key(u1, i1)[n + |u1| + 1..];
    assert i2 == Key(u2, i2)[n + |u2| + 1..];
  }

  lemma KeyLayout(u: string, i: string)
    ensures var n := |KeyPrefix + "pin:"|;
      |Key(u, i)| == n + |u| + 1 + |i| && Key(u, i)[n + |u|] == ':' &&
      (forall j :: 0 <= j < |u| ==> Key(u, i)[n + j] == u[j]) &&
      Key(u, i)[n..n + |u|] == u && Key(u, i)[n + |u| + 1..] == i
  {
  }

  /** Without that restriction two users can share a key. */
  lemma KeyCollision()
    ensures Key("a:b", "c") == Key("a", "b:c")
  {
  }

  // ---------------------------------------------------------------------
  // sendPin

  /** The error `sendPin` throws: no profile for the user, no chat token, no
      chat id for the user, or a message the site did not deliver. */
  datatype SendError = NoProfile | NoToken | NoChatId | NotDelivered

  /** The two random draws of one `sendPin`. */
  datatype Draws = Draws(draw: int, bytes: seq<Byte>)

  predicate DrawsInRange(d: Draws)
  {
    0 <= d.draw < PinSpan && |d.bytes| == SessionBytes
  }

  /** What the network answers during one `sendPin`: the profile page tries
      and the scraper applied to a served page, the chat page tries, and the
      replies of the chat lookup and of the message post. */
  datatype Network = Network(profile: seq<Attempt>, scrape: string -> Profile, chat: seq<Attempt>,
                             chatId: JsonReply, send: JsonReply)

  predicate NetworkShaped(net: Network)
  {
    |net.profile| == MaxAttempts && |net.chat| == MaxAttempts
  }

  datatype PinRun = PinRun(result: Result<string, SendError>, store: Store, cookie: Option<string>, requests: seq<Request>)

  /** How the steps after the store write ended: `None` once the message is
      delivered, otherwise the error thrown. */
  datatype Delivery = Delivery(error: Option<SendError>, cookie: Option<string>, requests: seq<Request>)

  /** The steps of `sendPin` after the store write, from the upstream cookie
      `cookie`: fetch the chat token, then send `msg` to the user's chat. The
      chat token, then the chat id, then the delivery decide the exit. */
  function DeliverRun(creds: Creds, cookie: Option<string>, username: string, msg: string, net: Network): (r: Delivery)
    requires NetworkShaped(net)
    ensures var tr := RetryRun(creds, cookie, ChatUrl, net.chat, 0, ChatToken);
      (r.error == Some(NoToken) <==> tr.result.None?) &&
      (r.error == Some(NoChatId) <==> tr.result.Some? && ChatIdOf(net.chatId).None?) &&
      (r.error == Some(NotDelivered) <==> tr.result.Some? && ChatIdOf(net.chatId).Some? && !Delivered(net.send)) &&
      (r.error.None? <==> tr.result.Some? && ChatIdOf(net.chatId).Some? && Delivered(net.send)) &&
      r.error != Some(NoProfile) && r.cookie == tr.cookie
    // Without a token nothing but the retry is requested; with one, the chat lookup for
    // `username` comes next, and a delivered message was the last request, posted to the
    // chat id the lookup gave.
    ensures var tr := RetryRun(creds, cookie, ChatUrl, net.chat, 0, ChatToken);
      (tr.result.None? ==> r.requests == tr.requests) &&
      (tr.result.Some? ==>
         |r.requests| > |tr.requests| && r.requests[..|tr.requests|] == tr.requests &&
         r.requests[|tr.requests|] == ChatLookup(tr.cookie, username, tr.result.value)) &&
      (r.error.None? ==>
         r.requests[|r.requests| - 1] == ChatSend(tr.cookie, ChatIdOf(net.chatId).value, msg, tr.result.value))
  {
    var tr := RetryRun(creds, cookie, ChatUrl, net.chat, 0, ChatToken);
    if tr.result.None? then Delivery(Some(NoToken), tr.cookie, tr.requests)
    else
      var sr := SendRun(tr.cookie, msg, username, tr.result.value, net.chatId, net.send);
      var reqs := tr.requests + sr.1;
      assert reqs[..|tr.requests|] == tr.requests;
      if sr.0 == ChatIdMissing then Delivery(Some(NoChatId), tr.cookie, reqs)
      else if !sr.0.ok then Delivery(Some(NotDelivered), tr.cookie, reqs)
      else Delivery(None, tr.cookie, reqs)
  }

  /** `sendPin(username, uid)` run with the store `store` and the upstream
      cookie `cookie` at instant `now`, `getProfile` making `onProfile` of a
      profile page served with status 200. */
  function SendPinRun(creds: Creds, cookie: Option<string>, store: Store, username: string, uid: string, now: int,
                      d: Draws, net: Network, onProfile: string -> Option<Profile>): (r: PinRun)
    requires DrawsInRange(d) && NetworkShaped(net)
    // The profile check comes first, and a missing profile changes nothing in the store and sends no message.
    ensures var p := RetryRun(creds, cookie, ProfileUrl(username), net.profile, 0, onProfile);
      (r.result == Err(NoProfile) <==> p.result.None?) &&
      (p.result.None? ==> r.store == store && r.requests == p.requests)
    // Otherwise the PIN is in the store whatever happens next.
    ensures r.result != Err(NoProfile) ==>
      r.store == SetEx(store, Key(username, uid), PinTtl, PinCode(d.draw), now)
    // Success returns the session token, after a last request that posts the message carrying it and the PIN.
    ensures r.result.Ok? ==>
      r.result.value == SessionToken(d.bytes) &&
      |r.requests| >= 2 && r.requests[|r.requests| - 1].verb == Post && |r.requests[|r.requests| - 1].form| == 2 &&
      r.requests[|r.requests| - 1].form[0] == ("message", MessageText(SessionToken(d.bytes), PinCode(d.draw)))
    // After the store write, the remaining steps decide the exit and the requests.
    ensures var p := RetryRun(creds, cookie, ProfileUrl(username), net.profile, 0, onProfile);
      p.result.Some? ==>
        var dr := DeliverRun(creds, p.cookie, username, MessageText(SessionToken(d.bytes), PinCode(d.draw)), net);
        (r.result.Ok? <==> dr.error.None?) && (r.result.Err? ==> Some(r.result.error) == dr.error) &&
        r.cookie == dr.cookie && r.requests == p.requests + dr.requests
  {
    var pr := RetryRun(creds, cookie, ProfileUrl(username), net.profile, 0, onProfile);
    if pr.result.None? then PinRun(Err(NoProfile), store, pr.cookie, pr.requests)
    else
      var pin := PinCode(d.draw);
      var session := SessionToken(d.bytes);
      var stored := SetEx(store, Key(username, uid), PinTtl, pin, now);
      var dr := DeliverRun(creds, pr.cookie, username, MessageText(session, pin), net);
      var reqs := pr.requests + dr.requests;
      assert reqs[..|pr.requests|] == pr.requests && reqs[|pr.requests|..] == dr.requests;
      PinRun(if dr.error.None? then Ok(session) else Err(dr.error.value), stored, dr.cookie, reqs)
  }

  /** After a `sendPin` that succeeded, the PIN it delivered is accepted for
      that user and interaction until it expires; the message delivered
      names the session token the caller got back. */
  lemma SentPinVerifies(creds: Creds, cookie: Option<string>, store: Store, username: string, uid: string, now: int,
                        d: Draws, net: Network, onProfile: string -> Option<Profile>, t: int)
    requires DrawsInRange(d) && NetworkShaped(net)
    requires SendPinRun(creds, cookie, store, username, uid, now, d, net, onProfile).result.Ok?
    requires now <= t < now + PinTtl
    ensures var r := SendPinRun(creds, cookie, store, username, uid, now, d, net, onProfile);
      VerifyRun(r.store, Key(username, uid), PinCode(d.draw), t).0 &&
      ReadMessage(r.requests[|r.requests| - 1].form[0].1) == Some((r.result.value, PinCode(d.draw)))
  {
    MessageRoundTrip(SessionToken(d.bytes), PinCode(d.draw));
  }

  /** With the profile lookup as written, `sendPin` stops at its profile
      check whatever the site answers: nothing is stored and no message is
      sent. */
  lemma SendPinAsWrittenNeverSends(creds: Creds, cookie: Option<string>, store: Store, username: string, uid: string,
                                   now: int, d: Draws, net: Network)
    requires DrawsInRange(d) && NetworkShaped(net)
    ensures var r := SendPinRun(creds, cookie, store, username, uid, now, d, net, ProfileAsWritten);
      r.result == Err(NoProfile) && r.store == store
  {
    GetProfileAsWrittenIsNull(creds, cookie, username, net.profile);
  }

  // ---------------------------------------------------------------------
  // The service object

  class PinService {
    var store: Store
    const upstream: Upstream

    constructor (upstream: Upstream)
      ensures store == map[] && this.upstream == upstream
    {
      store := map[];
      this.upstream := upstream;
    }

    /** `sendPin(username, uid)`. */
    method SendPin(username: string, uid: string, now: int, d: Draws, net: Network)
      returns (r: Result<string, SendError>)
      requires DrawsInRange(d) && NetworkShaped(net)
      modifies this, upstream
      ensures var run := SendPinRun(upstream.creds, old(upstream.cookie), old(store), username, uid, now, d, net, ProfileScraped(net.scrape));
        r == run.result && store == run.store && upstream.cookie == run.cookie &&
        upstream.sent == old(upstream.sent) + run.requests
    {
      ghost var c0, s0 := upstream.cookie, upstream.sent;
      ghost var run := SendPinRun(upstream.creds, c0, store, username, uid, now, d, net, ProfileScraped(net.scrape));
      var profile := upstream.GetProfile(username, net.profile, net.scrape);
      ghost var pr := RetryRun(upstream.creds, c0, ProfileUrl(username), net.profile, 0, ProfileScraped(net.scrape));
      assert profile == pr.result && upstream.cookie == pr.cookie && upstream.sent == s0 + pr.requests;
      if profile.None? {
        return Err(NoProfile);
      }
      var pin := PinCode(d.draw);
      var session := SessionToken(d.bytes);
      store := SetEx(store, Key(username, uid), PinTtl, pin, now);
      var token := upstream.FetchChatToken(net.chat);
      ghost var tr := RetryRun(upstream.creds, pr.cookie, ChatUrl, net.chat, 0, ChatToken);
      ghost var dr := DeliverRun(upstream.creds, pr.cookie, username, MessageText(session, pin), net);
      assert run.requests == pr.requests + dr.requests && run.cookie == dr.cookie;
      assert token == tr.result && upstream.cookie == tr.cookie && upstream.sent == s0 + pr.requests + tr.requests;
      if token.None? {
        assert dr.requests == tr.requests;
        AppendAssoc(s0, pr.requests, tr.requests);
        return Err(NoToken);
      }
      var outcome := upstream.SendChatMsg(MessageText(session, pin), username, token.value, net.chatId, net.send);
      ghost var sr := SendRun(tr.cookie, MessageText(session, pin), username, token.value, net.chatId, net.send);
      assert dr.requests == tr.requests + sr.1;
      AppendAssoc(pr.requests, tr.requests, sr.1);
      AppendAssoc(s0, pr.requests, tr.requests + sr.1);
      AppendAssoc(s0 + pr.requests, tr.requests, sr.1);
      assert outcome == sr.0 && upstream.sent == s0 + run.requests;
      if outcome == ChatIdMissing {
        return Err(NoChatId);
      }
      if !outcome.ok {
        return Err(NotDelivered);
      }
      return Ok(session);
    }

    /** `verifyPin(username, uid, pin)` at instant `now`. */
    method VerifyPin(username: string, uid: string, pin: string, now: int) returns (ok: bool)
      modifies this`store
      ensures (ok, store) == VerifyRun(old(store), Key(username, uid), pin, now)
    {
      var key := Key(username, uid);
      var stored := Lookup(store, key, now);
      if Truthy(stored) && stored.value == pin {
        store := store - {key};
        return true;
      }
      return false;
    }
  }
}
