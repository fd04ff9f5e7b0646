# onche-connect, modelled in Dafny

onche-connect is an OpenID Connect identity provider. It proves that a user
controls an account on the forum onche.org by sending a one-time PIN to that
account's private chat. The PIN is sent by a bot account that the service
logs into. This project models the logic of that flow and proves properties
of it:

- **Upstream client** (`src/onche.js`, modules `Markup` and `Onche`):
  - the request headers built from the held session cookie;
  - the two regular-expression extractors that read form tokens out of HTML;
  - the scripted login, which rebuilds the cookie from `Set-Cookie`;
  - the bounded fetch-and-relogin retry of `fetchChatToken` and `getProfile`;
  - the chat-id lookup and the message post.
- **PIN service** (`src/pin.js`, module `Pin`):
  - a Redis store of PINs with a time to live;
  - `sendPin`, a fixed sequence of steps, each of which can fail;
  - `verifyPin`, which compares the submitted PIN and consumes it on a match.
- **Interaction routes** (`src/index.js`, module `Interaction`):
  - form selection by prompt;
  - the PIN-send route;
  - the PIN-check route, which joins the six digit fields;
  - the consent route, which finds or creates a grant, extends it and saves it.
- **Provider configuration** (`src/provider.js`, module `Provider`):
  - the account lookup and its claims callback;
  - the interaction URL;
  - the issuer;
  - the ttl table.

The shared modules are:

- `Common`: optional values, results, and JavaScript truthiness.
- `Text`: `String(n)`, hex encoding, `split` and `join`, substring search.
- `Json`: JSON values, `data?.key`, and `${v}`.

## How the model is built

The network, the clock and the random draws are inputs.

- **Network replies.** Each fetch of an HTML page is answered by a `Reply`: an exception, or a status, a body and a `Set-Cookie` header. Each JSON endpoint is answered by a `JsonReply`. The client records every request it makes in its `sent` log. The module-level `cookie` and that log are the fields of the class `Onche.Upstream`.
- **Regular expressions.** Each one has a fixed shape. It is modelled by a declarative match predicate (`InputMatch`, `TokenMatch`, `RunMatch`) plus a search. The search returns the match a backtracking engine reports: the leftmost start, then the longest greedy `[^>]+` gaps. `name` and `id` are taken literally, with no regex metacharacters.
- **The PIN store.** It is the field `store` of `Pin.PinService`: a map from the full key, including the client's `oidc:` prefix, to an entry holding a value and its expiry instant. An entry can be read strictly before it expires.
- **The retry.** The source writes it as recursion on `retry` (`fetchChatToken`, `getProfile`). It is specified by the pure function `Onche.RetryRun` and run by the loop of `Onche.Upstream.FetchWithRelogin`. `Onche.FirstDecisive` and `Onche.RetryAnswer` describe it independently. Its answer is fixed by the first attempt that throws or returns 200. With `retry > 2` as the exit test, at most four page fetches and four logins happen.

### Where the code and its documentation disagree (the model follows the code)

- **PIN range.** A PIN is always in [100000, 999999], so it never has a leading zero.
- **Retry count.** The documentation says three attempts. The code fetches up to four times and logs in up to four times (retry 0..3).
- **Verification is not atomic.** `verifyPin` reads the entry, then deletes it. There is no single-flight login either; neither is modelled as an interleaving.
- **Partial cookie.** When `Set-Cookie` lacks `auth=` or `sess=`, the stored cookie contains the text `undefined` (for example `auth=undefined; sess=…`).

## Model

| member | source | states |
|---|---|---|
| `Markup.Headers` | src/onche.js:9-14 | The `Cookie` header is the held cookie, or `""` when none is held. Every extra header is kept. An extra `Cookie` overrides. The keys are exactly the extra keys plus `Cookie`. |
| `Markup.ExtractInputValue` | src/onche.js:17-20 | No result means no `<input…name="N"…value="…">` match anywhere. A result is the non-empty capture of the match a regex engine reports: leftmost, then greedy gaps. |
| `Markup.ExtractDataToken` | src/onche.js:23-26 | No result means no `id="ID"…data-token="…"` match. A result is the non-empty `data-token` capture of the reported match. |
| `Markup.CookieValue` | src/onche.js:57-58 | `header.match(/lit([^;]+)/)?.[1]`. No result means no match. A result is the greedy capture after the leftmost match, non-empty and free of `;`. |
| `Onche.LoginRun` | src/onche.js:29-64 | Login begins with a GET of the login page. A captcha page, or a page without a form token, stops before any POST. The POST carries the login, the password and the extracted token. The login succeeds exactly when the page has no captcha and has a form token and the POST answers with a truthy `Set-Cookie`; the cookie then becomes `auth=<A>; sess=<S>`. A thrown fetch, a missing form token and a missing `Set-Cookie` each end the login with their own outcome and leave the cookie as it was. |
| `Onche.CookieString` | src/onche.js:57-59 | `auth=${auth}; sess=${sess}`, each value the first `[^;]+` capture after its literal or the text `undefined`; its layout is stated by `Onche.CookieParts`. |
| `Onche.CookieParts` | src/onche.js:57-59 | The stored cookie splits on `;` into exactly its `auth=` part and its ` sess=` part. |
| `Onche.RetryRun` | src/onche.js:67-90 | The recursion on `retry` shared by `fetchChatToken` (src/onche.js:67-90) and `getProfile` (src/onche.js:135-148): a thrown fetch gives `null`, a non-200 status runs `login` and retries unless `retry > 2`, a 200 gives what the page handler makes of the body. Its answer and its request counts are stated by `Onche.RetryRunAnswer` and `Onche.RetryRunCounts`. |
| `Onche.RetryRunAnswer` | src/onche.js:67-90 | The retry's answer is what the first attempt that throws or returns 200 says. Four non-200 statuses in a row give `null`. |
| `Onche.RetryRunCounts` | src/onche.js:73-80 | The page is fetched once per try and the login page once per non-200 try. Tries are between 1 and 4, and logins are at most 4. |
| `Onche.ProfileUrlIsNotLogin` | src/onche.js:137 | The profile and chat URLs are never the login URL, so the two fetch counts are separate. |
| `Onche.GetProfileAsWrittenIsNull` | src/onche.js:150-152 | As written, the 200 branch of `getProfile` throws on the undeclared `data`. `getProfile` therefore answers `null` for every sequence of replies. |
| `Onche.GetProfileAsWrittenLosesPage` | src/onche.js:152 | Counterexample: a profile page served with status 200 still gives `null`. |
| `Onche.GetProfileFinds` | src/onche.js:135-166 | Corrected, `getProfile` answers the record scraped from the first 200 page. A throw, or four non-200 replies, gives `null`. |
| `Onche.ChatToken` | src/onche.js:84-85 | The 200 branch of `fetchChatToken`: the `chat` data-token of the page, or `null`; stated by `Onche.FetchChatTokenAnswer`. |
| `Onche.FetchChatTokenAnswer` | src/onche.js:82-89 | When `fetchChatToken` answers a token, it is the non-empty `chat` data-token of the first 200 page. A `null` answer means a throw, four non-200 replies, or no token on that page. |
| `Onche.ChatIdOf` | src/onche.js:104-108 | `data?.id \|\| null`. An id is returned exactly when the reply parsed and its `id` is truthy, and then it is that `id`. |
| `Onche.Delivered` | src/onche.js:127 | `data?.blocked === "no"` on the send reply; stated by `Onche.DeliveredMeans`. |
| `Onche.DeliveredMeans` | src/onche.js:126-130 | The message counts as delivered exactly when the reply parsed and `blocked` is the string `"no"`. |
| `Onche.SendRun` | src/onche.js:112-131 | A falsy chat id throws after the lookup and before any message post. Otherwise the message is posted to `/chat/<id>` with the message and the token. The result is true exactly when the post reports delivery. |
| `Onche.Upstream.constructor` | src/onche.js:3-6 | The client starts without a cookie and without requests. |
| `Onche.Upstream.Login` | src/onche.js:29-64 | `login()` changes the cookie and the request log exactly as `LoginRun` says. |
| `Onche.Upstream.FetchWithRelogin` | src/onche.js:67-90 | The attempt-counter loop yields the answer, cookie and requests of `RetryRun`. |
| `Onche.Upstream.FetchChatToken` | src/onche.js:67-90 | `fetchChatToken()` is the retry on the chat page with the `chat` data-token extractor. |
| `Onche.Upstream.GetProfileAsWritten` | src/onche.js:135-171 | `getProfile` as written: the retry on the profile page, always answering `null`. |
| `Onche.Upstream.GetProfile` | src/onche.js:135-171 | `getProfile` corrected: the retry on the profile page with the scraper applied to a served page. |
| `Onche.Upstream.GetChatId` | src/onche.js:93-109 | Posts the lookup (username, token) with the current headers and answers `ChatIdOf` of the reply. |
| `Onche.Upstream.SendChatMsg` | src/onche.js:112-131 | `sendChatMsg` does what `SendRun` says, request for request. |
| `Pin.Key` | src/pin.js:16 | `pin:${username}:${uid}` under the client's `oidc:` prefix; its layout is stated by `Pin.KeyLayout` and `Pin.KeyInjective`. |
| `Pin.SetEx` | src/pin.js:18 | After `setex`, the key reads as the new value at every instant before `now + ttl` and as `null` from then on; every other key reads as before, and only that key is added. |
| `Pin.Accepts` | src/pin.js:30 | `storedPin && storedPin === pin` on the live entry; stated by `Pin.VerifyRun`. |
| `Pin.Lookup` | src/pin.js:29 | `get` answers the stored value exactly while the entry has not expired. |
| `Pin.PinCode` | src/pin.js:14 | The PIN is six decimal digits, the first of them not zero, and it reads back as 100000 + draw. |
| `Pin.PinCodeInjective` | src/pin.js:14 | Distinct draws give distinct PINs. |
| `Pin.SessionToken` | src/pin.js:15 | The session token is 8 lowercase hex characters that decode back to the 4 random bytes. |
| `Pin.MessageText` | src/pin.js:22 | The chat message frame around the session token and the PIN; stated by `Pin.MessageRoundTrip` and `Pin.MessageContains`. |
| `Pin.MessageRoundTrip` | src/pin.js:22 | A reader takes the session token and the PIN back out of the chat message. |
| `Pin.MessageContains` | src/pin.js:22 | The message text contains both the session token and the PIN. |
| `Pin.VerifyRun` | src/pin.js:28-35 | `verifyPin` returns true exactly when a live, non-empty entry equals the submitted PIN. On true exactly that key is deleted; on false the store is unchanged. |
| `Pin.VerifySingleUse` | src/pin.js:30-34 | After a successful verify, a second verify of the same key fails, whatever is submitted and whenever. |
| `Pin.VerifyFrame` | src/pin.js:31 | Verifying one key leaves every other key's lookup unchanged. |
| `Pin.VerifyExpired` | src/pin.js:17-18 | From its expiry on, an entry is refused and the store is left unchanged. |
| `Pin.ReissueInvalidates` | src/pin.js:16-18 | After a re-issue, any other earlier PIN for that key is refused. |
| `Pin.IssuedIsAccepted` | src/pin.js:16-18 | A freshly issued PIN is accepted at every instant before its 600 seconds run out. |
| `Pin.KeyLayout` | src/pin.js:16 | The stored key is `oidc:pin:` + username + `:` + uid. |
| `Pin.KeyInjective` | src/pin.js:16 | When user names contain no `:`, the key determines both the user and the interaction. |
| `Pin.KeyCollision` | src/pin.js:16 | Without that restriction, user `a:b` in interaction `c` and user `a` in interaction `b:c` share a key. |
| `Pin.SendPinRun` | src/pin.js:9-26 | `sendPin`, given what `getProfile` makes of a 200 page, fails with `NoProfile` exactly when the profile lookup gives `null`; the store is then untouched and only profile and login requests are made. Otherwise the PIN is stored under the key with ttl 600, and stays there even if a later step fails. After the write, its error, cookie and requests are those of `Pin.DeliverRun` on the message carrying the session token and the PIN, and it succeeds exactly when that delivery does. Success returns the session token after a final post of that message. |
| `Pin.DeliverRun` | src/pin.js:19-23 | The steps after the store write. A `null` chat token gives exactly `NoToken`; a token and a falsy chat id give exactly `NoChatId`; a chat id and an undelivered message give exactly `NotDelivered`; a delivered message gives exactly success. Without a token only the chat-page retry is requested. With one, the next request is the chat lookup for `username` with that token, and a delivered message was last posted to the chat id the lookup gave. |
| `Pin.SendPinAsWrittenNeverSends` | src/pin.js:10-13 | With `getProfile` as written, `sendPin` fails with `NoProfile` for every user and every network answer, and leaves the store untouched. |
| `Pin.SentPinVerifies` | src/pin.js:14-25 | After a successful send, the delivered PIN verifies for that user and interaction until it expires. The message carries the returned session token and that PIN. |
| `Pin.PinService.constructor` | src/pin.js:5 | The store starts empty. |
| `Pin.PinService.SendPin` | src/pin.js:9-26 | The step sequence changes the store, the cookie and the request log exactly as `SendPinRun` says. |
| `Pin.PinService.VerifyPin` | src/pin.js:28-35 | Compare-and-delete on the store, as `VerifyRun` says. |
| `Provider.FindAccount` | src/provider.js:18-20 | The account's `accountId` is the requested id. |
| `Provider.ProfileObject` | src/onche.js:160-166 | The profile object has exactly the five keys `username`, `level`, `signup_date`, `last_login_date` and `msg_count`, each holding the string of the matching field of the scraped record. |
| `Provider.SubSpread` | src/provider.js:24 | `{sub: id, ...obj}` has the keys of `obj` plus `sub`. Every value of `obj` is kept. `sub` is the id unless `obj` has its own. |
| `Provider.SpreadOverridesSub` | src/provider.js:24 | An object with its own `sub` overrides the id. |
| `Provider.Claims` | src/provider.js:21-25 | With no profile the claims are exactly `{sub: id}`. With a profile they are `sub` = id plus every profile field unchanged. |
| `Provider.ClaimsAsWrittenRejects` | src/provider.js:22 | As written, the claims callback rejects for every account because `onche` is never imported. The corrected callback always releases `sub`. |
| `Provider.InteractionUrl` | src/provider.js:46-48 | `/interaction/${interaction.uid}`; that it routes back is stated by `Provider.InteractionRoute`. |
| `Provider.RouteUid` | src/index.js:23 | A route match yields a non-empty, slash-free segment after `/interaction/`. |
| `Provider.InteractionRoute` | src/provider.js:46-48 | `/interaction/<uid>` routes back to `uid` exactly when `uid` is non-empty and has no `/`. |
| `Provider.Issuer` | src/provider.js:52 | The issuer is the environment value when it is truthy, and `http://localhost:3000` otherwise. |
| `Provider.Ttl` | src/provider.js:32-38 | The configured lifetimes: AccessToken 3600, AuthorizationCode 600, IdToken 3600, RefreshToken 86400 and Interaction 300 seconds. |
| `Interaction.FormStep` | src/index.js:23-36 | The login form renders exactly for prompt `login`, and the consent form for every other prompt. A failed lookup goes to `next`. |
| `Interaction.UsernameResponse` | src/index.js:43-47 | The OTP form renders exactly when `sendPin` succeeded, and shows its session token. Every failure is the 500 `Failed to send PIN`. |
| `Interaction.PostUsername` | src/index.js:39-49 | A failed details lookup sends the 500 reply without calling `sendPin`. Otherwise `sendPin` runs on the body's username and the path uid. |
| `Interaction.SubmittedPin` | src/index.js:57 | The six fields joined in order, an absent one printing as `undefined`; stated by `Interaction.SubmittedPinJoins` and `Interaction.SubmittedPinMissingField`. |
| `Interaction.SubmittedPinJoins` | src/index.js:56-57 | The six fields, joined in order, give back the PIN they were typed from. |
| `Interaction.SubmittedPinMissingField` | src/index.js:57 | A submission with an absent field contains `undefined`, so it is never a minted PIN. |
| `Interaction.VerifyResponse` | src/index.js:59-68 | `interactionFinished` is called exactly when the PIN is valid. It receives `{login: {accountId: username}}` with no merge. Corrected, a wrong PIN re-renders the OTP form with `******` and `PIN invalide`. |
| `Interaction.VerifyAsWrittenRejectsWith500` | src/index.js:60-61 | As written, every wrong PIN ends in the 500 reply `uid is not defined`. Right PINs are handled the same as in the corrected version. |
| `Interaction.PostVerify` | src/index.js:53-70 | The digits are joined and verified against the path uid's key. The store and the reply follow `VerifyRun` and `VerifyResponse`. |
| `Interaction.AddOidcScope` | src/index.js:85 | Every space-separated scope is added, and nothing else changes. |
| `Interaction.AddOidcClaims` | src/index.js:86 | Every listed claim is added, and nothing else changes. |
| `Interaction.ConsentScopes` | src/index.js:85 | `'openid profile'` grants exactly `openid` and `profile`. |
| `Interaction.GrantStore.Find` | src/index.js:80 | `Grant.find(id)` finds the grant saved under the id, and nothing for an absent id. |
| `Interaction.GrantStore.Save` | src/index.js:88 | `grant.save()` stores the grant under its id. |
| `Interaction.NewGrant` | src/index.js:82 | `new provider.Grant({accountId, clientId})`, with no scope and no claim yet; what it ends as is stated by `Interaction.ConsentGrant`. |
| `Interaction.ConsentGrant` | src/index.js:80-88 | A found grant keeps its id, account and client, and gains the two scopes and the eight claims. Otherwise a new grant is made for `{accountId, clientId}` with exactly those scopes and claims, under the id the provider hands out for it, which is not yet in use; the saved id is an existing one exactly when a grant was found. |
| `Interaction.Consent` | src/index.js:73-97 | With a falsy account, or a failed lookup, nothing is found, made or saved, and the reply is the text 500. Otherwise the grant is saved and the step finishes with `{consent: {grantId}}` and the merge flag set. |
| `Interaction.GrantedAndReleasedClaims` | src/index.js:86 | The granted claims and the released claims share only `sub`. |
| `Text.Decimal` | src/pin.js:14 | `String(n)` consists of digits and has a leading zero only for 0. Its length `k` satisfies 10^(k-1) ≤ n < 10^k. |
| `Text.DecimalRoundTrip` | src/pin.js:14 | Parsing `String(n)` gives back `n`. |
| `Text.DecimalWidth` | src/pin.js:14 | A number in [10^(k-1), 10^k) has exactly `k` digits. |
| `Text.Hex` | src/pin.js:15 | Hex encoding yields two lowercase hex digits per byte. |
| `Text.HexRoundTrip` | src/pin.js:15 | Decoding the hex of some bytes gives back those bytes. |
| `Text.Split` | src/index.js:85 | `split` yields at least one part, and no part contains the separator. |
| `Text.SplitJoin` | src/index.js:85 | Splitting a join of separator-free parts gives back the parts. |
| `Text.JoinSplit` | src/index.js:85 | Joining a split gives back the string. |

## Left out

- **Network I/O.** Every fetch to onche.org is an input, and a `Threw` reply stands for any exception on that step. A 200 page whose body cannot be read is folded into `Threw`.
- **Profile scraping.** cheerio and its CSS selectors (src/onche.js:152-166) are a function parameter from page to `Profile`.
- **Console logging.** It is omitted.
- **Randomness.** `Math.random` becomes an integer draw in [0, 900000), which gives the PIN floor(100000 + draw). Floating-point rounding is not modelled. `randomBytes(4)` becomes four bytes given as input.
- **The clock.** It is one instant per call, given as a parameter. Redis's own removal of expired keys is modelled by lookups that ignore expired entries.
- **Redis connection and events** (src/pin.js:5-7). They are not modelled, and neither is a failing Redis call.
- **The `oidc-provider` engine.** `interactionDetails` and `interactionFinished` are outcomes given as inputs. `Grant` is reduced to account, client, scope set and claim set. The id chosen when a new grant is saved is an input.
- **Express and EJS.** Routing, body parsing, static files, views and HTTP framing are reduced to the outcome of each route. Body fields are strings or absent; extended-urlencoded arrays and objects are not modelled.
- **Params are not decoded.** `RouteUid` does not percent-decode its path. Express routes are also non-strict and case-insensitive by default, so `/interaction/abc/` and `/Interaction/abc` match with uid `abc`; `RouteUid` answers `None` for both.
- **Provider configuration not taken up.** `clients.json` loading, the JWKS, the adapter and the `features` flags of src/provider.js are left out. What `oidc-provider` does with the TTLs is not modelled.
- **src/key-loader.js is not part of this model.** It is file I/O and key generation.
- **test-client.js is not part of this model.** It is a demo client.
- **Concurrency.** The shared cookie, the get-then-delete in `verifyPin` and overlapping logins are not modelled as interleavings.
- **`Onche.RetryRun` takes exactly four attempts**, one per possible try. A run that stops early leaves the rest unread.
- **`Json.JsonTruthy` covers integers only.** Non-integral numbers and `NaN` are not modelled, so `Interp` of a number is an integer's decimal string. JavaScript prints integers of magnitude 10^21 or more in exponent form (`1e+21`); `IntString` always prints every digit.

## Findings

| source | as written | input that shows it | evidently intended | confidence | as-written member | corrected member |
|---|---|---|---|---|---|---|
| src/onche.js:150-152 | `cheerio.load(data)` loads the undeclared `data`. The `ReferenceError` is caught, so `getProfile` answers `null` on every 200 page. Through `sendPin`, no user can receive a PIN: it always stops at its profile check. | a profile page served with status 200 at the first try | `cheerio.load(html)`, returning the scraped record | high (not executed) | `Onche.GetProfileAsWrittenIsNull` (with `Onche.ProfileAsWritten`, `Onche.GetProfileAsWrittenLosesPage`, `Pin.SendPinAsWrittenNeverSends`) | `Onche.GetProfileFinds` (with `Onche.ProfileScraped`, `Onche.Upstream.GetProfile`, used by `Pin.PinService.SendPin`) |
| src/provider.js:22 | `claims` calls `onche.getProfile`, but `onche` is never imported in src/provider.js. The callback rejects for every account. | any account id | `import * as onche from './onche.js'`, giving `{sub: id, ...profile}` | high (not executed) | `Provider.ClaimsAsWrittenRejects` (with `Provider.ClaimsAsWritten`) | `Provider.Claims` |
| src/index.js:60-61 | The wrong-PIN re-render names `uid`, which the verify handler never declares. Every wrong PIN ends in the 500 JSON reply instead of the OTP form. | any submission that `verifyPin` rejects | render the OTP form with the interaction's uid, `******` and `PIN invalide` | high (not executed) | `Interaction.VerifyAsWrittenRejectsWith500` (with `Interaction.VerifyResponseAsWritten`) | `Interaction.VerifyResponse` (used by `Interaction.PostVerify`) |
