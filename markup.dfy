/** The pure helpers of the upstream client (src/onche.js): the request
    headers built from the held cookie, the two regular-expression extractors
    that read one-time tokens out of the site's HTML, and the extraction of a
    cookie value from a `Set-Cookie` header.

    Each regular expression has a fixed shape, so instead of a general regex
    engine the model gives, per shape, a declarative predicate saying when the
    pattern matches at given positions, and a search that returns the match a
    backtracking engine reports: the leftmost start, and among the matches at
    that start, the one preferred by the greedy `[^>]+` gaps (the longest
    first gap, then the longest second gap). */
module Markup {
  import opened Common
  import opened Text

  // ---------------------------------------------------------------------
  // Headers (getHeaders)

  const CookieHeader := "Cookie"

  /** `{Cookie: cookie || "", ...extra}`: the held cookie (or the empty string
      when none is held) with the extra headers laid over it. */
  function Headers(cookie: Option<string>, extra: map<string, string>): (h: map<string, string>)
    ensures h.Keys == extra.Keys + {CookieHeader}
    ensures forall k :: k in extra ==> h[k] == extra[k]
    ensures CookieHeader !in extra ==> h[CookieHeader] == (if Truthy(cookie) then cookie.value else "")
  {
    map[CookieHeader := if Truthy(cookie) then cookie.value else ""] + extra
  }

  // ---------------------------------------------------------------------
  // Building blocks of the two HTML patterns

  const InputTag := "<input"
  const ValueAttr := "value=\""
  const DataTokenAttr := "data-token=\""

  /** `name="<name>"`; the name is taken literally. */
  function NameAttr(name: string): string
  {
    "name=\"" + name + "\""
  }

  /** `id="<id>"`; the id is taken literally. */
  function IdAttr(id: string): string
  {
    "id=\"" + id + "\""
  }

  /** `[^>]+` over `h[g..q]`, then `lit` at `q`. */
  predicate GapLit(h: string, g: int, q: int, lit: string)
  {
    0 <= g < q <= |h| && Avoids(h, g, q, '>') && LitAt(h, q, lit)
  }

  /** `([^"]+)"`: the capture `h[c..s]` and the closing quote at `s`. */
  predicate QuotedTail(h: string, c: int, s: int)
  {
    0 <= c < s < |h| && Avoids(h, c, s, '"') && h[s] == '"'
  }

  /** `[^>]+<lit>([^"]+)"` starting at `g`, with `lit` at `r`. */
  predicate TailMatch(h: string, g: int, lit: string, r: int, s: int)
  {
    GapLit(h, g, r, lit) && QuotedTail(h, r + |lit|, s)
  }

  /** The end of the capture `([^"]+)"` that starts at `c`: the closing quote
      is the first quote at or after `c`, and the capture is non-empty. */
  function QuoteEnd(h: string, c: int): (r: Option<int>)
    ensures forall s :: QuotedTail(h, c, s) <==> r == Some(s)
  {
    if c < 0 || c > |h| then None
    else
      var e := Scan(h, c, '"');
      assert forall s :: QuotedTail(h, c, s) ==> s == e;
      if c < e < |h| then Some(e) else None
  }

  /** The preferred way to match `[^>]+<lit>([^"]+)"` from `g` with `lit` at
      or before `j`: the greedy gap takes the last `lit` that can still be
      followed by a capture. */
  function TailDown(h: string, g: int, lit: string, j: int): (t: Option<(int, int)>)
    ensures t.None? ==> forall r, s :: r <= j ==> !TailMatch(h, g, lit, r, s)
    ensures t.Some? ==> t.value.0 <= j && TailMatch(h, g, lit, t.value.0, t.value.1)
    ensures t.Some? ==> forall r, s :: TailMatch(h, g, lit, r, s) && r <= j ==> r <= t.value.0
    decreases j - g
  {
    if j <= g then None
    else if GapLit(h, g, j, lit) && QuoteEnd(h, j + |lit|).Some? then
      Some((j, QuoteEnd(h, j + |lit|).value))
    else
      TailDown(h, g, lit, j - 1)
  }

  function TailAt(h: string, g: int, lit: string): (t: Option<(int, int)>)
    ensures t.None? ==> forall r, s :: !TailMatch(h, g, lit, r, s)
    ensures t.Some? ==> TailMatch(h, g, lit, t.value.0, t.value.1)
    ensures t.Some? ==> forall r, s :: TailMatch(h, g, lit, r, s) ==> r <= t.value.0
  {
    TailDown(h, g, lit, |h|)
  }

  // ---------------------------------------------------------------------
  // extractInputValue: <input[^>]+name="NAME"[^>]+value="([^"]+)"

  /** The part of the pattern after `<input`, with `name="..."` at `q` and
      `value="` at `r`. */
  predicate MidMatch(h: string, g: int, name: string, q: int, r: int, s: int)
  {
    GapLit(h, g, q, NameAttr(name)) && TailMatch(h, q + |NameAttr(name)|, ValueAttr, r, s)
  }

  /** The whole input-value pattern, starting at `p`. */
  predicate InputMatch(h: string, name: string, p: int, q: int, r: int, s: int)
  {
    LitAt(h, p, InputTag) && MidMatch(h, p + |InputTag|, name, q, r, s)
  }

  /** The match the regex engine reports: leftmost start, then longest first
      gap, then longest second gap. */
  ghost predicate InputFirst(h: string, name: string, p: int, q: int, r: int, s: int)
  {
    InputMatch(h, name, p, q, r, s) &&
    forall p', q', r', s' :: InputMatch(h, name, p', q', r', s') ==>
      p < p' || (p == p' && (q' < q || (q' == q && r' <= r)))
  }

  /** The preferred match of the middle part from `g` with the name
      attribute at or before `j`. */
  function MidDown(h: string, g: int, name: string, j: int): (m: Option<(int, int, int)>)
    ensures m.None? ==> forall q, r, s :: q <= j ==> !MidMatch(h, g, name, q, r, s)
    ensures m.Some? ==> m.value.0 <= j && MidMatch(h, g, name, m.value.0, m.value.1, m.value.2)
    ensures m.Some? ==> forall q, r, s :: MidMatch(h, g, name, q, r, s) && q <= j ==>
      q < m.value.0 || (q == m.value.0 && r <= m.value.1)
    decreases j - g
  {
    var na := NameAttr(name);
    if j <= g then None
    else if GapLit(h, g, j, na) && TailAt(h, j + |na|, ValueAttr).Some? then
      var t := TailAt(h, j + |na|, ValueAttr).value;
      Some((j, t.0, t.1))
    else
      MidDown(h, g, name, j - 1)
  }

  /** The leftmost start at or after `i` where the input-value pattern
      matches, with its preferred match. */
  function InputFrom(h: string, name: string, i: int): (m: Option<(int, int, int, int)>)
    ensures m.None? ==> forall p, q, r, s :: i <= p ==> !InputMatch(h, name, p, q, r, s)
    ensures m.Some? ==> i <= m.value.0 && InputMatch(h, name, m.value.0, m.value.1, m.value.2, m.value.3)
    ensures m.Some? ==> forall p, q, r, s :: InputMatch(h, name, p, q, r, s) && i <= p ==>
      m.value.0 < p || (m.value.0 == p && (q < m.value.1 || (q == m.value.1 && r <= m.value.2)))
    decreases |h| - i
  {
    if i > |h| then None
    else if LitAt(h, i, InputTag) && MidDown(h, i + |InputTag|, name, |h|).Some? then
      var m := MidDown(h, i + |InputTag|, name, |h|).value;
      Some((i, m.0, m.1, m.2))
    else
      InputFrom(h, name, i + 1)
  }

  /** `extractInputValue(html, name)`: the captured `value` of the match the
      regex engine reports, or `None` (the source's `null`) when the pattern
      matches nowhere. */
  function ExtractInputValue(h: string, name: string): (v: Option<string>)
    ensures v.None? ==> forall p, q, r, s :: !InputMatch(h, name, p, q, r, s)
    ensures v.Some? ==> exists p, q, r, s :: InputFirst(h, name, p, q, r, s) && v.value == h[r + |ValueAttr|..s]
    ensures v.Some? ==> v.value != ""
  {
    var m := InputFrom(h, name, 0);
    if m.None? then None
    else
      var (p, q, r, s) := m.value;
      assert InputFirst(h, name, p, q, r, s);
      Some(h[r + |ValueAttr|..s])
  }

  // ---------------------------------------------------------------------
  // extractDataToken: id="ID"[^>]+data-token="([^"]+)"

  /** The data-token pattern starting at `p`, where `open` is the literal
      `id="<id>"`. */
  predicate TokenMatch(h: string, open: string, p: int, q: int, s: int)
  {
    LitAt(h, p, open) && TailMatch(h, p + |open|, DataTokenAttr, q, s)
  }

  /** The match the regex engine reports: leftmost start, then longest gap. */
  ghost predicate TokenFirst(h: string, open: string, p: int, q: int, s: int)
  {
    TokenMatch(h, open, p, q, s) &&
    forall p', q', s' :: TokenMatch(h, open, p', q', s') ==> p < p' || (p == p' && q' <= q)
  }

  /** The leftmost start at or after `i` where the data-token pattern
      matches, with its preferred match. */
  function TokenFrom(h: string, open: string, i: int): (m: Option<(int, int, int)>)
    ensures m.None? ==> forall p, q, s :: i <= p ==> !TokenMatch(h, open, p, q, s)
    ensures m.Some? ==> i <= m.value.0 && TokenMatch(h, open, m.value.0, m.value.1, m.value.2)
    ensures m.Some? ==> forall p, q, s :: TokenMatch(h, open, p, q, s) && i <= p ==>
      m.value.0 < p || (m.value.0 == p && q <= m.value.1)
    decreases |h| - i
  {
    if i > |h| then None
    else if LitAt(h, i, open) && TailAt(h, i + |open|, DataTokenAttr).Some? then
      var t := TailAt(h, i + |open|, DataTokenAttr).value;
      Some((i, t.0, t.1))
    else
      TokenFrom(h, open, i + 1)
  }

  /** `extractDataToken(html, id)`: the captured `data-token` of the match
      the regex engine reports, or `None` when there is none. */
  function ExtractDataToken(h: string, id: string): (v: Option<string>)
    ensures v.None? ==> forall p, q, s :: !TokenMatch(h, IdAttr(id), p, q, s)
    ensures v.Some? ==> exists p, q, s :: TokenFirst(h, IdAttr(id), p, q, s) && v.value == h[q + |DataTokenAttr|..s]
    ensures v.Some? ==> v.value != ""
  {
    var m := TokenFrom(h, IdAttr(id), 0);
    if m.None? then None
    else
      var (p, q, s) := m.value;
      assert TokenFirst(h, IdAttr(id), p, q, s);
      Some(h[q + |DataTokenAttr|..s])
  }

  // ---------------------------------------------------------------------
  // Set-Cookie values: /auth=([^;]+)/ and /sess=([^;]+)/

  /** `<lit>([^;]+)` with the capture `h[p + |lit|..e]`. */
  predicate RunMatch(h: string, lit: string, p: int, e: int)
  {
    LitAt(h, p, lit) && p + |lit| < e <= |h| && Avoids(h, p + |lit|, e, ';')
  }

  /** The match the regex engine reports: leftmost, then the greedy capture. */
  ghost predicate RunFirst(h: string, lit: string, p: int, e: int)
  {
    RunMatch(h, lit, p, e) &&
    forall p', e' :: RunMatch(h, lit, p', e') ==> p < p' || (p == p' && e' <= e)
  }

  /** The leftmost start at or after `i` where `<lit>[^;]` occurs. */
  function RunFrom(h: string, lit: string, i: int): (p: Option<int>)
    ensures p.None? ==> forall p', e :: i <= p' ==> !RunMatch(h, lit, p', e)
    ensures p.Some? ==> i <= p.value && LitAt(h, p.value, lit) && p.value + |lit| < |h| && h[p.value + |lit|] != ';'
    ensures p.Some? ==> forall p', e :: RunMatch(h, lit, p', e) && i <= p' ==> p.value <= p'
    decreases |h| - i
  {
    if i > |h| then None
    else if LitAt(h, i, lit) && i + |lit| < |h| && h[i + |lit|] != ';' then Some(i)
    else RunFrom(h, lit, i + 1)
  }

  /** `header.match(/<lit>([^;]+)/)?.[1]`: the value after the first `lit`
      that is followed by at least one character other than `;`, up to the
      next `;` or the end of the header. */
  function CookieValue(h: string, lit: string): (v: Option<string>)
    ensures v.None? ==> forall p, e :: !RunMatch(h, lit, p, e)
    ensures v.Some? ==> exists p, e :: RunFirst(h, lit, p, e) && v.value == h[p + |lit|..e]
    ensures v.Some? ==> v.value != "" && ';' !in v.value
  {
    var p := RunFrom(h, lit, 0);
    if p.None? then None
    else
      var c := p.value + |lit|;
      var e := Scan(h, c, ';');
      CookieRunFacts(h, lit, p.value, e);
      Some(h[c..e])
  }

  lemma CookieRunFacts(h: string, lit: string, p: int, e: int)
    requires LitAt(h, p, lit) && p + |lit| < |h| && h[p + |lit|] != ';'
    requires e == Scan(h, p + |lit|, ';')
    requires forall p', e' :: RunMatch(h, lit, p', e') ==> p <= p'
    ensures RunFirst(h, lit, p, e) && ';' !in h[p + |lit|..e]
  {
    var c := p + |lit|;
    assert RunMatch(h, lit, p, e);
    assert forall p', e' :: RunMatch(h, lit, p', e') && p' == p ==> e' <= e;
    forall i | 0 <= i < e - c ensures h[c..e][i] != ';' {
      assert h[c..e][i] == h[c + i];
    }
  }
}
