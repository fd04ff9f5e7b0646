/** String helpers with the semantics of the JavaScript built-ins the service
    uses: substring search, `String(n)` on a non-negative integer, hexadecimal
    encoding of bytes (`Buffer.toString('hex')`) and `String.prototype.split`
    on a one-character separator. */
module Text {
  import opened Common

  /** `lit` occurs in `h` starting at index `i`. */
  predicate LitAt(h: string, i: int, lit: string)
  {
    0 <= i && i + |lit| <= |h| && h[i..i + |lit|] == lit
  }

  /** `h.includes(lit)`. */
  predicate Contains(h: string, lit: string)
  {
    exists i :: 0 <= i <= |h| && LitAt(h, i, lit)
  }

  /** No character of `h[lo..hi]` is `c`. */
  predicate Avoids(h: string, lo: int, hi: int, c: char)
    requires 0 <= lo <= hi <= |h|
  {
    forall k :: lo <= k < hi ==> h[k] != c
  }

  /** The first index at or after `c` that holds `ch`, or `|h|` when none
      does. */
  function Scan(h: string, c: int, ch: char): (e: int)
    requires 0 <= c <= |h|
    ensures c <= e <= |h| && Avoids(h, c, e, ch)
    ensures e < |h| ==> h[e] == ch
    decreases |h| - c
  {
    if c == |h| || h[c] == ch then c else Scan(h, c + 1, ch)
  }

  // ---------------------------------------------------------------------
  // Decimal notation

  predicate IsDigit(c: char)
  {
    '0' <= c <= '9'
  }

  predicate AllDigits(s: string)
  {
    forall i :: 0 <= i < |s| ==> IsDigit(s[i])
  }

  function DigitChar(d: int): char
    requires 0 <= d < 10
  {
    (48 + d) as char
  }

  function DigitValue(c: char): int
  {
    c as int - 48
  }

  function Pow10(k: nat): nat
  {
    if k == 0 then 1 else 10 * Pow10(k - 1)
  }

  /** `String(n)` for a non-negative integer: its decimal digits, without
      leading zeros. */
  function Decimal(n: nat): (s: string)
    ensures |s| >= 1 && AllDigits(s)
    ensures s[0] == '0' <==> n == 0
    ensures n < Pow10(|s|)
    ensures n == 0 || Pow10(|s| - 1) <= n
    decreases n
  {
    if n < 10 then [DigitChar(n)] else Decimal(n / 10) + [DigitChar(n % 10)]
  }

  /** The inverse of `Decimal`: the value of a string of digits. */
  function ParseDecimal(s: string): nat
    requires AllDigits(s)
    decreases |s|
  {
    if s == [] then 0 else 10 * ParseDecimal(s[..|s| - 1]) + DigitValue(s[|s| - 1])
  }

  lemma {:induction false} DecimalRoundTrip(n: nat)
    ensures ParseDecimal(Decimal(n)) == n
    decreases n
  {
    if n >= 10 {
      var s := Decimal(n);
      assert s[..|s| - 1] == Decimal(n / 10);
      DecimalRoundTrip(n / 10);
    }
  }

  /** A number in `[Pow10(k - 1), Pow10(k))` has exactly `k` digits. */
  lemma {:induction false} DecimalWidth(n: nat, k: nat)
    requires k >= 1 && Pow10(k - 1) <= n < Pow10(k)
    ensures |Decimal(n)| == k
  {
    var w := |Decimal(n)|;
    if w < k {
      Pow10Monotone(w, k - 1);
    } else if w > k {
      Pow10Monotone(k, w - 1);
    }
  }

  lemma {:induction false} Pow10Monotone(i: nat, j: nat)
    requires i <= j
    ensures Pow10(i) <= Pow10(j)
    decreases j - i
  {
    if i < j {
      Pow10Monotone(i, j - 1);
    }
  }

  // ---------------------------------------------------------------------
  // Hexadecimal notation

  type Byte = b: int | 0 <= b < 256

  predicate IsLowerHex(c: char)
  {
    '0' <= c <= '9' || 'a' <= c <= 'f'
  }

  function HexChar(d: int): char
    requires 0 <= d < 16
  {
    if d < 10 then (48 + d) as char else (87 + d) as char
  }

  function HexValue(c: char): (d: int)
    requires IsLowerHex(c)
    ensures 0 <= d < 16
  {
    if c <= '9' then c as int - 48 else c as int - 87
  }

  /** `Buffer.toString('hex')`: two lowercase hexadecimal digits per byte,
      high nibble first. */
  function Hex(bs: seq<Byte>): (s: string)
    ensures |s| == 2 * |bs|
    ensures forall i :: 0 <= i < |s| ==> IsLowerHex(s[i])
  {
    if bs == [] then [] else [HexChar(bs[0] / 16), HexChar(bs[0] % 16)] + Hex(bs[1..])
  }

  /** The inverse of `Hex`. */
  function ParseHex(s: string): seq<Byte>
    requires |s| % 2 == 0
    requires forall i :: 0 <= i < |s| ==> IsLowerHex(s[i])
  {
    if s == [] then [] else [16 * HexValue(s[0]) + HexValue(s[1])] + ParseHex(s[2..])
  }

  lemma {:induction false} HexRoundTrip(bs: seq<Byte>)
    ensures ParseHex(Hex(bs)) == bs
  {
    if bs != [] {
      var s := Hex(bs);
      assert s[2..] == Hex(bs[1..]);
      HexRoundTrip(bs[1..]);
    }
  }

  // ---------------------------------------------------------------------
  // Splitting on a separator

  /** `s.split(c)`: the maximal runs between occurrences of `c`, empty runs
      included. */
  function Split(s: string, c: char): (parts: seq<string>)
    ensures |parts| >= 1
    ensures forall i :: 0 <= i < |parts| ==> c !in parts[i]
    decreases |s|
  {
    if s == [] then [""]
    else
      var rest := Split(s[1..], c);
      if s[0] == c then [""] + rest else [[s[0]] + rest[0]] + rest[1..]
  }

  /** `parts.join(c)`. */
  function Join(parts: seq<string>, c: char): string
    requires |parts| >= 1
  {
    if |parts| == 1 then parts[0] else parts[0] + [c] + Join(parts[1..], c)
  }

  /** Splitting undoes joining: `Split` recovers exactly the parts of any
      separator-free list it is given joined. */
  lemma {:induction false} SplitJoin(parts: seq<string>, c: char)
    requires |parts| >= 1
    requires forall i :: 0 <= i < |parts| ==> c !in parts[i]
    ensures Split(Join(parts, c), c) == parts
    decreases |Join(parts, c)|
  {
    var p := parts[0];
    if |parts| == 1 {
      if p != [] {
        assert Join([p[1..]], c) == p[1..];
        SplitJoin([p[1..]], c);
        assert p[0] != c;
        assert [p[0]] + p[1..] == p;
        assert Split(p, c) == [[p[0]] + p[1..]];
      }
    } else if p == [] {
      assert Join(parts, c) == [c] + Join(parts[1..], c);
      assert Join(parts, c)[1..] == Join(parts[1..], c);
      SplitJoin(parts[1..], c);
    } else {
      var tail := [p[1..]] + parts[1..];
      assert tail[1..] == parts[1..];
      assert Join(tail, c) == p[1..] + [c] + Join(parts[1..], c);
      assert Join(parts, c)[1..] == Join(tail, c);
      assert forall i :: 0 <= i < |tail| ==> c !in tail[i] by {
        forall i | 0 <= i < |tail| ensures c !in tail[i] {
          if i == 0 { assert c !in p; } else { assert tail[i] == parts[i]; }
        }
      }
      SplitJoin(tail, c);
      assert [p[0]] + p[1..] == p;
    }
  }

  /** Joining undoes splitting. */
  lemma {:induction false} JoinSplit(s: string, c: char)
    ensures Join(Split(s, c), c) == s
    decreases |s|
  {
    if s != [] {
      JoinSplit(s[1..], c);
      var rest := Split(s[1..], c);
      if s[0] == c {
        assert Split(s, c) == [""] + rest;
        assert ([""] + rest)[1..] == rest;
      } else {
        var parts := Split(s, c);
        assert parts == [[s[0]] + rest[0]] + rest[1..];
        if |rest| == 1 {
          assert Join(parts, c) == [s[0]] + rest[0];
        } else {
          assert parts[1..] == rest[1..];
          assert Join(parts, c) == [s[0]] + (rest[0] + [c] + Join(rest[1..], c));
        }
      }
    }
  }
}
