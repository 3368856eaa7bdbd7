/** Small value types and string helpers shared by the handlers: JavaScript
    truthiness of optional strings, number-to-string rendering, `split(c).pop()`,
    ASCII `toLowerCase` and the `replace(/\/$/, '')` used on the site URL. */
module Common {

  datatype Option<+T> = None | Some(value: T)

  /** A thrown `Error` (its message) or a value. */
  datatype Result<+T> = Ok(value: T) | Err(message: string)

  /** JavaScript truthiness of a string field that may be absent or null:
      absent, null and "" are all falsy. */
  predicate Present(s: Option<string>) {
    s.Some? && s.value != ""
  }

  /** `s || fallback` for an optional string. */
  function OrElse(s: Option<string>, fallback: string): string {
    if Present(s) then s.value else fallback
  }

  /** A numeric field of a JSON body: absent, `null`, or an integer. */
  datatype NumberField = Absent | Null | Number(value: int)

  /** The field after `{ field = fallback } = body`, as `<` and `>` see it:
      the fallback replaces only an absent field, and `null` compares as 0. */
  function Numeric(f: NumberField, fallback: int): int {
    match f
    case Absent => fallback
    case Null => 0
    case Number(n) => n
  }

  /** `s.replace(/\/$/, '')`: drops one trailing '/', if there is one. */
  function StripTrailingSlash(s: string): (r: string)
    ensures s == r || s == r + "/"
    ensures |s| > 0 && s[|s| - 1] == '/' ==> r == s[..|s| - 1]
    ensures |s| == 0 || s[|s| - 1] != '/' ==> r == s
  {
    if |s| > 0 && s[|s| - 1] == '/' then s[..|s| - 1] else s
  }

  // ---------------------------------------------------------------------------
  // Decimal rendering of non-negative integers, as `${n}` renders them.

  predicate IsDigit(c: char) {
    '0' <= c <= '9'
  }

  function DigitChar(d: nat): (c: char)
    requires d < 10
    ensures IsDigit(c) && c as int - '0' as int == d
  {
    ('0' as int + d) as char
  }

  /** The decimal digits of `n`, most significant first, without leading zeros. */
  function NatToDecimal(n: nat): (s: string)
    ensures 1 <= |s|
    ensures forall i :: 0 <= i < |s| ==> IsDigit(s[i])
    ensures s[0] == '0' ==> n == 0
    decreases n
  {
    if n < 10 then [DigitChar(n)] else NatToDecimal(n / 10) + [DigitChar(n % 10)]
  }

  /** The number a string of decimal digits denotes. */
  function DecimalValue(s: string): nat
    requires forall i :: 0 <= i < |s| ==> IsDigit(s[i])
  {
    if s == [] then 0
    else DecimalValue(s[..|s| - 1]) * 10 + DigitValue(s[|s| - 1])
  }

  function DigitValue(c: char): nat
    requires IsDigit(c)
  {
    c as int - '0' as int
  }

  /** Rendering a count in decimal loses nothing: it can be read back. */
  lemma {:induction false} DecimalRoundTrip(n: nat)
    ensures DecimalValue(NatToDecimal(n)) == n
    decreases n
  {
    var s := NatToDecimal(n);
    if n >= 10 {
      DecimalRoundTrip(n / 10);
      assert s[..|s| - 1] == NatToDecimal(n / 10);
    }
  }

  /** Two different counts never render to the same text. */
  lemma NatToDecimalInjective(a: nat, b: nat)
    requires NatToDecimal(a) == NatToDecimal(b)
    ensures a == b
  {
    DecimalRoundTrip(a);
    DecimalRoundTrip(b);
  }

  // ---------------------------------------------------------------------------
  // `s.split(sep).pop()`

  /** The text after the last `sep` in `s`, or all of `s` when `sep` does not
      occur: the last element of `s.split(sep)`. */
  function AfterLast(s: string, sep: char): (r: string)
    ensures sep !in r
    ensures |r| <= |s| && r == s[|s| - |r|..]
    ensures |r| < |s| ==> s[|s| - |r| - 1] == sep
    ensures |r| == |s| ==> sep !in s
    decreases |s|
  {
    if s == [] then []
    else if s[|s| - 1] == sep then []
    else AfterLast(s[..|s| - 1], sep) + [s[|s| - 1]]
  }

  /** Whatever precedes the last separator does not matter. */
  lemma {:induction false} AfterLastOfJoin(prefix: string, sep: char, tail: string)
    requires sep !in tail
    ensures AfterLast(prefix + [sep] + tail, sep) == tail
    decreases |tail|
  {
    if tail != [] {
      var s := prefix + [sep] + tail;
      var init := tail[..|tail| - 1];
      assert s[..|s| - 1] == prefix + [sep] + init;
      AfterLastOfJoin(prefix, sep, init);
      assert tail == init + [tail[|tail| - 1]];
    }
  }

  // ---------------------------------------------------------------------------
  // `toLowerCase`, restricted to ASCII letters.

  function LowerChar(c: char): char {
    if 'A' <= c <= 'Z' then (c as int + 32) as char else c
  }

  /** `s.toLowerCase()` on the ASCII letters; every other character is kept. */
  function ToLower(s: string): (r: string)
    ensures |r| == |s|
    ensures forall i :: 0 <= i < |s| ==> r[i] == LowerChar(s[i])
    ensures forall i :: 0 <= i < |r| ==> !('A' <= r[i] <= 'Z')
  {
    seq(|s|, i requires 0 <= i < |s| => LowerChar(s[i]))
  }

  /** Lower-casing twice is lower-casing once. */
  lemma ToLowerIdempotent(s: string)
    ensures ToLower(ToLower(s)) == ToLower(s)
  {
    var once := ToLower(s);
    assert forall i :: 0 <= i < |once| ==> LowerChar(once[i]) == once[i];
  }

  // ---------------------------------------------------------------------------
  // `xs.join(sep)`

  function Join(xs: seq<string>, sep: string): string {
    if xs == [] then ""
    else if |xs| == 1 then xs[0]
    else xs[0] + sep + Join(xs[1..], sep)
  }
}
