/** The string helpers of utils.go, and the decimal rendering that Go's
    `%d` verb performs in the fixture's error messages. */
module Utils {

  /** The alphabet `randomCharacters` draws from (utils.go:8). */
  const Characters: string := "abcdefghijklmnopqrstuvwxyzABCDEFGHIJKLMNOPQRSTUVWXYZ0123456789"

  /** A value `rand.Intn(len(characters))` can return. */
  type SymbolIndex = i: int | 0 <= i < 62

  /** randomCharacters (utils.go:10-18): fills a fresh array of `n` symbols,
      taking the alphabet index of the i-th symbol from the i-th draw of
      the random source, which the model receives as `draws`. */
  method RandomCharacters(n: nat, draws: nat -> SymbolIndex) returns (s: string)
    ensures |s| == n
    ensures forall i :: 0 <= i < n ==> s[i] == Characters[draws(i)]
    ensures forall i :: 0 <= i < n ==> s[i] in Characters
  {
    var b := new char[n];
    for i := 0 to n
      invariant forall k :: 0 <= k < i ==> b[k] == Characters[draws(k)]
    {
      b[i] := Characters[draws(i)];
    }
    s := b[..];
  }

  /** `suffix` is the end of `text`. */
  predicate EndsWith(text: string, suffix: string) {
    |suffix| <= |text| && text[|text| - |suffix|..] == suffix
  }

  /** Text built as `a + b` ends with `b`. */
  lemma EndsWithTail(a: string, b: string)
    ensures EndsWith(a + b, b)
  {
  }

  /** Text built as `a + b + c + d` ends with `b + c + d`. */
  lemma EndsWithAppend(a: string, b: string, c: string, d: string)
    ensures EndsWith(a + b + c + d, b + c + d)
  {
    assert a + b + c + d == a + (b + c + d);
  }

  /** truncate (utils.go:20-26), over the bytes of a Go string: text that
      fits is returned as it is; longer text is cut to `maxLength` elements
      and `affix` is appended. A negative `maxLength` makes Go slice
      `text[:maxLength]`, which panics for every text, the empty one
      included; the only caller passes 40. */
  function Truncate<T>(text: seq<T>, maxLength: nat, affix: seq<T>): (r: seq<T>)
    ensures |text| <= maxLength ==> r == text
    ensures |text| > maxLength ==>
      |r| == maxLength + |affix| && r[..maxLength] == text[..maxLength] && r[maxLength..] == affix
    ensures text[..if |text| < maxLength then |text| else maxLength] <= r
  {
    if |text| <= maxLength then text else text[..maxLength] + affix
  }

  function Digit(d: nat): char
    requires d < 10
  {
    ('0' as int + d) as char
  }

  /** Go's `%d` rendering of a non-negative integer. */
  function NatToString(n: nat): (s: string)
    ensures |s| > 0 && (n >= 10 ==> s[0] != '0')
    ensures forall k :: 0 <= k < |s| ==> '0' <= s[k] <= '9'
  {
    if n < 10 then [Digit(n)] else NatToString(n / 10) + [Digit(n % 10)]
  }

  /** The value of a string of decimal digits. */
  function DecimalValue(s: string): nat
    requires forall k :: 0 <= k < |s| ==> '0' <= s[k] <= '9'
  {
    if s == [] then 0
    else 10 * DecimalValue(s[..|s| - 1]) + (s[|s| - 1] as int - '0' as int)
  }

  /** Reading back a rendered index gives the index: messages naming
      different indexes differ. */
  lemma {:induction false} NatToStringRoundTrip(n: nat)
    ensures DecimalValue(NatToString(n)) == n
  {
    if n >= 10 {
      var s := NatToString(n);
      assert s[..|s| - 1] == NatToString(n / 10);
      NatToStringRoundTrip(n / 10);
    }
  }
}
