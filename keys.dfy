/**
 * Cache keys built with `fmt.Sprintf("%d_%s", id, name)`: the decimal
 * rendering of an unsigned id, an underscore, then the name.
 */
module Keys {

  /** The decimal digit character for `d`. */
  function DigitChar(d: nat): (c: char)
    requires d < 10
    ensures '0' <= c <= '9'
  {
    "0123456789"[d]
  }

  /** `%d` of an unsigned integer: no sign, no leading zeros. */
  function Decimal(n: nat): (s: string)
    ensures |s| > 0
    ensures forall i :: 0 <= i < |s| ==> '0' <= s[i] <= '9'
    ensures n >= 10 ==> |s| >= 2
  {
    if n < 10 then [DigitChar(n)] else Decimal(n / 10) + [DigitChar(n % 10)]
  }

  /** Reading the digits back gives the number: `Decimal` loses nothing. */
  function DecimalValue(s: string): int
  {
    if s == [] then 0 else DecimalValue(s[..|s| - 1]) * 10 + (s[|s| - 1] as int - '0' as int)
  }

  lemma {:induction false} DecimalRoundTrip(n: nat)
    ensures DecimalValue(Decimal(n)) == n
  {
    if n >= 10 {
      var s := Decimal(n);
      assert s[..|s| - 1] == Decimal(n / 10);
      DecimalRoundTrip(n / 10);
    }
  }

  lemma DecimalInjective(a: nat, b: nat)
    requires Decimal(a) == Decimal(b)
    ensures a == b
  {
    DecimalRoundTrip(a);
    DecimalRoundTrip(b);
  }

  /** `fmt.Sprintf("%d_%s", id, name)`. */
  function CacheKey(id: nat, name: string): (k: string)
    ensures |k| > |name|
    ensures k[|k| - |name|..] == name && k[|k| - |name| - 1] == '_'
    ensures forall i :: 0 <= i < |k| - |name| - 1 ==> '0' <= k[i] <= '9'
    ensures DecimalValue(k[..|k| - |name| - 1]) == id
  {
    var key := Decimal(id) + "_" + name;
    DecimalRoundTrip(id);
    assert key[..|key| - |name| - 1] == Decimal(id);
    key
  }

  /** The underscore after the digits is the first one, so a key determines its parts. */
  lemma CacheKeyInjective(id1: nat, name1: string, id2: nat, name2: string)
    requires CacheKey(id1, name1) == CacheKey(id2, name2)
    ensures id1 == id2 && name1 == name2
  {
    var d1, d2 := Decimal(id1), Decimal(id2);
    var k := CacheKey(id1, name1);
    // Both digit strings end where the first underscore of the key stands.
    assert k[|d1|] == '_' && k[|d2|] == '_';
    assert forall i :: 0 <= i < |d1| ==> k[i] == d1[i] != '_';
    assert forall i :: 0 <= i < |d2| ==> k[i] == d2[i] != '_';
    assert |d1| == |d2|;
    assert d1 == k[..|d1|] == d2;
    DecimalInjective(id1, id2);
    assert name1 == k[|d1| + 1..] == name2;
  }
}
