/** Python's str(i) for the positive integers used as keys of the sparse maps. */
module DecimalKeys {

  function DigitChar(d: nat): (c: char)
    requires d < 10
    ensures '0' <= c <= '9' && c as int - '0' as int == d
  {
    "0123456789"[d]
  }

  /** str(n): the decimal digits of n, most significant first, no leading zeros. */
  function Key(n: nat): (s: string)
    ensures |s| >= 1
    ensures forall j :: 0 <= j < |s| ==> '0' <= s[j] <= '9'
  {
    if n < 10 then [DigitChar(n)] else Key(n / 10) + [DigitChar(n % 10)]
  }

  /** int(s) for a string of decimal digits. */
  function Parse(s: string): nat
  {
    if |s| == 0 then 0
    else
      var c := s[|s| - 1];
      var d := if '0' <= c <= '9' then c as int - '0' as int else 0;
      Parse(s[..|s| - 1]) * 10 + d
  }

  /** int(str(n)) == n. */
  lemma {:induction false} ParseKey(n: nat)
    ensures Parse(Key(n)) == n
  {
    if n >= 10 {
      var s := Key(n);
      assert s[..|s| - 1] == Key(n / 10);
      ParseKey(n / 10);
    }
  }

  /** Distinct positions are looked up under distinct keys. */
  lemma KeyInjective(a: nat, b: nat)
    ensures Key(a) == Key(b) ==> a == b
  {
    ParseKey(a);
    ParseKey(b);
  }

  /** The largest position named by any key of a map; the scans of the
      sparse maps never go past it, which is why they terminate. */
  ghost function MaxIndex(keys: set<string>): nat
  {
    if keys == {} then 0
    else
      var k :| k in keys;
      var rest := MaxIndex(keys - {k});
      if Parse(k) > rest then Parse(k) else rest
  }

  lemma {:induction false} MaxIndexBound(keys: set<string>, k: string)
    requires k in keys
    ensures Parse(k) <= MaxIndex(keys)
  {
    var k' :| k' in keys && MaxIndex(keys) == (if Parse(k') > MaxIndex(keys - {k'}) then Parse(k') else MaxIndex(keys - {k'}));
    if k != k' {
      MaxIndexBound(keys - {k'}, k);
    }
  }

  /** A map that holds key str(i) names a position of at least i. */
  lemma KeyWithinBound(keys: set<string>, i: nat)
    requires Key(i) in keys
    ensures i <= MaxIndex(keys)
  {
    ParseKey(i);
    MaxIndexBound(keys, Key(i));
  }
}
