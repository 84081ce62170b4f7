/** Small shared vocabulary: optional values, identifiers and keys, truncation. */
module Common {
  datatype Option<+T> = None | Some(value: T)

  predicate IsIdChar(c: char) {
    'A' <= c <= 'Z' || 'a' <= c <= 'z' || '0' <= c <= '9' || c == '.' || c == '_' || c == '-'
  }

  /** The identifier pattern of the registry: 1 to 160 letters, digits, `.`, `_` or `-`. */
  predicate IsId(s: string) {
    1 <= |s| <= 160 && forall i | 0 <= i < |s| :: IsIdChar(s[i])
  }

  /** A stored text field: cut at `limit` characters. */
  function Cut(s: string, limit: nat): string {
    if |s| <= limit then s else s[..limit]
  }

  function PairKey(a: string, b: string): string {
    a + ":" + b
  }

  /** A colon-free first component can be read back from the key. */
  lemma PairKeyInjective(a: string, b: string, a': string, b': string)
    requires ':' !in a && ':' !in a'
    requires PairKey(a, b) == PairKey(a', b')
    ensures a == a' && b == b'
  {
    var k := PairKey(a, b);
    assert k[|a|] == ':' && k[|a'|] == ':';
    assert |a| == |a'|;
    assert a == k[..|a|] && a' == k[..|a'|];
    assert b == k[|a| + 1..] && b' == k[|a'| + 1..];
  }

  lemma Regrouped<T>(a: seq<T>, b: seq<T>, c: seq<T>)
    ensures a + b + c == a + (b + c)
  {
  }

  lemma AfterHead<T>(a: seq<T>, b: seq<T>)
    ensures (a + b)[..|a|] == a && (a + b)[|a|..] == b
  {
  }

  lemma IdHasNoColon(s: string)
    requires IsId(s)
    ensures ':' !in s
  {
  }
}
