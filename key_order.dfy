/** Block heights as the keys of a JavaScript object.

    An object whose keys are block heights stores each key as its decimal
    string. `Object.keys(...).map((v) => parseInt(v))` turns those strings back into
    numbers, and `.sort()` without a comparator orders the numbers by comparing
    their string forms code unit by code unit. This module defines the
    decimal form of a height, the parse that inverts it, that string order,
    and the resulting visit order of a set of heights. */
module KeyOrder {

  /** A block height. */
  type Height = nat

  predicate IsDigit(c: char) {
    '0' <= c <= '9'
  }

  function DigitChar(d: nat): (c: char)
    requires d < 10
    ensures IsDigit(c) && c as int - '0' as int == d
  {
    (48 + d) as char
  }

  /** The decimal form of `n`, without sign or leading zeros (JavaScript's
      `String(n)` for a safe integer). */
  function NatToString(n: nat): (s: string)
    ensures |s| >= 1
    ensures forall i | 0 <= i < |s| :: IsDigit(s[i])
    decreases n
  {
    if n < 10 then [DigitChar(n)] else NatToString(n / 10) + [DigitChar(n % 10)]
  }

  /** `parseInt` of a string of decimal digits. */
  function ParseInt(s: string): nat
    requires forall i | 0 <= i < |s| :: IsDigit(s[i])
    decreases |s|
  {
    if s == [] then 0
    else ParseInt(s[..|s| - 1]) * 10 + DigitValue(s[|s| - 1])
  }

  function DigitValue(c: char): (d: nat)
    requires IsDigit(c)
    ensures d < 10
  {
    c as int - '0' as int
  }

  /** Parsing a key's decimal form gives back the key, so the lookup
      `blocksToQuery[blockNumber]` with a parsed key finds its entry. */
  lemma {:induction false} ParseIntInvertsNatToString(n: nat)
    ensures ParseInt(NatToString(n)) == n
    decreases n
  {
    var s := NatToString(n);
    if n < 10 {
      assert s[..0] == [];
    } else {
      ParseIntInvertsNatToString(n / 10);
      assert s[..|s| - 1] == NatToString(n / 10);
    }
  }

  lemma NatToStringInjective(x: nat, y: nat)
    ensures NatToString(x) == NatToString(y) ==> x == y
  {
    ParseIntInvertsNatToString(x);
    ParseIntInvertsNatToString(y);
  }

  /** JavaScript's `<` on strings: lexicographic by code unit, a proper
      prefix being smaller. */
  predicate StringLess(a: string, b: string)
    decreases |a|
  {
    if a == [] then b != []
    else if b == [] then false
    else if a[0] != b[0] then a[0] < b[0]
    else StringLess(a[1..], b[1..])
  }

  lemma {:induction false} StringLessIrreflexive(a: string)
    ensures !StringLess(a, a)
    decreases |a|
  {
    if a != [] {
      StringLessIrreflexive(a[1..]);
    }
  }

  lemma {:induction false} StringLessAsymmetric(a: string, b: string)
    requires StringLess(a, b)
    ensures !StringLess(b, a)
    decreases |a|
  {
    if a != [] && b != [] && a[0] == b[0] {
      StringLessAsymmetric(a[1..], b[1..]);
    }
  }

  lemma {:induction false} StringLessTransitive(a: string, b: string, c: string)
    requires StringLess(a, b) && StringLess(b, c)
    ensures StringLess(a, c)
    decreases |a|
  {
    if a != [] && a[0] == b[0] && b[0] == c[0] {
      StringLessTransitive(a[1..], b[1..], c[1..]);
    }
  }

  lemma {:induction false} StringLessTotal(a: string, b: string)
    requires a != b
    ensures StringLess(a, b) || StringLess(b, a)
    decreases |a|
  {
    if a != [] && b != [] && a[0] == b[0] {
      assert a == [a[0]] + a[1..] && b == [b[0]] + b[1..];
      StringLessTotal(a[1..], b[1..]);
    }
  }

  /** The comparison `.sort()` applies to two heights. */
  predicate DecimalLess(x: Height, y: Height) {
    StringLess(NatToString(x), NatToString(y))
  }

  /** DecimalLess is a strict total order on heights. */
  lemma DecimalLessIsStrictTotalOrder()
    ensures forall x: Height :: !DecimalLess(x, x)
    ensures forall x: Height, y: Height :: DecimalLess(x, y) ==> !DecimalLess(y, x)
    ensures forall x: Height, y: Height, z: Height :: DecimalLess(x, y) && DecimalLess(y, z) ==> DecimalLess(x, z)
    ensures forall x: Height, y: Height :: x != y ==> DecimalLess(x, y) || DecimalLess(y, x)
  {
    forall x: Height ensures !DecimalLess(x, x) {
      StringLessIrreflexive(NatToString(x));
    }
    forall x: Height, y: Height | DecimalLess(x, y) ensures !DecimalLess(y, x) {
      StringLessAsymmetric(NatToString(x), NatToString(y));
    }
    forall x: Height, y: Height, z: Height | DecimalLess(x, y) && DecimalLess(y, z)
      ensures DecimalLess(x, z)
    {
      StringLessTransitive(NatToString(x), NatToString(y), NatToString(z));
    }
    forall x: Height, y: Height | x != y ensures DecimalLess(x, y) || DecimalLess(y, x) {
      NatToStringInjective(x, y);
      StringLessTotal(NatToString(x), NatToString(y));
    }
  }

  /** `m` comes first among `keys` in the default sort order. */
  predicate IsFirst(m: Height, keys: set<Height>) {
    m in keys && forall y | y in keys && y != m :: DecimalLess(m, y)
  }

  lemma {:induction false} FirstExists(keys: set<Height>)
    requires keys != {}
    ensures exists m :: IsFirst(m, keys)
    decreases |keys|
  {
    var x :| x in keys;
    var rest := keys - {x};
    if rest == {} {
      assert keys == {x};
      assert IsFirst(x, keys);
    } else {
      FirstExists(rest);
      var m :| IsFirst(m, rest);
      DecimalLessIsStrictTotalOrder();
      if DecimalLess(x, m) {
        assert IsFirst(x, keys);
      } else {
        assert IsFirst(m, keys);
      }
    }
  }

  /** The height that the default sort places first. */
  function First(keys: set<Height>): (m: Height)
    requires keys != {}
    ensures IsFirst(m, keys)
  {
    FirstExists(keys);
    DecimalLessIsStrictTotalOrder();
    var m :| IsFirst(m, keys);
    m
  }

  /** Every element of `q` precedes every later one in the default sort order. */
  predicate DecimalSorted(q: seq<Height>) {
    forall i, j | 0 <= i < j < |q| :: DecimalLess(q[i], q[j])
  }

  /** The visit order of src/lib/logic/gatherDataPoints.ts:35-37: the keys,
      each once, sorted by their decimal strings. */
  function QueryBlocks(keys: set<Height>): (q: seq<Height>)
    ensures |q| == |keys|
    ensures forall h :: h in q <==> h in keys
    ensures DecimalSorted(q)
    decreases |keys|
  {
    if keys == {} then []
    else
      var m := First(keys);
      var rest := QueryBlocks(keys - {m});
      PrependFirst(m, rest, keys);
      [m] + rest
  }

  /** Putting the first key in front of the sorted others sorts all the keys. */
  lemma PrependFirst(m: Height, rest: seq<Height>, keys: set<Height>)
    requires IsFirst(m, keys) && DecimalSorted(rest)
    requires |rest| == |keys - {m}| && forall h :: h in rest <==> h in keys - {m}
    ensures |[m] + rest| == |keys| && DecimalSorted([m] + rest)
    ensures forall h :: h in [m] + rest <==> h in keys
  {
    var q := [m] + rest;
    forall i, j | 0 <= i < j < |q| ensures DecimalLess(q[i], q[j]) {
      assert q[j] == rest[j - 1] && rest[j - 1] in rest;
      if i > 0 {
        assert q[i] == rest[i - 1];
      }
    }
    forall h ensures h in q <==> h in keys {
      assert h in q <==> h == m || h in rest;
    }
  }

  /** A sorted sequence has no repeated height. */
  lemma SortedDistinct(q: seq<Height>)
    requires DecimalSorted(q)
    ensures forall i, j | 0 <= i < j < |q| :: q[i] != q[j]
  {
    DecimalLessIsStrictTotalOrder();
  }

  /** At most one key comes first. */
  lemma FirstUnique(m1: Height, m2: Height, keys: set<Height>)
    requires IsFirst(m1, keys) && IsFirst(m2, keys)
    ensures m1 == m2
  {
    if m1 != m2 {
      StringLessAsymmetric(NatToString(m1), NatToString(m2));
    }
  }

  /** The head of a sorted sequence of exactly `keys` is the first key, and
      its tail is a sorted sequence of exactly the other keys. */
  lemma SortedHead(q: seq<Height>, keys: set<Height>)
    requires q != [] && DecimalSorted(q)
    requires forall h :: h in q <==> h in keys
    ensures IsFirst(q[0], keys)
    ensures DecimalSorted(q[1..])
    ensures forall h :: h in q[1..] <==> h in keys - {q[0]}
  {
    assert q[0] in keys;
    forall y | y in keys && y != q[0] ensures DecimalLess(q[0], y) {
      var j :| 0 <= j < |q| && q[j] == y;
      assert j != 0;
    }
    var rest := q[1..];
    forall i, j | 0 <= i < j < |rest| ensures DecimalLess(rest[i], rest[j]) {
      assert rest[i] == q[i + 1] && rest[j] == q[j + 1];
    }
    forall h ensures h in rest <==> h in keys - {q[0]} {
      if h in rest {
        var j :| 0 <= j < |rest| && rest[j] == h;
        assert DecimalLess(q[0], q[j + 1]);
        StringLessIrreflexive(NatToString(q[0]));
      }
      if h in keys - {q[0]} {
        var j :| 0 <= j < |q| && q[j] == h;
        assert j != 0;
        assert rest[j - 1] == h;
      }
    }
  }

  /** The visit order does not depend on the order `Object.keys` lists the keys
      in, nor on the stability of the sort: any sequence of exactly the keys
      that the default comparison orders is this one. */
  lemma {:induction false} SortedKeysUnique(q: seq<Height>, keys: set<Height>)
    requires DecimalSorted(q)
    requires forall h :: h in q <==> h in keys
    ensures q == QueryBlocks(keys)
    decreases |q|
  {
    if q == [] {
      assert keys == {};
    } else {
      SortedHead(q, keys);
      var m := First(keys);
      FirstUnique(q[0], m, keys);
      SortedKeysUnique(q[1..], keys - {m});
      assert q == [m] + q[1..];
    }
  }

  /** `.sort()` on the heights 50 and 100 puts 100 first, because "100" < "50". */
  lemma DefaultSortExample()
    ensures QueryBlocks({50, 100}) == [100, 50]
  {
    assert NatToString(1) == "1";
    assert NatToString(10) == "10";
    assert NatToString(100) == "100";
    assert NatToString(5) == "5";
    assert NatToString(50) == "50";
    assert DecimalLess(100, 50);
    SortedKeysUnique([100, 50], {50, 100});
  }
}
