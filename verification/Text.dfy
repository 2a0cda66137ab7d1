/** Strings as the program uses them: white space, lower case, prefixes, order. */
module Text {
  datatype Option<+T> = None | Some(value: T)

  datatype Result<+T, +E> = Success(value: T) | Failure(error: E)

  /** Go's unicode.IsSpace. */
  predicate IsSpace(c: char) {
    || c in "\t\n\r "
    || c == 0x0B as char || c == 0x0C as char || c == 0x85 as char || c == 0xA0 as char
    || c == 0x1680 as char || 0x2000 as char <= c <= 0x200A as char
    || c == 0x2028 as char || c == 0x2029 as char || c == 0x202F as char
    || c == 0x205F as char || c == 0x3000 as char
  }

  /**
   The characters that strings.ToLower turns into an ASCII letter: besides A to Z these are
   the KELVIN SIGN and the capital I with a dot above.
   */
  predicate IsUpper(c: char) { 'A' <= c <= 'Z' || c == KELVIN || c == DOTTED_I }

  const KELVIN := 0x212A as char
  const DOTTED_I := 0x130 as char

  predicate IsAlnum(c: char) { 'a' <= c <= 'z' || '0' <= c <= '9' }

  function LowerChar(c: char): (r: char)
    ensures !IsUpper(r) && (IsSpace(r) <==> IsSpace(c)) && (r == c <==> !IsUpper(c))
  {
    if c == KELVIN then 'k'
    else if c == DOTTED_I then 'i'
    else if IsUpper(c) then ((c as int) + 32) as char
    else c
  }

  /** A to Z become a to z, two wider capitals become k and i, and every other character stays. */
  lemma {:induction false} LowerCharExactly(c: char)
    ensures 'A' <= c <= 'Z' ==> (LowerChar(c) as int) - ('a' as int) == (c as int) - ('A' as int)
    ensures (c as int) == 0x212A ==> LowerChar(c) == 'k'
    ensures (c as int) == 0x130 ==> LowerChar(c) == 'i'
    ensures !('A' <= c <= 'Z') && (c as int) != 0x212A && (c as int) != 0x130 ==> LowerChar(c) == c
  {}

  /** The white space of Unicode: 25 characters. */
  lemma {:induction false} IsSpaceExactly(c: char)
    ensures IsSpace(c) <==>
      var n := c as int;
      || 9 <= n <= 13 || n == 32 || n == 0x85 || n == 0xA0 || n == 0x1680 || 0x2000 <= n <= 0x200A
      || n == 0x2028 || n == 0x2029 || n == 0x202F || n == 0x205F || n == 0x3000
  {}

  function Lower(s: string): (r: string)
    ensures |r| == |s|
  {
    seq(|s|, i requires 0 <= i < |s| => LowerChar(s[i]))
  }

  function TrimLeft(s: string): (r: string)
    ensures |r| <= |s| && (r != [] ==> !IsSpace(r[0]) && r[|r| - 1] == s[|s| - 1])
  {
    if s != [] && IsSpace(s[0]) then TrimLeft(s[1..]) else s
  }

  function TrimRight(s: string): (r: string)
    ensures |r| <= |s| && (r != [] ==> !IsSpace(r[|r| - 1]) && r[0] == s[0])
  {
    if s != [] && IsSpace(s[|s| - 1]) then TrimRight(s[..|s| - 1]) else s
  }

  /** strings.TrimSpace. */
  function TrimSpace(s: string): string { TrimRight(TrimLeft(s)) }

  predicate EndsWith(s: string, c: char) { s != [] && s[|s| - 1] == c }

  function DropSuffix(s: string, c: char): string {
    if EndsWith(s, c) then s[..|s| - 1] else s
  }

  /** The bytes of a character in UTF-8, section 3 of RFC 3629. */
  function CharSize(c: char): (n: nat)
    ensures 1 <= n <= 4
  {
    if c < 0x80 as char then 1 else if c < 0x800 as char then 2 else if c < 0x1_0000 as char then 3 else 4
  }

  /** len(s): the bytes of a string. */
  function Size(s: string): (n: nat)
    ensures n >= |s|
  {
    if s == [] then 0 else CharSize(s[0]) + Size(s[1..])
  }

  /** One byte up to U+007F, two up to U+07FF, three up to U+FFFF, four beyond. */
  lemma {:induction false} CharSizeExactly(c: char)
    ensures Size([c]) == CharSize(c)
    ensures CharSize(c) == 1 <==> (c as int) <= 0x7F
    ensures CharSize(c) == 2 <==> 0x80 <= (c as int) <= 0x7FF
    ensures CharSize(c) == 3 <==> 0x800 <= (c as int) <= 0xFFFF
    ensures CharSize(c) == 4 <==> 0x1_0000 <= (c as int)
  {}

  lemma {:induction false} SizeOfConcat(a: string, b: string)
    ensures Size(a + b) == Size(a) + Size(b)
  {
    if a == [] {
      assert a + b == b;
    } else {
      assert (a + b)[0] == a[0] && (a + b)[1..] == a[1..] + b;
      SizeOfConcat(a[1..], b);
    }
  }

  lemma {:induction false} AsciiSize(s: string)
    requires forall i :: 0 <= i < |s| ==> s[i] < 0x80 as char
    ensures Size(s) == |s|
  {
    if s != [] { AsciiSize(s[1..]); }
  }

  lemma SizeOfPrefix(a: string, b: string)
    requires a <= b
    ensures Size(a) + |b| - |a| <= Size(b)
  {
    assert b == a + b[|a|..];
    SizeOfConcat(a, b[|a|..]);
  }

  /** Concatenation is associative. */
  lemma Regroup<T>(a: seq<T>, b: seq<T>, c: seq<T>)
    ensures (a + b) + c == a + (b + c)
  {}

  lemma RegroupFour<T>(a: seq<T>, b: seq<T>, c: seq<T>, d: seq<T>)
    ensures a + b + c + d == a + (b + c + d)
    ensures a + (b + c) + d == a + b + (c + d)
  {}

  /** `needle` occurs somewhere in `s`. */
  ghost predicate Occurs(needle: string, s: string) {
    exists before: string, after: string :: s == before + needle + after
  }

  lemma OccursIn(before: string, needle: string, after: string)
    ensures Occurs(needle, before + needle + after)
  {}

  lemma {:induction false} OccursTransitive(a: string, b: string, c: string)
    requires Occurs(a, b) && Occurs(b, c)
    ensures Occurs(a, c)
  {
    var p, q :| b == p + a + q;
    var x, y :| c == x + b + y;
    assert c == (x + p) + a + (q + y);
  }

  /** The order of sort.Strings, by code points. */
  predicate Leq(a: string, b: string) {
    a == [] || (b != [] && (a[0] < b[0] || (a[0] == b[0] && Leq(a[1..], b[1..]))))
  }

  lemma LeqTotal(a: string, b: string)
    ensures Leq(a, b) || Leq(b, a)
  {}

  lemma {:induction false} LeqAntisymmetric(a: string, b: string)
    requires Leq(a, b) && Leq(b, a)
    ensures a == b
  {
    if a != [] && b != [] {
      LeqAntisymmetric(a[1..], b[1..]);
      assert a == [a[0]] + a[1..] && b == [b[0]] + b[1..];
    }
  }

  lemma LeqTransitive(a: string, b: string, c: string)
    requires Leq(a, b) && Leq(b, c)
    ensures Leq(a, c)
  {}

  /** One string comes before another if it is a prefix, or smaller at the first place where they differ. */
  lemma {:induction false} LeqExactly(a: string, b: string)
    ensures Leq(a, b) <==>
      a <= b || exists k: nat :: SmallerAt(a, b, k)
  {
    if a != [] && b != [] {
      LeqExactly(a[1..], b[1..]);
      if a[0] == b[0] {
        assert a <= b <==> a[1..] <= b[1..];
        if exists k: nat :: SmallerAt(a[1..], b[1..], k) {
          var k: nat :| SmallerAt(a[1..], b[1..], k);
          assert a[..k + 1] == [a[0]] + a[1..][..k] && b[..k + 1] == [b[0]] + b[1..][..k];
          assert SmallerAt(a, b, k + 1);
        }
        if exists k: nat :: SmallerAt(a, b, k) {
          var k: nat :| SmallerAt(a, b, k);
          assert k > 0 && a[1..][..k - 1] == a[..k][1..] && b[1..][..k - 1] == b[..k][1..];
          assert SmallerAt(a[1..], b[1..], k - 1);
        }
      } else {
        assert a[0] < b[0] ==> SmallerAt(a, b, 0);
        forall k: nat | SmallerAt(a, b, k) ensures k == 0 {}
      }
    }
  }

  /** The strings agree up to `k`, and there `a` has the smaller character. */
  ghost predicate SmallerAt(a: string, b: string, k: nat) {
    k < |a| && k < |b| && a[..k] == b[..k] && a[k] < b[k]
  }

  lemma LeqRefl(a: string)
    ensures Leq(a, a)
  {}

  /** Strictly ascending, so without repetitions. */
  ghost predicate Ascending(s: seq<string>) {
    forall i, j :: 0 <= i < j < |s| ==> Leq(s[i], s[j]) && s[i] != s[j]
  }

  /** `order` lists each member of `keys` exactly once: one possible map iteration. */
  ghost predicate Enumerates(order: seq<string>, keys: set<string>) {
    && (forall k :: k in keys <==> k in order)
    && (forall i, j :: 0 <= i < j < |order| ==> order[i] != order[j])
  }

  lemma ConsAscending(x: string, s: seq<string>)
    requires Ascending(s) && forall y :: y in s ==> Leq(x, y) && x != y
    ensures Ascending([x] + s)
  {}

  lemma LeqAll(x: string, s: seq<string>)
    requires Ascending(s) && s != [] && Leq(x, s[0])
    ensures forall y :: y in s ==> Leq(x, y)
  {
    forall y | y in s ensures Leq(x, y) {
      if y != s[0] { LeqTransitive(x, s[0], y); }
    }
  }

  function Insert(x: string, s: seq<string>): (r: seq<string>)
    requires Ascending(s) && x !in s
    ensures Ascending(r) && forall y :: y in r <==> y == x || y in s
  {
    if s == [] then [x]
    else if Leq(x, s[0]) then
      LeqAll(x, s);
      ConsAscending(x, s);
      [x] + s
    else
      LeqTotal(x, s[0]);
      LeqRefl(s[0]);
      LeqAll(s[0], s);
      assert s == [s[0]] + s[1..];
      var rest := Insert(x, s[1..]);
      ConsAscending(s[0], rest);
      [s[0]] + rest
  }

  /** sort.Strings on the keys of a map: the same keys in ascending order. */
  function SortStrings(s: seq<string>): (r: seq<string>)
    requires forall i, j :: 0 <= i < j < |s| ==> s[i] != s[j]
    ensures Ascending(r) && forall y :: y in r <==> y in s
  {
    if s == [] then [] else Insert(s[0], SortStrings(s[1..]))
  }

  lemma {:induction false} AscendingUnique(a: seq<string>, b: seq<string>)
    requires Ascending(a) && Ascending(b) && forall y :: y in a <==> y in b
    ensures a == b
  {
    assert b != [] ==> b[0] in b;
    if a != [] {
      assert a[0] in b && b[0] in a;
      assert a[0] == b[0] by { LeastIsFirst(a, b); }
      forall y ensures y in a[1..] <==> y in b[1..] {
        assert y in a[1..] <==> y in a && y != a[0];
        assert y in b[1..] <==> y in b && y != b[0];
      }
      AscendingUnique(a[1..], b[1..]);
      assert a == [a[0]] + a[1..] && b == [b[0]] + b[1..];
    }
  }

  lemma LeastIsFirst(a: seq<string>, b: seq<string>)
    requires Ascending(a) && Ascending(b) && a != [] && b != [] && a[0] in b && b[0] in a
    ensures a[0] == b[0]
  {
    LeqRefl(a[0]);
    LeqAntisymmetric(a[0], b[0]);
  }

  lemma {:induction false} SomeOrder(keys: set<string>)
    ensures exists order: seq<string> :: Enumerates(order, keys)
  {
    if keys == {} {
      assert Enumerates([], keys);
    } else {
      var k :| k in keys;
      SomeOrder(keys - {k});
      var rest: seq<string> :| Enumerates(rest, keys - {k});
      assert Enumerates([k] + rest, keys);
    }
  }

  /** The keys of a map in ascending order. */
  ghost function SortedKeys(keys: set<string>): (r: seq<string>)
    ensures Ascending(r) && Enumerates(r, keys)
  {
    SomeOrder(keys);
    var order :| Enumerates(order, keys);
    SortStrings(order)
  }

  /** Sorting forgets the order in which the map happened to be iterated. */
  lemma SortIgnoresOrder(order: seq<string>, keys: set<string>)
    requires Enumerates(order, keys)
    ensures SortStrings(order) == SortedKeys(keys)
  {
    AscendingUnique(SortStrings(order), SortedKeys(keys));
  }
}
