/** Host normalisation, done once by the daemon and once more by the route runtime. */
module Hosts {
  import opened Text

  /** Both sides use this expression: trim, lower-case, drop one trailing dot. */
  function CanonicalHost(host: string): string {
    DropSuffix(Lower(TrimSpace(host)), '.')
  }

  /** The pattern ^[a-z0-9][a-z0-9.-]*[a-z0-9]$. */
  predicate ValidHost(host: string) {
    && |host| >= 2 && IsAlnum(host[0]) && IsAlnum(host[|host| - 1])
    && forall i :: 0 <= i < |host| ==> IsAlnum(host[i]) || host[i] in ".-"
  }

  /** A host on which a second normalisation changes nothing, read off the request itself. */
  predicate StableHost(host: string) {
    var t := Lower(TrimSpace(host));
    |t| < 2 || t[|t| - 1] != '.' || (t[|t| - 2] != '.' && !IsSpace(t[|t| - 2]))
  }

  /** A host whose claim key and runtime key agree, or which the runtime never accepts. */
  predicate SafeHost(host: string) {
    StableHost(host) || !ValidHost(CanonicalHost(CanonicalHost(host)))
  }

  lemma TrimmedIsFixed(s: string)
    requires s != [] ==> !IsSpace(s[0]) && !IsSpace(s[|s| - 1])
    ensures TrimSpace(s) == s
  {}

  lemma TrimSpaceShape(s: string)
    ensures var t := TrimSpace(s); t != [] ==> !IsSpace(t[0]) && !IsSpace(t[|t| - 1])
  {}

  /** A key that ends in white space or in a dot is not its own normal form. */
  lemma {:induction false} EndIsDropped(k: string)
    requires k != [] && (IsSpace(k[|k| - 1]) || k[|k| - 1] == '.')
    ensures CanonicalHost(k) != k
  {}

  lemma {:induction false} CleanIsFixed(k: string)
    requires k != [] ==> !IsSpace(k[0]) && !IsSpace(k[|k| - 1]) && k[|k| - 1] != '.'
    requires forall i :: 0 <= i < |k| ==> !IsUpper(k[i])
    ensures CanonicalHost(k) == k
  {}

  lemma {:induction false} CanonicalTwice(host: string)
    ensures var k := CanonicalHost(host);
      CanonicalHost(k) == k <==> StableHost(host)
  {
    var t := Lower(TrimSpace(host));
    TrimSpaceShape(host);
    assert t != [] ==> !IsSpace(t[0]) && !IsSpace(t[|t| - 1]);
    if StableHost(host) {
      CleanIsFixed(CanonicalHost(host));
    } else {
      EndIsDropped(CanonicalHost(host));
    }
  }

  /** A valid runtime key is its own normal form. */
  lemma {:induction false} ValidHostIsCanonical(host: string)
    requires ValidHost(host)
    ensures CanonicalHost(host) == host
  {
    TrimmedIsFixed(host);
    assert Lower(host) == host;
  }

  predicate Blank(s: string) {
    forall i :: 0 <= i < |s| ==> IsSpace(s[i])
  }

  lemma {:induction false} TrimLeftDropsBlank(before: string, s: string)
    requires Blank(before) && (s != [] ==> !IsSpace(s[0]))
    ensures TrimLeft(before + s) == s
  {
    if before != [] {
      assert (before + s)[0] == before[0] && (before + s)[1..] == before[1..] + s;
      TrimLeftDropsBlank(before[1..], s);
    } else {
      assert before + s == s;
    }
  }

  lemma {:induction false} TrimRightDropsBlank(s: string, after: string)
    requires Blank(after) && (s != [] ==> !IsSpace(s[|s| - 1]))
    ensures TrimRight(s + after) == s
    decreases |after|
  {
    if after != [] {
      var n := |after| - 1;
      assert (s + after)[..|s + after| - 1] == s + after[..n];
      TrimRightDropsBlank(s, after[..n]);
    } else {
      assert s + after == s;
    }
  }

  lemma {:induction false} OneDotIsDropped(spelling: string, dot: string)
    requires spelling != "" && spelling[|spelling| - 1] != '.' && (dot == "" || dot == ".")
    ensures DropSuffix(Lower(spelling + dot), '.') == Lower(spelling)
  {}

  /** Upper or lower case, white space around it and one final dot do not matter to a host. */
  lemma {:induction false} SpellingsOfOneHost(before: string, spelling: string, dot: string, after: string)
    requires Blank(before) && Blank(after) && (dot == "" || dot == ".")
    requires spelling != "" && !IsSpace(spelling[0])
    requires !IsSpace(spelling[|spelling| - 1]) && spelling[|spelling| - 1] != '.'
    ensures CanonicalHost(before + (spelling + dot + after)) == Lower(spelling)
  {
    TrimLeftDropsBlank(before, spelling + dot + after);
    TrimRightDropsBlank(spelling + dot, after);
    OneDotIsDropped(spelling, dot);
  }

  /** Without white space at its ends and without capitals, a host only loses a final dot. */
  lemma {:induction false} OnlyTheDotGoes(host: string)
    requires host != [] && !IsSpace(host[0]) && !IsSpace(host[|host| - 1])
    requires forall i :: 0 <= i < |host| ==> !IsUpper(host[i])
    ensures CanonicalHost(host) == DropSuffix(host, '.') && Lower(TrimSpace(host)) == host
  {
    TrimmedIsFixed(host);
    assert Lower(host) == host;
  }

  /** Two dots at the end: the daemon keys the claim "ab.", the runtime keys the route "ab". */
  lemma DoubleDotIsUnsafe()
    ensures CanonicalHost("ab..") == "ab." && CanonicalHost("ab.") == "ab" && !SafeHost("ab..")
  {
    OnlyTheDotGoes("ab..");
    OnlyTheDotGoes("ab.");
  }

  /** A capital outside ASCII: with a KELVIN SIGN the daemon keys "ak.", the runtime the valid "ak". */
  lemma KelvinSignIsUnsafe()
    ensures var host := ['a', KELVIN, '.', '.'];
      CanonicalHost(host) == "ak." && CanonicalHost("ak.") == "ak" && !SafeHost(host)
  {
    var host := ['a', KELVIN, '.', '.'];
    TrimmedIsFixed(host);
    assert Lower(host) == "ak..";
    OnlyTheDotGoes("ak.");
  }
}
