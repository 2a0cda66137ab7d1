/** The compose project name: sanitised words and a truncated hash. */
module ProjectName {
  import opened Text

  /** Every maximal run of characters outside [a-z0-9] becomes one underscore. */
  function ReplaceRuns(s: string): string
    decreases |s|
  {
    if s == [] then []
    else if IsAlnum(s[0]) then [s[0]] + ReplaceRuns(s[1..])
    else ['_'] + ReplaceRuns(DropRun(s))
  }

  function DropRun(s: string): (r: string)
    ensures |r| <= |s| && (s != [] && !IsAlnum(s[0]) ==> |r| < |s|)
    ensures r != [] ==> IsAlnum(r[0])
  {
    if s != [] && !IsAlnum(s[0]) then DropRun(s[1..]) else s
  }

  function TrimUnderscores(s: string): string {
    TrimRightUnderscores(TrimLeftUnderscores(s))
  }

  function TrimLeftUnderscores(s: string): string {
    if s != [] && s[0] == '_' then TrimLeftUnderscores(s[1..]) else s
  }

  function TrimRightUnderscores(s: string): string {
    if s != [] && s[|s| - 1] == '_' then TrimRightUnderscores(s[..|s| - 1]) else s
  }

  function SanitizeName(value: string): string {
    TrimUnderscores(ReplaceRuns(Lower(TrimSpace(value))))
  }

  /** Letters, digits and single underscores between them. */
  ghost predicate Words(s: string) {
    && (forall i :: 0 <= i < |s| ==> IsAlnum(s[i]) || s[i] == '_')
    && (forall i :: 0 <= i < |s| && s[i] == '_' ==> 0 < i < |s| - 1 && IsAlnum(s[i - 1]) && IsAlnum(s[i + 1]))
  }

  /** The same without the condition at the two ends. */
  ghost predicate Loose(s: string) {
    && (forall i :: 0 <= i < |s| ==> IsAlnum(s[i]) || s[i] == '_')
    && (forall i :: 0 <= i < |s| - 1 ==> IsAlnum(s[i]) || IsAlnum(s[i + 1]))
  }

  lemma {:induction false} ReplaceRunsIsLoose(s: string)
    ensures Loose(ReplaceRuns(s))
    ensures s != [] && IsAlnum(s[0]) ==> ReplaceRuns(s) != [] && IsAlnum(ReplaceRuns(s)[0])
    decreases |s|
  {
    if s != [] {
      if IsAlnum(s[0]) {
        ReplaceRunsIsLoose(s[1..]);
      } else {
        ReplaceRunsIsLoose(DropRun(s));
      }
    }
  }

  lemma {:induction false} TrimLeftShape(s: string)
    requires Loose(s)
    ensures var r := TrimLeftUnderscores(s); Loose(r) && (r != [] ==> IsAlnum(r[0]))
  {}

  lemma {:induction false} TrimRightShape(s: string)
    requires Loose(s) && (s != [] ==> IsAlnum(s[0]))
    ensures Words(TrimRightUnderscores(s))
  {}

  /** The result is empty, or alphanumeric words joined by single underscores. */
  lemma {:induction false} SanitizedIsWords(value: string)
    ensures Words(SanitizeName(value))
  {
    var s := ReplaceRuns(Lower(TrimSpace(value)));
    ReplaceRunsIsLoose(Lower(TrimSpace(value)));
    TrimLeftShape(s);
    TrimRightShape(TrimLeftUnderscores(s));
  }

  lemma {:induction false} ReplaceRunsKeepsWords(s: string)
    requires Loose(s)
    ensures ReplaceRuns(s) == s
    decreases |s|
  {
    if s != [] {
      if IsAlnum(s[0]) {
        ReplaceRunsKeepsWords(s[1..]);
      } else {
        assert DropRun(s) == s[1..] by {
          assert DropRun(s) == DropRun(s[1..]);
          assert |s| > 1 ==> IsAlnum(s[1]);
        }
        ReplaceRunsKeepsWords(s[1..]);
      }
      assert s == [s[0]] + s[1..];
    }
  }

  /** Words are left alone, so sanitising twice is sanitising once. */
  lemma {:induction false} WordsAreFixed(s: string)
    requires Words(s)
    ensures SanitizeName(s) == s
  {
    assert forall i :: 0 <= i < |s| ==> !IsSpace(s[i]) && !IsUpper(s[i]);
    assert TrimSpace(s) == s;
    assert Lower(s) == s;
    ReplaceRunsKeepsWords(s);
  }

  lemma {:induction false} SanitizeIsIdempotent(value: string)
    ensures SanitizeName(SanitizeName(value)) == SanitizeName(value)
  {
    SanitizedIsWords(value);
    WordsAreFixed(SanitizeName(value));
  }

  // What sanitising computes ---------------------------------------------------------

  /** The leading letters and digits. */
  function Word(s: string): (r: string)
    ensures |r| <= |s| && r == s[..|r|]
    ensures forall i :: 0 <= i < |r| ==> IsAlnum(r[i])
    ensures |r| < |s| ==> !IsAlnum(s[|r|])
    ensures s != [] && IsAlnum(s[0]) ==> r != []
  {
    if s != [] && IsAlnum(s[0]) then [s[0]] + Word(s[1..]) else []
  }

  /** The maximal runs of letters and digits. */
  function WordsOf(s: string): seq<string>
    decreases |s|
  {
    if s == [] then []
    else if IsAlnum(s[0]) then [Word(s)] + WordsOf(s[|Word(s)|..])
    else WordsOf(s[1..])
  }

  function Join(words: seq<string>): string {
    if words == [] then ""
    else if |words| == 1 then words[0]
    else words[0] + "_" + Join(words[1..])
  }

  lemma {:induction false} WordsOfDropRun(s: string)
    ensures WordsOf(DropRun(s)) == WordsOf(s)
  {
    if s != [] && !IsAlnum(s[0]) { WordsOfDropRun(s[1..]); }
  }

  lemma {:induction false} ReplaceRunsOfWord(s: string)
    ensures ReplaceRuns(s) == Word(s) + ReplaceRuns(s[|Word(s)|..])
  {
    if s != [] && IsAlnum(s[0]) {
      ReplaceRunsOfWord(s[1..]);
      assert s[1..][|Word(s[1..])|..] == s[|Word(s)|..];
    } else {
      assert s[0..] == s;
    }
  }

  lemma {:induction false} TrimRightAfter(a: string, b: string)
    requires TrimRightUnderscores(b) != []
    ensures TrimRightUnderscores(a + b) == a + TrimRightUnderscores(b)
    decreases |b|
  {
    if b[|b| - 1] == '_' {
      assert (a + b)[..|a + b| - 1] == a + b[..|b| - 1];
      TrimRightAfter(a, b[..|b| - 1]);
    }
  }

  lemma {:induction false} JoinOfWords(s: string)
    requires s != [] ==> IsAlnum(s[0])
    ensures TrimRightUnderscores(ReplaceRuns(s)) == Join(WordsOf(s))
    ensures s != [] ==> Join(WordsOf(s)) != []
    decreases |s|
  {
    if s != [] {
      var word, rest := Word(s), s[|Word(s)|..];
      ReplaceRunsOfWord(s);
      assert s == word + rest;
      if rest == [] {
        assert word + ReplaceRuns(rest) == word;
        assert WordsOf(s) == [word];
      } else {
        var next := DropRun(rest);
        WordsOfDropRun(rest);
        JoinOfWords(next);
        assert ReplaceRuns(s) == (word + "_") + ReplaceRuns(next);
        if next == [] {
          assert (word + "_" + "")[..|word|] == word;
          assert WordsOf(s) == [word];
        } else {
          TrimRightAfter(word + "_", ReplaceRuns(next));
          assert WordsOf(s) == [word] + WordsOf(next);
        }
      }
    }
  }

  lemma {:induction false} TrimLeftOfRuns(s: string)
    ensures TrimLeftUnderscores(ReplaceRuns(s)) == ReplaceRuns(DropRun(s))
  {}

  lemma {:induction false} WordsOfTrimLeft(s: string)
    ensures WordsOf(Lower(TrimLeft(s))) == WordsOf(Lower(s))
  {
    if s != [] && IsSpace(s[0]) {
      WordsOfTrimLeft(s[1..]);
      assert Lower(s)[1..] == Lower(s[1..]) && !IsAlnum(Lower(s)[0]);
    }
  }

  lemma {:induction false} WordsOfAppend(s: string, c: char)
    requires !IsAlnum(c)
    ensures WordsOf(s + [c]) == WordsOf(s)
    decreases |s|
  {
    if s == [] {
      assert ([] + [c])[1..] == "";
    } else if IsAlnum(s[0]) {
      WordOfAppend(s, c);
      var n := |Word(s)|;
      assert (s + [c])[n..] == s[n..] + [c];
      WordsOfAppend(s[n..], c);
    } else {
      assert (s + [c])[1..] == s[1..] + [c];
      WordsOfAppend(s[1..], c);
    }
  }

  lemma {:induction false} WordOfAppend(s: string, c: char)
    requires !IsAlnum(c)
    ensures Word(s + [c]) == Word(s)
  {
    if s != [] && IsAlnum(s[0]) {
      assert (s + [c])[1..] == s[1..] + [c];
      WordOfAppend(s[1..], c);
    }
  }

  lemma {:induction false} WordsOfTrimRight(s: string)
    ensures WordsOf(Lower(TrimRight(s))) == WordsOf(Lower(s))
  {
    if s != [] && IsSpace(s[|s| - 1]) {
      var n := |s| - 1;
      WordsOfTrimRight(s[..n]);
      assert Lower(s) == Lower(s[..n]) + [LowerChar(s[n])];
      WordsOfAppend(Lower(s[..n]), LowerChar(s[n]));
    }
  }

  /** Sanitising joins the alphanumeric words of the lower-cased name by single underscores. */
  lemma {:induction false} SanitizeJoinsWords(value: string)
    ensures SanitizeName(value) == Join(WordsOf(Lower(value)))
  {
    var s := Lower(TrimSpace(value));
    TrimLeftOfRuns(s);
    JoinOfWords(DropRun(s));
    WordsOfDropRun(s);
    WordsOfTrimRight(TrimLeft(value));
    WordsOfTrimLeft(value);
  }

  // The project name ---------------------------------------------------------------

  const NUL := 0 as char

  function OrDefault(s: string, default: string): string { if s == "" then default else s }

  function StackPart(stackName: string): string { OrDefault(SanitizeName(stackName), "stack") }

  function ProfilePart(profile: string): string { OrDefault(SanitizeName(profile), "dev") }

  /** The string that is hashed. */
  function Preimage(projectDir: string, stack: string, profile: string): string {
    projectDir + [NUL] + stack + [NUL] + profile
  }

  /** `hex` is the hexadecimal SHA-256 of a string; nothing is assumed of it but its length. */
  function Name(stackName: string, profile: string, projectDir: string, hex: string -> string): string
    requires forall s :: |hex(s)| >= 12
  {
    var stack, prof := StackPart(stackName), ProfilePart(profile);
    "zb_" + stack + "_" + prof + "_" + hex(Preimage(projectDir, stack, prof))[..12]
  }

  /**
   The name is zb_, the words of the stack name or else "stack", the words of the profile
   or else "dev", joined by underscores, and the first twelve characters of a hash.
   */
  lemma {:induction false} NameExactly(stackName: string, profile: string, projectDir: string, hex: string -> string)
    requires forall s :: |hex(s)| >= 12
    ensures var stack := if WordsOf(Lower(stackName)) == [] then "stack" else Join(WordsOf(Lower(stackName)));
      var prof := if WordsOf(Lower(profile)) == [] then "dev" else Join(WordsOf(Lower(profile)));
      Name(stackName, profile, projectDir, hex)
      == "zb_" + stack + "_" + prof + "_" + hex(projectDir + "\0" + stack + "\0" + prof)[..12]
  {
    SanitizeJoinsWords(stackName);
    SanitizeJoinsWords(profile);
    JoinedWords(Lower(stackName));
    JoinedWords(Lower(profile));
    assert [NUL] == "\0";
  }

  /** Only no words join to nothing. */
  lemma {:induction false} JoinedWords(s: string)
    ensures Join(WordsOf(s)) == "" <==> WordsOf(s) == []
    decreases |s|
  {
    WordsOfDropRun(s);
    JoinOfWords(DropRun(s));
    if DropRun(s) == [] { assert WordsOf(DropRun(s)) == []; }
  }

  lemma {:induction false} LastSplit(a: string, x: string, b: string, y: string)
    requires NUL !in x && NUL !in y && a + [NUL] + x == b + [NUL] + y
    ensures a == b && x == y
  {
    var s := a + [NUL] + x;
    assert s[|a|] == NUL && s[|b|] == NUL;
    assert forall k :: |a| < k < |s| ==> s[k] == x[k - |a| - 1];
    assert forall k :: |b| < k < |s| ==> s[k] == y[k - |b| - 1];
    assert |a| == |b|;
    assert a == s[..|a|] && b == s[..|b|];
    assert x == s[|a| + 1..] && y == s[|b| + 1..];
  }

  lemma PartsHaveNoNul(stackName: string, profile: string)
    ensures NUL !in StackPart(stackName) && NUL !in ProfilePart(profile)
  {
    SanitizedIsWords(stackName);
    SanitizedIsWords(profile);
  }

  /** The hashed string determines directory, stack and profile, even for a directory with NULs. */
  lemma {:induction false} PreimageIsInjective(
    dir1: string, stack1: string, profile1: string, dir2: string, stack2: string, profile2: string)
    requires Preimage(dir1, StackPart(stack1), ProfilePart(profile1))
      == Preimage(dir2, StackPart(stack2), ProfilePart(profile2))
    ensures dir1 == dir2 && StackPart(stack1) == StackPart(stack2) && ProfilePart(profile1) == ProfilePart(profile2)
  {
    PartsHaveNoNul(stack1, profile1);
    PartsHaveNoNul(stack2, profile2);
    LastSplit(dir1 + [NUL] + StackPart(stack1), ProfilePart(profile1), dir2 + [NUL] + StackPart(stack2),
      ProfilePart(profile2));
    LastSplit(dir1, StackPart(stack1), dir2, StackPart(stack2));
  }

  /** Equal project names force equal triples, or two strings whose truncated hashes collide. */
  lemma {:induction false} EqualNamesMeanEqualTriplesOrCollision(
    dir1: string, stack1: string, profile1: string, dir2: string, stack2: string, profile2: string,
      hex: string -> string)
    requires forall s :: |hex(s)| >= 12
    requires Name(stack1, profile1, dir1, hex) == Name(stack2, profile2, dir2, hex)
    ensures
      || (dir1 == dir2 && StackPart(stack1) == StackPart(stack2) && ProfilePart(profile1) == ProfilePart(profile2))
      || (var p := Preimage(dir1, StackPart(stack1), ProfilePart(profile1));
          var q := Preimage(dir2, StackPart(stack2), ProfilePart(profile2));
          p != q && hex(p)[..12] == hex(q)[..12])
  {
    var p := Preimage(dir1, StackPart(stack1), ProfilePart(profile1));
    var q := Preimage(dir2, StackPart(stack2), ProfilePart(profile2));
    var m, n := Name(stack1, profile1, dir1, hex), Name(stack2, profile2, dir2, hex);
    assert m[|m| - 12..] == hex(p)[..12] && n[|n| - 12..] == hex(q)[..12];
    if p == q {
      PreimageIsInjective(dir1, stack1, profile1, dir2, stack2, profile2);
    }
  }
}
