/** Tool-name patterns: `*` stands for any text, `?` for any one character. */
module Glob {
  import opened Basics

  /** The matcher, by two indices. */
  predicate GlobMatch(pat: string, name: string, pi: nat, ni: nat)
    requires pi <= |pat| && ni <= |name|
    decreases |pat| - pi + |name| - ni
  {
    if pi == |pat| then ni == |name|
    else if ni == |name| then forall i :: pi <= i < |pat| ==> pat[i] == '*'
    else if pat[pi] == '*' then GlobMatch(pat, name, pi + 1, ni) || GlobMatch(pat, name, pi, ni + 1)
    else if pat[pi] == '?' then GlobMatch(pat, name, pi + 1, ni + 1)
    else pat[pi] == name[ni] && GlobMatch(pat, name, pi + 1, ni + 1)
  }

  predicate MatchesPattern(name: string, pattern: string) {
    pattern == "*" || GlobMatch(pattern, name, 0, 0)
  }

  // ----- What a pattern means -----

  /** What one pattern character can stand for. */
  predicate StandsFor(c: char, part: string) {
    if c == '*' then true else if c == '?' then |part| == 1 else part == [c]
  }

  /** `parts` reads `name` as `pat`, character by character of the pattern. */
  predicate Reads(pat: string, parts: seq<string>, name: string) {
    && |parts| == |pat| && Flatten(parts) == name
    && (forall i :: 0 <= i < |pat| ==> StandsFor(pat[i], parts[i]))
  }

  /** The meaning of a pattern: some reading of the name exists. */
  ghost predicate Means(pat: string, name: string) {
    exists parts :: Reads(pat, parts, name)
  }

  lemma ReadsCons(c: char, pat: string, part: string, parts: seq<string>, name: string)
    requires Reads(pat, parts, name) && StandsFor(c, part)
    ensures Reads([c] + pat, [part] + parts, part + name)
  {
    FlattenFirst([part] + parts);
    assert ([part] + parts)[1..] == parts;
  }

  lemma {:induction false} OnlyStars(pat: string) returns (parts: seq<string>)
    requires forall i :: 0 <= i < |pat| ==> pat[i] == '*'
    ensures Reads(pat, parts, "")
  {
    parts := [];
    if pat != "" {
      var rest := OnlyStars(pat[1..]);
      parts := [""] + rest;
      ReadsCons('*', pat[1..], "", rest, "");
      assert pat == ['*'] + pat[1..] && "" + "" == "";
    }
  }

  /** The matcher answers yes only when there is a reading. */
  lemma {:induction false} MatchIsRead(pat: string, name: string, pi: nat, ni: nat) returns (parts: seq<string>)
    requires pi <= |pat| && ni <= |name| && GlobMatch(pat, name, pi, ni)
    ensures Reads(pat[pi..], parts, name[ni..])
    decreases |pat| - pi + |name| - ni
  {
    if pi == |pat| {
      parts := [];
    } else if ni == |name| {
      parts := OnlyStars(pat[pi..]);
    } else if pat[pi] == '*' && GlobMatch(pat, name, pi + 1, ni) {
      var rest := MatchIsRead(pat, name, pi + 1, ni);
      parts := [""] + rest;
      ReadsCons('*', pat[pi + 1..], "", rest, name[ni..]);
      assert pat[pi..] == [pat[pi]] + pat[pi + 1..] && "" + name[ni..] == name[ni..];
    } else if pat[pi] == '*' {
      var longer := MatchIsRead(pat, name, pi, ni + 1);
      parts := [[name[ni]] + longer[0]] + longer[1..];
      FirstGrows(pat[pi..], longer, name[ni + 1..], name[ni]);
      assert name[ni..] == [name[ni]] + name[ni + 1..];
    } else {
      var rest := MatchIsRead(pat, name, pi + 1, ni + 1);
      parts := [[name[ni]]] + rest;
      ReadsCons(pat[pi], pat[pi + 1..], [name[ni]], rest, name[ni + 1..]);
      assert pat[pi..] == [pat[pi]] + pat[pi + 1..] && name[ni..] == [name[ni]] + name[ni + 1..];
    }
  }

  /** What a leading star stands for may grow. */
  lemma FirstGrows(pat: string, parts: seq<string>, name: string, c: char)
    requires Reads(pat, parts, name) && pat != "" && pat[0] == '*'
    ensures Reads(pat, [[c] + parts[0]] + parts[1..], [c] + name)
  {
    var longer := [[c] + parts[0]] + parts[1..];
    FlattenFirst(parts);
    FlattenFirst(longer);
    assert longer[1..] == parts[1..];
    assert Flatten(longer) == ([c] + parts[0]) + Flatten(parts[1..]) == [c] + name;
  }

  lemma {:induction false} NothingRead(pat: string, parts: seq<string>)
    requires Reads(pat, parts, "")
    ensures forall i :: 0 <= i < |pat| ==> pat[i] == '*'
  {
    if pat != "" {
      FlattenFirst(parts);
      assert parts[0] == "" && Flatten(parts[1..]) == "";
      NothingRead(pat[1..], parts[1..]);
      forall i | 0 <= i < |pat| ensures pat[i] == '*' {
        if i > 0 {
          assert pat[i] == pat[1..][i - 1];
        }
      }
    }
  }

  /** Whenever there is a reading the matcher answers yes. */
  lemma {:induction false} ReadIsMatch(pat: string, name: string, pi: nat, ni: nat, parts: seq<string>)
    requires pi <= |pat| && ni <= |name| && Reads(pat[pi..], parts, name[ni..])
    ensures GlobMatch(pat, name, pi, ni)
    decreases |pat| - pi + |name| - ni
  {
    if pi == |pat| {
    } else if ni == |name| {
      NothingRead(pat[pi..], parts);
      forall i | pi <= i < |pat| ensures pat[i] == '*' {
        assert pat[i] == pat[pi..][i - pi];
      }
    } else {
      var first, rest := parts[0], parts[1..];
      FlattenFirst(parts);
      assert StandsFor(pat[pi..][0], first);
      if pat[pi] == '*' && first != "" {
        StarShrinks(pat[pi..], parts, name[ni..]);
        assert name[ni..][1..] == name[ni + 1..];
        ReadIsMatch(pat, name, pi, ni + 1, [first[1..]] + rest);
      } else {
        FirstRead(pat[pi..], parts, name[ni..]);
        assert pat[pi..][1..] == pat[pi + 1..] && name[ni..][|first|..] == name[ni + |first|..];
        ReadIsMatch(pat, name, pi + 1, ni + |first|, rest);
      }
    }
  }

  /** What a leading star stands for may shrink. */
  lemma StarShrinks(pat: string, parts: seq<string>, name: string)
    requires Reads(pat, parts, name) && pat != "" && pat[0] == '*' && parts[0] != ""
    ensures name != "" && Reads(pat, [parts[0][1..]] + parts[1..], name[1..])
  {
    var shorter := [parts[0][1..]] + parts[1..];
    FlattenFirst(parts);
    FlattenFirst(shorter);
    assert shorter[1..] == parts[1..];
  }

  /** The rest of a reading reads the rest of the name. */
  lemma FirstRead(pat: string, parts: seq<string>, name: string)
    requires Reads(pat, parts, name) && pat != ""
    ensures |parts[0]| <= |name| && Reads(pat[1..], parts[1..], name[|parts[0]|..])
  {
    FlattenFirst(parts);
    forall i | 0 <= i < |pat| - 1 ensures StandsFor(pat[1..][i], parts[1..][i]) {
      assert pat[1..][i] == pat[i + 1] && parts[1..][i] == parts[i + 1];
    }
  }

  /** The matcher decides the declarative meaning. */
  lemma MatchesMeans(name: string, pattern: string)
    ensures MatchesPattern(name, pattern) <==> Means(pattern, name)
  {
    assert pattern[0..] == pattern && name[0..] == name;
    if pattern == "*" {
      FlattenFirst([name]);
      assert Flatten([name][1..]) == "" && name + "" == name;
      assert Reads("*", [name], name);
    } else if GlobMatch(pattern, name, 0, 0) {
      var parts := MatchIsRead(pattern, name, 0, 0);
    } else if Means(pattern, name) {
      var parts :| Reads(pattern, parts, name);
      ReadIsMatch(pattern, name, 0, 0, parts);
    }
  }

  lemma ReadsSplit(p: string, q: string, parts: seq<string>, name: string) returns (k: nat)
    requires Reads(p + q, parts, name)
    ensures k <= |name| && Reads(p, parts[..|p|], name[..k]) && Reads(q, parts[|p|..], name[k..])
  {
    var a, b := parts[..|p|], parts[|p|..];
    assert parts == a + b;
    FlattenConcat(a, b);
    k := |Flatten(a)|;
    assert name[..k] == Flatten(a) && name[k..] == Flatten(b);
    forall i | 0 <= i < |p| ensures StandsFor(p[i], a[i]) {
      assert (p + q)[i] == p[i] && parts[i] == a[i];
    }
    forall i | 0 <= i < |q| ensures StandsFor(q[i], b[i]) {
      assert (p + q)[|p| + i] == q[i] && parts[|p| + i] == b[i];
    }
  }

  lemma ReadsJoin(p: string, q: string, a: seq<string>, b: seq<string>, x: string, y: string)
    requires Reads(p, a, x) && Reads(q, b, y)
    ensures Reads(p + q, a + b, x + y)
  {
    FlattenConcat(a, b);
  }

  lemma MeansConcat(p: string, q: string, name: string)
    ensures Means(p + q, name) <==> exists k :: 0 <= k <= |name| && Means(p, name[..k]) && Means(q, name[k..])
  {
    if Means(p + q, name) {
      var parts :| Reads(p + q, parts, name);
      var k := ReadsSplit(p, q, parts, name);
    }
    if k: int :| 0 <= k <= |name| && Means(p, name[..k]) && Means(q, name[k..]) {
      var a :| Reads(p, a, name[..k]);
      var b :| Reads(q, b, name[k..]);
      ReadsJoin(p, q, a, b, name[..k], name[k..]);
      assert name == name[..k] + name[k..];
    }
  }

  /** A concatenated pattern matches exactly what its halves match at some split of the name. */
  lemma ConcatenationLaw(p: string, q: string, name: string)
    ensures MatchesPattern(name, p + q)
       <==> exists k :: 0 <= k <= |name| && MatchesPattern(name[..k], p) && MatchesPattern(name[k..], q)
  {
    MatchesMeans(name, p + q);
    MeansConcat(p, q, name);
    forall k | 0 <= k <= |name|
      ensures MatchesPattern(name[..k], p) <==> Means(p, name[..k])
      ensures MatchesPattern(name[k..], q) <==> Means(q, name[k..])
    {
      MatchesMeans(name[..k], p);
      MatchesMeans(name[k..], q);
    }
  }
}
