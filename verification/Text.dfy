/** Suffixes, and trimming as Rust's `str::trim` does it. */
module Text {

  /** The Unicode White_Space property. */
  predicate IsSpace(c: char) {
    var n := c as int;
    9 <= n <= 13 || n == 0x20 || n == 0x85 || n == 0xA0 || n == 0x1680 || 0x2000 <= n <= 0x200A
    || n == 0x2028 || n == 0x2029 || n == 0x202F || n == 0x205F || n == 0x3000
  }

  predicate IsBlank(s: string) {
    forall i :: 0 <= i < |s| ==> IsSpace(s[i])
  }

  /** The parts with `sep` between each two. */
  function Join(parts: seq<string>, sep: string): string {
    if parts == [] then ""
    else if |parts| == 1 then parts[0]
    else Join(parts[..|parts| - 1], sep) + sep + parts[|parts| - 1]
  }

  lemma JoinAppend(parts: seq<string>, part: string, sep: string)
    ensures Join(parts + [part], sep) == if parts == [] then part else Join(parts, sep) + sep + part
  {
    assert (parts + [part])[..|parts|] == parts;
  }

  lemma {:induction false} JoinFront(part: string, parts: seq<string>, sep: string)
    requires parts != []
    ensures Join([part] + parts, sep) == part + sep + Join(parts, sep)
  {
    var front, last := parts[..|parts| - 1], parts[|parts| - 1];
    assert [part] + parts == ([part] + front) + [last];
    JoinAppend([part] + front, last, sep);
    if |parts| > 1 {
      JoinFront(part, front, sep);
    } else {
      assert [part] + front == [part];
    }
  }

  /** No white space at either end. */
  predicate IsTrimmed(s: string) {
    s != "" ==> !IsSpace(s[0]) && !IsSpace(s[|s| - 1])
  }

  predicate EndsWith(s: string, suffix: string) {
    |suffix| <= |s| && s[|s| - |suffix|..] == suffix
  }

  function TrimLeft(s: string): string {
    if s == "" || !IsSpace(s[0]) then s else TrimLeft(s[1..])
  }

  lemma {:induction false} TrimLeftCuts(s: string) returns (k: nat)
    ensures k <= |s| && IsBlank(s[..k]) && TrimLeft(s) == s[k..]
    ensures TrimLeft(s) != "" ==> !IsSpace(TrimLeft(s)[0])
  {
    k := 0;
    if s != "" && IsSpace(s[0]) {
      var rest := TrimLeftCuts(s[1..]);
      k := rest + 1;
      assert s[..k] == [s[0]] + s[1..][..rest] && s[k..] == s[1..][rest..];
    }
  }

  function TrimRight(s: string): string {
    if s == "" || !IsSpace(s[|s| - 1]) then s else TrimRight(s[..|s| - 1])
  }

  lemma {:induction false} TrimRightCuts(s: string)
    ensures TrimRight(s) <= s && IsBlank(s[|TrimRight(s)|..])
    ensures TrimRight(s) != "" ==> !IsSpace(TrimRight(s)[|TrimRight(s)| - 1])
  {
    if s != "" && IsSpace(s[|s| - 1]) {
      var front := s[..|s| - 1];
      TrimRightCuts(front);
      var n := |TrimRight(s)|;
      assert s[n..] == front[n..] + [s[|s| - 1]];
    }
  }

  function Trim(s: string): string {
    TrimRight(TrimLeft(s))
  }

  /** A trim takes blanks off both ends and leaves none there. */
  lemma TrimCuts(s: string) returns (before: string, after: string)
    ensures s == before + Trim(s) + after && IsBlank(before) && IsBlank(after) && IsTrimmed(Trim(s))
  {
    var left := TrimLeft(s);
    var k := TrimLeftCuts(s);
    TrimRightCuts(left);
    before := s[..k];
    after := left[|Trim(s)|..];
  }

  lemma TrimmedStays(s: string)
    requires IsTrimmed(s)
    ensures Trim(s) == s
  {
  }

  function Trims(parts: seq<string>): (r: seq<string>)
    ensures |r| == |parts| && forall i :: 0 <= i < |r| ==> r[i] == Trim(parts[i])
  {
    seq(|parts|, i requires 0 <= i < |parts| => Trim(parts[i]))
  }

  function NonBlank(): string -> bool {
    (s: string) => s != ""
  }
}
