/** Shared building blocks: optional values and the few Go string operations the model needs.
    A Go string is a byte sequence; here it is a `string` whose characters stand for bytes. */
module Basics {

  datatype Option<+T> = None | Some(value: T)

  datatype Result<+T, +E> = Ok(value: T) | Err(error: E)

  /** `strings.HasPrefix`. */
  predicate HasPrefix(s: string, prefix: string) {
    prefix <= s
  }

  /** `strings.Index`: the least offset at which `sub` occurs in `s`, or -1. */
  function IndexOf(s: string, sub: string): (i: int)
    ensures -1 <= i && (i >= 0 ==> i + |sub| <= |s|)
  {
    if sub <= s then 0
    else if s == "" then -1
    else
      var r := IndexOf(s[1..], sub);
      if r < 0 then -1 else r + 1
  }

  predicate OccursAt(s: string, sub: string, i: int) {
    0 <= i && i + |sub| <= |s| && s[i..i + |sub|] == sub
  }

  lemma SliceShift(s: string, i: nat, n: nat)
    requires s != "" && i + n < |s|
    ensures s[1..][i..i + n] == s[i + 1..i + 1 + n]
  {
    var a, b := s[1..][i..i + n], s[i + 1..i + 1 + n];
    forall k | 0 <= k < n ensures a[k] == b[k] {
      assert s[1..][i + k] == s[1 + (i + k)];
    }
  }

  lemma {:induction false} IndexOfOccurs(s: string, sub: string)
    requires IndexOf(s, sub) >= 0
    ensures OccursAt(s, sub, IndexOf(s, sub))
  {
    if !(sub <= s) {
      IndexOfOccurs(s[1..], sub);
      SliceShift(s, IndexOf(s[1..], sub), |sub|);
    }
  }

  lemma {:induction false} IndexOfLeast(s: string, sub: string, k: int)
    requires OccursAt(s, sub, k)
    ensures 0 <= IndexOf(s, sub) <= k
  {
    if !(sub <= s) {
      SliceShift(s, k - 1, |sub|);
      IndexOfLeast(s[1..], sub, k - 1);
    }
  }

  predicate Contains(s: string, sub: string) {
    IndexOf(s, sub) >= 0
  }

  /** The concatenation of a list of strings. */
  function Concat(ss: seq<string>): string {
    if ss == [] then "" else Concat(ss[..|ss| - 1]) + ss[|ss| - 1]
  }

  lemma SeqAssoc<T>(a: seq<T>, b: seq<T>, c: seq<T>)
    ensures a + b + c == a + (b + c)
  {
  }

  lemma SplitLast<T>(s: seq<T>)
    requires s != []
    ensures s[..|s| - 1] + [s[|s| - 1]] == s
  {
  }

  function Max(a: int, b: int): int {
    if a < b then b else a
  }

  /** `TrimSpace` for a given notion of white space. */
  function TrimBy(space: char -> bool, s: string): (r: string)
    ensures r == "" || (!space(r[0]) && !space(r[|r| - 1]))
  {
    if s == "" then ""
    else if space(s[0]) then TrimBy(space, s[1..])
    else if space(s[|s| - 1]) then TrimBy(space, s[..|s| - 1])
    else s
  }

  lemma {:induction false} TrimKeeps(space: char -> bool, s: string, i: nat)
    requires i < |s| && !space(s[i])
    ensures TrimBy(space, s) != ""
  {
    if space(s[0]) {
      TrimKeeps(space, s[1..], i - 1);
    } else if space(s[|s| - 1]) {
      TrimKeeps(space, s[..|s| - 1], i);
    }
  }
}
