/** Small shared vocabulary: failure-carrying results, string concatenation,
    Python's substring test `sub in s`, and Python's `str.lower` on ASCII letters. */
module Basics {

  datatype Option<+T> = None | Some(value: T)

  /** A value or the exception the Python code would raise instead. */
  datatype Result<+T, +E> = Ok(value: T) | Err(error: E)

  /** Left-to-right concatenation, as built by repeated `results = results + part`. */
  function Concat(parts: seq<string>): string
  {
    if |parts| == 0 then "" else Concat(parts[..|parts| - 1]) + parts[|parts| - 1]
  }

  lemma {:induction false} ConcatAppend(a: seq<string>, b: seq<string>)
    ensures Concat(a + b) == Concat(a) + Concat(b)
    decreases |b|
  {
    if |b| == 0 {
      assert a + b == a;
    } else {
      var b' := b[..|b| - 1];
      assert (a + b)[..|a + b| - 1] == a + b';
      ConcatAppend(a, b');
    }
  }

  /** Python's `sub in s` on strings. */
  predicate Contains(s: string, sub: string)
    decreases |s|
  {
    |sub| <= |s| && (sub <= s || Contains(s[1..], sub))
  }

  /** The occurrence test `Contains` computes, stated with an explicit position. */
  lemma {:induction false} ContainsAt(s: string, sub: string, k: nat)
    requires OccursAt(s, k, sub)
    ensures Contains(s, sub)
    decreases k
  {
    if k == 0 {
      assert sub <= s;
    } else {
      assert s[1..][k - 1..k - 1 + |sub|] == s[k..k + |sub|];
      ContainsAt(s[1..], sub, k - 1);
    }
  }

  /** Conversely, `Contains` only holds when there is such a position. */
  lemma {:induction false} ContainsOccurs(s: string, sub: string)
    requires Contains(s, sub)
    ensures exists k: nat :: OccursAt(s, k, sub)
    decreases |s|
  {
    if sub <= s {
      assert OccursAt(s, 0, sub);
    } else {
      ContainsOccurs(s[1..], sub);
      var k: nat :| OccursAt(s[1..], k, sub);
      assert s[k + 1..k + 1 + |sub|] == s[1..][k..k + |sub|];
      assert OccursAt(s, k + 1, sub);
    }
  }

  function LowerChar(c: char): char
  {
    if 'A' <= c <= 'Z' then (c as int + 32) as char else c
  }

  /** Python's `str.lower`, restricted to ASCII letters. */
  function Lower(s: string): (r: string)
    ensures |r| == |s|
    ensures forall i :: 0 <= i < |s| ==> r[i] == LowerChar(s[i])
  {
    if |s| == 0 then "" else [LowerChar(s[0])] + Lower(s[1..])
  }

  /** `part` occurs in `s` starting at index `k`. */
  predicate OccursAt(s: string, k: nat, part: string)
  {
    k + |part| <= |s| && s[k..k + |part|] == part
  }

  /** The parts occur in `s` one after another, in order, without overlapping. */
  ghost predicate EmbedsInOrder(s: string, parts: seq<string>)
    decreases |parts|
  {
    |parts| == 0
    || exists k: nat :: OccursAt(s, k, parts[0]) && EmbedsInOrder(s[k + |parts[0]|..], parts[1..])
  }

  /** A template with fixed texts between its holes: `fixed[0] + holes[0] +
      fixed[1] + ... + holes[n-1] + fixed[n]`. */
  function Fill(fixed: seq<string>, holes: seq<string>): string
    requires |fixed| == |holes| + 1
    decreases |holes|
  {
    if |holes| == 0 then fixed[0] else fixed[0] + holes[0] + Fill(fixed[1..], holes[1..])
  }

  /** Whatever the fixed texts, a filled template carries its holes in order. */
  lemma {:induction false} FillEmbedsHoles(fixed: seq<string>, holes: seq<string>)
    requires |fixed| == |holes| + 1
    ensures EmbedsInOrder(Fill(fixed, holes), holes)
    decreases |holes|
  {
    if |holes| > 0 {
      var s := Fill(fixed, holes);
      var k := |fixed[0]|;
      var rest := Fill(fixed[1..], holes[1..]);
      assert s == fixed[0] + holes[0] + rest;
      assert s[k..k + |holes[0]|] == holes[0];
      assert s[k + |holes[0]|..] == rest;
      FillEmbedsHoles(fixed[1..], holes[1..]);
      assert OccursAt(s, k, holes[0]);
    }
  }
}
