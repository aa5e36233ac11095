/** The token-budgeted accumulation shared by every `web_search` and
    `wikipedia_search` that formats hits: entries are appended in order while
    the running token total stays within `maxTokens`; the first entry that
    pushes the total over the budget ends the loop. `count` stands for
    `token_count`, about which nothing is assumed except that it returns a
    natural number (in particular it is not assumed additive). */
module Budget {
  import opened Basics

  /** Sum of `count` over the entries, left to right. */
  function Total(count: string -> nat, entries: seq<string>): nat
  {
    if |entries| == 0 then 0
    else Total(count, entries[..|entries| - 1]) + count(entries[|entries| - 1])
  }

  lemma TotalStep(count: string -> nat, entries: seq<string>, i: nat)
    requires i < |entries|
    ensures Total(count, entries[..i + 1]) == Total(count, entries[..i]) + count(entries[i])
  {
    assert entries[..i + 1][..i] == entries[..i];
  }

  /** Running totals never decrease as the prefix grows. */
  lemma {:induction false} TotalMonotone(count: string -> nat, entries: seq<string>, i: nat, j: nat)
    requires i <= j <= |entries|
    ensures Total(count, entries[..i]) <= Total(count, entries[..j])
    decreases j - i
  {
    if i < j {
      TotalMonotone(count, entries, i, j - 1);
      TotalStep(count, entries, j - 1);
    }
  }

  /** The loop keeps exactly the first `k` entries: they fit the budget
      (unless there are none), and the next entry, if any, overflows it. */
  predicate StopsAfter(count: string -> nat, entries: seq<string>, maxTokens: int, k: nat)
  {
    && k <= |entries|
    && (k == 0 || Total(count, entries[..k]) <= maxTokens)
    && (k == |entries| || Total(count, entries[..k + 1]) > maxTokens)
  }

  /** How many leading entries the loop keeps when it has already kept the
      first `i` of them without breaking. */
  function KeptFrom(count: string -> nat, entries: seq<string>, maxTokens: int, i: nat): (k: nat)
    requires i <= |entries|
    requires i == 0 || Total(count, entries[..i]) <= maxTokens
    ensures i <= k && StopsAfter(count, entries, maxTokens, k)
    decreases |entries| - i
  {
    if i == |entries| then i
    else if Total(count, entries[..i + 1]) > maxTokens then i
    else KeptFrom(count, entries, maxTokens, i + 1)
  }

  /** The number of entries the accumulation keeps. */
  function Kept(count: string -> nat, entries: seq<string>, maxTokens: int): (k: nat)
    ensures StopsAfter(count, entries, maxTokens, k)
  {
    KeptFrom(count, entries, maxTokens, 0)
  }

  /** The two conditions on `Kept` determine it: there is exactly one
      prefix that fits and whose extension by one entry does not. */
  lemma KeptUnique(count: string -> nat, entries: seq<string>, maxTokens: int, k: nat)
    requires StopsAfter(count, entries, maxTokens, k)
    ensures k == Kept(count, entries, maxTokens)
  {
    var k0 := Kept(count, entries, maxTokens);
    if k < k0 {
      TotalMonotone(count, entries, k + 1, k0);
    } else if k0 < k {
      TotalMonotone(count, entries, k0 + 1, k);
    }
  }

  /** The string the accumulation returns: the kept entries, concatenated in order. */
  function Accumulated(count: string -> nat, entries: seq<string>, maxTokens: int): string
  {
    Concat(entries[..Kept(count, entries, maxTokens)])
  }

  /** The source's loop: add the entry's count to the running total, break if
      the total exceeds the budget, otherwise append the entry. */
  method Accumulate(count: string -> nat, entries: seq<string>, maxTokens: int) returns (results: string)
    ensures exists k: nat :: StopsAfter(count, entries, maxTokens, k) && results == Concat(entries[..k])
    ensures results == Accumulated(count, entries, maxTokens)
  {
    results := "";
    var totalCount := 0;
    var i := 0;
    while i < |entries|
      invariant i <= |entries|
      invariant totalCount == Total(count, entries[..i])
      invariant i == 0 || totalCount <= maxTokens
      invariant results == Concat(entries[..i])
    {
      TotalStep(count, entries, i);
      totalCount := totalCount + count(entries[i]);
      if totalCount > maxTokens {
        break;
      }
      assert entries[..i + 1][..i] == entries[..i];
      results := results + entries[i];
      i := i + 1;
    }
    KeptUnique(count, entries, maxTokens, i);
  }

  /** Once a prefix of the entries overflows, nothing after it matters: no
      later entry is ever included, however small. */
  lemma LaterEntriesIgnored(count: string -> nat, entries: seq<string>, rest: seq<string>, maxTokens: int)
    requires Kept(count, entries, maxTokens) < |entries|
    ensures Kept(count, entries + rest, maxTokens) == Kept(count, entries, maxTokens)
    ensures Accumulated(count, entries + rest, maxTokens) == Accumulated(count, entries, maxTokens)
  {
    var k := Kept(count, entries, maxTokens);
    var all := entries + rest;
    assert all[..k] == entries[..k];
    assert all[..k + 1] == entries[..k + 1];
    KeptUnique(count, all, maxTokens, k);
  }

  /** A concrete run: an oversized first entry ends the loop although the
      second one would fit on its own. */
  lemma SmallLaterEntryExcluded()
    ensures Accumulated(s => |s|, ["aaaa", "a"], 2) == ""
  {
  }
}
