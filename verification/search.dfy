/** The budgeted search tools: `web_search` (identical in the streaming and the
    function-calling chat programs) and `wikipedia_search`. The search engines
    are oracles: `hits` is what the DuckDuckGo text search yields, in order;
    `titles` and `lookup` stand for `wikipedia.search` and `wikipedia.page`. */
module Search {
  import opened Basics
  import opened Budget

  /** One DuckDuckGo result: its `title`, `href` and `body`. */
  datatype Hit = Hit(title: string, href: string, body: string)

  /** What `wikipedia.page(title)` yields: the page, or one of the two errors
      the search loop skips. */
  datatype PageLookup = Page(url: string, summary: string) | PageError | DisambiguationError

  /** The block each search result becomes in the returned text. */
  function FormatEntry(title: string, url: string, body: string): string
  {
    "\nTITLE: " + title + "\nURL: " + url + "\n" + body + "\n"
  }

  function WebEntries(hits: seq<Hit>): (r: seq<string>)
    ensures |r| == |hits|
    ensures forall i :: 0 <= i < |hits| ==> r[i] == FormatEntry(hits[i].title, hits[i].href, hits[i].body)
  {
    if |hits| == 0 then [] else [FormatEntry(hits[0].title, hits[0].href, hits[0].body)] + WebEntries(hits[1..])
  }

  /** `web_search(query, maxTokens)`, given the hits the engine yields for the query. */
  function WebSearch(count: string -> nat, hits: seq<Hit>, maxTokens: int): (r: string)
    ensures exists k: nat :: StopsAfter(count, WebEntries(hits), maxTokens, k) && r == Concat(WebEntries(hits)[..k])
  {
    Accumulated(count, WebEntries(hits), maxTokens)
  }

  /** The kept text of a web search never exceeds a non-negative budget,
      measured as the sum of the counts of the blocks it is made of. */
  lemma WebSearchWithinBudget(count: string -> nat, hits: seq<Hit>, maxTokens: int)
    requires maxTokens >= 0
    ensures var k := Kept(count, WebEntries(hits), maxTokens);
            WebSearch(count, hits, maxTokens) == Concat(WebEntries(hits)[..k])
            && Total(count, WebEntries(hits)[..k]) <= maxTokens
  {
  }

  /** `query[:300]`: the query actually sent to the encyclopedia search. */
  function WikiQuery(query: string): (r: string)
    ensures r <= query
    ensures |r| == if |query| < 300 then |query| else 300
  {
    if |query| <= 300 then query else query[..300]
  }

  /** The blocks of the titles whose page lookup succeeds, in title order;
      a title whose lookup fails is skipped and contributes no block. */
  function WikiEntries(titles: seq<string>, lookup: string -> PageLookup): (r: seq<string>)
    ensures |r| <= |titles|
  {
    if |titles| == 0 then []
    else
      var rest := WikiEntries(titles[1..], lookup);
      match lookup(titles[0])
      case Page(url, summary) => [FormatEntry(titles[0], url, summary)] + rest
      case PageError => rest
      case DisambiguationError => rest
  }

  lemma {:induction false} WikiEntriesAppend(a: seq<string>, b: seq<string>, lookup: string -> PageLookup)
    ensures WikiEntries(a + b, lookup) == WikiEntries(a, lookup) + WikiEntries(b, lookup)
    decreases |a|
  {
    if |a| == 0 {
      assert a + b == b;
    } else {
      assert (a + b)[1..] == a[1..] + b;
      WikiEntriesAppend(a[1..], b, lookup);
    }
  }

  /** A title whose lookup raises PageError or DisambiguationError leaves the
      list of blocks, and therefore the running total, exactly as if the
      title had not been returned at all. */
  lemma FailedLookupSkipped(a: seq<string>, t: string, b: seq<string>, lookup: string -> PageLookup)
    requires lookup(t).PageError? || lookup(t).DisambiguationError?
    ensures WikiEntries(a + [t] + b, lookup) == WikiEntries(a + b, lookup)
  {
    WikiEntriesAppend(a + [t], b, lookup);
    WikiEntriesAppend(a, [t], lookup);
    WikiEntriesAppend(a, b, lookup);
    assert [t][1..] == [];
  }

  /** A title whose page is found contributes its block, between the blocks
      of the titles before it and those of the titles after it. */
  lemma FoundLookupKept(a: seq<string>, t: string, b: seq<string>, lookup: string -> PageLookup)
    requires lookup(t).Page?
    ensures WikiEntries(a + [t] + b, lookup)
            == WikiEntries(a, lookup) + [FormatEntry(t, lookup(t).url, lookup(t).summary)] + WikiEntries(b, lookup)
  {
    WikiEntriesAppend(a + [t], b, lookup);
    WikiEntriesAppend(a, [t], lookup);
    assert [t][1..] == [];
  }

  /** When every lookup succeeds there is one block per title. */
  lemma {:induction false} AllFoundAllKept(titles: seq<string>, lookup: string -> PageLookup)
    requires forall j :: 0 <= j < |titles| ==> lookup(titles[j]).Page?
    ensures |WikiEntries(titles, lookup)| == |titles|
    decreases |titles|
  {
    if |titles| > 0 {
      assert forall j :: 0 <= j < |titles[1..]| ==> titles[1..][j] == titles[j + 1];
      AllFoundAllKept(titles[1..], lookup);
    }
  }

  /** Every block comes from a title whose page was found. */
  lemma {:induction false} WikiEntriesFromPages(titles: seq<string>, lookup: string -> PageLookup, i: nat)
    requires i < |WikiEntries(titles, lookup)|
    ensures exists j :: 0 <= j < |titles| && lookup(titles[j]).Page?
                        && WikiEntries(titles, lookup)[i]
                           == FormatEntry(titles[j], lookup(titles[j]).url, lookup(titles[j]).summary)
    decreases |titles|
  {
    var rest := WikiEntries(titles[1..], lookup);
    if lookup(titles[0]).Page? && i == 0 {
      assert titles[0] == titles[0];
    } else {
      var i' := if lookup(titles[0]).Page? then i - 1 else i;
      WikiEntriesFromPages(titles[1..], lookup, i');
      var j :| 0 <= j < |titles[1..]| && lookup(titles[1..][j]).Page?
               && rest[i'] == FormatEntry(titles[1..][j], lookup(titles[1..][j]).url, lookup(titles[1..][j]).summary);
      assert titles[j + 1] == titles[1..][j];
    }
  }

  /** `wikipedia_search(query, maxTokens)`, given the engine's title search and page lookup. */
  function WikipediaSearch(count: string -> nat, titles: string -> seq<string>, lookup: string -> PageLookup,
                           query: string, maxTokens: int): (r: string)
    ensures exists k: nat :: StopsAfter(count, WikiEntries(titles(WikiQuery(query)), lookup), maxTokens, k)
                             && r == Concat(WikiEntries(titles(WikiQuery(query)), lookup)[..k])
  {
    Accumulated(count, WikiEntries(titles(WikiQuery(query)), lookup), maxTokens)
  }

  /** Characters past the 300th never influence the encyclopedia search. */
  lemma WikiQueryTruncated(count: string -> nat, titles: string -> seq<string>, lookup: string -> PageLookup,
                           query: string, extra: string, maxTokens: int)
    requires |query| >= 300
    ensures WikipediaSearch(count, titles, lookup, query + extra, maxTokens)
            == WikipediaSearch(count, titles, lookup, query, maxTokens)
  {
    assert (query + extra)[..300] == query[..300];
    assert WikiQuery(query + extra) == WikiQuery(query);
  }
}
