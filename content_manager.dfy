/**
 * Collecting articles from syndication feeds (twitter_bot/content_manager.py).
 *
 * The feed parser is a foreign library; it is given as a total function from a
 * feed locator to what parsing that locator produced.
 */
module ContentManager {
  import opened Wrappers

  /** One entry of a parsed feed; its "title" and "link" keys may be absent. */
  datatype Entry = Entry(title: Option<string>, link: Option<string>)

  /** The result of parsing one feed: entries (with the ill-formed-XML flag), or an exception. */
  datatype ParseOutcome =
    | Parsed(bozo: bool, entries: seq<Entry>)
    | ParseRaised

  /** An entry becomes an article exactly when it has both a title and a link. */
  predicate Qualifies(e: Entry)
  {
    Filled(e.title) && Filled(e.link)
  }

  /** What one entry adds to the article list. */
  function Keep(e: Entry): seq<Entry>
  {
    if Qualifies(e) then [e] else []
  }

  /** The qualifying entries of one feed, in feed order. */
  function Qualifying(es: seq<Entry>): (r: seq<Entry>)
    ensures |r| <= |es|
    ensures forall i :: 0 <= i < |r| ==> Qualifies(r[i])
  {
    if es == [] then [] else Qualifying(es[..|es| - 1]) + Keep(es[|es| - 1])
  }

  /** What one feed adds to the article list: nothing when parsing raised. */
  function Contribution(o: ParseOutcome): seq<Entry>
  {
    match o
    case Parsed(_, entries) => Qualifying(entries)
    case ParseRaised => []
  }

  /** The articles gathered from a list of feed locators, feed after feed. */
  function Gathered(urls: seq<string>, parse: string -> ParseOutcome): (r: seq<Entry>)
    ensures forall i :: 0 <= i < |r| ==> Qualifies(r[i])
  {
    if urls == [] then []
    else Gathered(urls[..|urls| - 1], parse) + Contribution(parse(urls[|urls| - 1]))
  }

  /** The number of entries the parser produced over all the feeds. */
  function TotalEntries(urls: seq<string>, parse: string -> ParseOutcome): nat
  {
    if urls == [] then 0
    else
      TotalEntries(urls[..|urls| - 1], parse)
      + match parse(urls[|urls| - 1]) case Parsed(_, es) => |es| case ParseRaised => 0
  }

  /** The inner loop of fetch_rss_feeds: append each entry that has both a title and a link. */
  method AppendQualifying(articles: seq<Entry>, entries: seq<Entry>) returns (r: seq<Entry>)
    ensures r == articles + Qualifying(entries)
  {
    r := articles;
    for j := 0 to |entries|
      invariant r == articles + Qualifying(entries[..j])
    {
      assert entries[..j + 1][..j] == entries[..j];
      var entry := entries[j];
      if Filled(entry.title) && Filled(entry.link) {
        r := r + [Entry(Some(entry.title.value), Some(entry.link.value))];
      }
    }
    assert entries[..|entries|] == entries;
  }

  /** Extending the locator prefix by one feed appends that feed's contribution. */
  lemma GatheredStep(urls: seq<string>, i: nat, parse: string -> ParseOutcome)
    requires i < |urls|
    ensures Gathered(urls[..i + 1], parse) == Gathered(urls[..i], parse) + Contribution(parse(urls[i]))
  {
    assert urls[..i + 1][..i] == urls[..i];
  }

  /**
   * fetch_rss_feeds: for each locator in order, parse it; skip it when parsing
   * raises or yields no entries; otherwise append every entry that has both a
   * title and a link. `feedUrls == None` selects the default feed list.
   */
  method FetchRssFeeds(feedUrls: Option<seq<string>>, defaultFeeds: seq<string>,
                       parse: string -> ParseOutcome)
    returns (articles: seq<Entry>)
    ensures articles == Gathered(if feedUrls.None? then defaultFeeds else feedUrls.value, parse)
    ensures forall i :: 0 <= i < |articles| ==> Qualifies(articles[i])
    ensures feedUrls == Some([]) ==> articles == []
  {
    var urls := if feedUrls.None? then defaultFeeds else feedUrls.value;
    articles := [];
    if urls == [] {
      return;
    }
    for i := 0 to |urls|
      invariant articles == Gathered(urls[..i], parse)
    {
      GatheredStep(urls, i, parse);
      var feed := parse(urls[i]);
      if feed.ParseRaised? {
        continue;
      }
      if feed.entries == [] {
        continue;
      }
      articles := AppendQualifying(articles, feed.entries);
    }
    assert urls[..|urls|] == urls;
  }

  /** Filtering distributes over concatenation: relative order is kept. */
  lemma {:induction false} QualifyingAppend(a: seq<Entry>, b: seq<Entry>)
    ensures Qualifying(a + b) == Qualifying(a) + Qualifying(b)
    decreases |b|
  {
    if b == [] {
      assert a + b == a;
    } else {
      var b' := b[..|b| - 1];
      assert (a + b)[..|a + b| - 1] == a + b';
      assert (a + b)[|a + b| - 1] == b[|b| - 1];
      QualifyingAppend(a, b');
    }
  }

  /**
   * Nothing but the unqualified entries is dropped: every qualifying entry
   * appears as often as in the feed, every other entry not at all.
   */
  lemma {:induction false} QualifyingCount(es: seq<Entry>, e: Entry)
    ensures multiset(Qualifying(es))[e] == if Qualifies(e) then multiset(es)[e] else 0
  {
    if es != [] {
      var init := es[..|es| - 1];
      assert es == init + [es[|es| - 1]];
      QualifyingCount(init, e);
    }
  }

  /** An entry is kept if and only if it occurs in the feed and qualifies. */
  lemma QualifyingMembership(es: seq<Entry>, e: Entry)
    ensures e in Qualifying(es) <==> e in es && Qualifies(e)
  {
    QualifyingCount(es, e);
    assert e in Qualifying(es) <==> multiset(Qualifying(es))[e] > 0;
    assert e in es <==> multiset(es)[e] > 0;
  }

  /** A feed whose entries all qualify is passed through unchanged. */
  lemma {:induction false} QualifyingAllKept(es: seq<Entry>)
    requires forall i :: 0 <= i < |es| ==> Qualifies(es[i])
    ensures Qualifying(es) == es
  {
    if es != [] {
      var init := es[..|es| - 1];
      assert es == init + [es[|es| - 1]];
      QualifyingAllKept(init);
    }
  }

  /** The collected articles of two locator lists one after the other. */
  lemma {:induction false} GatheredAppend(u: seq<string>, v: seq<string>, parse: string -> ParseOutcome)
    ensures Gathered(u + v, parse) == Gathered(u, parse) + Gathered(v, parse)
    decreases |v|
  {
    if v == [] {
      assert u + v == u;
    } else {
      var v' := v[..|v| - 1];
      assert (u + v)[..|u + v| - 1] == u + v';
      assert (u + v)[|u + v| - 1] == v[|v| - 1];
      GatheredAppend(u, v', parse);
    }
  }

  /** A single feed contributes exactly its qualifying entries. */
  lemma GatheredSingle(url: string, parse: string -> ParseOutcome)
    ensures Gathered([url], parse) == Contribution(parse(url))
  {
    assert [url][..0] == [];
  }

  /**
   * A feed that raises or has no entries contributes nothing, and the feeds
   * after it are still collected.
   */
  lemma FeedWithoutEntriesSkipped(u: seq<string>, url: string, v: seq<string>,
                                  parse: string -> ParseOutcome)
    requires parse(url).ParseRaised? || parse(url).entries == []
    ensures Gathered(u + [url] + v, parse) == Gathered(u, parse) + Gathered(v, parse)
  {
    GatheredAppend(u + [url], v, parse);
    GatheredAppend(u, [url], parse);
    GatheredSingle(url, parse);
  }

  /** The ill-formed-XML flag alone does not change what a feed contributes. */
  lemma BozoIgnored(es: seq<Entry>)
    ensures Contribution(Parsed(true, es)) == Contribution(Parsed(false, es)) == Qualifying(es)
  {
  }

  /** At most as many articles as entries over all feeds. */
  lemma {:induction false} GatheredBounded(urls: seq<string>, parse: string -> ParseOutcome)
    ensures |Gathered(urls, parse)| <= TotalEntries(urls, parse)
  {
    if urls != [] {
      GatheredBounded(urls[..|urls| - 1], parse);
    }
  }
}
