/**
 * One tick of the publish pipeline (twitter_bot/main.py): fetch articles,
 * take the first, fit its title into a fixed budget, and publish
 * "News: <title> <link>".
 */
module BotMain {
  import opened Wrappers
  import opened ContentManager
  import opened TwitterClient

  /** The budget for the title inside the message. */
  const MaxTitleLength: nat := 250
  const Ellipsis: string := "..."
  const Prefix: string := "News: "

  /** The title as it appears in the message: cut to 247 characters plus "..." when over budget. */
  function ShortenedTitle(title: string): (t: string)
    ensures |t| <= MaxTitleLength
    ensures |title| <= MaxTitleLength ==> t == title
    ensures |title| > MaxTitleLength ==>
      |t| == MaxTitleLength
      && t[..MaxTitleLength - 3] == title[..MaxTitleLength - 3]
      && t[MaxTitleLength - 3..] == Ellipsis
  {
    if |title| > MaxTitleLength then title[..MaxTitleLength - 3] + Ellipsis else title
  }

  /** The message for an article: the prefix, the shortened title, one space, the link. */
  function TweetText(title: string, link: string): (s: string)
    ensures |s| == |Prefix| + |ShortenedTitle(title)| + 1 + |link|
    ensures s[..|Prefix|] == Prefix
    ensures s[|Prefix|..|Prefix| + |ShortenedTitle(title)|] == ShortenedTitle(title)
    ensures s[|Prefix| + |ShortenedTitle(title)|] == ' '
    ensures s[|s| - |link|..] == link
  {
    Prefix + ShortenedTitle(title) + " " + link
  }

  /**
   * The text a tick hands to the publisher, if any: None when there is no
   * article or the first one lacks a title or a link.
   */
  function SelectTweet(articles: seq<Entry>): (r: Option<string>)
    ensures r.Some? <==> articles != [] && Filled(articles[0].title) && Filled(articles[0].link)
    ensures r.Some? ==> r.value == TweetText(articles[0].title.value, articles[0].link.value)
  {
    if articles == [] then None
    else
      var first := articles[0];
      if !Filled(first.title) || !Filled(first.link) then None
      else Some(TweetText(first.title.value, first.link.value))
  }

  /**
   * post_latest_article: fetch from the default feeds, pick the first
   * article, skip the tick when there is none or it lacks a title or link,
   * shorten the title, compose the message and hand it to the publisher once.
   * `published` is the text handed to `post_tweet`, if the tick got that far.
   */
  method PostLatestArticle(defaultFeeds: seq<string>, parse: string -> ParseOutcome,
                           c: Credentials, platform: Platform)
    returns (published: Option<string>)
    modifies platform
    ensures published == SelectTweet(Gathered(defaultFeeds, parse))
    ensures platform.posted == old(platform.posted)
              + (if published.Some? && ReachesPlatform(c, published.value) then [published.value] else [])
    ensures platform.clientsCreated == old(platform.clientsCreated)
              + (if published.Some? && ReachesPlatform(c, published.value) then 1 else 0)
  {
    published := None;
    var articles := FetchRssFeeds(None, defaultFeeds, parse);
    if articles == [] {
      return;
    }
    var article := articles[0];
    var title := article.title;
    var link := article.link;
    if !Filled(title) || !Filled(link) {
      return;
    }
    var t := title.value;
    if |t| > MaxTitleLength {
      t := t[..MaxTitleLength - 3] + Ellipsis;
    }
    var text := Prefix + t + " " + link.value;
    published := Some(text);
    // post_tweet returns None on every failure and never raises, so the
    // surrounding try/except has nothing to catch.
    var _ := PostTweet(c, platform, text);
  }

  /** The message length is 7 + min(|title|, 250) + |link|. */
  lemma TweetLength(title: string, link: string)
    ensures |TweetText(title, link)|
            == 7 + (if |title| <= MaxTitleLength then |title| else MaxTitleLength) + |link|
  {
  }

  /** Only the first article matters: what follows it never changes the message. */
  lemma OnlyFirstArticleUsed(first: Entry, rest1: seq<Entry>, rest2: seq<Entry>)
    ensures SelectTweet([first] + rest1) == SelectTweet([first] + rest2)
  {
  }

  /**
   * The publisher measures the full link: a composed message is rejected
   * exactly when 7 + min(|title|, 250) + |link| exceeds 280.
   */
  lemma ComposedAcceptedIff(title: string, link: string)
    ensures Postable(TweetText(title, link))
            <==> 7 + (if |title| <= MaxTitleLength then |title| else MaxTitleLength) + |link| <= MaxTweetLength
  {
    TweetLength(title, link);
  }

  /** A title of 250 characters or more leaves room for a link of at most 23 characters. */
  lemma LongTitleLinkBudget(title: string, link: string)
    requires |title| >= MaxTitleLength
    ensures Postable(TweetText(title, link)) <==> |link| <= 23
  {
    ComposedAcceptedIff(title, link);
  }

  /**
   * Articles coming from the feeds always carry a title and a link, so a tick
   * composes a message and hands it to the publisher exactly when at least one
   * article was fetched (whether it is then posted is up to the publisher).
   */
  lemma FetchedArticlesNeverSkipped(urls: seq<string>, parse: string -> ParseOutcome)
    ensures SelectTweet(Gathered(urls, parse)).Some? <==> Gathered(urls, parse) != []
  {
  }

  /**
   * A 260-character title followed by a second article: the first is chosen,
   * its title becomes 247 characters and "...", and the 267-character message
   * is accepted by the publisher.
   */
  lemma LongFirstArticleScenario()
    ensures
      var a := seq(260, _ => 'A');
      var articles := [Entry(Some(a), Some("http://x/1")), Entry(Some("B"), Some("http://x/2"))];
      SelectTweet(articles) == Some(Prefix + seq(247, _ => 'A') + Ellipsis + " " + "http://x/1")
      && |SelectTweet(articles).value| == 267
      && Postable(SelectTweet(articles).value)
  {
    var a := seq(260, _ => 'A');
    assert a[..247] == seq(247, _ => 'A');
    assert ShortenedTitle(a) == seq(247, _ => 'A') + Ellipsis;
    var articles := [Entry(Some(a), Some("http://x/1")), Entry(Some("B"), Some("http://x/2"))];
    assert SelectTweet(articles) == Some(TweetText(a, "http://x/1"));
    var cut := seq(247, _ => 'A');
    assert Prefix + (cut + Ellipsis) == Prefix + cut + Ellipsis;
  }
}
