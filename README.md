# News bot publish pipeline, modelled in Dafny

This project models the publish path of a small bot. On each tick the bot:

1. collects articles from syndication feeds;
2. takes the first article;
3. fits the article's title into a 250-character budget;
4. composes the message `News: <title> <link>`;
5. hands the message to a publisher, which checks it and posts it to the social platform.

The model has four modules:

- `Wrappers` (`wrappers.dfy`): the `Option` and `Result` datatypes.
- `ContentManager` (`content_manager.dfy`): feed entries and the feed-collecting loop `FetchRssFeeds`. The loop is specified by the functions `Qualifying` and `Gathered`.
- `TwitterClient` (`twitter_client.dfy`):
  - the credential guard (`ClientFor`, `GetTwitterClient`);
  - message validation and the publish call (`PostTweetOutcome`, `PostTweet`);
  - the platform itself, as the class `Platform`.
- `BotMain` (`main.dfy`):
  - title shortening (`ShortenedTitle`);
  - the message template (`TweetText`);
  - first-article selection (`SelectTweet`);
  - one tick of the pipeline (`PostLatestArticle`).

Outside dependencies become inputs:

- The feed parser is the function `parse`, which maps a feed locator to a `ParseOutcome`: either parsed entries plus the ill-formed-XML flag, or an exception.
- The platform library is the class `Platform`:
  - Its constant `respond` is an oracle. It gives what `create_tweet` does with a text: return a response, or raise.
  - The field `clientsCreated` records how many clients were constructed.
  - The field `posted` records every text sent to `create_tweet`.
- The list of default feeds and the four secrets are parameters.

Strings are `seq<char>`, and Dafny `char`s are Unicode scalar values. So `|s|` matches Python's `len` on a `str`.

Behaviour of the code that the model keeps as written:

- `post_tweet` returns the platform response or `None`. It does not return a typed error.
- Reading `response.data['id']` happens inside the `try`. A response with no `data` or no `id`, from a call that did reach the service, therefore also gives `None`. `PostTweetOutcome` models this with `HasTweetId`.
- The empty-title and empty-link check sits in the driver (`main.py:39-41`), so the title-shortening function needs no precondition.
- Articles from the feeds always have both fields. So on fetched input, the driver's skip never fires (`FetchedArticlesNeverSkipped`).
- `post_tweet` turns every failure into `None` and cannot raise. So the `try`/`except` in `post_latest_article` has nothing to catch. `PostLatestArticle` simply ignores the result.

## Model

| member | source | states |
|---|---|---|
| `ContentManager.Qualifying` | twitter_bot/content_manager.py:49-56 | a feed keeps at most its own number of entries, and every entry kept has a non-empty title and a non-empty link |
| `ContentManager.Gathered` | twitter_bot/content_manager.py:32-63 | every article gathered over all feeds has a non-empty title and link |
| `ContentManager.FetchRssFeeds` | twitter_bot/content_manager.py:12-65 | the nested loop returns exactly the in-order concatenation of each feed's qualifying entries; `None` selects the default list; an empty list gives `[]`; failing and empty feeds are skipped |
| `ContentManager.AppendQualifying` | twitter_bot/content_manager.py:49-56 | the per-feed entry loop appends exactly that feed's qualifying entries, in order, to what was collected before |
| `ContentManager.GatheredStep` | twitter_bot/content_manager.py:32-63 | adding one more locator to the processed prefix appends exactly that feed's contribution |
| `ContentManager.QualifyingAppend` | twitter_bot/content_manager.py:49-53 | filtering distributes over concatenation, so relative order is preserved |
| `ContentManager.QualifyingCount` | twitter_bot/content_manager.py:52-56 | each qualifying entry is kept as many times as it occurs; each other entry is dropped entirely; nothing else is dropped |
| `ContentManager.QualifyingMembership` | twitter_bot/content_manager.py:52-56 | an entry is in the output if and only if it is in the feed and has both a title and a link |
| `ContentManager.QualifyingAllKept` | twitter_bot/content_manager.py:49-53 | a feed whose entries all qualify is returned unchanged |
| `ContentManager.GatheredAppend` | twitter_bot/content_manager.py:32-63 | the articles of two locator lists, one after the other, are the concatenation of the articles of each |
| `ContentManager.GatheredSingle` | twitter_bot/content_manager.py:35-56 | one feed contributes exactly the qualifying entries of its parse result |
| `ContentManager.FeedWithoutEntriesSkipped` | twitter_bot/content_manager.py:45-63 | a feed that raises or has no entries contributes nothing, and the feeds after it are still collected |
| `ContentManager.BozoIgnored` | twitter_bot/content_manager.py:38-43 | the ill-formed-XML flag does not change what a feed contributes |
| `ContentManager.GatheredBounded` | twitter_bot/content_manager.py:49-53 | the number of articles never exceeds the total number of entries over all feeds |
| `TwitterClient.ClientFor` | twitter_bot/twitter_client.py:4-24 | configuration fails if and only if at least one of the four secrets is absent or empty; otherwise the client carries exactly those four secrets |
| `TwitterClient.GetTwitterClient` | twitter_bot/twitter_client.py:4-24 | returns what `ClientFor` says, and constructs a client (one more in `clientsCreated`) only on success |
| `TwitterClient.Platform.Connect` | twitter_bot/twitter_client.py:18-23 | constructing a client adds one to `clientsCreated` and posts nothing |
| `TwitterClient.Platform.CreateTweet` | twitter_bot/twitter_client.py:45 | one service call: the text is appended to `posted` and the oracle's reply is returned |
| `TwitterClient.PostTweetOutcome` | twitter_bot/twitter_client.py:26-53 | empty text, more than 280 characters, incomplete secrets, or a raised exception give `None`; the result is `Some` exactly when the call is reached, returns, and has a readable id; on success the response is returned unchanged |
| `TwitterClient.PostTweet` | twitter_bot/twitter_client.py:26-53 | returns `PostTweetOutcome`; texts failing validation, or lacking secrets, construct no client and call nothing; otherwise one client is built and the exact text is sent once |
| `TwitterClient.LengthBoundary` | twitter_bot/twitter_client.py:37-41 | a text of exactly 280 characters passes validation; one of 281 does not |
| `TwitterClient.ReplyDecidesOutcome` | twitter_bot/twitter_client.py:43-53 | once validation and the secrets pass, the outcome is decided by the service's reply alone |
| `BotMain.ShortenedTitle` | twitter_bot/main.py:48-50 | the result is at most 250 characters; a title of at most 250 is unchanged; a longer one becomes exactly 250 characters, keeps its first 247, and ends in "..." |
| `BotMain.TweetText` | twitter_bot/main.py:52 | the message is "News: ", then the shortened title, then one space, then the full link, with length 6 + title + 1 + link |
| `BotMain.SelectTweet` | twitter_bot/main.py:28-52 | a message is produced if and only if there is an article and the first article has a non-empty title and link; the message is then composed from `articles[0]` |
| `BotMain.PostLatestArticle` | twitter_bot/main.py:17-65 | the text handed to the publisher is `SelectTweet` of the fetched articles; the platform receives that text exactly once when it is valid and the secrets are configured, and nothing otherwise |
| `BotMain.TweetLength` | twitter_bot/main.py:48-52 | the message length is 7 + min(title length, 250) + link length |
| `BotMain.OnlyFirstArticleUsed` | twitter_bot/main.py:35-37 | articles after the first never affect the message |
| `BotMain.ComposedAcceptedIff` | twitter_bot/main.py:48-52 | the publisher accepts a composed message if and only if 7 + min(title length, 250) + link length is at most 280, because it measures the full link |
| `BotMain.LongTitleLinkBudget` | twitter_bot/main.py:46-52 | with a title of 250 characters or more, the message is accepted if and only if the link has at most 23 characters |
| `BotMain.FetchedArticlesNeverSkipped` | twitter_bot/main.py:26-41 | on fetched articles, a tick composes a message and hands it to the publisher if and only if at least one article was fetched; whether it is posted still depends on the length check and the secrets |
| `BotMain.LongFirstArticleScenario` | twitter_bot/main.py:35-52 | with a 260-character first title and a second article, the message is "News: " + 247 'A' + "..." + " " + the first link; it has 267 characters and is accepted |

## Left out

- The user-profile query (`get_twitter_user_info`) and its media-key-to-URL join: its tests exist, but `twitter_bot/twitter_client.py` does not define it. There is no code to model.
- Feed download and XML parsing: this foreign library becomes the input function `parse`. One consequence: a locator listed twice gets the same outcome both times.
- The platform's network behaviour: the oracle `respond` answers each text deterministically. Authentication, rate limits and transport are not modelled.
- The tweepy client constructor raising: it performs no I/O. `Platform.Connect` only counts constructions.
- An exception raised partway through a feed's entry loop: only the parse step can raise. A raising feed therefore contributes nothing, and no partial entries ever remain.
- The scheduler wrapper (`twitter_bot/scheduler.py`) and environment loading (`twitter_bot/config.py`): the secrets are a `Credentials` parameter.
- The literal default feed locators: they are the `defaultFeeds` parameter.
- All logging output, and the scripts' `__main__` blocks: they print and do nothing else.
