/**
 * Publishing one message through the social platform (twitter_bot/twitter_client.py).
 *
 * The platform library and its network calls are the class Platform: what
 * `create_tweet` does with a text is a fixed oracle, and the class records
 * every client it constructs and every text it is asked to publish.
 */
module TwitterClient {
  import opened Wrappers

  /** The platform's hard limit on the length of a message. */
  const MaxTweetLength: nat := 280

  /** The four secrets read from the environment; each may be unset. */
  datatype Credentials = Credentials(
    apiKey: Option<string>,
    apiSecretKey: Option<string>,
    accessToken: Option<string>,
    accessTokenSecret: Option<string>)

  /** `all([...])` over the four secrets. */
  predicate FullyConfigured(c: Credentials)
  {
    Filled(c.apiKey) && Filled(c.apiSecretKey)
    && Filled(c.accessToken) && Filled(c.accessTokenSecret)
  }

  /** An authenticated platform client, built from the four secrets. */
  datatype Client = Client(
    consumerKey: string,
    consumerSecret: string,
    accessToken: string,
    accessTokenSecret: string)

  /** The ValueError raised when the secrets are not fully configured. */
  datatype ConfigurationError = CredentialsIncomplete

  /** The platform's answer to a post: its `data` dictionary may be absent. */
  datatype Response = Response(data: Option<map<string, string>>)

  /** The two exception families `post_tweet` catches separately. */
  datatype ErrorKind = TweepyException | OtherException

  /** What one `create_tweet` call does: return a response or raise. */
  datatype Reply = Returned(response: Response) | Raised(error: ErrorKind)

  /** Whether reading `response.data['id']` succeeds. */
  predicate HasTweetId(r: Response)
  {
    r.data.Some? && "id" in r.data.value
  }

  /** get_twitter_client: fail when any secret is unset or empty, else build the client from them. */
  function ClientFor(c: Credentials): (r: Result<Client, ConfigurationError>)
    ensures r.Failure? <==>
      !Filled(c.apiKey) || !Filled(c.apiSecretKey)
      || !Filled(c.accessToken) || !Filled(c.accessTokenSecret)
    ensures r.Success? ==>
      Some(r.value.consumerKey) == c.apiKey && Some(r.value.consumerSecret) == c.apiSecretKey
      && Some(r.value.accessToken) == c.accessToken
      && Some(r.value.accessTokenSecret) == c.accessTokenSecret
  {
    if !FullyConfigured(c) then Failure(CredentialsIncomplete)
    else Success(Client(c.apiKey.value, c.apiSecretKey.value, c.accessToken.value, c.accessTokenSecret.value))
  }

  /** The validation `post_tweet` applies before touching the platform. */
  predicate Postable(text: string)
  {
    text != "" && |text| <= MaxTweetLength
  }

  /** Whether `post_tweet` gets as far as constructing a client and calling `create_tweet`. */
  predicate ReachesPlatform(c: Credentials, text: string)
  {
    Postable(text) && FullyConfigured(c)
  }

  /**
   * What `post_tweet` returns: the platform's response when the text is valid,
   * the secrets are configured, the call returns and its id can be read;
   * None in every other case.
   */
  function PostTweetOutcome(c: Credentials, respond: string -> Reply, text: string): (r: Option<Response>)
    ensures text == "" ==> r == None
    ensures |text| > MaxTweetLength ==> r == None
    ensures !FullyConfigured(c) ==> r == None
    ensures respond(text).Raised? ==> r == None
    ensures r.Some? <==>
      ReachesPlatform(c, text) && respond(text).Returned? && HasTweetId(respond(text).response)
    ensures r.Some? ==> r == Some(respond(text).response)
  {
    if text == "" then None
    else if |text| > MaxTweetLength then None
    else
      match ClientFor(c)
      case Failure(_) => None
      case Success(_) =>
        match respond(text)
        case Raised(_) => None
        case Returned(response) => if HasTweetId(response) then Some(response) else None
  }

  /** The platform library together with the remote service. */
  class Platform {
    /** What the service does with each text it is asked to publish. */
    const respond: string -> Reply
    /** How many clients have been constructed. */
    var clientsCreated: nat
    /** Every text passed to `create_tweet`, in call order. */
    var posted: seq<string>

    constructor (respond: string -> Reply)
      ensures this.respond == respond && clientsCreated == 0 && posted == []
    {
      this.respond := respond;
      clientsCreated := 0;
      posted := [];
    }

    /** tweepy.Client(...): construct a client object. */
    method Connect(client: Client)
      modifies this
      ensures clientsCreated == old(clientsCreated) + 1 && posted == old(posted)
    {
      clientsCreated := clientsCreated + 1;
    }

    /** client.create_tweet(text=...): one call to the service. */
    method CreateTweet(client: Client, text: string) returns (reply: Reply)
      modifies this
      ensures reply == respond(text)
      ensures posted == old(posted) + [text] && clientsCreated == old(clientsCreated)
    {
      posted := posted + [text];
      reply := respond(text);
    }
  }

  /** get_twitter_client: the credential guard, then client construction. */
  method GetTwitterClient(c: Credentials, platform: Platform) returns (r: Result<Client, ConfigurationError>)
    modifies platform
    ensures r == ClientFor(c)
    ensures platform.clientsCreated == old(platform.clientsCreated) + (if r.Success? then 1 else 0)
    ensures platform.posted == old(platform.posted)
  {
    if !FullyConfigured(c) {
      return Failure(CredentialsIncomplete);
    }
    var client := Client(c.apiKey.value, c.apiSecretKey.value, c.accessToken.value, c.accessTokenSecret.value);
    platform.Connect(client);
    return Success(client);
  }

  /**
   * post_tweet: reject an empty text or one longer than 280 characters without
   * contacting the platform; otherwise build a client and publish the text
   * unchanged, mapping every exception to None.
   */
  method PostTweet(c: Credentials, platform: Platform, text: string) returns (r: Option<Response>)
    modifies platform
    ensures r == PostTweetOutcome(c, platform.respond, text)
    ensures platform.posted == old(platform.posted) + (if ReachesPlatform(c, text) then [text] else [])
    ensures platform.clientsCreated == old(platform.clientsCreated) + (if ReachesPlatform(c, text) then 1 else 0)
  {
    if text == "" {
      return None;
    }
    if |text| > MaxTweetLength {
      return None;
    }
    var built := GetTwitterClient(c, platform);
    if built.Failure? {
      return None;
    }
    var reply := platform.CreateTweet(built.value, text);
    match reply {
      case Raised(_) =>
        r := None;
      case Returned(response) =>
        if HasTweetId(response) {
          r := Some(response);
        } else {
          r := None;
        }
    }
  }

  /** Exactly 280 characters is accepted; 281 is not (the bound is inclusive). */
  lemma LengthBoundary(text: string)
    ensures |text| == MaxTweetLength ==> Postable(text)
    ensures |text| == MaxTweetLength + 1 ==> !Postable(text)
  {
  }

  /** Once the text is valid and the secrets are configured, the service's reply alone decides the outcome. */
  lemma ReplyDecidesOutcome(c: Credentials, respond: string -> Reply, text: string)
    requires ReachesPlatform(c, text)
    ensures respond(text).Returned? && HasTweetId(respond(text).response) ==>
              PostTweetOutcome(c, respond, text) == Some(respond(text).response)
    ensures !(respond(text).Returned? && HasTweetId(respond(text).response)) ==>
              PostTweetOutcome(c, respond, text) == None
  {
  }
}
