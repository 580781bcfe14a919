/**
 * The parsed SharedCount response and `count`'s fixed table from a
 * channel token to a path in it.
 */
module ShareCounts {
  import opened Wrappers

  /** The nested Facebook object of the response. */
  datatype FacebookCounts = FacebookCounts(totalCount: nat, likeCount: nat, shareCount: nat, commentCount: nat)

  /** The decoded response: one entry per network. */
  datatype ParsedCounts = ParsedCounts(
    facebook: FacebookCounts,
    twitter: nat,
    pinterest: nat,
    linkedIn: nat,
    googlePlusOne: nat,
    stumbleUpon: nat)

  /** A key of the response, and for a nested object the key inside it. */
  datatype Path = Path(key: string, subkey: Option<string>)

  /** `$counts[key]` or `$counts[key][subkey]`; None when the response has no such entry. */
  function Select(c: ParsedCounts, p: Path): Option<nat>
  {
    match (p.key, p.subkey)
    case ("Facebook", Some("total_count")) => Some(c.facebook.totalCount)
    case ("Facebook", Some("like_count")) => Some(c.facebook.likeCount)
    case ("Facebook", Some("share_count")) => Some(c.facebook.shareCount)
    case ("Facebook", Some("comment_count")) => Some(c.facebook.commentCount)
    case ("Twitter", None) => Some(c.twitter)
    case ("Pinterest", None) => Some(c.pinterest)
    case ("LinkedIn", None) => Some(c.linkedIn)
    case ("GooglePlusOne", None) => Some(c.googlePlusOne)
    case ("StumbleUpon", None) => Some(c.stumbleUpon)
    case _ => None
  }

  /** The channel table: which entry of the response each token reads. */
  const ChannelTable: map<string, Path> := map[
    "facebook" := Path("Facebook", Some("total_count")),
    "facebook_likes" := Path("Facebook", Some("like_count")),
    "facebook_shares" := Path("Facebook", Some("share_count")),
    "facebook_comments" := Path("Facebook", Some("comment_count")),
    "twitter" := Path("Twitter", None),
    "pinterest" := Path("Pinterest", None),
    "linkedin" := Path("LinkedIn", None),
    "google" := Path("GooglePlusOne", None),
    "stumbleupon" := Path("StumbleUpon", None)
  ]

  /** The `'0'` that the unknown-channel filter returns when no callback changes it. */
  const DefaultCount: nat := 0

  /**
   * `count`'s switch for decoded counts `counts` (None when the decoded
   * value is falsy): a known token reads its entry, anything else gives the default.
   */
  function ChannelCount(counts: Option<ParsedCounts>, channel: string): (r: nat)
    ensures counts.Some? && channel in ChannelTable ==> Select(counts.value, ChannelTable[channel]) == Some(r)
    ensures counts.None? || channel !in ChannelTable ==> r == DefaultCount
  {
    match counts
    case None => DefaultCount
    case Some(c) =>
      match channel
      case "facebook" => c.facebook.totalCount
      case "facebook_likes" => c.facebook.likeCount
      case "facebook_shares" => c.facebook.shareCount
      case "facebook_comments" => c.facebook.commentCount
      case "twitter" => c.twitter
      case "pinterest" => c.pinterest
      case "linkedin" => c.linkedIn
      case "google" => c.googlePlusOne
      case "stumbleupon" => c.stumbleUpon
      case _ => DefaultCount
  }

  /** The table knows exactly the nine tokens of the switch, and every path it holds exists in every response. */
  lemma ChannelTableComplete(c: ParsedCounts)
    ensures ChannelTable.Keys == {"facebook", "facebook_likes", "facebook_shares", "facebook_comments",
                                  "twitter", "pinterest", "linkedin", "google", "stumbleupon"}
    ensures forall t :: t in ChannelTable ==> Select(c, ChannelTable[t]).Some?
  {
  }

  /** A cached `{"Facebook": {"total_count": 42, …}}` gives 42 for "facebook"; an empty cache gives 0. */
  lemma FacebookTotalExample(c: ParsedCounts)
    requires c.facebook.totalCount == 42
    ensures ChannelCount(Some(c), "facebook") == 42
    ensures ChannelCount(None, "facebook") == 0
  {
  }
}
