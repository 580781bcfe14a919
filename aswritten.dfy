/**
 * The places where ea-shared-count.php, read literally, does something its
 * authors evidently did not mean. Each member here models the code as
 * written; the rest of the model uses the intended behaviour, and each
 * lemma here exhibits the difference.
 */
module AsWritten {
  import opened Wrappers
  import opened Php
  import opened Staleness
  import opened ShareCounts
  import opened ShareLinks
  import opened ShareCache
  import opened SharedCountApi

  /** PHP's loose `'site' == null`: null compares with a string as "". */
  predicate SiteEqualsNull()
  {
    "site" == ""
  }

  /**
   * Line 100 as written: the test reads `$site`, which is never assigned, so
   * it is `'site' == null` and does not depend on the id at all.
   */
  predicate SiteBranchAsWritten(id: Subject)
  {
    SiteEqualsNull()
  }

  /** As written, no id, not even `'site'`, reaches the site branch. */
  lemma SiteBranchNeverTaken(id: Subject)
    ensures !SiteBranchAsWritten(id)
  {
  }

  /**
   * The URL `counts` queries, as written. The site branch would use the home
   * URL; the post branch asks `get_permalink` for the id. That `'site'` gets
   * false ("") there is an assumption about WordPress (no post has the id
   * `'site'`), not something the plugin's code decides. `permalink` answers
   * for post ids.
   */
  function QueriedUrlAsWritten(id: Subject, homeUrl: string, permalink: int -> string): string
  {
    if SiteBranchAsWritten(id) then homeUrl
    else match id
      case Site => ""
      case Post(n) => permalink(n)
  }

  /**
   * As written, `counts('site')` never sends a request, whatever the key, the
   * domain or the client, given the empty permalink assumed above.
   */
  lemma SiteNeverFetchedAsWritten(homeUrl: string, permalink: int -> string, domain: string, apiKey: string,
                                  http: Query -> Response)
    ensures QueryApi(domain, QueriedUrlAsWritten(Site, homeUrl, permalink), apiKey, http) == NotSent
  {
  }

  /** Lines 128-130 as written: only a falsy value is decoded, and decoding a falsy value gives null. */
  function DecodeAsWritten(v: Value, asArray: bool): Value
  {
    if !Truthy(v) && asArray then Null else v
  }

  /** As written, the array form never yields decoded counts, and a real payload comes back as raw text. */
  lemma DecodeAsWrittenNeverParses(v: Value, asArray: bool, decode: string -> Option<ParsedCounts>, c: ParsedCounts)
    requires !v.Arr?
    ensures !DecodeAsWritten(v, asArray).Arr?
    ensures v.Str? && Truthy(v) && asArray && decode(v.s) == Some(c) ==>
      DecodeAsWritten(v, asArray) == v && Decode(v, asArray, decode) == Arr(c)
  {
  }

  /**
   * Line 149 as written: `$share_count == '0'` compares instead of assigning,
   * so an empty result leaves `$share_count` unset and `count` returns null (None).
   */
  function CountAsWritten(counts: Option<ParsedCounts>, channel: string): Option<nat>
  {
    if counts.None? then None else Some(ChannelCount(counts, channel))
  }

  /** As written, an empty cache gives null where 0 was meant; otherwise the two agree. */
  lemma EmptyCountIsNullAsWritten(counts: Option<ParsedCounts>, channel: string)
    ensures counts.None? ==> CountAsWritten(counts, channel).None? && ChannelCount(counts, channel) == 0
    ensures counts.Some? ==> CountAsWritten(counts, channel) == Some(ChannelCount(counts, channel))
  {
  }

  /**
   * Line 343 as written: the filter is applied to `$data`, which is never
   * assigned, so `$link` becomes null and every anchor has an empty href and class.
   */
  function FragmentAsWritten(t: string, target: Target): string
  {
    Anchor("", "")
  }

  /** As written, a twitter anchor loses its share URL and its class; with the filter as identity it keeps both. */
  lemma FilteredLinkIsBlank(target: Target)
    ensures FragmentAsWritten("twitter", target) == Anchor("", "")
    ensures |Fragment("twitter", target)| > |FragmentAsWritten("twitter", target)|
  {
    assert ShareUrl("twitter", target) == "https://twitter.com/share?url=" + target.url + "&text=" + target.title;
  }

  /** What line 322's `$img` holds: unset on the site path, the attachment array, or false without a thumbnail. */
  datatype ImgVariable = Unset | AttachmentArray | NoThumbnail

  /** PHP's string conversion of `$img`. */
  function ImgText(v: ImgVariable): string
  {
    match v
    case Unset => ""
    case AttachmentArray => "Array"
    case NoThumbnail => ""
  }

  /** Line 322 as written: the Pinterest URL with `$img` where the image URL was meant. */
  function PinterestUrlAsWritten(target: Target, img: ImgVariable): string
  {
    "http://pinterest.com/pin/create/button/?url=" + target.url + "&media=" + ImgText(img)
    + " &description=" + target.title
  }

  /**
   * As written, the Pinterest URL equals the intended one only when the
   * image URL happens to be what `$img` prints as ("Array" or "").
   */
  lemma PinterestMediaAsWritten(target: Target, img: ImgVariable)
    ensures PinterestUrlAsWritten(target, img) == ShareUrl("pinterest", target) <==> target.img == ImgText(img)
  {
    var head := "http://pinterest.com/pin/create/button/?url=" + target.url + "&media=";
    var tail := " &description=" + target.title;
    assert LinkTemplates["pinterest"].tail == PinterestParams;
    assert ShareUrl("pinterest", target) == head + target.img + tail;
    assert PinterestUrlAsWritten(target, img) == head + ImgText(img) + tail;
    if head + ImgText(img) + tail == head + target.img + tail {
      SameFrameSameMiddle(head, ImgText(img), target.img, tail);
    }
  }

  /** Two strings with the same head and tail are equal only if their middles are. */
  lemma SameFrameSameMiddle(head: string, x: string, y: string, tail: string)
    requires head + x + tail == head + y + tail
    ensures x == y
  {
    var n := |head|;
    assert |x| == |y|;
    assert (head + x + tail)[n..n + |x|] == x;
    assert (head + y + tail)[n..n + |y|] == y;
  }

}
