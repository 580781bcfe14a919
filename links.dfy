/**
 * `link`'s per-type templates (label, icon, share-URL prefix and the
 * parameters after the subject URL) and the anchor markup it emits,
 * one anchor per requested type, concatenated in request order.
 */
module ShareLinks {
  import opened ShareCounts

  /** What follows the subject URL in a type's share URL. */
  datatype Tail = Plain | TitleParam(name: string) | PinterestParams

  /** A type's fixed template. */
  datatype Template = Template(caption: string, icon: string, prefix: string, tail: Tail)

  /** The subject a link shares: its URL, its title and its image URL. */
  datatype Target = Target(url: string, title: string, img: string)

  /** The `$types` argument: one type string, or a list of them. */
  datatype Types = One(t: string) | Many(ts: seq<string>)

  /** The record built for one type before rendering. */
  datatype LinkData = LinkData(
    kind: string, url: string, title: string, img: string, count: nat,
    link: string, caption: string, icon: string)

  const FacebookLike: string := "http://www.facebook.com/plugins/like.php?href="
  const FacebookShare: string := "http://www.facebook.com/plugins/share_button.php?href="

  /** The template table; a type with no entry gets no link, label or icon. */
  const LinkTemplates: map<string, Template> := map[
    "facebook" := Template("Facebook", "fa fa-facebook", FacebookLike, Plain),
    "facebook_likes" := Template("Like", "fa fa-facebook", FacebookLike, Plain),
    "facebook_shares" := Template("Share", "fa fa-facebook", FacebookShare, Plain),
    "twitter" := Template("Tweet", "fa fa-twitter", "https://twitter.com/share?url=", TitleParam("&text=")),
    "pinterest" := Template("Pin", "fa fa-pinterest-p", "http://pinterest.com/pin/create/button/?url=", PinterestParams),
    "linkedin" := Template("LinkedIn", "fa fa-linkedin", "http://www.linkedin.com/shareArticle?mini=true&url=", Plain),
    "google" := Template("Google+", "fa fa-google-plus", "http://plus.google.com/share?url=", Plain),
    "stumbleupon" := Template("StumbleUpon", "fa fa-stumbleupon", "http://www.stumbleupon.com/submit?url=", TitleParam("&title="))
  ]

  function TailText(tail: Tail, target: Target): string
  {
    match tail
    case Plain => ""
    case TitleParam(name) => name + target.title
    case PinterestParams => "&media=" + target.img + " &description=" + target.title
  }

  /** The share URL of type `t` for `target`, as the template table gives it; "" for a type without one. */
  function ShareUrl(t: string, target: Target): string
  {
    if t in LinkTemplates then
      LinkTemplates[t].prefix + target.url + TailText(LinkTemplates[t].tail, target)
    else ""
  }

  /** `(array) $types`. */
  function TypeList(types: Types): seq<string>
  {
    match types
    case One(t) => [t]
    case Many(ts) => ts
  }

  /**
   * The record `link` builds for type `t`, following its switch over the
   * types; it agrees with the template table.
   */
  function LinkFor(t: string, target: Target, count: nat): (d: LinkData)
    ensures d.kind == t && d.url == target.url && d.title == target.title && d.img == target.img
    ensures d.count == count
    ensures d.link == ShareUrl(t, target)
    ensures t in LinkTemplates ==> d.caption == LinkTemplates[t].caption && d.icon == LinkTemplates[t].icon
    ensures t !in LinkTemplates ==> d.link == "" && d.caption == "" && d.icon == ""
  {
    var base := LinkData(t, target.url, target.title, target.img, count, "", "", "");
    match t
    case "facebook" => base.(link := FacebookLike + target.url, caption := "Facebook", icon := "fa fa-facebook")
    case "facebook_likes" => base.(link := FacebookLike + target.url, caption := "Like", icon := "fa fa-facebook")
    case "facebook_shares" => base.(link := FacebookShare + target.url, caption := "Share", icon := "fa fa-facebook")
    case "twitter" =>
      base.(link := "https://twitter.com/share?url=" + target.url + "&text=" + target.title,
            caption := "Tweet", icon := "fa fa-twitter")
    case "pinterest" =>
      base.(link := "http://pinterest.com/pin/create/button/?url=" + target.url + "&media=" + target.img
                    + " &description=" + target.title,
            caption := "Pin", icon := "fa fa-pinterest-p")
    case "linkedin" =>
      base.(link := "http://www.linkedin.com/shareArticle?mini=true&url=" + target.url,
            caption := "LinkedIn", icon := "fa fa-linkedin")
    case "google" =>
      base.(link := "http://plus.google.com/share?url=" + target.url, caption := "Google+", icon := "fa fa-google-plus")
    case "stumbleupon" =>
      base.(link := "http://www.stumbleupon.com/submit?url=" + target.url + "&title=" + target.title,
            caption := "StumbleUpon", icon := "fa fa-stumbleupon")
    case _ => base
  }

  /** The markup emitted for one link. */
  function Anchor(href: string, kind: string): string
  {
    "<a href=\"" + href + "\" target=\"_blank\" class=\"ea-share-count " + kind + "\">" + "</a>"
  }

  /** The fragment for type `t`. */
  function Fragment(t: string, target: Target): string
  {
    Anchor(ShareUrl(t, target), t)
  }

  /** The output for a list of types: their fragments, concatenated in order. */
  function Render(types: seq<string>, target: Target): string
  {
    if types == [] then "" else Fragment(types[0], target) + Render(types[1..], target)
  }

  /** Rendering one more type appends its fragment. */
  lemma {:induction false} RenderSnoc(types: seq<string>, t: string, target: Target)
    ensures Render(types + [t], target) == Render(types, target) + Fragment(t, target)
  {
    if types != [] {
      assert (types + [t])[1..] == types[1..] + [t];
      RenderSnoc(types[1..], t, target);
    }
  }

  /** Rendering distributes over concatenation of the type lists. */
  lemma {:induction false} RenderConcat(a: seq<string>, b: seq<string>, target: Target)
    ensures Render(a + b, target) == Render(a, target) + Render(b, target)
  {
    if a == [] {
      assert a + b == b;
    } else {
      var head, rest := Fragment(a[0], target), Render(a[1..], target);
      assert (a + b)[0] == a[0];
      assert (a + b)[1..] == a[1..] + b;
      assert Render(a + b, target) == head + Render(a[1..] + b, target);
      RenderConcat(a[1..], b, target);
      assert head + (rest + Render(b, target)) == (head + rest) + Render(b, target);
    }
  }

  /** The i-th requested type contributes exactly its own fragment, between those of the types before and after it. */
  lemma RenderAt(types: seq<string>, i: nat, target: Target)
    requires i < |types|
    ensures Render(types, target) ==
            Render(types[..i], target) + Fragment(types[i], target) + Render(types[i + 1..], target)
  {
    assert types == types[..i] + ([types[i]] + types[i + 1..]);
    RenderConcat(types[..i], [types[i]] + types[i + 1..], target);
    assert ([types[i]] + types[i + 1..])[1..] == types[i + 1..];
  }

  /** A single type string renders exactly as the one-element list. */
  lemma SingleTypeIsOneElementList(t: string, target: Target)
    ensures Render(TypeList(One(t)), target) == Render(TypeList(Many([t])), target) == Fragment(t, target)
  {
  }

  /** Twitter: caption Tweet, icon fa fa-twitter, and the share URL with the title as text. */
  lemma TwitterLink(target: Target, count: nat)
    ensures LinkFor("twitter", target, count).caption == "Tweet"
    ensures LinkFor("twitter", target, count).icon == "fa fa-twitter"
    ensures Fragment("twitter", target) ==
            Anchor("https://twitter.com/share?url=" + target.url + "&text=" + target.title, "twitter")
  {
    assert LinkTemplates["twitter"].tail == TitleParam("&text=");
  }
}
