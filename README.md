# EA Share Count: a verified model of the share-count cache

EA Share Count is a WordPress plugin that fetches social-share counts for
the site or one post from the SharedCount API and caches them. On every
read it decides whether the cached payload is stale. That decision uses a
tiered policy: newer posts are refreshed more often. When a refresh is due
it sends one GET. A successful answer is stored as a payload and a
timestamp. The plugin also renders share links, one anchor per requested
network.

This project models the plugin's core in Dafny and proves properties of it:

- `Staleness`: `needs_updating`. It scans the three-tier table
  (1 day / 30 min, 5 days / 6 h, date `> 0` / 2 days) first-match-wins with
  a strict `>`. The scan is a loop in `NeedsUpdating`, proved equal to the
  recursive `FirstMatch`. A reference definition, `Interval`, states the
  same policy as plain cases.
- `SharedCountApi`: `query_api`. It sends no request when the URL or the key
  is falsy. Otherwise it returns the body on status 200 and `false` on any
  other status.
- `ShareCounts`: the decoded response as a datatype, and `count`'s table
  from a channel token to an entry of that response.
- `ShareLinks`: `link`'s per-type templates (label, icon, share-URL prefix)
  and the anchors it concatenates in request order.
- `ShareCache`: the store as a class with the two site options and the two
  meta keys per post. `Counts`, `Count` and `Link` are methods on it. Their
  results and new state are tied to the pure `CountsOutcome` and `Render`.
  The lemmas next to them state when a fetch happens, that payload and
  timestamp are written together or not at all, that a failed fetch writes
  nothing, and that other slots never change.
- `Php`: the PHP value rules the control flow depends on. `""` and `"0"`
  are falsy. In a loose `>` with a boolean, both sides compare as
  booleans. This is why the site subject, which passes `true`, matches only
  the last tier.
- `AsWritten`: the source defects, modelled as written (see Findings).

Some inputs come from outside the plugin. They are parameters of the model:

- the clock (`now`, one value for every `strtotime`/`time()` read);
- the API key;
- the API domain and the HTTP client, as a function from the request sent
  to its answer (status code and body);
- `json_decode` (a function from a string to optional decoded counts);
- the subject's URL, title and image;
- what the publish-date lookup answers.

Times are integer Unix seconds.

## Deviations from the source as written

- Line 100 tests `$site`, which is never assigned. The model uses the test of
  line 119, `'site' == $id` (subject `Site`).
- Line 117 has an extra `)` and does not parse as written. The model reads it
  as `$share_count = $this->query_api( $post_url );`.
- Line 117 replaces the cached value with the fetch result. A failed refresh
  therefore returns the falsy fetch result, not the stale cache. A reader
  might expect a failed refresh to keep the stale payload; the code does not,
  and the model follows the code (`FailedRefreshWritesNothing`).
- Line 128 decodes only a falsy value (`! $share_count`). The model decodes a
  truthy payload when the array form is asked for (`Decode`).
- Line 149 compares (`==`) instead of assigning, so the `'0'` default is never
  set. The model returns 0 (`ChannelCount`).
- Line 207 passes `$post_id`, which is undefined in `needs_updating`. The
  lookup then reads the current global post's date. In the model, the lookup
  answers the publish date of the subject being counted (`SubjectInfo.published`).
- Line 322 puts `$img` into the Pinterest URL where the image URL was meant.
  The model uses the link's image URL (`Target.img`); see Findings.
- Line 343 filters the undefined `$data`. The model treats the filter as the
  identity on `$link`.

## Model

| member | source | states |
|---|---|---|
| Staleness.FirstMatch | ea-shared-count.php:225-231 | the cutoff returned is that of the first tier whose boundary the date is strictly after; none exactly when no tier accepts the date |
| Staleness.FirstMatchAt | ea-shared-count.php:226-230 | when tier i is the first tier to accept the date, the scan yields tier i's cutoff |
| Staleness.NeedsUpdating | ea-shared-count.php:200-234 | the loop with its break computes exactly the policy `Stale` (true without a timestamp, else timestamp < cutoff of the first matching tier, false with no tier) |
| Staleness.TiersAgreeWithInterval | ea-shared-count.php:210-223 | scanning the table at time now gives now − 30 min / now − 6 h / now − 2 days for the 1-day / 5-day / `> 0` tiers, as the reference `Interval` says |
| Staleness.StalePolicy | ea-shared-count.php:202-233 | no last-updated timestamp means refresh; otherwise refresh iff a tier applies and last_updated < now − its interval |
| Staleness.BoundariesAreExclusive | ea-shared-count.php:210-227 | a post exactly one day old is in the 6-hour tier, and one exactly five days old is in the 2-day tier |
| Staleness.NewerNeverLonger | ea-shared-count.php:210-231 | a newer post keeps a tier whenever an older one has one, and its interval is never longer |
| Staleness.IntervalAtLeastHalfHour | ea-shared-count.php:210-223 | every tier's interval lies between 30 minutes and 2 days |
| Staleness.StaleMonotone | ea-shared-count.php:233 | an older last-updated timestamp never turns "refresh" into "no refresh" |
| Staleness.SiteUsesTwoDayTier | ea-shared-count.php:219-233 | with the site's `true` publish date (line 101), only the `> 0` tier matches, so the site is refreshed iff last updated over 2 days ago |
| Staleness.NoTierNotStale | ea-shared-count.php:225-233 | a post with a timestamp whose date lookup gives false or a date ≤ 0 matches no tier and is never refreshed |
| Staleness.HalfHourTier | ea-shared-count.php:211-214 | for a post under a day old, a refresh 29 minutes ago is fresh and one 31 minutes ago is stale |
| SharedCountApi.QueryApi | ea-shared-count.php:243-259 | no request when the URL or the key is falsy; otherwise the body of the answer to `{domain}/url?url=…&apikey=…` iff its status is 200, false for any other status |
| SharedCountApi.QueryApiSendsApiQuery | ea-shared-count.php:250-254 | the only request query_api sends is to `{domain}/url` with the parameters url and apikey: clients that answer that request alike give the same result, and without a request the client is irrelevant |
| ShareCache.DefaultEndpoint | ea-shared-count.php:87 | with the default domain, the request `counts` sends for a subject goes to `http://free.sharedcount.com/url` with the subject's URL and the API key |
| ShareCounts.ChannelCount | ea-shared-count.php:144-183 | a known token reads the response entry the channel table names (Facebook total/like/share/comment, Twitter, Pinterest, LinkedIn, GooglePlusOne, StumbleUpon); an unknown token or an empty result gives 0 |
| ShareCounts.ChannelTableComplete | ea-shared-count.php:151-182 | the table has exactly the nine tokens of the switch, and each path exists in every response |
| ShareCounts.FacebookTotalExample | ea-shared-count.php:148-153 | Facebook total_count 42 gives 42 for "facebook"; an empty result gives 0 |
| ShareLinks.LinkFor | ea-shared-count.php:281-341 | each type's link record carries the subject's URL, title, image and count, plus the label, icon and share URL (prefix + URL + tail) of the template table; a type without a case gets none |
| ShareLinks.RenderSnoc | ea-shared-count.php:280-348 | one more requested type appends exactly its own anchor to the output |
| ShareLinks.RenderConcat | ea-shared-count.php:280-348 | the output for two lists of types is the concatenation of their outputs |
| ShareLinks.RenderAt | ea-shared-count.php:280-348 | the i-th requested type contributes exactly its anchor, after those of the earlier types and before those of the later ones |
| ShareLinks.SingleTypeIsOneElementList | ea-shared-count.php:277 | a single type string renders as the one-element list: one anchor |
| ShareLinks.TwitterLink | ea-shared-count.php:316-320 | twitter has label Tweet and icon fa fa-twitter, and its anchor's href is the twitter share prefix + URL + `&text=` + title |
| ShareCache.Decode | ea-shared-count.php:128-130 | with the array form, a truthy payload is decoded (null when undecodable), so the result is never a raw truthy string; otherwise the value is unchanged |
| ShareCache.CountsSendsRequest | ea-shared-count.php:115-117 | `counts` depends on the HTTP client only through its answer to the request for the subject's URL with the configured key and domain |
| ShareCache.RefreshIdempotent | ea-shared-count.php:115-125 | a second `counts` with the same clock and client leaves the slot exactly as the first call left it |
| ShareCache.NotDueIsCacheHit | ea-shared-count.php:115-132 | when no refresh is due, there is no request and no write, the HTTP answer is irrelevant, and the cached payload is returned |
| ShareCache.DueWhen | ea-shared-count.php:115 | with a truthy payload and timestamp, a fetch is triggered iff a tier applies and the timestamp is older than now − its interval |
| ShareCache.WritesArePairs | ea-shared-count.php:117-125 | the slot is either untouched or holds (body, now); it holds them exactly when a request was sent, answered 200, with a truthy body |
| ShareCache.FailedRefreshWritesNothing | ea-shared-count.php:117-125 | a due refresh that cannot be sent, gets a non-200 status or an empty body writes nothing and returns a falsy value |
| ShareCache.SecondReadHitsCache | ea-shared-count.php:115-125 | after a successful refresh, a read within 30 minutes sends no request and returns the stored payload |
| ShareCache.Store.Counts | ea-shared-count.php:98-133 | the subject's slot and the returned value are those of `CountsOutcome`; every other slot is unchanged; the pairing of payloads and timestamps is preserved |
| ShareCache.Store.Count | ea-shared-count.php:144-190 | returns the channel's count from the decoded result of `counts($id, true)`, with that call's effect on the store and no other |
| ShareCache.Store.Link | ea-shared-count.php:271-354 | returns one anchor per requested type in request order (`Render`); with no types the store is unchanged, otherwise the subject's slot is what one `counts($id, true)` leaves it; no other slot changes |
| AsWritten.SiteBranchNeverTaken | ea-shared-count.php:100 | as written, the site branch is taken for no id, not even `'site'` |
| AsWritten.SiteNeverFetchedAsWritten | ea-shared-count.php:100-117 | as written, `counts('site')` queries `get_permalink('site')`, which is empty, so no request is ever sent for the site |
| ShareCache.SiteRefreshesEveryTwoDays | ea-shared-count.php:100-115 | with the intended site test, a cached site payload is refreshed iff its timestamp is over 2 days old |
| AsWritten.DecodeAsWrittenNeverParses | ea-shared-count.php:128-130 | as written, the array form never yields decoded counts, and a payload that decodes comes back raw |
| AsWritten.EmptyCountIsNullAsWritten | ea-shared-count.php:148-149 | as written, an empty result gives null where 0 was meant; otherwise both give the table's value |
| AsWritten.PinterestMediaAsWritten | ea-shared-count.php:322 | as written, the Pinterest URL equals the intended one iff the image URL is what `$img` prints as (`Array` or empty) |
| AsWritten.FilteredLinkIsBlank | ea-shared-count.php:343-345 | as written, every anchor has an empty href and class, which makes it strictly shorter than the intended twitter anchor |

## Left out

- WordPress storage and lookups (`get_option`, `update_option`,
  `get_post_meta`, `update_post_meta`, `get_permalink`, `home_url`,
  `get_bloginfo`, `get_the_title`, `get_the_date`,
  `wp_get_attachment_image_src`) are not modelled as calls. The store is the
  `Store` class, and the lookups' answers are inputs (`SubjectInfo`).
- The `get_the_ID()` fallback for a missing or falsy id (lines 107, 273-275)
  is not modelled. The caller passes the subject.
- `wp_remote_get` and `add_query_arg` are outside the model. The HTTP answer
  is an input. `ApiQuery` gives the endpoint and parameters, but not the
  URL encoding.
- A transport error (a `WP_Error` from `wp_remote_get`) is not modelled. The
  source indexes it as an array. Only status code plus body is modelled.
- `json_decode` is not modelled. It is an input function from the raw
  payload to optional decoded counts. `json_decode("0")` gives the integer 0;
  the model gives null, which is equally falsy.
- `apply_filters` hooks are modelled as the identity. The API key and
  domain are inputs. The query parameters are unchanged. The unknown-channel
  count is the default 0. The default image is whatever `Target.img` holds.
  The link filter passes the link through unchanged.
- `sanitize_html_class` is not modelled. The class holds the type token as given.
- The `echo` branches (lines 185-189, 350-354) are not modelled. Only the
  returned value is.
- The singleton bootstrap `instance()`, `init()` and `ea_share()` (lines
  70-88, 378-381) is not modelled. Its static call of a method on `$this`
  is a defect outside the modelled core.
- The commented-out legacy block (lines 356-365) is not modelled.
- `strtotime` calendar arithmetic is simplified. One `now` stands for every
  clock read, and `-1 day` is taken as 86400 s, ignoring daylight-saving
  changes.
- Concurrency between simultaneous requests is not modelled. The source does no locking.
- ShareCache.Store.Link: every count lookup within one call gets the same
  HTTP answer. The model does not capture a different answer per request.
- ShareCache.Store.Count: the `'0'` string default is modelled as the number 0.
- At line 119, PHP before version 8 also treats post id 0 as `'site'`
  (`'site' == 0`). The model treats `Post(0)` as a post.

## Findings

| source | as written | input that shows it | evidently intended | confidence | as-written member | corrected member |
|---|---|---|---|---|---|---|
| ea-shared-count.php:100 | `'site' == $site` with `$site` never assigned | `counts('site')` takes the post branch | `'site' == $id`, as at line 119 | high, not executed | AsWritten.SiteBranchAsWritten, AsWritten.SiteBranchNeverTaken, AsWritten.QueriedUrlAsWritten, AsWritten.SiteNeverFetchedAsWritten | ShareCache.SiteRefreshesEveryTwoDays |
| ea-shared-count.php:128 | `! $share_count && $array == true` decodes only falsy values | cached payload `{"Facebook":{"total_count":42}}` with `$array` true is returned undecoded | decode a truthy payload | high, not executed | AsWritten.DecodeAsWritten, AsWritten.DecodeAsWrittenNeverParses | ShareCache.Decode |
| ea-shared-count.php:149 | `$share_count == '0'` compares instead of assigning | `count()` returns null whenever `counts()` yields a falsy value (for example an empty cache whose refresh is not sent or fails) | return `'0'` | high, not executed | AsWritten.CountAsWritten, AsWritten.EmptyCountIsNullAsWritten | ShareCounts.ChannelCount |
| ea-shared-count.php:322 | `'&media=' . $img` with `$img` the attachment array (post with thumbnail), `false` (post without) or unset (site) | once line 343 filters `$link` (as the model does), `link('pinterest')` on a post with a featured image emits `&media=Array`; as written, line 343 blanks every href and hides this | `'&media=' . $link['img']` | high, not executed | AsWritten.PinterestUrlAsWritten, AsWritten.PinterestMediaAsWritten | ShareLinks.LinkFor |
| ea-shared-count.php:343 | `apply_filters( 'ea_share_count_link', $data )` with `$data` never assigned | `link('twitter')` emits `<a href="" target="_blank" class="ea-share-count ">` | filter `$link` | high, not executed | AsWritten.FragmentAsWritten, AsWritten.FilteredLinkIsBlank | ShareLinks.LinkFor |
