/**
 * The refresh-on-read cache of `counts`, and `count` and `link` on top of
 * it. The store has one slot for the site (two options) and one slot per
 * post id (two meta keys); each slot holds an optional payload and an
 * optional refresh timestamp. The clock, the API key, the HTTP client's
 * answer, json_decode and the subject's URL and publish date are inputs.
 */
module ShareCache {
  import opened Wrappers
  import opened Php
  import opened Staleness
  import opened SharedCountApi
  import opened ShareCounts
  import opened ShareLinks

  /** The site as a whole (`'site'`), or one post by id. */
  datatype Subject = Site | Post(id: int)

  /** The PHP values `$share_count` takes: null, false, a string, or a decoded array. */
  datatype Value = Null | False | Str(s: string) | Arr(counts: ParsedCounts)

  predicate Truthy(v: Value)
  {
    match v
    case Null => false
    case False => false
    case Str(s) => TruthyString(s)
    case Arr(_) => true
  }

  /** One subject's two storage entries: the serialized payload and its refresh time. */
  datatype Slot = Slot(payload: Option<string>, updated: Option<int>)

  /** What the subject resolver knows: the link target and what the publish-date lookup answers. */
  datatype SubjectInfo = SubjectInfo(target: Target, published: DateArg)

  /**
   * The outside world of one request: the clock, the API key and domain,
   * the HTTP client (its answer to each request) and json_decode.
   */
  datatype Env = Env(
    now: int, apiKey: string, domain: string,
    http: Query -> Response, decode: string -> Option<ParsedCounts>)

  /** The request `counts` sends for a subject, and the client's answer to it. */
  function Request(info: SubjectInfo, env: Env): Query
  {
    ApiQuery(env.domain, info.target.url, env.apiKey)
  }

  function Answer(info: SubjectInfo, env: Env): Response
  {
    env.http(Request(info, env))
  }

  /**
   * With no domain override, the request `counts` sends for a subject goes
   * to the free endpoint, with the subject's URL and the key as parameters.
   */
  lemma DefaultEndpoint(info: SubjectInfo, env: Env)
    requires env.domain == DefaultDomain
    ensures Request(info, env).endpoint == "http://free.sharedcount.com/url"
    ensures Request(info, env).params == [("url", info.target.url), ("apikey", env.apiKey)]
  {
  }

  /** The `$post_date` that `counts` hands to needs_updating. */
  function PostDateArg(subject: Subject): DateArg
  {
    if subject.Site? then Flag(true) else Flag(false)
  }

  /** The stored payload as PHP reads it; a missing entry reads as a falsy value. */
  function Cached(p: Option<string>): Value
  {
    match p
    case None => False
    case Some(s) => Str(s)
  }

  /** The value query_api returns. */
  function ApiValue(r: ApiResult): Value
  {
    match r
    case NotSent => Null
    case Failed => False
    case Body(text) => Str(text)
  }

  /** The refresh condition of `counts`: no payload, no timestamp, or a stale one. */
  predicate Due(slot: Slot, subject: Subject, info: SubjectInfo, now: int)
  {
    !Truthy(Cached(slot.payload)) || Missing(slot.updated) ||
    Stale(now, slot.updated, PostDateArg(subject), info.published)
  }

  /** An HTTP request leaves the plugin: the slot is due and query_api's guard lets it through. */
  predicate Requests(slot: Slot, subject: Subject, info: SubjectInfo, env: Env)
  {
    Due(slot, subject, info, env.now) && Sends(info.target.url, env.apiKey)
  }

  /** The slot after a fetch that returned `fetched` at time `now`: written as a pair, or not at all. */
  function AfterFetch(slot: Slot, fetched: Value, now: int): Slot
  {
    if fetched.Str? && Truthy(fetched) then Slot(Some(fetched.s), Some(now)) else slot
  }

  /**
   * The result form: with `asArray`, a truthy payload is decoded (None from
   * the decoder is PHP's null). A decoded result is never a truthy string.
   */
  function Decode(v: Value, asArray: bool, decode: string -> Option<ParsedCounts>): (r: Value)
    ensures asArray && v.Str? && Truthy(v) ==> r == (match decode(v.s) case Some(c) => Arr(c) case None => Null)
    ensures !(asArray && v.Str? && Truthy(v)) ==> r == v
    ensures asArray ==> !(r.Str? && Truthy(r))
  {
    if asArray && v.Str? && Truthy(v) then
      match decode(v.s)
      case Some(c) => Arr(c)
      case None => Null
    else v
  }

  datatype Outcome = Outcome(slot: Slot, reply: Value)

  /**
   * One call of `counts` on a subject whose slot is `slot`: the slot afterwards
   * and the value returned. A fetch replaces the value returned by its own
   * result, whether or not it succeeded.
   */
  function CountsOutcome(slot: Slot, subject: Subject, info: SubjectInfo, env: Env, asArray: bool): Outcome
  {
    if Due(slot, subject, info, env.now) then
      var fetched := ApiValue(QueryApi(env.domain, info.target.url, env.apiKey, env.http));
      Outcome(AfterFetch(slot, fetched, env.now), Decode(fetched, asArray, env.decode))
    else
      Outcome(slot, Decode(Cached(slot.payload), asArray, env.decode))
  }

  /** The decoded counts `count` reads; anything but a decoded array is `== false`. */
  function AsCounts(v: Value): Option<ParsedCounts>
  {
    if v.Arr? then Some(v.counts) else None
  }

  /** A slot that is not due is returned as cached, with no request, no write, and no dependence on the HTTP answer. */
  lemma NotDueIsCacheHit(slot: Slot, subject: Subject, info: SubjectInfo, env: Env, asArray: bool, other: Query -> Response)
    requires !Due(slot, subject, info, env.now)
    ensures !Requests(slot, subject, info, env)
    ensures CountsOutcome(slot, subject, info, env, asArray) ==
            Outcome(slot, Decode(Cached(slot.payload), asArray, env.decode))
    ensures CountsOutcome(slot, subject, info, env.(http := other), asArray) ==
            CountsOutcome(slot, subject, info, env, asArray)
    ensures !asArray ==> CountsOutcome(slot, subject, info, env, asArray).reply == Str(slot.payload.value)
  {
  }

  /**
   * The one request `counts` may send is `Request(info, env)`: the outcome
   * depends on the HTTP client only through its answer to that request.
   */
  lemma CountsSendsRequest(slot: Slot, subject: Subject, info: SubjectInfo, env: Env, asArray: bool, other: Query -> Response)
    requires other(Request(info, env)) == Answer(info, env)
    ensures CountsOutcome(slot, subject, info, env.(http := other), asArray) ==
            CountsOutcome(slot, subject, info, env, asArray)
  {
    QueryApiSendsApiQuery(env.domain, info.target.url, env.apiKey, env.http, other);
  }

  /**
   * A second `counts` in the same request leaves the slot as the first one
   * left it: a refreshed slot is either not due or refetched to the same pair.
   */
  lemma {:induction false} RefreshIdempotent(slot: Slot, subject: Subject, info: SubjectInfo, env: Env, a1: bool, a2: bool)
    ensures var once := CountsOutcome(slot, subject, info, env, a1).slot;
      CountsOutcome(once, subject, info, env, a2).slot == once
  {
    var fetched := ApiValue(QueryApi(env.domain, info.target.url, env.apiKey, env.http));
    var once := CountsOutcome(slot, subject, info, env, a1).slot;
    if Due(slot, subject, info, env.now) {
      assert once == AfterFetch(slot, fetched, env.now);
      if Due(once, subject, info, env.now) {
        assert CountsOutcome(once, subject, info, env, a2).slot == AfterFetch(once, fetched, env.now);
      }
    }
  }

  /** A due slot with a truthy payload and a truthy timestamp is exactly a stale one. */
  lemma DueWhen(slot: Slot, subject: Subject, info: SubjectInfo, now: int)
    requires slot.payload.Some? && TruthyString(slot.payload.value) && !Missing(slot.updated)
    ensures Due(slot, subject, info, now) <==>
            var k := Interval(now, Resolve(PostDateArg(subject), info.published));
            k.Some? && slot.updated.value < now - k.value
  {
    StalePolicy(now, slot.updated, PostDateArg(subject), info.published);
  }

  /**
   * The site branch, selected by the test of line 119, gives the site the `true`
   * publish date, and with it the two-day tier: a cached site payload is
   * refreshed exactly when its timestamp is over two days old.
   */
  lemma SiteRefreshesEveryTwoDays(slot: Slot, info: SubjectInfo, now: int)
    requires slot.payload.Some? && TruthyString(slot.payload.value) && !Missing(slot.updated)
    requires now > FiveDays
    ensures Due(slot, Site, info, now) <==> slot.updated.value < now - TwoDays
  {
    DueWhen(slot, Site, info, now);
    SiteUsesTwoDayTier(now, slot.updated.value, info.published);
  }

  /**
   * Writes come in pairs: either the slot is untouched, or it holds the
   * response body and the current time, and that happens exactly when a
   * request was sent, answered 200, and the body is truthy.
   */
  lemma WritesArePairs(slot: Slot, subject: Subject, info: SubjectInfo, env: Env, asArray: bool)
    ensures var o := CountsOutcome(slot, subject, info, env, asArray);
      o.slot == slot || o.slot == Slot(Some(Answer(info, env).body), Some(env.now))
    ensures var o := CountsOutcome(slot, subject, info, env, asArray);
      (Requests(slot, subject, info, env) && Answer(info, env).code == 200 && TruthyString(Answer(info, env).body))
      ==> o.slot == Slot(Some(Answer(info, env).body), Some(env.now))
    ensures var o := CountsOutcome(slot, subject, info, env, asArray);
      !(Requests(slot, subject, info, env) && Answer(info, env).code == 200 && TruthyString(Answer(info, env).body))
      ==> o.slot == slot
  {
  }

  /**
   * A refresh that fails (no request possible, a non-200 answer, or an empty
   * body) writes nothing and returns the falsy fetch result, not the stale cache.
   */
  lemma FailedRefreshWritesNothing(slot: Slot, subject: Subject, info: SubjectInfo, env: Env, asArray: bool)
    requires Due(slot, subject, info, env.now)
    requires !Sends(info.target.url, env.apiKey) || Answer(info, env).code != 200 || !TruthyString(Answer(info, env).body)
    ensures CountsOutcome(slot, subject, info, env, asArray).slot == slot
    ensures !Truthy(CountsOutcome(slot, subject, info, env, asArray).reply)
  {
  }

  /**
   * After a successful refresh at a positive time, a second read within half
   * an hour sends no request, whatever the HTTP client would answer, and
   * returns the payload just stored.
   */
  lemma SecondReadHitsCache(slot: Slot, subject: Subject, info: SubjectInfo, env: Env, later: Env)
    requires Due(slot, subject, info, env.now)
    requires Sends(info.target.url, env.apiKey) && Answer(info, env).code == 200 && TruthyString(Answer(info, env).body)
    requires env.now > 0 && env.now <= later.now <= env.now + HalfHour
    ensures var first := CountsOutcome(slot, subject, info, env, false);
      first.slot == Slot(Some(Answer(info, env).body), Some(env.now)) &&
      !Requests(first.slot, subject, info, later) &&
      CountsOutcome(first.slot, subject, info, later, false) == Outcome(first.slot, Str(Answer(info, env).body))
  {
    var stored := Slot(Some(Answer(info, env).body), Some(env.now));
    var date := Resolve(PostDateArg(subject), info.published);
    StalePolicy(later.now, Some(env.now), PostDateArg(subject), info.published);
    if Interval(later.now, date).Some? {
      IntervalAtLeastHalfHour(later.now, date);
    }
    assert !Due(stored, subject, info, later.now);
  }

  /** The store: the two site options and the two meta keys of every post. */
  class Store {
    /** Option `ea_share_count`. */
    var sitePayload: Option<string>
    /** Option `ea_share_count_datetime`. */
    var siteUpdated: Option<int>
    /** Meta `ea_share_count`, by post id. */
    var postPayload: map<int, string>
    /** Meta `ea_share_count_datetime`, by post id. */
    var postUpdated: map<int, int>

    /** The slot of `subject`. */
    function SlotOf(subject: Subject): Slot
      reads this
    {
      match subject
      case Site => Slot(sitePayload, siteUpdated)
      case Post(id) => Slot(Lookup(postPayload, id), Lookup(postUpdated, id))
    }

    /** Every slot holds both a payload and a timestamp, or neither. */
    ghost predicate Consistent()
      reads this
    {
      sitePayload.Some? == siteUpdated.Some? && postPayload.Keys == postUpdated.Keys
    }

    constructor ()
      ensures forall s :: SlotOf(s) == Slot(None, None)
      ensures Consistent()
    {
      sitePayload, siteUpdated := None, None;
      postPayload, postUpdated := map[], map[];
    }

    /** `counts($id, $array)` on `subject`. */
    method Counts(subject: Subject, info: SubjectInfo, env: Env, asArray: bool) returns (r: Value)
      modifies this
      ensures var o := CountsOutcome(old(SlotOf(subject)), subject, info, env, asArray);
        SlotOf(subject) == o.slot && r == o.reply
      ensures forall s :: s != subject ==> SlotOf(s) == old(SlotOf(s))
      ensures old(Consistent()) ==> Consistent()
    {
      var slot := SlotOf(subject);
      var shareCount := Cached(slot.payload);
      var due := !Truthy(shareCount) || Missing(slot.updated);
      if !due {
        due := NeedsUpdating(env.now, slot.updated, PostDateArg(subject), info.published);
      }
      if due {
        shareCount := ApiValue(QueryApi(env.domain, info.target.url, env.apiKey, env.http));
        if shareCount.Str? && Truthy(shareCount) {
          if subject.Site? {
            sitePayload := Some(shareCount.s);
            siteUpdated := Some(env.now);
          } else {
            postPayload := postPayload[subject.id := shareCount.s];
            postUpdated := postUpdated[subject.id := env.now];
          }
        }
      }
      r := Decode(shareCount, asArray, env.decode);
    }

    /** `count($id, $type)`: the channel's number from the decoded counts, 0 when there are none. */
    method Count(subject: Subject, info: SubjectInfo, env: Env, channel: string) returns (n: nat)
      modifies this
      ensures var o := CountsOutcome(old(SlotOf(subject)), subject, info, env, true);
        SlotOf(subject) == o.slot && n == ChannelCount(AsCounts(o.reply), channel)
      ensures forall s :: s != subject ==> SlotOf(s) == old(SlotOf(s))
      ensures old(Consistent()) ==> Consistent()
    {
      var counts := Counts(subject, info, env, true);
      n := ChannelCount(AsCounts(counts), channel);
    }

    /**
     * `link($types, $id)`: one anchor per requested type, in order. Each type's
     * count is looked up through Count, which may refresh the subject's slot.
     */
    method Link(types: Types, subject: Subject, info: SubjectInfo, env: Env) returns (output: string)
      modifies this
      ensures output == Render(TypeList(types), info.target)
      ensures TypeList(types) == [] ==> SlotOf(subject) == old(SlotOf(subject))
      ensures TypeList(types) != [] ==>
        SlotOf(subject) == CountsOutcome(old(SlotOf(subject)), subject, info, env, true).slot
      ensures forall s :: s != subject ==> SlotOf(s) == old(SlotOf(s))
      ensures old(Consistent()) ==> Consistent()
    {
      var ts := TypeList(types);
      output := "";
      var i := 0;
      while i < |ts|
        invariant 0 <= i <= |ts|
        invariant output == Render(ts[..i], info.target)
        invariant i == 0 ==> SlotOf(subject) == old(SlotOf(subject))
        invariant i > 0 ==> SlotOf(subject) == CountsOutcome(old(SlotOf(subject)), subject, info, env, true).slot
        invariant forall s :: s != subject ==> SlotOf(s) == old(SlotOf(s))
        invariant old(Consistent()) ==> Consistent()
      {
        var t := ts[i];
        var count := Count(subject, info, env, t);
        if i > 0 {
          RefreshIdempotent(old(SlotOf(subject)), subject, info, env, true, true);
        }
        var d := LinkFor(t, info.target, count);
        RenderSnoc(ts[..i], t, info.target);
        assert ts[..i + 1] == ts[..i] + [t];
        output := output + Anchor(d.link, d.kind);
        i := i + 1;
      }
      assert ts[..|ts|] == ts;
    }
  }
}
