/**
 * The staleness policy of `needs_updating`: an ordered table of tiers,
 * newest first, each pairing a publish-date boundary with a refresh
 * cutoff, scanned first-match-wins with a strict `>`.
 * All times are integer Unix seconds; `now` stands for every clock read.
 */
module Staleness {
  import opened Wrappers
  import opened Php

  const HalfHour: nat := 1800
  const SixHours: nat := 21600
  const OneDay: nat := 86400
  const TwoDays: nat := 172800
  const FiveDays: nat := 432000

  /**
   * One row of the update-increments table: a subject published after
   * `boundary` is due when it was last updated before `cutoff`.
   */
  datatype Tier = Tier(boundary: int, cutoff: int)

  /** The table as it stands at time `now`. The last boundary is the absolute 0. */
  function Tiers(now: int): seq<Tier>
  {
    [ Tier(now - OneDay, now - HalfHour),
      Tier(now - FiveDays, now - SixHours),
      Tier(0, now - TwoDays) ]
  }

  /** Whether some tier accepts `date`. */
  ghost predicate AnyTier(tiers: seq<Tier>, date: DateArg)
  {
    exists i :: 0 <= i < |tiers| && Gt(date, tiers[i].boundary)
  }

  /** Tier `i` is the first tier that accepts `date`. */
  ghost predicate FirstTier(tiers: seq<Tier>, date: DateArg, i: int)
  {
    0 <= i < |tiers| && Gt(date, tiers[i].boundary) &&
    forall j :: 0 <= j < i ==> !Gt(date, tiers[j].boundary)
  }

  /** The cutoff of the first tier accepting `date`; None when no tier does. */
  function FirstMatch(tiers: seq<Tier>, date: DateArg): (r: Option<int>)
    ensures r.None? <==> !AnyTier(tiers, date)
    ensures r.Some? ==> exists i :: FirstTier(tiers, date, i) && r.value == tiers[i].cutoff
  {
    if tiers == [] then None
    else if Gt(date, tiers[0].boundary) then
      assert FirstTier(tiers, date, 0);
      Some(tiers[0].cutoff)
    else
      var r := FirstMatch(tiers[1..], date);
      assert AnyTier(tiers[1..], date) ==> AnyTier(tiers, date) by {
        if AnyTier(tiers[1..], date) {
          var i :| 0 <= i < |tiers[1..]| && Gt(date, tiers[1..][i].boundary);
          assert Gt(date, tiers[i + 1].boundary);
        }
      }
      assert AnyTier(tiers, date) ==> AnyTier(tiers[1..], date) by {
        if AnyTier(tiers, date) {
          var i :| 0 <= i < |tiers| && Gt(date, tiers[i].boundary);
          assert i != 0;
          assert Gt(date, tiers[1..][i - 1].boundary);
        }
      }
      assert r.Some? ==> exists i :: FirstTier(tiers, date, i) && r.value == tiers[i].cutoff by {
        if r.Some? {
          var i :| FirstTier(tiers[1..], date, i) && r.value == tiers[1..][i].cutoff;
          forall j | 0 <= j < i + 1 ensures !Gt(date, tiers[j].boundary) {
            if j > 0 { assert tiers[j] == tiers[1..][j - 1]; }
          }
          assert FirstTier(tiers, date, i + 1);
        }
      }
      r
  }

  /** When tier `i` is the first to accept `date`, the scan yields its cutoff. */
  lemma {:induction false} FirstMatchAt(tiers: seq<Tier>, date: DateArg, i: int)
    requires FirstTier(tiers, date, i)
    ensures FirstMatch(tiers, date) == Some(tiers[i].cutoff)
  {
    if i > 0 {
      assert !Gt(date, tiers[0].boundary);
      forall j | 0 <= j < i - 1 ensures !Gt(date, tiers[1..][j].boundary) {
        assert tiers[1..][j] == tiers[j + 1];
      }
      FirstMatchAt(tiers[1..], date, i - 1);
    }
  }

  /**
   * Reference definition of the policy: the refresh interval of the tier a
   * subject published at `date` falls into, or None when no tier applies.
   */
  function Interval(now: int, date: DateArg): Option<nat>
  {
    if Gt(date, now - OneDay) then Some(HalfHour)
    else if Gt(date, now - FiveDays) then Some(SixHours)
    else if Gt(date, 0) then Some(TwoDays)
    else None
  }

  /** `! $last_updated`: no timestamp stored, or a stored 0. */
  predicate Missing(last: Option<int>)
  {
    last.None? || last.value == 0
  }

  /** The date the tiers are compared with: a falsy argument is replaced by the looked-up publish date. */
  function Resolve(postDate: DateArg, lookup: DateArg): DateArg
  {
    if Falsy(postDate) then lookup else postDate
  }

  /**
   * The value of `needs_updating($last_updated, $post_date)`, where `lookup`
   * is what the publish-date lookup answers. With no tier, `$increment`
   * stays `false` and a truthy timestamp is never `< false`.
   */
  predicate Stale(now: int, last: Option<int>, postDate: DateArg, lookup: DateArg)
  {
    if Missing(last) then true
    else match FirstMatch(Tiers(now), Resolve(postDate, lookup))
      case None => false
      case Some(cutoff) => last.value < cutoff
  }

  /** needs_updating, with its scan of the tier table as a loop that stops at the first match. */
  method NeedsUpdating(now: int, lastUpdated: Option<int>, postDate: DateArg, lookup: DateArg)
    returns (r: bool)
    ensures r == Stale(now, lastUpdated, postDate, lookup)
  {
    if Missing(lastUpdated) {
      return true;
    }
    var date := postDate;
    if Falsy(date) {
      date := lookup;
    }
    var tiers := Tiers(now);
    var increment: Option<int> := None;
    var i := 0;
    while i < |tiers|
      invariant 0 <= i <= |tiers|
      invariant increment.None?
      invariant forall j :: 0 <= j < i ==> !Gt(date, tiers[j].boundary)
    {
      if Gt(date, tiers[i].boundary) {
        increment := Some(tiers[i].cutoff);
        FirstMatchAt(tiers, date, i);
        break;
      }
      i := i + 1;
    }
    assert increment == FirstMatch(tiers, date);
    if increment.Some? {
      r := lastUpdated.value < increment.value;
    } else {
      r := false;
    }
  }

  /** The scan of the tier table selects the tier the reference definition names. */
  lemma TiersAgreeWithInterval(now: int, date: DateArg)
    ensures FirstMatch(Tiers(now), date) ==
            (match Interval(now, date) case None => None case Some(k) => Some(now - k))
  {
    var t := Tiers(now);
    assert t[1..] == [t[1], t[2]];
    assert t[1..][1..] == [t[2]];
    assert t[1..][1..][1..] == [];
  }

  /**
   * The whole policy in terms of the interval: no timestamp means due; otherwise
   * due iff a tier applies and the timestamp is older than `now` minus its interval.
   */
  lemma StalePolicy(now: int, last: Option<int>, postDate: DateArg, lookup: DateArg)
    ensures Missing(last) ==> Stale(now, last, postDate, lookup)
    ensures !Missing(last) ==>
      var k := Interval(now, Resolve(postDate, lookup));
      (Stale(now, last, postDate, lookup) <==> k.Some? && last.value < now - k.value)
  {
    TiersAgreeWithInterval(now, Resolve(postDate, lookup));
  }

  /** Boundaries are exclusive: exactly one day old is in the 6-hour tier, exactly five days old in the 2-day tier. */
  lemma BoundariesAreExclusive(now: int)
    requires now > FiveDays
    ensures Interval(now, Stamp(now - OneDay)) == Some(SixHours)
    ensures Interval(now, Stamp(now - FiveDays)) == Some(TwoDays)
  {
  }

  /** A newer post never gets a longer interval than an older one, and never loses its tier. */
  lemma NewerNeverLonger(now: int, older: int, newer: int)
    requires older <= newer
    requires Interval(now, Stamp(older)).Some?
    ensures Interval(now, Stamp(newer)).Some?
    ensures Interval(now, Stamp(newer)).value <= Interval(now, Stamp(older)).value
  {
  }

  /** Every tier waits at least half an hour. */
  lemma IntervalAtLeastHalfHour(now: int, date: DateArg)
    requires Interval(now, date).Some?
    ensures HalfHour <= Interval(now, date).value <= TwoDays
  {
  }

  /** An older timestamp never turns "refresh" into "no refresh". */
  lemma StaleMonotone(now: int, older: int, newer: int, postDate: DateArg, lookup: DateArg)
    requires older <= newer && newer != 0
    requires Stale(now, Some(newer), postDate, lookup)
    ensures Stale(now, Some(older), postDate, lookup)
  {
    StalePolicy(now, Some(newer), postDate, lookup);
    StalePolicy(now, Some(older), postDate, lookup);
  }

  /**
   * The site passes `true`: at any realistic time it matches only the last
   * tier, so its counts are refreshed every two days.
   */
  lemma SiteUsesTwoDayTier(now: int, last: int, lookup: DateArg)
    requires now > FiveDays && last != 0
    ensures Interval(now, Resolve(Flag(true), lookup)) == Some(TwoDays)
    ensures Stale(now, Some(last), Flag(true), lookup) <==> last < now - TwoDays
  {
    StalePolicy(now, Some(last), Flag(true), lookup);
  }

  /** With a timestamp but no usable post date, no tier applies and nothing is due. */
  lemma NoTierNotStale(now: int, last: int, lookup: DateArg)
    requires now > FiveDays && last != 0
    requires lookup == Flag(false) || (lookup.Stamp? && lookup.t <= 0)
    ensures !Stale(now, Some(last), Flag(false), lookup)
  {
    StalePolicy(now, Some(last), Flag(false), lookup);
  }

  /** A post published within the last day: 29 minutes old is fresh, 31 minutes old is due. */
  lemma HalfHourTier(now: int, published: int)
    requires now - OneDay < published && now != 29 * 60
    ensures !Stale(now, Some(now - 29 * 60), Flag(false), Stamp(published))
    ensures Stale(now, Some(now - 31 * 60), Flag(false), Stamp(published))
  {
    StalePolicy(now, Some(now - 29 * 60), Flag(false), Stamp(published));
    StalePolicy(now, Some(now - 31 * 60), Flag(false), Stamp(published));
  }
}
