/**
 * Contact bookkeeping in the social module: the per-contact aggregates of the
 * dashboard query, the search for a contact by slug, the choice of the active
 * contact, and the cached "last contacted" date kept up to date whenever a
 * touchpoint is recorded.
 */
module Contacts {
  import opened Common
  import opened Strength

  /** Touchpoints dated on or after `today - RecentWindowDays` are recent. */
  const RecentWindowDays := 90

  /** `Max("date")` over touchpoint dates: the latest one, nothing when there are none. */
  function MaxDate(dates: seq<Day>): (r: Option<Day>)
    ensures r.None? <==> |dates| == 0
    ensures r.Some? ==> r.value in dates
    ensures r.Some? ==> forall i :: 0 <= i < |dates| ==> dates[i] <= r.value
  {
    if |dates| == 0 then None
    else match MaxDate(dates[1..])
      case None => Some(dates[0])
      case Some(m) => Some(Max(dates[0], m))
  }

  /** Whether a touchpoint date falls in the recent window (boundary included). */
  predicate IsRecent(date: Day, today: Day) {
    date >= today - RecentWindowDays
  }

  /** `Count(..., filter=date >= today - 90)`: the number of recent touchpoint dates. */
  function CountRecent(dates: seq<Day>, today: Day): (n: nat)
    ensures n <= |dates|
    ensures n == |dates| <==> forall i :: 0 <= i < |dates| ==> IsRecent(dates[i], today)
    ensures n == 0 <==> forall i :: 0 <= i < |dates| ==> !IsRecent(dates[i], today)
  {
    if |dates| == 0 then 0
    else
      var rest := CountRecent(dates[1..], today);
      assert forall i :: 1 <= i < |dates| ==> dates[i] == dates[1..][i - 1];
      (if IsRecent(dates[0], today) then 1 else 0) + rest
  }

  /** As days pass, touchpoints only leave the recent window. */
  lemma {:induction false} CountRecentShrinks(dates: seq<Day>, today1: Day, today2: Day)
    requires today1 <= today2
    ensures CountRecent(dates, today2) <= CountRecent(dates, today1)
  {
    if |dates| > 0 {
      CountRecentShrinks(dates[1..], today1, today2);
    }
  }

  /** Recording one more touchpoint adds one to the count exactly when it is recent. */
  lemma {:induction false} CountRecentAppend(dates: seq<Day>, date: Day, today: Day)
    ensures CountRecent(dates + [date], today) == CountRecent(dates, today) + (if IsRecent(date, today) then 1 else 0)
  {
    if |dates| > 0 {
      assert (dates + [date])[1..] == dates[1..] + [date];
      CountRecentAppend(dates[1..], date, today);
    }
  }

  /** Whether `_update_last_contacted` writes: no cached date yet, or a strictly newer one. */
  predicate WritesCache(cached: Option<Day>, date: Day) {
    cached.None? || date > cached.value
  }

  /** The cached last-contacted date after recording a touchpoint on `date`: a running maximum. */
  function AfterTouchpoint(cached: Option<Day>, date: Day): (r: Day)
    ensures r >= date
    ensures cached.Some? ==> r >= cached.value
    ensures r == date || cached == Some(r)
  {
    if WritesCache(cached, date) then date else cached.value
  }

  /** Recording the same date again changes nothing. */
  lemma AfterTouchpointIdempotent(cached: Option<Day>, date: Day)
    ensures AfterTouchpoint(Some(AfterTouchpoint(cached, date)), date) == AfterTouchpoint(cached, date)
    ensures !WritesCache(Some(AfterTouchpoint(cached, date)), date)
  {
  }

  /** The cache follows the latest touchpoint: updating the latest of `dates` with `date` gives the latest of both. */
  lemma {:induction false} CacheTracksMax(dates: seq<Day>, date: Day)
    ensures MaxDate(dates + [date]) == Some(AfterTouchpoint(MaxDate(dates), date))
  {
    var all := dates + [date];
    var m := MaxDate(all).value;
    var r := AfterTouchpoint(MaxDate(dates), date);
    assert all[|dates|] == date;
    assert forall i :: 0 <= i < |dates| ==> all[i] == dates[i];
    assert r in all by {
      if r != date {
        assert MaxDate(dates) == Some(r);
        var k :| 0 <= k < |dates| && dates[k] == r;
        assert all[k] == r;
      }
    }
    var j :| 0 <= j < |all| && all[j] == m;
    if j < |dates| {
      assert m <= MaxDate(dates).value;
    }
  }

  /** A contact row. Its slug is the primary key and never changes. */
  class Contact {
    const slug: string
    var checkInFrequencyDays: int
    /** Cached date of the latest touchpoint, kept by `UpdateLastContacted`. */
    var lastContactedAt: Option<Day>
    var updatedAt: Instant
    /** Dates of the touchpoints stored for this contact. */
    var touchpointDates: seq<Day>
    /** Annotations added to each row by the dashboard query; absent on a plain row. */
    var lastTouchpoint: Option<Day>
    var touchpointsRecent: Option<nat>
    var strength: Option<RelationshipStrength>

    /** A new contact with the default cadence of 30 days. */
    constructor WithDefaultCadence(slug: string, now: Instant)
      ensures this.slug == slug && checkInFrequencyDays == DefaultCadenceDays
      ensures lastContactedAt == None && touchpointDates == [] && updatedAt == now
      ensures lastTouchpoint == None && touchpointsRecent == None && strength == None
      ensures CacheIsMax()
    {
      this.slug := slug;
      checkInFrequencyDays := DefaultCadenceDays;
      lastContactedAt := None;
      updatedAt := now;
      touchpointDates := [];
      lastTouchpoint := None;
      touchpointsRecent := None;
      strength := None;
    }

    /** A new contact with an explicit cadence. */
    constructor (slug: string, checkInFrequencyDays: int, now: Instant)
      ensures this.slug == slug && this.checkInFrequencyDays == checkInFrequencyDays
      ensures lastContactedAt == None && touchpointDates == [] && updatedAt == now
      ensures lastTouchpoint == None && touchpointsRecent == None && strength == None
      ensures CacheIsMax()
    {
      this.slug := slug;
      this.checkInFrequencyDays := checkInFrequencyDays;
      lastContactedAt := None;
      updatedAt := now;
      touchpointDates := [];
      lastTouchpoint := None;
      touchpointsRecent := None;
      strength := None;
    }

    /** The cache invariant: the cached date is the latest stored touchpoint date. */
    ghost predicate CacheIsMax()
      reads this
    {
      lastContactedAt == MaxDate(touchpointDates)
    }

    /** `_compute_strength(contact, today)` on this row as it stands. */
    function StrengthOn(today: Day): (r: RelationshipStrength)
      reads this
      ensures r.touchpointsRecent == RecentCount(touchpointsRecent)
      ensures r.lastTouchpoint == LastDate(lastTouchpoint, lastContactedAt, MaxDate(touchpointDates))
      ensures touchpointDates == [] && lastTouchpoint.None? && lastContactedAt.None? ==>
        r.labelText == "Cold start" && r.score == ColdStartScore
      ensures touchpointDates != [] ==> r.lastTouchpoint.Some? && r.score >= MinScore
    {
      ComputeStrength(Some(checkInFrequencyDays), lastTouchpoint, lastContactedAt,
                      MaxDate(touchpointDates), touchpointsRecent, today)
    }

    /** One step of the dashboard query: annotate this row and assign its strength. */
    method AssignStrength(today: Day)
      modifies this`lastTouchpoint, this`touchpointsRecent, this`strength
      ensures Scored(this, today)
    {
      var latest := MaxDate(touchpointDates);
      var recent := CountRecent(touchpointDates, today);
      lastTouchpoint, touchpointsRecent := latest, Some(recent);
      strength := Some(ComputeStrength(Some(checkInFrequencyDays), latest, lastContactedAt, latest,
                                       Some(recent), today));
    }

    /** `_update_last_contacted`: keep the cached date at the latest touchpoint date seen. */
    method UpdateLastContacted(date: Day, now: Instant)
      modifies this`lastContactedAt, this`updatedAt
      ensures lastContactedAt == Some(AfterTouchpoint(old(lastContactedAt), date))
      ensures lastContactedAt != old(lastContactedAt) <==> WritesCache(old(lastContactedAt), date)
      ensures updatedAt == if WritesCache(old(lastContactedAt), date) then now else old(updatedAt)
    {
      if lastContactedAt.None? || date > lastContactedAt.value {
        lastContactedAt := Some(date);
        updatedAt := now;
      }
    }

    /** Store a touchpoint on `date` and update the cache, keeping the cache invariant. */
    method RecordTouchpoint(date: Day, now: Instant)
      modifies this`touchpointDates, this`lastContactedAt, this`updatedAt
      ensures touchpointDates == old(touchpointDates) + [date]
      ensures lastContactedAt == Some(AfterTouchpoint(old(lastContactedAt), date))
      ensures updatedAt == if WritesCache(old(lastContactedAt), date) then now else old(updatedAt)
      ensures old(CacheIsMax()) ==> CacheIsMax()
    {
      CacheTracksMax(touchpointDates, date);
      touchpointDates := touchpointDates + [date];
      UpdateLastContacted(date, now);
    }
  }

  /** The position of the first contact with `slug`, if any. */
  function IndexOfSlug(contacts: seq<Contact>, slug: string): (r: Option<nat>)
    ensures r.Some? ==> r.value < |contacts| && contacts[r.value].slug == slug
    ensures r.Some? ==> forall j :: 0 <= j < r.value ==> contacts[j].slug != slug
    ensures r.None? <==> forall j :: 0 <= j < |contacts| ==> contacts[j].slug != slug
  {
    if |contacts| == 0 then None
    else if contacts[0].slug == slug then Some(0)
    else match IndexOfSlug(contacts[1..], slug)
      case None => None
      case Some(i) => Some(i + 1)
  }

  /** Whether a slug argument is falsy: missing or empty. */
  predicate Blank(slug: Option<string>) {
    slug.None? || slug.value == ""
  }

  /** The contact `_find_contact` is meant to return. */
  function Lookup(contacts: seq<Contact>, slug: Option<string>): (r: Option<Contact>)
    ensures r.Some? ==> slug.Some? && r.value in contacts && r.value.slug == slug.value
    ensures r.None? <==> Blank(slug) || forall j :: 0 <= j < |contacts| ==> contacts[j].slug != slug.value
  {
    if Blank(slug) then None
    else match IndexOfSlug(contacts, slug.value)
      case None => None
      case Some(i) => Some(contacts[i])
  }

  /** `_find_contact`: nothing for a blank slug, else the first contact with that slug, if any. */
  method FindContact(contacts: seq<Contact>, slug: Option<string>) returns (r: Option<Contact>)
    ensures r == Lookup(contacts, slug)
    ensures Blank(slug) ==> r.None?
    ensures r.Some? ==> r.value in contacts && r.value.slug == slug.value
  {
    if slug.None? || slug.value == "" {
      return None;
    }
    var i := 0;
    while i < |contacts|
      invariant 0 <= i <= |contacts|
      invariant forall j :: 0 <= j < i ==> contacts[j].slug != slug.value
    {
      if contacts[i].slug == slug.value {
        return Some(contacts[i]);
      }
      i := i + 1;
    }
    return None;
  }

  /** `slug or request.GET.get("contact")`: the route's slug unless blank, else the query's. */
  function ActiveSlug(routeSlug: Option<string>, querySlug: Option<string>): (r: Option<string>)
    ensures !Blank(routeSlug) ==> r == routeSlug
    ensures Blank(routeSlug) ==> r == querySlug
  {
    if Blank(routeSlug) then querySlug else routeSlug
  }

  /** The dashboard's active contact: the one the slug names, else the first contact. */
  method ActiveContact(contacts: seq<Contact>, routeSlug: Option<string>, querySlug: Option<string>)
    returns (r: Option<Contact>)
    ensures r.Some? <==> |contacts| > 0
    ensures r.Some? ==> r.value in contacts
    ensures var found := Lookup(contacts, ActiveSlug(routeSlug, querySlug));
      r == if found.Some? then found else if |contacts| > 0 then Some(contacts[0]) else None
  {
    r := FindContact(contacts, ActiveSlug(routeSlug, querySlug));
    if r.None? && |contacts| > 0 {
      r := Some(contacts[0]);
    }
  }

  /** The strength the dashboard assigns to a row with this cadence, these stored touchpoint dates and this cached date. */
  ghost function DashboardStrength(cadence: int, dates: seq<Day>, cached: Option<Day>, today: Day): RelationshipStrength
  {
    var latest := MaxDate(dates);
    ComputeStrength(Some(cadence), latest, cached, latest, Some(CountRecent(dates, today)), today)
  }

  /** What a contact row holds once the dashboard query has annotated and scored it. */
  ghost predicate Scored(c: Contact, today: Day)
    reads c
  {
    c.lastTouchpoint == MaxDate(c.touchpointDates) &&
    c.touchpointsRecent == Some(CountRecent(c.touchpointDates, today)) &&
    c.strength == Some(DashboardStrength(c.checkInFrequencyDays, c.touchpointDates, c.lastContactedAt, today))
  }

  /** On a scored row the assigned strength is the one `_compute_strength` gives for it. */
  lemma ScoredStrength(c: Contact, today: Day)
    requires Scored(c, today)
    ensures c.strength == Some(c.StrengthOn(today))
    ensures c.strength.value.lastTouchpoint ==
      if |c.touchpointDates| > 0 then MaxDate(c.touchpointDates) else c.lastContactedAt
    ensures c.strength.value.touchpointsRecent == CountRecent(c.touchpointDates, today)
  {
  }

  /**
   * `_fetch_contacts_with_strength`: annotate every contact with its latest and
   * recent touchpoints (the query's per-row aggregates) and assign its strength.
   */
  method FetchWithStrength(contacts: seq<Contact>, today: Day)
    modifies contacts`lastTouchpoint, contacts`touchpointsRecent, contacts`strength
    ensures forall c :: c in contacts ==> Scored(c, today)
    ensures forall c :: c in contacts ==>
      c.touchpointDates == old(c.touchpointDates) && c.lastContactedAt == old(c.lastContactedAt) &&
      c.checkInFrequencyDays == old(c.checkInFrequencyDays) && c.updatedAt == old(c.updatedAt)
  {
    var i := 0;
    while i < |contacts|
      invariant 0 <= i <= |contacts|
      invariant forall k :: 0 <= k < i ==> Scored(contacts[k], today)
    {
      contacts[i].AssignStrength(today);
      i := i + 1;
    }
  }
}
