/** The calendar feed (netlify/functions/calendar-get.ts): a cached copy younger
    than 15 minutes is served as is; otherwise the parsed feed is cut to the
    day window, sorted by start, capped at 30 and cached. The iCalendar parser
    is not modelled: the handler receives its output as a sequence of
    components. The local-time window bounds are inputs in milliseconds. */
module CalendarGet {
  import opened Types
  import opened Strings
  import opened Http
  import Seqs
  import Blobs

  const CacheTtlMs := 15 * 60000
  const MaxEvents: nat := 30

  /** One component of the parsed feed (`Object.values(ical.parseICS(text))`). */
  datatype Component = Component(
    kind: string,
    start: Option<int>,
    end: Option<int>,
    summary: Option<string>,
    location: Option<string>)

  /** What the upstream fetch produced: `res.ok`, `res.status` and the parsed body. */
  datatype Upstream = Upstream(ok: bool, status: nat, components: seq<Component>)

  // ---- ordering by start ----

  predicate SortedByStart(es: seq<CalendarEvent>) {
    forall i, j :: 0 <= i < j < |es| ==> es[i].start <= es[j].start
  }

  /** Insert `e` before the first element that does not start earlier. */
  function Insert(e: CalendarEvent, es: seq<CalendarEvent>): (r: seq<CalendarEvent>)
    requires SortedByStart(es)
    ensures SortedByStart(r)
    ensures multiset(r) == multiset(es) + multiset{e}
  {
    if es == [] || e.start <= es[0].start then [e] + es
    else
      var rest := Insert(e, es[1..]);
      InsertAbove(es[0], e, es[1..], rest);
      assert es == [es[0]] + es[1..];
      [es[0]] + rest
  }

  /** Putting `h` in front of an insertion into a list that `h` may head keeps
      the list sorted. */
  lemma InsertAbove(h: CalendarEvent, e: CalendarEvent, tail: seq<CalendarEvent>, rest: seq<CalendarEvent>)
    requires h.start <= e.start
    requires forall x :: x in tail ==> h.start <= x.start
    requires SortedByStart(rest)
    requires multiset(rest) == multiset(tail) + multiset{e}
    ensures SortedByStart([h] + rest)
  {
    forall i | 0 <= i < |rest| ensures h.start <= rest[i].start {
      assert rest[i] in multiset(rest);
    }
    var r := [h] + rest;
    forall i, j | 0 <= i < j < |r| ensures r[i].start <= r[j].start {
      if i > 0 {
        assert r[i] == rest[i - 1] && r[j] == rest[j - 1];
      } else {
        assert r[j] == rest[j - 1];
      }
    }
  }

  /** `.sort((a, b) => a.start - b.start)`: ascending by start, a permutation of
      its input. */
  function SortByStart(es: seq<CalendarEvent>): (r: seq<CalendarEvent>)
    ensures SortedByStart(r)
    ensures multiset(r) == multiset(es)
  {
    if es == [] then []
    else
      assert es == [es[0]] + es[1..];
      Insert(es[0], SortByStart(es[1..]))
  }

  /** The first `cap` events by start (`.sort(...).slice(0, cap)`): sorted,
      `min(cap, |es|)` of the given events, and every event left out starts no
      earlier than any event kept. */
  function Earliest(es: seq<CalendarEvent>, cap: nat): (r: seq<CalendarEvent>)
    ensures SortedByStart(r)
    ensures |r| == if |es| <= cap then |es| else cap
    ensures multiset(r) <= multiset(es)
    ensures forall e, i :: e in multiset(es) - multiset(r) && 0 <= i < |r| ==> r[i].start <= e.start
  {
    var sorted := SortByStart(es);
    var r := if |sorted| <= cap then sorted else sorted[..cap];
    EarliestKept(es, sorted, cap, r);
    r
  }

  lemma EarliestKept(es: seq<CalendarEvent>, sorted: seq<CalendarEvent>, cap: nat, r: seq<CalendarEvent>)
    requires SortedByStart(sorted) && multiset(sorted) == multiset(es)
    requires r == if |sorted| <= cap then sorted else sorted[..cap]
    ensures |r| == if |es| <= cap then |es| else cap
    ensures multiset(r) <= multiset(es)
    ensures forall e, i :: e in multiset(es) - multiset(r) && 0 <= i < |r| ==> r[i].start <= e.start
  {
    assert |sorted| == |multiset(sorted)| == |multiset(es)| == |es|;
    if |sorted| > cap {
      var rest := sorted[cap..];
      assert sorted == r + rest;
      assert multiset(es) == multiset(r) + multiset(rest);
      forall e, i | e in multiset(es) - multiset(r) && 0 <= i < |r| ensures r[i].start <= e.start {
        assert e in multiset(rest);
        var k :| 0 <= k < |rest| && rest[k] == e;
        assert sorted[i] == r[i] && sorted[cap + k] == e;
      }
    }
  }

  // ---- the refresh pipeline ----

  /** `!x?.start` is false and `x.type === "VEVENT"` and the start lies in `[lo, hi]`. */
  predicate Keep(c: Component, lo: int, hi: int)
    ensures Keep(c, lo, hi) ==> c.start.Some? && lo <= ToEvent(c).start <= hi
  {
    c.kind == "VEVENT" && c.start.Some? && lo <= c.start.value <= hi
  }

  /** The event a kept component becomes: "Event" when it has no summary, no
      location when its location is empty. */
  function ToEvent(c: Component): (e: CalendarEvent)
    requires c.start.Some?
    ensures e.start == c.start.value && e.end == c.end
    ensures c.summary.None? ==> e.title == "Event"
    ensures c.summary.Some? ==> e.title == c.summary.value
    ensures e.location.Some? <==> c.location.Some? && c.location.value != ""
  {
    CalendarEvent(
      c.summary.GetOr("Event"),
      c.start.value,
      c.end,
      if c.location.Some? && c.location.value != "" then c.location else None)
  }

  /** `.filter(...).map(...)`: the kept components as events, in feed order. */
  function InWindow(cs: seq<Component>, lo: int, hi: int): (r: seq<CalendarEvent>)
    ensures |r| <= |cs|
    ensures forall i :: 0 <= i < |r| ==> lo <= r[i].start <= hi
    ensures forall c :: c in cs && Keep(c, lo, hi) ==> ToEvent(c) in r
    ensures forall e :: e in r ==> exists c :: c in cs && Keep(c, lo, hi) && e == ToEvent(c)
  {
    if cs == [] then []
    else (if Keep(cs[0], lo, hi) then [ToEvent(cs[0])] else []) + InWindow(cs[1..], lo, hi)
  }

  /** `InWindow` is exactly `.filter(Keep).map(ToEvent)`: one event per kept
      component, in feed order, with its multiplicity. */
  lemma {:induction false} InWindowIsFilterMap(cs: seq<Component>, lo: int, hi: int)
    ensures var ks := Seqs.Filter(cs, (c: Component) => Keep(c, lo, hi));
            var r := InWindow(cs, lo, hi);
            |r| == |ks| && forall i :: 0 <= i < |r| ==> r[i] == ToEvent(ks[i])
  {
    if cs != [] {
      InWindowIsFilterMap(cs[1..], lo, hi);
    }
  }

  /** The events a refresh caches and returns. */
  function Refresh(cs: seq<Component>, lo: int, hi: int): (r: seq<CalendarEvent>)
    ensures |r| == if |InWindow(cs, lo, hi)| <= MaxEvents then |InWindow(cs, lo, hi)| else MaxEvents
    ensures SortedByStart(r)
    ensures multiset(r) <= multiset(InWindow(cs, lo, hi))
  {
    Earliest(InWindow(cs, lo, hi), MaxEvents)
  }

  /** A refresh returns at most 30 events, all in the window, sorted by start,
      and they are the earliest of the window's events. */
  lemma RefreshSpec(cs: seq<Component>, lo: int, hi: int)
    ensures var r := Refresh(cs, lo, hi);
            && |r| <= MaxEvents
            && |r| == (if |InWindow(cs, lo, hi)| <= MaxEvents then |InWindow(cs, lo, hi)| else MaxEvents)
            && SortedByStart(r)
            && (forall i :: 0 <= i < |r| ==> lo <= r[i].start <= hi)
            && multiset(r) <= multiset(InWindow(cs, lo, hi))
            && forall e, i :: e in multiset(InWindow(cs, lo, hi)) - multiset(r) && 0 <= i < |r| ==>
                 r[i].start <= e.start
  {
    var w := InWindow(cs, lo, hi);
    var r := Refresh(cs, lo, hi);
    forall i | 0 <= i < |r| ensures lo <= r[i].start <= hi {
      assert r[i] in multiset(w);
    }
  }

  // ---- the cache ----

  /** The cache is fresh when an entry exists, its `fetchedAt` parses, and it is
      less than 15 minutes old (an entry stamped in the future is fresh too). */
  predicate CacheFresh(cache: Option<CalendarCache>, parse: string -> Option<int>, nowMs: int)
    ensures CacheFresh(cache, parse, nowMs) ==> cache.Some?
    ensures cache.Some? && parse(cache.value.fetchedAt) == Some(nowMs) ==> CacheFresh(cache, parse, nowMs)
    ensures cache.Some? && parse(cache.value.fetchedAt) == Some(nowMs - CacheTtlMs) ==> !CacheFresh(cache, parse, nowMs)
  {
    cache.Some? && parse(cache.value.fetchedAt).Some? &&
    nowMs - parse(cache.value.fetchedAt).value < CacheTtlMs
  }

  /** The handler. `env.icalUrl` is the feed address, `nowMs` the time of the
      freshness check, `parse` stands for `Date.parse`, `upstream` is the fetch
      (used only on a miss), `[dayStart, windowEnd]` the window from today
      00:00:00.000 to seven days later 23:59:59.999, `fetchedAt` the ISO time
      written with the refreshed entry. */
  method GetEvents(store: Blobs.HubStore, req: Request, env: Env, parse: string -> Option<int>,
                   nowMs: int, upstream: Upstream, dayStart: int, windowEnd: int, fetchedAt: string)
    returns (resp: Response)
    modifies store`calendarCache
    ensures req.verb != "GET" ==> resp == MethodNotAllowed() && unchanged(store)
    ensures req.verb == "GET" && Configured(env.icalUrl) == "" ==>
              resp == JsonWith(Fail(Some("Missing ICAL_URL")), 500) && unchanged(store)
    ensures req.verb == "GET" && Configured(env.icalUrl) != "" && CacheFresh(old(store.calendarCache), parse, nowMs) ==>
              resp == JsonOk(Events(FromCache, old(store.calendarCache).value.events)) && unchanged(store)
    ensures req.verb == "GET" && Configured(env.icalUrl) != "" && !CacheFresh(old(store.calendarCache), parse, nowMs) &&
            !upstream.ok ==>
              resp == JsonWith(Fail(Some("iCal fetch failed: " + DecimalString(upstream.status))), 502) &&
              unchanged(store)
    ensures req.verb == "GET" && Configured(env.icalUrl) != "" && !CacheFresh(old(store.calendarCache), parse, nowMs) &&
            upstream.ok ==>
              var events := Refresh(upstream.components, dayStart, windowEnd);
              && store.calendarCache == Some(CalendarCache(fetchedAt, events))
              && resp == JsonOk(Events(Live, events))
  {
    if req.verb != "GET" {
      return MethodNotAllowed();
    }
    var icalUrl := Configured(env.icalUrl);
    if icalUrl == "" {
      return JsonWith(Fail(Some("Missing ICAL_URL")), 500);
    }
    var cached := store.calendarCache;
    if CacheFresh(cached, parse, nowMs) {
      return JsonOk(Events(FromCache, cached.value.events));
    }
    if !upstream.ok {
      return JsonWith(Fail(Some("iCal fetch failed: " + DecimalString(upstream.status))), 502);
    }
    var events := Refresh(upstream.components, dayStart, windowEnd);
    store.calendarCache := Some(CalendarCache(fetchedAt, events));
    resp := JsonOk(Events(Live, events));
  }
}
