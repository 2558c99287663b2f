/** The derived views of the home page (app/page.tsx): monitor cards, the
    upcoming-week events and the library search. */
module HomePage {
  import opened Types
  import opened Strings
  import Seqs
  import CalendarGet
  import UptimeCheck

  // ---- monitor cards ----

  datatype MonitorCard = MonitorCard(
    id: string,
    name: string,
    url: string,
    ok: bool,
    checkedAt: Option<string>,
    httpStatus: Option<int>)

  /** The card of one monitor: up only when its result says ok; no check time or
      status without a result. */
  function Card(m: Monitor, results: map<string, MonitorResult>): (r: MonitorCard)
    ensures r.id == m.id && r.name == m.name && r.url == m.url
    ensures r.ok <==> m.id in results && results[m.id].ok
    ensures r.checkedAt.Some? <==> m.id in results
    ensures m.id !in results ==> r.httpStatus.None?
    ensures m.id in results ==> r.checkedAt == Some(results[m.id].checkedAt) &&
                                r.httpStatus == results[m.id].httpStatus
  {
    if m.id in results then
      var r := results[m.id];
      MonitorCard(m.id, m.name, m.url, r.ok, Some(r.checkedAt), r.httpStatus)
    else
      MonitorCard(m.id, m.name, m.url, false, None, None)
  }

  /** One card per configured monitor, in monitor order; a card is up only when
      its monitor has a result that is ok, and a monitor without a result shows
      no check time. Results of unconfigured ids are not shown. */
  function MonitorCards(state: Option<HubState>): (r: seq<MonitorCard>)
    ensures state.None? ==> r == []
    ensures state.Some? ==> |r| == |state.value.monitors|
    ensures state.Some? ==> forall i :: 0 <= i < |r| ==>
              var m := state.value.monitors[i];
              var results := state.value.monitorResults;
              && r[i].id == m.id && r[i].name == m.name && r[i].url == m.url
              && (r[i].ok <==> m.id in results && results[m.id].ok)
              && (r[i].checkedAt.Some? <==> m.id in results)
              && (m.id !in results ==> r[i].httpStatus.None?)
              && (m.id in results ==> r[i].checkedAt == Some(results[m.id].checkedAt) &&
                                      r[i].httpStatus == results[m.id].httpStatus)
  {
    if state.None? then []
    else
      var ms := state.value.monitors;
      seq(|ms|, i requires 0 <= i < |ms| => Card(ms[i], state.value.monitorResults))
  }

  /** After a sweep, every card shows the sweep's time. */
  lemma SweptCardsStamped(state: HubState, prior: map<string, MonitorResult>, probe: nat -> Option<int>,
                           checkedAt: string)
    requires UptimeCheck.SweptResults(prior, state.monitors, |state.monitors|, probe, checkedAt, state.monitorResults)
    ensures forall i :: 0 <= i < |MonitorCards(Some(state))| ==> MonitorCards(Some(state))[i].checkedAt == Some(checkedAt)
  {
    var cards := MonitorCards(Some(state));
    forall i | 0 <= i < |cards| ensures cards[i].checkedAt == Some(checkedAt) {
      var j := UptimeCheck.LastIndex(state.monitors, state.monitors[i].id);
      assert UptimeCheck.LatestProbed(state.monitors, |state.monitors|, probe, checkedAt, state.monitorResults);
    }
  }

  // ---- upcoming events ----

  const DayMs := 24 * 60 * 60 * 1000
  const MaxUpcoming: nat := 7

  /** From today 00:00 to exactly seven days later. */
  predicate InWeek(todayStart: int, e: CalendarEvent) {
    todayStart <= e.start <= todayStart + 7 * DayMs
  }

  /** The events of the week, in their given order. */
  function WeekEvents(events: seq<CalendarEvent>, todayStart: int): (r: seq<CalendarEvent>)
    ensures |r| <= |events|
    ensures forall e :: e in r <==> e in events && InWeek(todayStart, e)
  {
    Seqs.Filter(events, (e: CalendarEvent) => InWeek(todayStart, e))
  }

  /** The week's events, the earliest seven by start. */
  function UpcomingEvents(events: seq<CalendarEvent>, todayStart: int): (r: seq<CalendarEvent>)
    ensures |r| == if |WeekEvents(events, todayStart)| <= MaxUpcoming then |WeekEvents(events, todayStart)| else MaxUpcoming
    ensures CalendarGet.SortedByStart(r)
    ensures multiset(r) <= multiset(WeekEvents(events, todayStart))
  {
    CalendarGet.Earliest(WeekEvents(events, todayStart), MaxUpcoming)
  }

  /** At most seven events, all in the week window, sorted by start, and no
      in-window event left out starts before one that is shown. */
  lemma UpcomingSpec(events: seq<CalendarEvent>, todayStart: int)
    ensures var r := UpcomingEvents(events, todayStart);
            && |r| <= MaxUpcoming
            && |r| == (if |WeekEvents(events, todayStart)| <= MaxUpcoming then |WeekEvents(events, todayStart)| else MaxUpcoming)
            && CalendarGet.SortedByStart(r)
            && (forall i :: 0 <= i < |r| ==> InWeek(todayStart, r[i]))
            && forall e, i :: (e in events && InWeek(todayStart, e) && e !in r && 0 <= i < |r|) ==>
                 r[i].start <= e.start
  {
    var w := WeekEvents(events, todayStart);
    var r := UpcomingEvents(events, todayStart);
    forall i | 0 <= i < |r| ensures InWeek(todayStart, r[i]) {
      assert r[i] in multiset(w);
    }
    forall e, i | e in events && InWeek(todayStart, e) && e !in r && 0 <= i < |r|
      ensures r[i].start <= e.start
    {
      assert e in w;
      assert e in multiset(w) - multiset(r);
    }
  }

  // ---- library search ----

  /** A record matches a lower-cased query when its lower-cased title, course or
      category contains it. */
  predicate Matches(s: Submission, lowered: string)
    ensures lowered == Lower(s.title) || lowered == Lower(s.course) || lowered == Lower(s.category) ==>
              Matches(s, lowered)
    ensures Matches(s, lowered) ==> |lowered| <= |s.title| || |lowered| <= |s.course| || |lowered| <= |s.category|
  {
    Contains(Lower(s.title), lowered) || Contains(Lower(s.course), lowered) || Contains(Lower(s.category), lowered)
  }

  /** The matching records, in order, each as often as it is listed. */
  function Search(subs: seq<Submission>, lowered: string): (r: seq<Submission>)
    ensures |r| <= |subs|
    ensures forall s :: s in r <==> s in subs && Matches(s, lowered)
    ensures forall s :: multiset(r)[s] == if Matches(s, lowered) then multiset(subs)[s] else 0
  {
    var p := (s: Submission) => Matches(s, lowered);
    forall s ensures multiset(Seqs.Filter(subs, p))[s] == if p(s) then multiset(subs)[s] else 0 {
      Seqs.FilterCount(subs, p, s);
    }
    Seqs.Filter(subs, p)
  }

  /** An empty query shows everything; otherwise exactly the matching records,
      in order. */
  function FilteredSubmissions(subs: seq<Submission>, searchQuery: string): (r: seq<Submission>)
    ensures searchQuery == "" ==> r == subs
    ensures |r| <= |subs|
    ensures searchQuery != "" ==> forall s :: s in r <==> s in subs && Matches(s, Lower(searchQuery))
  {
    if searchQuery == "" then subs else Search(subs, Lower(searchQuery))
  }

  /** Queries that differ only in letter case give the same results. */
  lemma SearchIgnoresCase(subs: seq<Submission>, q1: string, q2: string)
    requires Lower(q1) == Lower(q2)
    ensures FilteredSubmissions(subs, q1) == FilteredSubmissions(subs, q2)
  {
  }

  /** Searching for a record's own title, in any letter case, finds it. */
  lemma TitleSearchFinds(subs: seq<Submission>, s: Submission, query: string)
    requires s in subs && query != "" && Lower(query) == Lower(s.title)
    ensures s in FilteredSubmissions(subs, query)
  {
  }
}
