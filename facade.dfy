/** The Facade pattern: one event system answering "what is on this day" by querying a
    sport event system and a music event system, mapping both kinds of event to a common
    shape, and ordering the result by start time. Times are whole minutes counted from
    2018-01-01 00:00; a calendar day is the minute count divided by 1440, rounded down. */
module Facade {

  const MinutesPerDay := 1440
  const MinutesPerHour := 60

  /** The calendar day a moment falls on (the moment's date part). */
  function Day(minutes: int): int
  {
    minutes / MinutesPerDay
  }

  /** A moment given by its calendar date in January 2018 and time of day. */
  function January2018(day: int, hour: int, minute: int): int
  {
    (day - 1) * MinutesPerDay + hour * MinutesPerHour + minute
  }

  datatype EventType = Sport | Music

  /** The common shape the facade returns. */
  datatype Event = Event(title: string, eventType: EventType, startsOn: int, endsOn: int)

  /** A match: it starts at a moment and lasts for a duration. */
  datatype SportEvent = SportEvent(matchName: string, startDate: int, duration: int)

  /** A concert: it has its own start and end. */
  datatype MusicEvent = MusicEvent(band: string, start: int, end: int)

  /** The elements of `s` that `keep` accepts, in their original order. */
  function Where<T(!new)>(s: seq<T>, keep: T -> bool): (r: seq<T>)
    ensures |r| <= |s|
    ensures forall x :: x in r <==> x in s && keep(x)
    ensures forall x {:trigger multiset(r)[x]} :: multiset(r)[x] == if keep(x) then multiset(s)[x] else 0
  {
    if s == [] then []
    else
      assert s == [s[0]] + s[1..];
      (if keep(s[0]) then [s[0]] else []) + Where(s[1..], keep)
  }

  /** Filtering keeps the original order: filtering a concatenation filters each part and
      keeps the first part's survivors ahead of the second's. Together with `WhereSingleton`
      this pins the result down element by element. */
  lemma {:induction false} WhereAppend<T(!new)>(a: seq<T>, b: seq<T>, keep: T -> bool)
    ensures Where(a + b, keep) == Where(a, keep) + Where(b, keep)
    decreases |a|
  {
    if a == [] {
      assert a + b == b;
    } else {
      var head := if keep(a[0]) then [a[0]] else [];
      assert (a + b)[0] == a[0];
      assert (a + b)[1..] == a[1..] + b;
      assert Where(a + b, keep) == head + Where(a[1..] + b, keep);
      WhereAppend(a[1..], b, keep);
      assert Where(a, keep) == head + Where(a[1..], keep);
      assert head + (Where(a[1..], keep) + Where(b, keep)) == (head + Where(a[1..], keep)) + Where(b, keep);
    }
  }

  /** A single element is kept exactly when it is accepted. */
  lemma WhereSingleton<T(!new)>(x: T, keep: T -> bool)
    ensures Where([x], keep) == if keep(x) then [x] else []
  {
    assert [x][1..] == [];
  }

  /** A sport event as an event: its end is its start plus its duration. */
  function MapSport(e: SportEvent): (r: Event)
    ensures r.eventType == Sport && r.title == e.matchName && r.startsOn == e.startDate
    ensures r.endsOn - r.startsOn == e.duration
  {
    Event(e.matchName, Sport, e.startDate, e.startDate + e.duration)
  }

  /** A music event as an event, keeping its own end. */
  function MapMusic(e: MusicEvent): (r: Event)
    ensures r.eventType == Music && r.title == e.band && r.startsOn == e.start && r.endsOn == e.end
  {
    Event(e.band, Music, e.start, e.end)
  }

  function MapSports(s: seq<SportEvent>): (r: seq<Event>)
    ensures |r| == |s| && forall i :: 0 <= i < |s| ==> r[i] == MapSport(s[i])
  {
    seq(|s|, i requires 0 <= i < |s| => MapSport(s[i]))
  }

  function MapMusics(s: seq<MusicEvent>): (r: seq<Event>)
    ensures |r| == |s| && forall i :: 0 <= i < |s| ==> r[i] == MapMusic(s[i])
  {
    seq(|s|, i requires 0 <= i < |s| => MapMusic(s[i]))
  }

  /** The sport subsystem and its catalogue. */
  datatype SportEventSystem = SportEventSystem(sportEvents: seq<SportEvent>)
  {
    /** The matches starting on the day of `date`, in catalogue order. */
    function GetSportEventsForDate(date: int): (r: seq<SportEvent>)
      ensures forall e :: e in r <==> e in sportEvents && Day(e.startDate) == Day(date)
    {
      Where(sportEvents, (e: SportEvent) => Day(e.startDate) == Day(date))
    }
  }

  /** The music subsystem and its catalogue. */
  datatype MusicEventSystem = MusicEventSystem(musicEvents: seq<MusicEvent>)
  {
    /** The concerts starting on the day of `date`, in catalogue order. */
    function GetTickets(date: int): (r: seq<MusicEvent>)
      ensures forall e :: e in r <==> e in musicEvents && Day(e.start) == Day(date)
    {
      Where(musicEvents, (e: MusicEvent) => Day(e.start) == Day(date))
    }
  }

  // ---------------------------------------------------------------------------------
  // Ordering by start time. The ordering the source relies on is stable: events with the
  // same start keep their relative order.

  predicate SortedByStart(s: seq<Event>)
  {
    forall i, j :: 0 <= i < j < |s| ==> s[i].startsOn <= s[j].startsOn
  }

  /** The events of `s` that start at `t`, in their order in `s`. */
  function StartingAt(s: seq<Event>, t: int): seq<Event>
  {
    if s == [] then [] else (if s[0].startsOn == t then [s[0]] else []) + StartingAt(s[1..], t)
  }

  /** Places `e` before the first event that does not start earlier. */
  function InsertByStart(e: Event, s: seq<Event>): (r: seq<Event>)
    ensures multiset(r) == multiset{e} + multiset(s)
  {
    if s == [] || e.startsOn <= s[0].startsOn then [e] + s
    else
      assert s == [s[0]] + s[1..];
      [s[0]] + InsertByStart(e, s[1..])
  }

  /** Inserting into an ordered sequence keeps it ordered, and puts the earlier of `e` and the
      old first event first. */
  lemma {:induction false} InsertKeepsOrder(e: Event, s: seq<Event>)
    requires SortedByStart(s)
    ensures SortedByStart(InsertByStart(e, s))
    ensures s != [] ==> InsertByStart(e, s)[0].startsOn == if e.startsOn <= s[0].startsOn then e.startsOn else s[0].startsOn
  {
    if s != [] && e.startsOn > s[0].startsOn {
      var rest := InsertByStart(e, s[1..]);
      assert SortedByStart(s[1..]) by {
        forall i, j | 0 <= i < j < |s[1..]| ensures s[1..][i].startsOn <= s[1..][j].startsOn {
          assert s[1..][i] == s[i + 1] && s[1..][j] == s[j + 1];
        }
      }
      InsertKeepsOrder(e, s[1..]);
      assert s[0].startsOn <= rest[0].startsOn by {
        if s[1..] != [] {
          assert s[1..][0] == s[1];
        }
      }
      var r := [s[0]] + rest;
      forall i, j | 0 <= i < j < |r| ensures r[i].startsOn <= r[j].startsOn {
        assert r[j] == rest[j - 1];
        if i > 0 {
          assert r[i] == rest[i - 1];
        } else if j > 1 {
          assert rest[0].startsOn <= rest[j - 1].startsOn;
        }
      }
    }
  }

  /** A stable insertion sort by start time. */
  function OrderByStart(s: seq<Event>): (r: seq<Event>)
    ensures SortedByStart(r)
    ensures multiset(r) == multiset(s)
  {
    if s == [] then []
    else
      assert s == [s[0]] + s[1..];
      InsertKeepsOrder(s[0], OrderByStart(s[1..]));
      InsertByStart(s[0], OrderByStart(s[1..]))
  }

  lemma StartingAtCons(x: Event, rest: seq<Event>, t: int)
    ensures StartingAt([x] + rest, t) == (if x.startsOn == t then [x] else []) + StartingAt(rest, t)
  {
    assert ([x] + rest)[0] == x && ([x] + rest)[1..] == rest;
  }

  /** Inserting adds `e` to the events starting at its time, in front of those already there. */
  lemma {:induction false} InsertKeepsTies(e: Event, s: seq<Event>, t: int)
    ensures StartingAt(InsertByStart(e, s), t) == (if e.startsOn == t then [e] else []) + StartingAt(s, t)
  {
    if s == [] || e.startsOn <= s[0].startsOn {
      StartingAtCons(e, s, t);
    } else {
      var rest := InsertByStart(e, s[1..]);
      assert InsertByStart(e, s) == [s[0]] + rest;
      StartingAtCons(s[0], rest, t);
      StartingAtCons(s[0], s[1..], t);
      assert [s[0]] + s[1..] == s;
      InsertKeepsTies(e, s[1..], t);
      if e.startsOn == t {
        assert s[0].startsOn != t;
      }
    }
  }

  /** Ordering keeps the relative order of events with equal starts. */
  lemma {:induction false} OrderIsStable(s: seq<Event>, t: int)
    ensures StartingAt(OrderByStart(s), t) == StartingAt(s, t)
  {
    if s != [] {
      OrderIsStable(s[1..], t);
      InsertKeepsTies(s[0], OrderByStart(s[1..]), t);
    }
  }

  // ---------------------------------------------------------------------------------
  // The facade.

  datatype EventSystem = EventSystem(sports: SportEventSystem, music: MusicEventSystem)
  {
    /** The day's sport events, then its music events, as common events and ordered by start. */
    function FindEventsForDate(date: int): (r: seq<Event>)
      ensures SortedByStart(r)
      ensures multiset(r) == multiset(MapSports(sports.GetSportEventsForDate(date)))
                             + multiset(MapMusics(music.GetTickets(date)))
    {
      OrderByStart(MapSports(sports.GetSportEventsForDate(date)) + MapMusics(music.GetTickets(date)))
    }
  }

  lemma MappedSports(s: seq<SportEvent>, e: Event)
    ensures e in MapSports(s) <==> exists m :: m in s && e == MapSport(m)
  {
    if exists m :: m in s && e == MapSport(m) {
      var m :| m in s && e == MapSport(m);
      var i :| 0 <= i < |s| && s[i] == m;
      assert MapSports(s)[i] == e;
    }
  }

  lemma MappedMusic(s: seq<MusicEvent>, e: Event)
    ensures e in MapMusics(s) <==> exists c :: c in s && e == MapMusic(c)
  {
    if exists c :: c in s && e == MapMusic(c) {
      var c :| c in s && e == MapMusic(c);
      var i :| 0 <= i < |s| && s[i] == c;
      assert MapMusics(s)[i] == e;
    }
  }

  /** Every event found for a date starts on that date and comes from one of the catalogues;
      every catalogued event starting on that date is found. */
  lemma FindEventsExactlyThatDay(system: EventSystem, date: int, e: Event)
    ensures e in system.FindEventsForDate(date) <==>
      (exists m :: m in system.sports.sportEvents && Day(m.startDate) == Day(date) && e == MapSport(m))
      || (exists c :: c in system.music.musicEvents && Day(c.start) == Day(date) && e == MapMusic(c))
  {
    var sports := system.sports.GetSportEventsForDate(date);
    var concerts := system.music.GetTickets(date);
    var both := MapSports(sports) + MapMusics(concerts);
    var r := system.FindEventsForDate(date);
    assert e in r <==> e in multiset(r);
    assert e in r <==> e in both by {
      assert multiset(r) == multiset(both);
      assert e in both <==> e in multiset(both);
    }
    MappedSports(sports, e);
    MappedMusic(concerts, e);
  }

  /** Events of the same day that start together come sport first, each kind in catalogue order. */
  lemma TiesKeepSportBeforeMusic(system: EventSystem, date: int, t: int)
    ensures StartingAt(system.FindEventsForDate(date), t)
         == StartingAt(MapSports(system.sports.GetSportEventsForDate(date))
                       + MapMusics(system.music.GetTickets(date)), t)
  {
    OrderIsStable(MapSports(system.sports.GetSportEventsForDate(date))
                  + MapMusics(system.music.GetTickets(date)), t);
  }

  // ---------------------------------------------------------------------------------
  // The catalogues of the example.

  const HockeyGame := SportEvent("Canadien vs Mapple Leafs", January2018(10, 10, 0), 2 * MinutesPerHour)
  const FootballGame := SportEvent("Broncos vs Texans", January2018(12, 16, 0), 3 * MinutesPerHour)
  const CelineDion := MusicEvent("Celine Dion", January2018(6, 18, 0), January2018(10, 22, 0))
  const BonJovi := MusicEvent("Bon Jovi", January2018(10, 18, 0), January2018(10, 22, 0))

  const StandardEventSystem := EventSystem(SportEventSystem([HockeyGame, FootballGame]),
                                           MusicEventSystem([CelineDion, BonJovi]))

  /** Nothing is on on January 3. */
  lemma NothingOnJanuary3()
    ensures StandardEventSystem.FindEventsForDate(January2018(3, 0, 0)) == []
  {
    var jan3 := January2018(3, 0, 0);
    var sportKeep := (e: SportEvent) => Day(e.startDate) == Day(jan3);
    var sport := [HockeyGame, FootballGame];
    assert sport[1..] == [FootballGame] && sport[1..][1..] == [];
    assert Where(sport[1..], sportKeep) == [];
    var musicKeep := (e: MusicEvent) => Day(e.start) == Day(jan3);
    var music := [CelineDion, BonJovi];
    assert music[1..] == [BonJovi] && music[1..][1..] == [];
    assert Where(music[1..], musicKeep) == [];
    assert MapSports([]) + MapMusics([]) == [];
  }

  lemma SportOnJanuary10()
    ensures StandardEventSystem.sports.GetSportEventsForDate(January2018(10, 0, 0)) == [HockeyGame]
  {
    var keep := (e: SportEvent) => Day(e.startDate) == Day(January2018(10, 0, 0));
    var s := [HockeyGame, FootballGame];
    assert s[1..] == [FootballGame] && s[1..][1..] == [];
    assert Where(s[1..], keep) == [];
  }

  lemma MusicOnJanuary10()
    ensures StandardEventSystem.music.GetTickets(January2018(10, 0, 0)) == [BonJovi]
  {
    var keep := (e: MusicEvent) => Day(e.start) == Day(January2018(10, 0, 0));
    var s := [CelineDion, BonJovi];
    assert s[1..] == [BonJovi] && s[1..][1..] == [];
    assert Where(s[1..], keep) == [BonJovi];
  }

  /** The two January 10 events, already in start order, are left as they are by the ordering. */
  lemma January10Order()
    ensures OrderByStart([MapSport(HockeyGame), MapMusic(BonJovi)]) == [MapSport(HockeyGame), MapMusic(BonJovi)]
  {
    var hockey, concert := MapSport(HockeyGame), MapMusic(BonJovi);
    var both := [hockey, concert];
    assert both[1..] == [concert];
    assert [concert][1..] == [];
    assert OrderByStart([concert]) == InsertByStart(concert, []) == [concert];
    assert hockey.startsOn <= concert.startsOn;
  }

  /** On January 10 the hockey game, ending at noon, comes before the Bon Jovi concert, ending
      at 22:00; Celine Dion, who started on January 6, is left out. */
  lemma EventsOnJanuary10()
    ensures StandardEventSystem.FindEventsForDate(January2018(10, 0, 0))
         == [MapSport(HockeyGame), MapMusic(BonJovi)]
    ensures MapSport(HockeyGame).endsOn == January2018(10, 12, 0)
    ensures MapMusic(BonJovi).endsOn == January2018(10, 22, 0)
  {
    SportOnJanuary10();
    MusicOnJanuary10();
    January10Order();
    assert MapSports([HockeyGame]) == [MapSport(HockeyGame)];
    assert MapMusics([BonJovi]) == [MapMusic(BonJovi)];
  }
}
