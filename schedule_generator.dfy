/** generateSchedule: the four stages put together, and what the resulting day list
    promises about the shows and settings it was computed from. */
module ScheduleGenerator {
  import opened Types
  import opened PrioritySort
  import opened EpisodeQueue
  import opened Calendar
  import opened Packing

  /** The episode queue the generator packs: the shows in priority order, each expanded. */
  function SortedQueue(shows: seq<Show>): seq<Episode>
  {
    Queue(SortByPriority(shows))
  }

  /** The dates the generator fills, from the settings' window and weekdays. */
  function Dates(settings: Settings): seq<int>
  {
    EligibleDates(settings.startDate, settings.endDate, settings.daysPerWeek)
  }

  /** The day list generateSchedule returns. An empty show list returns at once, before any
      date is enumerated. */
  function Schedule(shows: seq<Show>, settings: Settings): (r: seq<ScheduleDay>)
    ensures |r| == if shows == [] then 0 else |Dates(settings)|
  {
    if |shows| == 0 then []
    else Pack(SortedQueue(shows), Dates(settings), settings.minutesPerDay, 0)
  }

  /** generateSchedule itself: sort, expand, enumerate the dates, pack. */
  method GenerateSchedule(shows: seq<Show>, settings: Settings) returns (schedule: seq<ScheduleDay>)
    ensures schedule == Schedule(shows, settings)
  {
    if |shows| == 0 {
      return [];
    }
    var sortedShows := SortByPriority(shows);
    var allEpisodes := BuildQueue(sortedShows);
    var allDates := CollectDates(settings.startDate, settings.endDate, settings.daysPerWeek);
    schedule := PackDays(allEpisodes, allDates, settings.minutesPerDay);
  }

  /** No shows, an empty window or no selected weekday: no days at all. */
  lemma EmptySchedule(shows: seq<Show>, settings: Settings)
    requires shows == [] || settings.daysPerWeek == [] || settings.startDate > settings.endDate
    ensures Schedule(shows, settings) == []
  {
    if shows != [] {
      NoEligibleDates(settings.startDate, settings.endDate, settings.daysPerWeek);
    }
  }

  /** For a non-empty show list there is exactly one day per eligible date, in calendar
      order, also after the queue has run out. */
  lemma OneDayPerEligibleDate(shows: seq<Show>, settings: Settings)
    requires shows != []
    ensures |Schedule(shows, settings)| == |Dates(settings)|
    ensures forall j :: 0 <= j < |Dates(settings)| ==> Schedule(shows, settings)[j].date == Dates(settings)[j]
    ensures forall j :: 0 <= j < |Dates(settings)| ==>
              settings.startDate <= Schedule(shows, settings)[j].date <= settings.endDate
              && WeekdayOf(Schedule(shows, settings)[j].date) in settings.daysPerWeek
    ensures forall j, k :: 0 <= j < k < |Dates(settings)| ==>
              Schedule(shows, settings)[j].date < Schedule(shows, settings)[k].date
  {
    PackKeepsDates(SortedQueue(shows), Dates(settings), settings.minutesPerDay, 0);
    EligibleDatesAscending(settings.startDate, settings.endDate, settings.daysPerWeek);
  }

  /** The scheduled episodes, day after day, are the front of the queue: none is skipped,
      repeated or moved out of queue order. */
  lemma ScheduleIsQueuePrefix(shows: seq<Show>, settings: Settings)
    ensures AllEpisodes(Schedule(shows, settings)) <= SortedQueue(shows)
  {
    if shows != [] {
      PackConsumesRun(SortedQueue(shows), Dates(settings), settings.minutesPerDay, 0);
    }
  }

  /** Each day keeps to the daily budget and ends only when the next queued episode would
      not fit in what is left of it (or the budget is used up, or the queue is). */
  lemma ScheduleIsGreedy(shows: seq<Show>, settings: Settings)
    requires shows != []
    ensures IsGreedyPacking(SortedQueue(shows), Dates(settings), settings.minutesPerDay, 0, Schedule(shows, settings))
  {
    PackIsGreedy(SortedQueue(shows), Dates(settings), settings.minutesPerDay, 0);
  }

  /** The stall: when the first j days leave the cursor on an episode longer than the whole
      daily budget, that episode is never watched and every day from j on is empty. */
  lemma ScheduleStalls(shows: seq<Show>, settings: Settings, j: nat)
    requires shows != []
    requires j <= |Schedule(shows, settings)|
    requires |AllEpisodes(Schedule(shows, settings)[..j])| < |SortedQueue(shows)|
    requires SortedQueue(shows)[|AllEpisodes(Schedule(shows, settings)[..j])|].duration > settings.minutesPerDay
    ensures forall k :: j <= k < |Schedule(shows, settings)| ==> Schedule(shows, settings)[k].episodes == []
  {
    var q, dates, budget := SortedQueue(shows), Dates(settings), settings.minutesPerDay;
    var r := Schedule(shows, settings);
    var c := |AllEpisodes(r[..j])|;
    PackSuffix(q, dates, budget, 0, j);
    PackStalls(q, dates[j..], budget, c);
    forall k | j <= k < |r|
      ensures r[k].episodes == []
    {
      assert r[k] == r[j..][k - j];
    }
  }

  /** When every show's episodes last at least a minute, the generator's day list is the only
      greedy one for the queue and the dates. */
  lemma ScheduleIsOnlyGreedyPacking(shows: seq<Show>, settings: Settings, other: seq<ScheduleDay>)
    requires shows != []
    requires forall s :: s in shows ==> s.episodeDuration > 0
    requires IsGreedyPacking(SortedQueue(shows), Dates(settings), settings.minutesPerDay, 0, other)
    ensures other == Schedule(shows, settings)
  {
    var sorted := SortByPriority(shows);
    assert forall s :: s in sorted ==> s in shows by {
      assert multiset(sorted) == multiset(shows);
      forall s | s in sorted ensures s in shows {
        assert s in multiset(sorted);
      }
    }
    QueueDurationsPositive(sorted);
    GreedyPackingIsPack(SortedQueue(shows), Dates(settings), settings.minutesPerDay, 0, other);
  }

  /** Priority order of the queue: every episode of a high-priority show comes before every
      episode of a medium one, and those before every episode of a low one; within one
      priority the shows keep their input order. */
  lemma QueueFollowsPriority(shows: seq<Show>)
    ensures SortedQueue(shows)
         == Queue(WithPriority(shows, High)) + Queue(WithPriority(shows, Medium)) + Queue(WithPriority(shows, Low))
  {
    var h, m, l := WithPriority(shows, High), WithPriority(shows, Medium), WithPriority(shows, Low);
    SortIsRankBlocks(shows);
    QueueAppend(h + m, l);
    QueueAppend(h, m);
  }

  /** Spill-over: a one-season show of two episodes whose daily budget holds one episode
      but not two, over a window of two consecutive selected days. The second episode does
      not fit after the first and is watched on the second day. */
  lemma SpilloverExample(show: Show, day: int, budget: int)
    requires show.seasons == 1 && show.episodesPerSeason == 2
    requires 0 < show.episodeDuration <= budget < 2 * show.episodeDuration
    ensures Schedule([show], Settings(day, day + 1, budget, [WeekdayOf(day), WeekdayOf(day + 1)]))
         == [ScheduleDay(day, [Episode(show.id, show.title, 1, 1, show.episodeDuration)]),
             ScheduleDay(day + 1, [Episode(show.id, show.title, 1, 2, show.episodeDuration)])]
  {
    var d := show.episodeDuration;
    var settings := Settings(day, day + 1, budget, [WeekdayOf(day), WeekdayOf(day + 1)]);
    var q := [Episode(show.id, show.title, 1, 1, d), Episode(show.id, show.title, 1, 2, d)];
    assert SortedQueue([show]) == q by {
      assert SortByPriority([show]) == [show];
      assert SeasonsUpTo(show, 1) == SeasonEpisodes(show, 1) == q;
      assert [show][..0] == [];
    }
    assert Dates(settings) == [day, day + 1] by {
      var days := settings.daysPerWeek;
      assert EligibleDates(day + 2, day + 1, days) == [];
      assert EligibleDates(day + 1, day + 1, days) == [day + 1];
      assert EligibleDates(day, day + 1, days) == [day] + [day + 1];
    }
    assert Pack(q, [day + 1], budget, 1) == [ScheduleDay(day + 1, [q[1]])] by {
      assert DayTake(q, 2, budget - d) == 0;
      assert DayTake(q, 1, budget) == 1;
      assert q[1..2] == [q[1]];
    }
    assert Pack(q, [day, day + 1], budget, 0) == [ScheduleDay(day, [q[0]])] + Pack(q, [day + 1], budget, 1) by {
      assert DayTake(q, 1, budget - d) == 0;
      assert DayTake(q, 0, budget) == 1;
      assert [day, day + 1][1..] == [day + 1];
      assert q[0..1] == [q[0]];
    }
  }

  /** Priority first: a low-priority show listed before a high-priority one, both of one
      episode and both fitting in one day's budget. On the single selected day the
      high-priority episode is watched first. */
  lemma PriorityExample(low: Show, high: Show, day: int, budget: int)
    requires low.priority == Low && high.priority == High
    requires low.seasons == 1 && low.episodesPerSeason == 1
    requires high.seasons == 1 && high.episodesPerSeason == 1
    requires 0 < low.episodeDuration && 0 < high.episodeDuration
    requires low.episodeDuration + high.episodeDuration <= budget
    ensures Schedule([low, high], Settings(day, day, budget, [WeekdayOf(day)]))
         == [ScheduleDay(day, [Episode(high.id, high.title, 1, 1, high.episodeDuration),
                               Episode(low.id, low.title, 1, 1, low.episodeDuration)])]
  {
    var settings := Settings(day, day, budget, [WeekdayOf(day)]);
    var q := [Episode(high.id, high.title, 1, 1, high.episodeDuration),
              Episode(low.id, low.title, 1, 1, low.episodeDuration)];
    assert Dates(settings) == [day] by {
      assert EligibleDates(day + 1, day, settings.daysPerWeek) == [];
    }
    assert SortByPriority([low, high]) == [high, low] by {
      assert [low, high][1..] == [high];
      assert SortByPriority([high]) == [high];
      assert Insert(low, [high]) == [high] + Insert(low, []) by {
        assert Rank(high.priority) > Rank(low.priority);
        assert [high][1..] == [];
      }
    }
    assert Queue([high]) == q[..1] by {
      assert [high][..0] == [];
      assert SeasonsUpTo(high, 1) == SeasonEpisodes(high, 1) == q[..1];
    }
    assert Queue([high, low]) == q by {
      assert [high, low][..1] == [high];
      assert SeasonEpisodes(low, 1) == [q[1]];
      assert SeasonsUpTo(low, 1) == [q[1]];
      assert q == q[..1] + [q[1]];
    }
    assert Pack(q, [day], budget, 0) == [ScheduleDay(day, q)] by {
      assert DayTake(q, 2, budget - high.episodeDuration - low.episodeDuration) == 0;
      assert DayTake(q, 1, budget - high.episodeDuration) == 1;
      assert DayTake(q, 0, budget) == 2;
      assert q[0..2] == q;
    }
  }
}
