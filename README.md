# Episode schedule generator — a Dafny model

This project models `generateSchedule`, the function of the TV-show watch planner that
turns a list of shows and the user's viewing settings into a day-by-day viewing schedule.
The function works in four stages: priority sort, episode queue, date enumeration and
packing. Each stage is one module. `Types` holds the records they share, and
`ScheduleGenerator` puts the stages together:

- `Types`: the records involved: `Show`, `Episode` (a scheduled episode record),
  `Settings`, `ScheduleDay`, and the `Priority` with the comparator's rank
  (high = 3, medium = 2, low = 1).
- `PrioritySort`: a copy of the show list is sorted by descending rank. The engine's sort
  is stable, so it is modelled as a stable insertion sort. The sort is proved to be a
  permutation and to equal the reference ordering "high shows, then medium, then low,
  each in input order".
- `EpisodeQueue`: every show is expanded into its episodes, season by season and episode
  by episode, and the runs are appended in sorted order. The method `BuildQueue` has the
  source's three nested counting loops and is proved equal to the functional `Queue`.
- `Calendar`: the inclusive date window is walked one day at a time, and each date whose
  weekday was selected is kept. Dates are day numbers counted from 1970-01-01, a
  Thursday. `CollectDates` has the source's loop and is proved equal to `EligibleDates`.
- `Packing`: the queue is packed greedily onto the dates. One cursor runs through the
  queue and never moves back. Every date starts with the full budget of
  `hoursPerDay * 60` minutes. It takes the episode at the cursor while minutes remain and
  that episode fits. An episode that does not fit ends the day and is retried on the next
  date. `FillDay` (one date) and `PackDays` (all dates) have the source's loops and are
  proved equal to the functional `DayTake` and `Pack`. `IsGreedyPacking` states the
  packing without any loop. The packing is proved to satisfy it, and, when all durations
  are positive, to be the only day list that does.
- `ScheduleGenerator`: the stages put together (`GenerateSchedule`), with the properties
  of the schedule as a whole. These are: one day per eligible date in calendar order; the
  days' episodes are a prefix of the priority-ordered queue; each day keeps to the budget
  and stops only for a reason; once the cursor reaches an episode longer than a day's
  budget, every later day is empty (`ScheduleStalls`); and two general scenarios (spill-over to the next date, high priority first).

## Model

| member | source | states |
|---|---|---|
| Types.Rank | src/utils/scheduleGenerator.ts:8 | the comparator's rank of a priority lies between 1 and 3 (high 3, medium 2, low 1) |
| PrioritySort.WithPriority | src/utils/scheduleGenerator.ts:7-10 | the reference filter for one priority keeps only shows of that priority and never grows the list |
| PrioritySort.Insert | src/utils/scheduleGenerator.ts:7-10 | one insertion step of the stable sort adds exactly the inserted show to the list's multiset |
| PrioritySort.SortByPriority | src/utils/scheduleGenerator.ts:7 | the sorted copy is a permutation of the input show list |
| PrioritySort.InsertIntoBlocks | src/utils/scheduleGenerator.ts:7-10 | inserting into a high/medium/low block list puts the show at the front of its own priority's block |
| PrioritySort.SortIsRankBlocks | src/utils/scheduleGenerator.ts:7-10 | the sorted list equals all high shows, then all medium shows, then all low shows, each group in input order |
| PrioritySort.SortIsDescending | src/utils/scheduleGenerator.ts:7-10 | in the sorted list the rank never increases from one position to a later one |
| PrioritySort.SortIsStable | src/utils/scheduleGenerator.ts:7-10 | shows of equal priority keep their input order in the sorted list |
| EpisodeQueue.SeasonsUpTo | src/utils/scheduleGenerator.ts:16-26 | seasons 1 to n of a show contribute n * episodesPerSeason records |
| EpisodeQueue.Queue | src/utils/scheduleGenerator.ts:13-27 | the queue's length is the sum over the shows of seasons * episodesPerSeason |
| EpisodeQueue.SeasonsUpToAt | src/utils/scheduleGenerator.ts:16-24 | within a show's first n seasons, episode e of season s sits at position (s-1)*E + (e-1) and carries the show's id, title and duration |
| EpisodeQueue.ShowEpisodesAt | src/utils/scheduleGenerator.ts:16-24 | a show's run has seasons * episodesPerSeason records, ordered by (season, episode) from (1,1), each carrying the show's id, title and duration |
| EpisodeQueue.QueueAppend | src/utils/scheduleGenerator.ts:15-27 | queuing two show lists one after the other gives the two queues one after the other |
| EpisodeQueue.QueueAt | src/utils/scheduleGenerator.ts:15-27 | show s's run starts right after the runs of the shows before it and is contiguous; every (season, episode) record of it is where the ordering puts it, with the show's fields |
| EpisodeQueue.QueueDurationsPositive | src/utils/scheduleGenerator.ts:23 | when every show's duration is positive, every queued record's duration is positive |
| EpisodeQueue.BuildQueue | src/utils/scheduleGenerator.ts:13-27 | the nested loops push exactly the functional queue of the sorted shows |
| Calendar.WeekdayOfNextDay | src/utils/scheduleGenerator.ts:35-39 | the weekday function `WeekdayOf` that replaces the weekday-name test steps to the next weekday when the date steps by one day, and repeats every seven days |
| Calendar.EligibleDates | src/utils/scheduleGenerator.ts:30-40 | every enumerated date lies in the inclusive window and has a selected weekday |
| Calendar.EligibleDatesAscending | src/utils/scheduleGenerator.ts:34-40 | the enumerated dates are strictly ascending, so none repeats |
| Calendar.EligibleDatesExactly | src/utils/scheduleGenerator.ts:34-38 | a day is enumerated if and only if it lies in the window and its weekday is selected |
| Calendar.NoEligibleDates | src/utils/scheduleGenerator.ts:34-36 | a start date after the end date, or no selected weekday, gives no dates |
| Calendar.EveryDayEligible | src/utils/scheduleGenerator.ts:34-40 | with all seven weekdays selected, every day of the window is enumerated |
| Calendar.CollectDates | src/utils/scheduleGenerator.ts:30-40 | the date loop collects exactly the eligible dates |
| Packing.DayTake | src/utils/scheduleGenerator.ts:54-64 | the number of episodes one date takes never runs past the end of the queue |
| Packing.DayTakeFits | src/utils/scheduleGenerator.ts:52-60 | what one date takes is empty or lasts at most the minutes it started with |
| Packing.DayTakeStops | src/utils/scheduleGenerator.ts:54-63 | a date stops taking episodes only when the queue is used up, the budget is spent, or the next episode does not fit in what is left |
| Packing.DayTakeUnique | src/utils/scheduleGenerator.ts:54-63 | with positive durations, any count that fits and stops for a reason is the greedy count |
| Packing.Pack | src/utils/scheduleGenerator.ts:43-67 | the day list has one entry per date |
| Packing.PackKeepsDates | src/utils/scheduleGenerator.ts:46-67 | entry j of the day list is for date j, for every date, whether or not episodes are left |
| Packing.PackDayAt | src/utils/scheduleGenerator.ts:44-64 | day j takes the greedy count of episodes from the cursor left by the days before it |
| Packing.PackConsumesRun | src/utils/scheduleGenerator.ts:44-64 | all days' episodes together are a contiguous run of the queue from the cursor: none is skipped, repeated or reordered |
| Packing.PackDayIsGreedy | src/utils/scheduleGenerator.ts:52-63 | each day keeps to the budget and stopped only for a reason |
| Packing.PackIsGreedy | src/utils/scheduleGenerator.ts:43-67 | the packing satisfies the loop-free greedy characterisation IsGreedyPacking |
| Packing.GreedyPackingIsPack | src/utils/scheduleGenerator.ts:43-67 | with positive durations, every day list satisfying IsGreedyPacking is the packing |
| Packing.PackStalls | src/utils/scheduleGenerator.ts:54-63 | when the episode at the cursor is longer than the daily budget, no date from there on receives any episode |
| Packing.PackSuffix | src/utils/scheduleGenerator.ts:44-67 | the days from day j on are the packing of the remaining dates, starting from the cursor the first j days left |
| Packing.NeverPlacedOversized | src/utils/scheduleGenerator.ts:57-60 | with positive durations, no scheduled episode is longer than the daily budget |
| Packing.FillDay | src/utils/scheduleGenerator.ts:52-64 | the inner loop for one date takes the greedy count of episodes from the cursor and advances the cursor past them |
| Packing.PackDays | src/utils/scheduleGenerator.ts:43-67 | the loop over the dates with its shared cursor builds exactly the functional packing |
| ScheduleGenerator.Schedule | src/utils/scheduleGenerator.ts:3-70 | the functional generator returns no days for an empty show list, and otherwise one day per eligible date |
| ScheduleGenerator.GenerateSchedule | src/utils/scheduleGenerator.ts:3-70 | the generator returns the packing of the priority-ordered queue onto the eligible dates, or nothing for an empty show list |
| ScheduleGenerator.EmptySchedule | src/utils/scheduleGenerator.ts:4 | no shows, an empty window or no selected weekday gives an empty schedule |
| ScheduleGenerator.OneDayPerEligibleDate | src/utils/scheduleGenerator.ts:46-67 | a non-empty show list gives exactly one day per eligible date, in strictly ascending date order, each in the window on a selected weekday |
| ScheduleGenerator.ScheduleIsQueuePrefix | src/utils/scheduleGenerator.ts:44-64 | the days' episodes, one day after the other, are a prefix of the priority-ordered queue |
| ScheduleGenerator.ScheduleIsGreedy | src/utils/scheduleGenerator.ts:52-64 | the schedule satisfies IsGreedyPacking: each day within the budget, each day stopped only for a reason |
| ScheduleGenerator.ScheduleStalls | src/utils/scheduleGenerator.ts:54-63 | when the first j days leave the cursor on an episode longer than the daily budget, every day from j on is empty |
| ScheduleGenerator.ScheduleIsOnlyGreedyPacking | src/utils/scheduleGenerator.ts:43-67 | with positive durations, the schedule is the only day list that is greedy for the queue and the dates |
| ScheduleGenerator.QueueFollowsPriority | src/utils/scheduleGenerator.ts:7-27 | the queue holds all high shows' episodes, then all medium, then all low, each group in input show order |
| ScheduleGenerator.SpilloverExample | src/utils/scheduleGenerator.ts:54-64 | an episode that does not fit after the first one moves to the next selected date |
| ScheduleGenerator.PriorityExample | src/utils/scheduleGenerator.ts:7-27 | a high-priority show listed after a low-priority one is watched first |

## Left out

- The React components (show form, show list, settings panel, schedule view, header,
  animated background) are not part of this model. They are presentation and UI state.
- JavaScript `Date` and `Intl`: dates are integer day numbers, and the weekday is
  `Calendar.WeekdayOf`, computed from the day number. Stepping a day number by one gives
  the same next calendar day as `setDate(getDate() + 1)`, including across month and year
  ends. The `Date` objects themselves, time zones and daylight saving are not modelled.
- The weekday test at src/utils/scheduleGenerator.ts:35 is not modelled as written. It
  asks `toLocaleDateString` for the weekday style `'lowercase'`. ECMA-402 allows only
  `"narrow"`, `"short"` and `"long"` for that option, so a conforming engine throws a
  `RangeError` there. Even `"long"` gives capitalised names, while the settings panel
  stores lowercase ones (src/components/ScheduleSettings.tsx:44). The model uses the
  evident intent: a date is kept when its weekday is in the selected list.
- `hoursPerDay` is a floating-point number in the source. The model takes the budget as
  the integer `minutesPerDay` (`hoursPerDay * 60`). The 0.5-hour slider steps make this a
  whole number of minutes.
- Show ids (generated by `uuid`), images and their fallbacks play no part in the schedule.
  `image` is kept as an optional field but is not used.
- `Array.prototype.sort` is modelled by a stable insertion sort, as the engine's sort is
  stable. Its internal algorithm and comparator-call order are not modelled.
- The source mutates `Date` objects and arrays in place. The model threads the same state
  through `seq` variables, so aliasing between the returned dates and `currentDate` is
  not modelled.
- Packing.GreedyPackingIsPack: uniqueness is stated only for positive durations. Once a
  day's budget is used up, the generator takes nothing more, but a day that also took a
  following zero-length episode would still satisfy IsGreedyPacking. Negative durations
  break uniqueness in the same way.
- Packing.NeverPlacedOversized: stated only for positive durations. A negative duration
  can raise the remaining minutes so that a longer episode fits after it.
- ScheduleGenerator.ScheduleIsOnlyGreedyPacking: needs positive durations for the same
  reason as Packing.GreedyPackingIsPack. The show form demands at least one minute.
