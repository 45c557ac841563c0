/** Stage 4 of the generator: greedy packing of the episode queue onto the eligible dates.
    One cursor runs through the queue and never moves back; every date starts with the full
    daily budget and takes episodes at the cursor while the budget is positive and the next
    episode fits. An episode that does not fit ends that date and is retried on the next one. */
module Packing {
  import opened Types

  /** The total running time of a run of episodes, in minutes. */
  function Minutes(eps: seq<Episode>): int
  {
    if eps == [] then 0 else eps[0].duration + Minutes(eps[1..])
  }

  /** The number of episodes one date takes from cursor i when `remaining` minutes are left. */
  function DayTake(q: seq<Episode>, i: nat, remaining: int): (n: nat)
    requires i <= |q|
    ensures i + n <= |q|
    decreases |q| - i
  {
    if remaining > 0 && i < |q| && q[i].duration <= remaining then
      1 + DayTake(q, i + 1, remaining - q[i].duration)
    else 0
  }

  /** The day list: each date, in order, with the episodes it takes from the cursor;
      the cursor carries over from one date to the next. */
  function Pack(q: seq<Episode>, dates: seq<int>, budget: int, i: nat): (r: seq<ScheduleDay>)
    requires i <= |q|
    ensures |r| == |dates|
    decreases |dates|
  {
    if dates == [] then []
    else
      var n := DayTake(q, i, budget);
      [ScheduleDay(dates[0], q[i..i + n])] + Pack(q, dates[1..], budget, i + n)
  }

  /** One entry per date, in the order of the dates, whether or not episodes are left. */
  lemma {:induction false} PackKeepsDates(q: seq<Episode>, dates: seq<int>, budget: int, i: nat)
    requires i <= |q|
    ensures |Pack(q, dates, budget, i)| == |dates|
    ensures forall j :: 0 <= j < |dates| ==> Pack(q, dates, budget, i)[j].date == dates[j]
    decreases |dates|
  {
    if dates != [] {
      var n := DayTake(q, i, budget);
      PackKeepsDates(q, dates[1..], budget, i + n);
    }
  }

  /** The episodes of all days, day after day. */
  function AllEpisodes(days: seq<ScheduleDay>): seq<Episode>
  {
    if days == [] then [] else days[0].episodes + AllEpisodes(days[1..])
  }

  /** A day's list keeps to the budget: it is empty or its minutes add up to at most `budget`. */
  ghost predicate WithinBudget(eps: seq<Episode>, budget: int)
  {
    eps == [] || Minutes(eps) <= budget
  }

  /** A day's list ended for a reason: the queue is used up at `next`, the budget is spent,
      or the episode at `next` does not fit in what is left. */
  ghost predicate Stopped(q: seq<Episode>, next: int, eps: seq<Episode>, budget: int)
  {
    0 <= next < |q| ==> Minutes(eps) >= budget || Minutes(eps) + q[next].duration > budget
  }

  /** Every episode lasts at least one minute, as the show form demands. */
  ghost predicate PositiveDurations(q: seq<Episode>)
  {
    forall k :: 0 <= k < |q| ==> q[k].duration > 0
  }

  /** The greedy packing, stated without the loop: one day per date in order, all days
      together a contiguous run of the queue from cursor i, each day within the budget,
      and each day stopped only when the next queued episode could not be added. */
  ghost predicate IsGreedyPacking(q: seq<Episode>, dates: seq<int>, budget: int, i: nat, r: seq<ScheduleDay>)
  {
    && |r| == |dates|
    && (forall j :: 0 <= j < |r| ==> r[j].date == dates[j])
    && i + |AllEpisodes(r)| <= |q|
    && AllEpisodes(r) == q[i..i + |AllEpisodes(r)|]
    && (forall j :: 0 <= j < |r| ==> GreedyDay(q, budget, i, r, j))
  }

  /** Day j of a day list whose first day starts at cursor i keeps to the budget and
      stopped for a reason. */
  ghost predicate GreedyDay(q: seq<Episode>, budget: int, i: nat, r: seq<ScheduleDay>, j: nat)
    requires j < |r|
  {
    && WithinBudget(r[j].episodes, budget)
    && Stopped(q, i + |AllEpisodes(r[..j + 1])|, r[j].episodes, budget)
  }

  // ---------------------------------------------------------------------------------------
  // One day

  lemma MinutesOfSlice(q: seq<Episode>, i: nat, n: nat)
    requires i < i + n <= |q|
    ensures Minutes(q[i..i + n]) == q[i].duration + Minutes(q[i + 1..i + n])
  {
    assert q[i..i + n][1..] == q[i + 1..i + n];
  }

  lemma {:induction false} MinutesAtLeastLength(eps: seq<Episode>)
    requires PositiveDurations(eps)
    ensures Minutes(eps) >= |eps|
  {
    if eps != [] {
      MinutesAtLeastLength(eps[1..]);
    }
  }

  /** What one date takes fits in the minutes it starts with. */
  lemma {:induction false} DayTakeFits(q: seq<Episode>, i: nat, remaining: int)
    requires i <= |q|
    ensures WithinBudget(q[i..i + DayTake(q, i, remaining)], remaining)
    decreases |q| - i
  {
    var n := DayTake(q, i, remaining);
    if n > 0 {
      DayTakeFits(q, i + 1, remaining - q[i].duration);
      MinutesOfSlice(q, i, n);
    }
  }

  /** A date stops taking episodes only when its budget is spent or the next one does not fit. */
  lemma {:induction false} DayTakeStops(q: seq<Episode>, i: nat, remaining: int)
    requires i <= |q|
    ensures Stopped(q, i + DayTake(q, i, remaining), q[i..i + DayTake(q, i, remaining)], remaining)
    decreases |q| - i
  {
    var n := DayTake(q, i, remaining);
    if n > 0 {
      DayTakeStops(q, i + 1, remaining - q[i].duration);
      MinutesOfSlice(q, i, n);
    }
  }

  /** With positive durations, fitting and stopping for a reason pin down how many
      episodes a date takes: the greedy count is the only one. */
  lemma {:induction false} DayTakeUnique(q: seq<Episode>, i: nat, remaining: int, n: nat)
    requires PositiveDurations(q)
    requires i + n <= |q|
    requires WithinBudget(q[i..i + n], remaining)
    requires Stopped(q, i + n, q[i..i + n], remaining)
    ensures n == DayTake(q, i, remaining)
    decreases n
  {
    if n > 0 {
      MinutesOfSlice(q, i, n);
      assert PositiveDurations(q[i + 1..i + n]);
      MinutesAtLeastLength(q[i + 1..i + n]);
      DayTakeUnique(q, i + 1, remaining - q[i].duration, n - 1);
    }
  }

  // ---------------------------------------------------------------------------------------
  // The day list

  lemma {:induction false} AllEpisodesAppend(a: seq<ScheduleDay>, b: seq<ScheduleDay>)
    ensures AllEpisodes(a + b) == AllEpisodes(a) + AllEpisodes(b)
  {
    if a == [] {
      assert a + b == b;
    } else {
      assert (a + b)[1..] == a[1..] + b;
      AllEpisodesAppend(a[1..], b);
    }
  }

  /** Day j of the list takes its episodes from the cursor left by the days before it. */
  lemma {:induction false} PackDayAt(q: seq<Episode>, dates: seq<int>, budget: int, i: nat, j: nat)
    requires i <= |q| && j < |dates|
    ensures i + |AllEpisodes(Pack(q, dates, budget, i)[..j])| <= |q|
    ensures var c := i + |AllEpisodes(Pack(q, dates, budget, i)[..j])|;
            Pack(q, dates, budget, i)[j].episodes == q[c..c + DayTake(q, c, budget)]
    decreases j
  {
    var r := Pack(q, dates, budget, i);
    var n := DayTake(q, i, budget);
    if j == 0 {
      assert r[..0] == [];
      assert AllEpisodes(r[..0]) == [];
    } else {
      var r' := Pack(q, dates[1..], budget, i + n);
      assert r == [ScheduleDay(dates[0], q[i..i + n])] + r';
      assert |AllEpisodes(r[..j])| == n + |AllEpisodes(r'[..j - 1])| by {
        assert r[..j] == [r[0]] + r'[..j - 1];
        AllEpisodesAppend([r[0]], r'[..j - 1]);
        assert AllEpisodes([r[0]]) == r[0].episodes;
      }
      PackDayAt(q, dates[1..], budget, i + n, j - 1);
      assert r[j] == r'[j - 1];
    }
  }

  /** All days together are a contiguous run of the queue starting at the cursor: nothing is
      skipped, repeated or reordered. */
  lemma {:induction false} PackConsumesRun(q: seq<Episode>, dates: seq<int>, budget: int, i: nat)
    requires i <= |q|
    ensures i + |AllEpisodes(Pack(q, dates, budget, i))| <= |q|
    ensures AllEpisodes(Pack(q, dates, budget, i)) == q[i..i + |AllEpisodes(Pack(q, dates, budget, i))|]
    decreases |dates|
  {
    if dates != [] {
      var r := Pack(q, dates, budget, i);
      var n := DayTake(q, i, budget);
      PackConsumesRun(q, dates[1..], budget, i + n);
      assert r[1..] == Pack(q, dates[1..], budget, i + n);
      var m := |AllEpisodes(r[1..])|;
      assert q[i..i + n] + q[i + n..i + n + m] == q[i..i + n + m];
    }
  }

  /** Day j of the packing keeps to the budget and stops only for a reason. */
  lemma PackDayIsGreedy(q: seq<Episode>, dates: seq<int>, budget: int, i: nat, j: nat)
    requires i <= |q| && j < |dates|
    ensures WithinBudget(Pack(q, dates, budget, i)[j].episodes, budget)
    ensures Stopped(q, i + |AllEpisodes(Pack(q, dates, budget, i)[..j + 1])|,
                    Pack(q, dates, budget, i)[j].episodes, budget)
  {
    var r := Pack(q, dates, budget, i);
    PackDayAt(q, dates, budget, i, j);
    var c := i + |AllEpisodes(r[..j])|;
    assert r[..j + 1] == r[..j] + [r[j]];
    AllEpisodesAppend(r[..j], [r[j]]);
    assert AllEpisodes([r[j]]) == r[j].episodes;
    DayTakeFits(q, c, budget);
    DayTakeStops(q, c, budget);
  }

  /** The packing the generator computes is greedy in the sense of IsGreedyPacking. */
  lemma PackIsGreedy(q: seq<Episode>, dates: seq<int>, budget: int, i: nat)
    requires i <= |q|
    ensures IsGreedyPacking(q, dates, budget, i, Pack(q, dates, budget, i))
  {
    var r := Pack(q, dates, budget, i);
    PackKeepsDates(q, dates, budget, i);
    PackConsumesRun(q, dates, budget, i);
    forall j | 0 <= j < |r|
      ensures GreedyDay(q, budget, i, r, j)
    {
      PackDayIsGreedy(q, dates, budget, i, j);
    }
  }

  /** The days of a list take, one after the other, the episodes of the list as a whole. */
  lemma AllEpisodesFirstDay(r: seq<ScheduleDay>)
    requires r != []
    ensures AllEpisodes(r) == r[0].episodes + AllEpisodes(r[1..])
    ensures AllEpisodes(r[..1]) == r[0].episodes
  {
    assert r[..1] == [r[0]];
    assert AllEpisodes([r[0]]) == r[0].episodes + AllEpisodes([]);
  }

  /** The first day of a greedy day list is a greedy day at the cursor. */
  lemma GreedyFirstDay(q: seq<Episode>, dates: seq<int>, budget: int, i: nat, r: seq<ScheduleDay>)
    requires i <= |q| && dates != []
    requires IsGreedyPacking(q, dates, budget, i, r)
    ensures i + |r[0].episodes| <= |q|
    ensures r[0] == ScheduleDay(dates[0], q[i..i + |r[0].episodes|])
    ensures WithinBudget(r[0].episodes, budget)
    ensures Stopped(q, i + |r[0].episodes|, r[0].episodes, budget)
  {
    var eps := r[0].episodes;
    var all := AllEpisodes(r);
    AllEpisodesFirstDay(r);
    assert eps == all[..|eps|];
    assert GreedyDay(q, budget, i, r, 0);
  }

  /** After the first day, the rest of a greedy day list is greedy from where it stopped. */
  lemma GreedyRest(q: seq<Episode>, dates: seq<int>, budget: int, i: nat, r: seq<ScheduleDay>)
    requires i <= |q| && dates != []
    requires IsGreedyPacking(q, dates, budget, i, r)
    ensures i + |r[0].episodes| <= |q|
    ensures IsGreedyPacking(q, dates[1..], budget, i + |r[0].episodes|, r[1..])
  {
    var eps, rest := r[0].episodes, r[1..];
    var n := |eps|;
    var all := AllEpisodes(r);
    AllEpisodesFirstDay(r);
    assert AllEpisodes(rest) == all[n..];
    var c := i + n;
    forall j | 0 <= j < |rest|
      ensures GreedyDay(q, budget, c, rest, j)
    {
      assert GreedyDay(q, budget, i, r, j + 1);
      assert rest[j] == r[j + 1];
      assert r[..j + 2] == [r[0]] + rest[..j + 1];
      AllEpisodesAppend([r[0]], rest[..j + 1]);
      assert AllEpisodes([r[0]]) == eps;
    }
  }

  /** With positive durations, the greedy packing is the only day list that is greedy. */
  lemma {:induction false} GreedyPackingIsPack(q: seq<Episode>, dates: seq<int>, budget: int, i: nat,
                                               r: seq<ScheduleDay>)
    requires PositiveDurations(q)
    requires i <= |q|
    requires IsGreedyPacking(q, dates, budget, i, r)
    ensures r == Pack(q, dates, budget, i)
    decreases |dates|
  {
    if dates != [] {
      var n := |r[0].episodes|;
      GreedyFirstDay(q, dates, budget, i, r);
      DayTakeUnique(q, i, budget, n);
      assert r[1..] == Pack(q, dates[1..], budget, i + n) by {
        GreedyRest(q, dates, budget, i, r);
        GreedyPackingIsPack(q, dates[1..], budget, i + n, r[1..]);
      }
      PackFirstDay(q, dates, budget, i);
      assert r == [r[0]] + r[1..];
    }
  }

  /** The stall: when the episode at the cursor is longer than a whole day's budget, no date
      from here on receives anything. */
  lemma {:induction false} PackStalls(q: seq<Episode>, dates: seq<int>, budget: int, i: nat)
    requires i < |q| && q[i].duration > budget
    ensures forall j :: 0 <= j < |dates| ==> Pack(q, dates, budget, i)[j].episodes == []
    decreases |dates|
  {
    if dates != [] {
      assert DayTake(q, i, budget) == 0;
      PackStalls(q, dates[1..], budget, i);
      var r := Pack(q, dates, budget, i);
      assert forall j :: 1 <= j < |dates| ==> r[j] == Pack(q, dates[1..], budget, i)[j - 1];
    }
  }

  /** The days from j on are the packing of the remaining dates from the cursor the first
      j days left behind: the cursor is all that one date passes on to the next. */
  lemma {:induction false} PackSuffix(q: seq<Episode>, dates: seq<int>, budget: int, i: nat, j: nat)
    requires i <= |q| && j <= |dates|
    ensures i + |AllEpisodes(Pack(q, dates, budget, i)[..j])| <= |q|
    ensures Pack(q, dates, budget, i)[j..]
         == Pack(q, dates[j..], budget, i + |AllEpisodes(Pack(q, dates, budget, i)[..j])|)
    decreases j
  {
    var r := Pack(q, dates, budget, i);
    if j == 0 {
      assert r[..0] == [] && r[0..] == r && dates[0..] == dates;
    } else {
      var n := DayTake(q, i, budget);
      var r' := Pack(q, dates[1..], budget, i + n);
      assert r == [ScheduleDay(dates[0], q[i..i + n])] + r';
      assert |AllEpisodes(r[..j])| == n + |AllEpisodes(r'[..j - 1])| by {
        assert r[..j] == [r[0]] + r'[..j - 1];
        AllEpisodesAppend([r[0]], r'[..j - 1]);
        assert AllEpisodes([r[0]]) == r[0].episodes;
      }
      PackSuffix(q, dates[1..], budget, i + n, j - 1);
      assert r[j..] == r'[j - 1..];
      assert dates[1..][j - 1..] == dates[j..];
    }
  }

  /** No scheduled episode is longer than the daily budget. */
  lemma NeverPlacedOversized(q: seq<Episode>, dates: seq<int>, budget: int, i: nat)
    requires i <= |q|
    requires PositiveDurations(q)
    ensures forall j, k :: 0 <= j < |dates| && 0 <= k < |Pack(q, dates, budget, i)[j].episodes| ==>
              Pack(q, dates, budget, i)[j].episodes[k].duration <= budget
  {
    var r := Pack(q, dates, budget, i);
    PackIsGreedy(q, dates, budget, i);
    forall j, k | 0 <= j < |dates| && 0 <= k < |r[j].episodes|
      ensures r[j].episodes[k].duration <= budget
    {
      var eps := r[j].episodes;
      assert GreedyDay(q, budget, i, r, j);
      PackDayAt(q, dates, budget, i, j);
      assert PositiveDurations(eps);
      MinutesBound(eps, k);
    }
  }

  /** With positive durations, one episode never lasts longer than the list it is in. */
  lemma {:induction false} MinutesBound(eps: seq<Episode>, k: nat)
    requires PositiveDurations(eps) && k < |eps|
    ensures eps[k].duration <= Minutes(eps)
  {
    MinutesAtLeastLength(eps[1..]);
    if k > 0 {
      MinutesBound(eps[1..], k - 1);
    }
  }

  /** The first date takes the greedy count from the cursor; the others continue after it. */
  lemma PackFirstDay(q: seq<Episode>, dates: seq<int>, budget: int, i: nat)
    requires i <= |q| && dates != []
    ensures Pack(q, dates, budget, i)
         == [ScheduleDay(dates[0], q[i..i + DayTake(q, i, budget)])]
            + Pack(q, dates[1..], budget, i + DayTake(q, i, budget))
  {
  }

  /** One date of the generator's loop: starting from the cursor with the full budget, take
      episodes while minutes remain and the next episode fits. */
  method FillDay(queue: seq<Episode>, start: nat, budget: int) returns (episodes: seq<Episode>, next: nat)
    requires start <= |queue|
    ensures next == start + DayTake(queue, start, budget)
    ensures episodes == queue[start..next]
  {
    episodes := [];
    next := start;
    var remaining := budget;
    while remaining > 0 && next < |queue|
      invariant start <= next <= |queue|
      invariant episodes == queue[start..next]
      invariant DayTake(queue, start, budget) == (next - start) + DayTake(queue, next, remaining)
      decreases |queue| - next
    {
      var episode := queue[next];
      if episode.duration <= remaining {
        episodes := episodes + [episode];
        remaining := remaining - episode.duration;
        next := next + 1;
      } else {
        break;
      }
    }
  }

  /** The generator's loop over the eligible dates, with one cursor shared by all of them. */
  method PackDays(queue: seq<Episode>, dates: seq<int>, budget: int) returns (schedule: seq<ScheduleDay>)
    ensures schedule == Pack(queue, dates, budget, 0)
  {
    schedule := [];
    var episodeIndex: nat := 0;
    var k := 0;
    while k < |dates|
      invariant 0 <= k <= |dates| && episodeIndex <= |queue|
      invariant schedule + Pack(queue, dates[k..], budget, episodeIndex) == Pack(queue, dates, budget, 0)
    {
      var episodes, next := FillDay(queue, episodeIndex, budget);
      var day := ScheduleDay(dates[k], episodes);
      ghost var tail := Pack(queue, dates[k + 1..], budget, next);
      assert Pack(queue, dates[k..], budget, episodeIndex) == [day] + tail by {
        assert dates[k..][0] == dates[k] && dates[k..][1..] == dates[k + 1..];
        PackFirstDay(queue, dates[k..], budget, episodeIndex);
      }
      assert schedule + ([day] + tail) == (schedule + [day]) + tail;
      schedule := schedule + [day];
      episodeIndex := next;
      k := k + 1;
    }
    assert dates[k..] == [];
  }
}
