/** Stage 2 of the generator: every show becomes a run of episode records, season-major
    and episode-minor, and the runs are appended in the order of the sorted show list. */
module EpisodeQueue {
  import opened Types

  /** The episodes of one season of `show`, numbered from 1. */
  function SeasonEpisodes(show: Show, season: nat): seq<Episode>
  {
    seq(show.episodesPerSeason, e requires 0 <= e => Episode(show.id, show.title, season, e + 1, show.episodeDuration))
  }

  /** Seasons 1 to n of `show`, one after the other. */
  function SeasonsUpTo(show: Show, n: nat): (r: seq<Episode>)
    ensures |r| == n * show.episodesPerSeason
  {
    if n == 0 then [] else SeasonsUpTo(show, n - 1) + SeasonEpisodes(show, n)
  }

  /** All episodes of `show`: what the two nested counting loops push for it. */
  function ShowEpisodes(show: Show): seq<Episode>
  {
    SeasonsUpTo(show, show.seasons)
  }

  /** The number of episodes a show contributes, as the show list displays it. */
  function EpisodeCount(show: Show): nat
  {
    show.seasons * show.episodesPerSeason
  }

  /** The sum over the shows of seasons * episodesPerSeason. */
  function TotalEpisodes(shows: seq<Show>): nat
  {
    if shows == [] then 0 else TotalEpisodes(shows[..|shows| - 1]) + EpisodeCount(shows[|shows| - 1])
  }

  /** The episode queue: every show's episodes in turn, in list order. */
  function Queue(shows: seq<Show>): (r: seq<Episode>)
    ensures |r| == TotalEpisodes(shows)
  {
    if shows == [] then [] else Queue(shows[..|shows| - 1]) + ShowEpisodes(shows[|shows| - 1])
  }

  /** Where episode e of season `season` sits in a show's run: after the E episodes of
      each earlier season (E episodes per season). */
  function Position(show: Show, season: nat, e: nat): int
  {
    (season - 1) * show.episodesPerSeason + (e - 1)
  }

  /** Inside one show's run the records count through (1,1), (1,2), ..., (1,E), (2,1), ...:
      episode e of season `season` is at its position, with the show's id, title and duration. */
  lemma {:induction false} SeasonsUpToAt(show: Show, n: nat, season: nat, e: nat)
    requires 1 <= season <= n && 1 <= e <= show.episodesPerSeason
    ensures 0 <= Position(show, season, e) < |SeasonsUpTo(show, n)|
    ensures SeasonsUpTo(show, n)[Position(show, season, e)]
         == Episode(show.id, show.title, season, e, show.episodeDuration)
  {
    var k, E := Position(show, season, e), show.episodesPerSeason;
    var prev := SeasonsUpTo(show, n - 1);
    assert SeasonsUpTo(show, n) == prev + SeasonEpisodes(show, n);
    assert |prev| == (n - 1) * E && n * E == (n - 1) * E + E;
    if season < n {
      SeasonsUpToAt(show, n - 1, season, e);
      assert SeasonsUpTo(show, n)[k] == prev[k];
    } else {
      assert k == (n - 1) * E + (e - 1);
      assert SeasonsUpTo(show, n)[k] == SeasonEpisodes(show, n)[e - 1];
    }
  }

  /** Every record of a show's run, by season and episode number. */
  lemma ShowEpisodesAt(show: Show, season: nat, e: nat)
    requires 1 <= season <= show.seasons && 1 <= e <= show.episodesPerSeason
    ensures |ShowEpisodes(show)| == EpisodeCount(show)
    ensures 0 <= Position(show, season, e) < EpisodeCount(show)
    ensures ShowEpisodes(show)[Position(show, season, e)]
         == Episode(show.id, show.title, season, e, show.episodeDuration)
  {
    SeasonsUpToAt(show, show.seasons, season, e);
  }

  /** Queuing two lists of shows one after the other queues each of them in turn. */
  lemma {:induction false} QueueAppend(a: seq<Show>, b: seq<Show>)
    ensures Queue(a + b) == Queue(a) + Queue(b)
  {
    if b == [] {
      assert a + b == a;
    } else {
      var b' := b[..|b| - 1];
      assert Queue(a + b) == Queue(a + b') + ShowEpisodes(b[|b| - 1]) by {
        assert (a + b)[..|a + b| - 1] == a + b';
        assert (a + b)[|a + b| - 1] == b[|b| - 1];
      }
      QueueAppend(a, b');
    }
  }

  /** Show s's run starts right after the runs of the shows before it, is contiguous,
      and carries the show's own fields, counting seasons and episodes from (1,1). */
  lemma QueueAt(shows: seq<Show>, s: nat, season: nat, e: nat)
    requires s < |shows|
    requires 1 <= season <= shows[s].seasons && 1 <= e <= shows[s].episodesPerSeason
    ensures 0 <= TotalEpisodes(shows[..s]) + Position(shows[s], season, e) < |Queue(shows)|
    ensures Queue(shows)[TotalEpisodes(shows[..s]) + Position(shows[s], season, e)]
         == Episode(shows[s].id, shows[s].title, season, e, shows[s].episodeDuration)
  {
    assert shows == shows[..s + 1] + shows[s + 1..];
    QueueAppend(shows[..s + 1], shows[s + 1..]);
    assert shows[..s + 1][..s] == shows[..s];
    ShowEpisodesAt(shows[s], season, e);
  }

  /** Every record of a show's first n seasons carries the show's own duration. */
  lemma {:induction false} SeasonsUpToDuration(show: Show, n: nat)
    ensures forall k :: 0 <= k < |SeasonsUpTo(show, n)| ==> SeasonsUpTo(show, n)[k].duration == show.episodeDuration
  {
    if n > 0 {
      SeasonsUpToDuration(show, n - 1);
    }
  }

  /** When every show's episodes last at least a minute, so does every queued episode. */
  lemma {:induction false} QueueDurationsPositive(shows: seq<Show>)
    requires forall s :: s in shows ==> s.episodeDuration > 0
    ensures forall k :: 0 <= k < |Queue(shows)| ==> Queue(shows)[k].duration > 0
  {
    if shows != [] {
      var init, last := shows[..|shows| - 1], shows[|shows| - 1];
      assert forall s :: s in init ==> s in shows;
      QueueDurationsPositive(init);
      SeasonsUpToDuration(last, last.seasons);
      assert last in shows;
      var r := Queue(shows);
      assert r == Queue(init) + ShowEpisodes(last);
      forall k | 0 <= k < |r| ensures r[k].duration > 0 {
        if k >= |Queue(init)| {
          assert r[k] == ShowEpisodes(last)[k - |Queue(init)|];
        }
      }
    }
  }

  /** The two nested counting loops of the generator, for every show in turn. */
  method BuildQueue(sorted: seq<Show>) returns (all: seq<Episode>)
    ensures all == Queue(sorted)
  {
    all := [];
    var i := 0;
    while i < |sorted|
      invariant 0 <= i <= |sorted|
      invariant all == Queue(sorted[..i])
    {
      var show := sorted[i];
      var season := 1;
      while season <= show.seasons
        invariant 1 <= season <= show.seasons + 1
        invariant all == Queue(sorted[..i]) + SeasonsUpTo(show, season - 1)
      {
        var episode := 1;
        while episode <= show.episodesPerSeason
          invariant 1 <= episode <= show.episodesPerSeason + 1
          invariant all == Queue(sorted[..i]) + SeasonsUpTo(show, season - 1)
                           + SeasonEpisodes(show, season)[..episode - 1]
        {
          all := all + [Episode(show.id, show.title, season, episode, show.episodeDuration)];
          assert SeasonEpisodes(show, season)[..episode]
              == SeasonEpisodes(show, season)[..episode - 1] + [SeasonEpisodes(show, season)[episode - 1]];
          episode := episode + 1;
        }
        assert SeasonEpisodes(show, season)[..episode - 1] == SeasonEpisodes(show, season);
        season := season + 1;
      }
      assert sorted[..i + 1][..i] == sorted[..i];
      i := i + 1;
    }
    assert sorted[..i] == sorted;
  }
}
