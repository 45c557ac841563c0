/** The records that the schedule generator consumes and produces. */
module Types {

  datatype Option<+T> = None | Some(value: T)

  /** A show's viewing priority; the generator orders shows by its rank. */
  datatype Priority = Low | Medium | High

  /** The rank the generator's comparator uses: high = 3, medium = 2, low = 1. */
  function Rank(p: Priority): (r: nat)
    ensures 1 <= r <= 3
  {
    match p
    case High => 3
    case Medium => 2
    case Low => 1
  }

  /** A show as the user entered it. Counts are parsed integers; the duration is in minutes. */
  datatype Show = Show(
    id: string,
    title: string,
    seasons: nat,
    episodesPerSeason: nat,
    episodeDuration: int,
    priority: Priority,
    image: Option<string>)

  /** One scheduled episode, carrying a copy of its show's id, title and duration. */
  datatype Episode = Episode(
    showId: string,
    showTitle: string,
    season: nat,
    episode: nat,
    duration: int)

  datatype Weekday = Monday | Tuesday | Wednesday | Thursday | Friday | Saturday | Sunday

  /** The viewing preferences. Dates are day numbers (days since 1970-01-01) and both
      ends of the window are inclusive; minutesPerDay is hoursPerDay * 60. */
  datatype Settings = Settings(
    startDate: int,
    endDate: int,
    minutesPerDay: int,
    daysPerWeek: seq<Weekday>)

  /** One eligible date with the episodes assigned to it, in viewing order. */
  datatype ScheduleDay = ScheduleDay(date: int, episodes: seq<Episode>)
}
