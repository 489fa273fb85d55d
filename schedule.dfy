/**
 * The part of the schedule payload the popup reads: date blocks, games, team
 * references, schedule-level scores and the optional live linescore.
 */
module Schedule {
  import opened Wrappers

  /** `Date.getHours()` in the viewer's zone. */
  type Hour = h: nat | h < 24
  /** `Date.getMinutes()` in the viewer's zone. */
  type Minute = m: nat | m < 60

  /** `teams.<side>.team`: the identifier used for the logo and the display name. */
  datatype TeamRef = TeamRef(id: nat, name: string)

  /** `teams.<side>`: the team and the schedule-level score, absent until the game starts. */
  datatype TeamSide = TeamSide(team: TeamRef, score: Option<nat>)

  /**
   * `linescore`: the half-inning label, the current inning, the outs, and each
   * team's live runs (`linescore.teams.<side>.runs`, which may be absent too).
   */
  datatype Linescore = Linescore(
    inningState: string,
    currentInning: nat,
    outs: nat,
    awayRuns: Option<nat>,
    homeRuns: Option<nat>)

  /**
   * One game. `gameDate` is an absolute instant in the payload; the model takes
   * the two readings of it the popup makes: its hour and minute on the viewer's
   * clock, and its long-form date ("June 30, 2025") in the Eastern time zone.
   */
  datatype Game = Game(
    away: TeamSide,
    home: TeamSide,
    startHour: Hour,
    startMinute: Minute,
    easternLongDate: string,
    state: string,
    linescore: Option<Linescore>)

  /** One element of `dates`: a `YYYY-MM-DD` date and its games in order. */
  datatype DateEntry = DateEntry(date: string, games: seq<Game>)

  /** The response body: `{ dates: [...] }`. */
  datatype Payload = Payload(dates: seq<DateEntry>)
}
