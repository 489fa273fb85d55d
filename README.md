# MLB score popup: schedule-to-view mapping

A Dafny model of the deterministic core of the browser popup in `popup.js`,
which shows the day's Major League Baseball games as a grid of cards. Each
refresh builds the local `YYYY-MM-DD` key and the schedule request URL. It then
picks the date block for today in Eastern time and turns each game into a card.
A card holds resolved scores, a 12-hour start time, status-driven primary and
secondary text, an "inning · outs" line for live games, the box-score search
query and two logo URLs. If today has no block, or an empty one, the container shows
"No games today." instead. A failed fetch shows a warning.

Modules, one per concern of the script:

- `Wrappers` (`wrappers.dfy`): `Option`, with `OrElse` as JavaScript's `??`.
- `Numerals` (`numerals.dfy`): decimal text of numbers (`String(n)`), `padStart(2, '0')`, and a parser used as the inverse in round-trip lemmas.
- `Schedule` (`schedule.dfy`): the payload fields the popup reads.
- `DateKey` (`date_key.dfy`): the local date key and the schedule URL.
- `GameView` (`game_view.dfy`): the per-game view record (`Card`).
- `Render` (`render.dfy`): date-block selection. The `#games-list` container is a class `GamesList` whose `children` is a sequence of text and card nodes. `RenderGames` clears the container and selects the games, `AppendCards` is the card-building loop, and `RefreshCycle` covers a settled fetch.

Five formatting functions have a parser proved to read their output back:
the decimal text of numbers, the date key, the start time, the score line and
the logo URL (`NatToStringRoundTrip`, `DateKeyRoundTrip`, `StartTimeRoundTrip`,
`ScoreLineRoundTrip`, `LogoUrlRoundTrip`). The schedule URL has an injectivity
lemma. The detail line and the box-score query are stated by position only.

Inputs the script reads from its host arrive as parameters:

- the viewer's local calendar date (`year`, zero-based `month`, `day`);
- today's date in Eastern time (`today`);
- each game's hour and minute on the viewer's clock (`Game.startHour`, `Game.startMinute`);
- each game's long-form Eastern date (`Game.easternLongDate`);
- the result of the fetch (`FetchOutcome`).

Behaviour of the code worth noting:

- Every state other than "Preview" shows the state string itself as the secondary text. The `'Final'` branch of popup.js:87 yields the same string, so "Final" is not a separate case.
- The date block chosen is the first one whose date matches. Later matches are ignored.
- "No games today." is shown when no block matches, and also when the matching block has an empty game list.

## Model

| member | source | states |
|---|---|---|
| `Numerals.NatToString` | popup.js:10-11 | decimal text of a number is a non-empty digit run, one character exactly when the number is below 10, no leading zero |
| `Numerals.NatToStringRoundTrip` | popup.js:10-11 | parsing the decimal text of `n` gives back `n` |
| `Numerals.PadStart2` | popup.js:10-11 | `padStart(2, '0')`: text of length two or more is unchanged; shorter text becomes exactly two characters, the original at the end and '0' before it |
| `Numerals.TwoDigitsSpec` | popup.js:10-11 | a number below 100 is padded to exactly two digits, with a leading '0' exactly when it is below 10, and reads back as itself |
| `DateKey.LocalDateKey` | popup.js:8-12 | the key is the year's digits, '-', the one-based month in two digits, '-', the day in two digits |
| `DateKey.DateKeyRoundTrip` | popup.js:8-12 | year, zero-based month and day are all recovered from the key |
| `DateKey.DateKeyInjective` | popup.js:8-12 | distinct local dates give distinct keys |
| `DateKey.ScheduleUrl` | popup.js:15-17 | the request URL is the schedule endpoint with `sportId=1`, then the date key, then it ends with `&hydrate=linescore,status` |
| `DateKey.ScheduleUrlInjective` | popup.js:15-17 | distinct date keys request distinct URLs |
| `Wrappers.Option.OrElse` | popup.js:63-70 | `??`: a present value is kept whatever it is, and only a missing one is replaced by the default |
| `GameView.ResolveScore` | popup.js:63-70 | one side's score is the schedule score if present, else the linescore runs if a linescore with runs is present, else 0 |
| `GameView.ScoreResolution` | popup.js:62-70 | away and home are resolved independently, each by the schedule/linescore/0 fallback |
| `GameView.ZeroScoreKept` | popup.js:63-70 | a present schedule score of 0 is kept over positive linescore runs, where a logical-or fallback would have replaced it |
| `GameView.ClockHour` | popup.js:74 | the displayed hour lies in 1..12 and agrees with the 24-hour hour modulo 12 |
| `GameView.Meridiem` | popup.js:76 | the suffix is "PM" exactly when the hour is 12 or later, otherwise "AM" |
| `GameView.StartTimeLayout` | popup.js:77 | the start time is the 12-hour hour, ':', two-digit minutes, ' ', AM/PM |
| `GameView.StartTimeRoundTrip` | popup.js:72-77 | the 24-hour hour and the minute are recovered from the start-time text |
| `GameView.StartTimeAtMidnightAndNoon` | popup.js:74-77 | hour 0 shows as "12:mm AM", hour 12 as "12:mm PM" |
| `GameView.ScoreLineRoundTrip` | popup.js:86 | both resolved scores are recovered from the "away – home" text |
| `GameView.PrimaryTextSpec` | popup.js:79-88 | for "Preview" the primary text is the start time, and the game's hour and minute are recovered from it; for any other state both resolved scores are recovered from it |
| `GameView.SecondaryText` | popup.js:79-88 | the secondary text is empty for "Preview", otherwise it equals the state string ("Final" for "Final") |
| `GameView.OutsWord` | popup.js:94 | the word is the singular "out" exactly when there is one out, and "outs" otherwise |
| `GameView.DetailTextPresence` | popup.js:90-95 | the detail line is non-empty exactly when the state is "In Progress" and a linescore exists, and then follows the template half-inning, ' ', inning, " · ", outs, ' ', "out" or "outs" (a restatement of the template; `DetailEnding` characterises the ending) |
| `GameView.DetailEnding` | popup.js:94 | a live game's detail line ends in "1 out" with one out, and in "<n> outs" otherwise |
| `GameView.LogoUrlRoundTrip` | popup.js:113-115 | the logo URL is the team-logo base, the team id and ".svg"; the id is recovered from it |
| `GameView.BoxScoreQuery` | popup.js:105-110 | the search query is the away team's name, " vs ", the home team's name, " box score ", then the long-form Eastern date |
| `GameView.GameCardFields` | popup.js:59-115 | each logo URL yields back its own team's id; the other fields are recorded as filled by their computations (names, primary, secondary and detail texts, box-score query) |
| `Render.FindEntryFrom` | popup.js:49 | the search from a position returns the first index at or after it whose date equals today, or none when no later block matches |
| `Render.FindEntry` | popup.js:49 | the block chosen is the first whose date equals today; none is chosen exactly when no block matches |
| `Render.CardNodesAt` | popup.js:58 | one card per game, the i-th card built from the i-th game |
| `Render.GamesList.Clear` | popup.js:42 | clearing leaves the container with no children |
| `Render.GamesList.SetText` | popup.js:54 | setting text replaces all children with one text node |
| `Render.GamesList.AppendCard` | popup.js:155 | appending adds the card after the existing children |
| `Render.RenderGames` | popup.js:40-58 | after rendering the container holds exactly the rendered view of the inputs, whatever it held before |
| `Render.AppendCards` | popup.js:58-156 | the loop appends, after what the container held, one card per game in order |
| `Render.RefreshCycle` | popup.js:20-27 | a failed fetch leaves only the warning text; a payload is rendered as `RenderGames` renders it |
| `Render.RenderTwice` | popup.js:40-42 | rendering the same input twice gives the same contents: nothing accumulates |
| `Render.NoGamesMessage` | popup.js:49-56 | with no block for today, or a first matching block with no games, the container holds exactly "No games today." and no card |
| `Render.OneCardPerGame` | popup.js:49-58 | when the first matching block has games, the container holds exactly one card per game, in the block's order |
| `Render.CardsOrMessage` | popup.js:53-58 | the container holds either the "No games today." text alone, or a non-empty list of cards only |

## Left out

- The network request, the promise chain and JSON parsing (popup.js:20-22) are I/O. Their result is the `FetchOutcome` parameter. `console.error` is not modelled.
- Malformed payloads are not modelled beyond the typed payload. Some shapes fail inside `renderGames` (a missing `dates` array), and the catch then shows the warning; that case is covered only as `FetchOutcome.Failed`. Others render without failing. A missing `gameDate` gives the start time "12:NaN AM" and the long date "Invalid Date" (popup.js:73-77, 98-103). A missing team `name` or `id` prints "undefined" in the text and in the logo URL (popup.js:109, 114-115).
- `DOMContentLoaded`, `setInterval` every 60000 ms, and `clearInterval` on `unload` (popup.js:31-35) are timer and lifecycle plumbing. Overlapping refresh cycles are asynchronous behaviour and are not modelled.
- `new Date()`, `toLocaleDateString` with the `America/New_York` zone, and parsing of `gameDate` (popup.js:8, 45-47, 73, 98-103) depend on the host clock and the time-zone database. Their results are parameters or `Game` fields, as listed above.
- `encodeURIComponent` (popup.js:108) is a library call. A card therefore carries the unencoded search query (`Card.boxScoreQuery`). The link built from it, "https://www.google.com/search?q=" followed by the encoded query, is not part of this model.
- The HTML template, CSS classes and inline styles (popup.js:118-154) are presentation. A card is the record of the fields it shows. The template's rule that an empty detail line emits no paragraph is the `detail` field being "".
- `Schedule.Linescore`: a linescore always has its inning state, inning and outs. JavaScript would print "undefined" for a missing field, and that case is not modelled.
- Numbers in the payload (scores, runs, outs, innings, team ids) and the year are non-negative integers (`nat`). Text for negative or fractional numbers is not modelled.
- `Numerals.NatToString` agrees with JavaScript's `String(n)` only below 10^21; from there on JavaScript uses exponent notation, which the model does not reproduce.
