/**
 * The per-game view record: resolved scores, the 12-hour start time, the
 * status-driven primary and secondary text, the live inning/outs line, the
 * box-score search link and the two logo URLs.
 */
module GameView {
  import opened Wrappers
  import opened Numerals
  import opened Schedule

  /** The fields a rendered card shows, in the card's left-to-right order. */
  datatype Card = Card(
    awayLogo: string,
    awayName: string,
    primary: string,
    secondary: string,
    detail: string,
    boxScoreQuery: string,
    homeLogo: string,
    homeName: string)

  // ---------------------------------------------------------------- scores

  /** `side.score ?? linescore?.teams.<side>.runs ?? 0` for one side. */
  function ResolveScore(score: Option<nat>, linescoreRuns: Option<Option<nat>>): (r: nat)
    ensures score.Some? ==> r == score.value
    ensures score.None? && linescoreRuns.Some? && linescoreRuns.value.Some? ==> r == linescoreRuns.value.value
    ensures score.None? && (linescoreRuns.None? || linescoreRuns.value.None?) ==> r == 0
  {
    var fromLinescore := match linescoreRuns
      case Some(runs) => runs
      case None => None;
    score.OrElse(fromLinescore.OrElse(0))
  }

  function AwayLinescoreRuns(g: Game): Option<Option<nat>> {
    match g.linescore
    case Some(ls) => Some(ls.awayRuns)
    case None => None
  }

  function HomeLinescoreRuns(g: Game): Option<Option<nat>> {
    match g.linescore
    case Some(ls) => Some(ls.homeRuns)
    case None => None
  }

  function AwayScore(g: Game): nat {
    ResolveScore(g.away.score, AwayLinescoreRuns(g))
  }

  function HomeScore(g: Game): nat {
    ResolveScore(g.home.score, HomeLinescoreRuns(g))
  }

  /**
   * Each side is resolved on its own: the schedule score when present (a score of
   * 0 included), else the linescore runs, else 0.
   */
  lemma ScoreResolution(g: Game)
    ensures g.away.score.Some? ==> AwayScore(g) == g.away.score.value
    ensures g.home.score.Some? ==> HomeScore(g) == g.home.score.value
    ensures g.away.score.None? && g.linescore.Some? && g.linescore.value.awayRuns.Some?
      ==> AwayScore(g) == g.linescore.value.awayRuns.value
    ensures g.home.score.None? && g.linescore.Some? && g.linescore.value.homeRuns.Some?
      ==> HomeScore(g) == g.linescore.value.homeRuns.value
    ensures g.away.score.None? && (g.linescore.None? || g.linescore.value.awayRuns.None?) ==> AwayScore(g) == 0
    ensures g.home.score.None? && (g.linescore.None? || g.linescore.value.homeRuns.None?) ==> HomeScore(g) == 0
  {
  }

  /**
   * Not part of the popup's behaviour: a contrast for `ZeroScoreKept`. It is what
   * JavaScript's `||` would do in place of `??`, replacing a falsy left side (here
   * only the number 0) as well as a missing one.
   */
  function OrFalsy(a: Option<nat>, b: nat): nat {
    if a.Some? && a.value != 0 then a.value else b
  }

  /**
   * Because `??` is used, a present schedule score of 0 is shown as 0 even when
   * the linescore says otherwise; `||` would have shown the linescore runs.
   */
  lemma ZeroScoreKept(score: Option<nat>, runs: nat)
    requires score == Some(0) && runs > 0
    ensures ResolveScore(score, Some(Some(runs))) == 0
    ensures OrFalsy(score, runs) == runs
  {
  }

  // ---------------------------------------------------------------- start time

  /** `getHours() % 12 || 12`: the hour on a 12-hour dial. */
  function ClockHour(h: Hour): (r: nat)
    ensures 1 <= r <= 12
    ensures r % 12 == h % 12
  {
    if h % 12 == 0 then 12 else h % 12
  }

  /** "PM" from noon on, "AM" before. */
  function Meridiem(h: Hour): (r: string)
    ensures r == "PM" <==> h >= 12
    ensures r == "AM" <==> h < 12
  {
    if h >= 12 then "PM" else "AM"
  }

  /** `${hrs}:${mins} ${ampm}`, minutes padded to two digits. */
  function StartTime(h: Hour, m: Minute): string {
    NatToString(ClockHour(h)) + ":" + TwoDigits(m) + " " + Meridiem(h)
  }

  /** Reads a 12-hour clock string back as a 24-hour (hour, minute). */
  function ParseStartTime(t: string): (r: Option<(Hour, Minute)>)
  {
    var n := |t|;
    if n < 7 || t[n - 6] != ':' || t[n - 3] != ' ' || (t[n - 2..] != "AM" && t[n - 2..] != "PM") then None
    else
      var h12, m := ParseNat(t[..n - 6]), ParseNat(t[n - 5..n - 3]);
      if h12.None? || m.None? || !(1 <= h12.value <= 12) || m.value >= 60 then None
      else
        var h := if t[n - 2..] == "AM" then h12.value % 12 else h12.value % 12 + 12;
        Some((h as Hour, m.value as Minute))
  }

  /** Where the pieces of a start time sit: hour digits, ':', two minute digits, ' ', AM/PM. */
  lemma StartTimeLayout(h: Hour, m: Minute)
    ensures var t := StartTime(h, m);
      |t| >= 7 && t[..|t| - 6] == NatToString(ClockHour(h)) && t[|t| - 6] == ':'
      && t[|t| - 5..|t| - 3] == TwoDigits(m) && t[|t| - 3] == ' ' && t[|t| - 2..] == Meridiem(h)
  {
    TwoDigitsSpec(m);
    SplitLayout(NatToString(ClockHour(h)), ':', TwoDigits(m), ' ', Meridiem(h));
  }

  /** The start time loses nothing: midnight reads "12:mm AM", noon "12:mm PM", and both read back. */
  lemma StartTimeRoundTrip(h: Hour, m: Minute)
    ensures ParseStartTime(StartTime(h, m)) == Some((h, m))
  {
    var t := StartTime(h, m);
    StartTimeLayout(h, m);
    NatToStringRoundTrip(ClockHour(h));
    TwoDigitsSpec(m);
    assert ParseNat(t[..|t| - 6]) == Some(ClockHour(h));
    assert ParseNat(t[|t| - 5..|t| - 3]) == Some(m as nat);
  }

  lemma StartTimeAtMidnightAndNoon(m: Minute)
    ensures StartTime(0, m) == "12:" + TwoDigits(m) + " AM"
    ensures StartTime(12, m) == "12:" + TwoDigits(m) + " PM"
  {
    NatToStringRoundTrip(12);
    assert NatToString(12) == "12";
  }

  // ---------------------------------------------------------------- status text

  const EnDashSeparator := " \U{2013} "

  /** `${awayScore} – ${homeScore}`. */
  function ScoreLine(away: nat, home: nat): string {
    NatToString(away) + EnDashSeparator + NatToString(home)
  }

  /** The length of the run of digits `s` starts with. */
  function LeadingDigits(s: string): (k: nat)
    ensures k <= |s|
    ensures forall i :: 0 <= i < k ==> IsDigit(s[i])
    ensures k < |s| ==> !IsDigit(s[k])
  {
    if s == [] || !IsDigit(s[0]) then 0 else 1 + LeadingDigits(s[1..])
  }

  /** Reads a score line back as its two scores. */
  function ParseScoreLine(s: string): (r: Option<(nat, nat)>)
  {
    var k := LeadingDigits(s);
    if k + 3 > |s| || s[k..k + 3] != EnDashSeparator then None
    else
      var a, b := ParseNat(s[..k]), ParseNat(s[k + 3..]);
      if a.None? || b.None? then None else Some((a.value, b.value))
  }

  lemma {:induction false} LeadingDigitsOfDigitsThen(d: string, rest: string)
    requires forall i :: 0 <= i < |d| ==> IsDigit(d[i])
    requires rest != [] && !IsDigit(rest[0])
    ensures LeadingDigits(d + rest) == |d|
  {
    if d != [] {
      assert (d + rest)[1..] == d[1..] + rest;
      LeadingDigitsOfDigitsThen(d[1..], rest);
    }
  }

  /** The score line loses nothing: both scores are read back from it. */
  lemma ScoreLineRoundTrip(away: nat, home: nat)
    ensures ParseScoreLine(ScoreLine(away, home)) == Some((away, home))
  {
    var a, b := NatToString(away), NatToString(home);
    var s := ScoreLine(away, home);
    LeadingDigitsOfDigitsThen(a, EnDashSeparator + b);
    assert s == a + (EnDashSeparator + b);
    assert s[..|a|] == a;
    assert s[|a| + 3..] == b;
    NatToStringRoundTrip(away);
    NatToStringRoundTrip(home);
  }

  /**
   * The primary text: the start time for a game in "Preview", the score line for
   * any other state.
   */
  function PrimaryText(g: Game): string {
    if g.state == "Preview" then StartTime(g.startHour, g.startMinute)
    else ScoreLine(AwayScore(g), HomeScore(g))
  }

  /**
   * A game in "Preview" shows its start time, from which its hour and minute are
   * recovered; any other game shows both resolved scores, which are recovered
   * from the text.
   */
  lemma PrimaryTextSpec(g: Game)
    ensures g.state == "Preview" ==> ParseStartTime(PrimaryText(g)) == Some((g.startHour, g.startMinute))
    ensures g.state != "Preview" ==> ParseScoreLine(PrimaryText(g)) == Some((AwayScore(g), HomeScore(g)))
  {
    if g.state == "Preview" {
      StartTimeRoundTrip(g.startHour, g.startMinute);
    } else {
      ScoreLineRoundTrip(AwayScore(g), HomeScore(g));
    }
  }

  /** The secondary text: empty for "Preview", "Final" for "Final", the raw state otherwise. */
  function SecondaryText(g: Game): (r: string)
    ensures g.state == "Preview" ==> r == ""
    ensures g.state != "Preview" ==> r == g.state
    ensures g.state == "Final" ==> r == "Final"
  {
    if g.state == "Preview" then ""
    else if g.state == "Final" then "Final"
    else g.state
  }

  // ---------------------------------------------------------------- detail line

  const InningSeparator := " \U{00B7} "

  /** "out" for exactly one, "outs" otherwise (zero included). */
  function OutsWord(outs: nat): (w: string)
    ensures w == "out" <==> outs == 1
    ensures outs != 1 ==> w == "outs"
  {
    "out" + (if outs != 1 then "s" else "")
  }

  /** `${inningState} ${currentInning} · ${outs} out(s)` for a live game with a linescore, else "". */
  function DetailText(g: Game): string {
    if g.state == "In Progress" && g.linescore.Some? then
      var ls := g.linescore.value;
      ls.inningState + " " + NatToString(ls.currentInning) + InningSeparator + NatToString(ls.outs)
        + " " + OutsWord(ls.outs)
    else ""
  }

  /**
   * There is a detail line exactly for a game "In Progress" that has a linescore.
   * The second clause only restates the template of the line; its ending is
   * characterised by `DetailEnding`.
   */
  lemma DetailTextPresence(g: Game)
    ensures DetailText(g) != "" <==> g.state == "In Progress" && g.linescore.Some?
    ensures DetailText(g) != "" ==>
      var ls := g.linescore.value;
      DetailText(g) == ls.inningState + " " + NatToString(ls.currentInning) + InningSeparator
        + NatToString(ls.outs) + " " + OutsWord(ls.outs)
  {
    if g.state == "In Progress" && g.linescore.Some? {
      assert |OutsWord(g.linescore.value.outs)| >= 3;
    }
  }

  /** The detail line of a live game ends in "1 out" with one out and in "<n> outs" otherwise. */
  lemma DetailEnding(g: Game)
    requires g.state == "In Progress" && g.linescore.Some?
    ensures var r, o := DetailText(g), g.linescore.value.outs;
      if o == 1 then |r| >= 5 && r[|r| - 5..] == "1 out"
      else |r| >= |NatToString(o)| + 5 && r[|r| - |NatToString(o)| - 5..] == NatToString(o) + " outs"
  {
    var r, o := DetailText(g), g.linescore.value.outs;
    var head := g.linescore.value.inningState + " " + NatToString(g.linescore.value.currentInning) + InningSeparator;
    assert r == head + (NatToString(o) + " " + OutsWord(o));
    if o == 1 {
      assert NatToString(1) == "1";
    }
  }

  // ---------------------------------------------------------------- links

  const LogoBase := "https://www.mlbstatic.com/team-logos/"
  const LogoExtension := ".svg"

  /** The team's logo image. */
  function LogoUrl(id: nat): string {
    LogoBase + NatToString(id) + LogoExtension
  }

  /** Reads the team id back out of a logo URL. */
  function LogoTeamId(url: string): (r: Option<nat>)
  {
    var n := |url|;
    if n < |LogoBase| + |LogoExtension| || url[..|LogoBase|] != LogoBase || url[n - |LogoExtension|..] != LogoExtension
    then None
    else ParseNat(url[|LogoBase|..n - |LogoExtension|])
  }

  /** Each team's logo URL names exactly that team's id. */
  lemma LogoUrlRoundTrip(id: nat)
    ensures LogoTeamId(LogoUrl(id)) == Some(id)
  {
    var u := LogoUrl(id);
    assert u[..|LogoBase|] == LogoBase;
    assert u[|LogoBase|..|u| - |LogoExtension|] == NatToString(id);
    NatToStringRoundTrip(id);
  }

  /**
   * `${away.name} vs ${home.name} box score ${humanDate}`: the search query behind
   * the box-score link, before `encodeURIComponent`.
   */
  function BoxScoreQuery(g: Game): (q: string)
    ensures |q| == |g.away.team.name| + 4 + |g.home.team.name| + 11 + |g.easternLongDate|
    ensures q[..|g.away.team.name|] == g.away.team.name
    ensures q[|g.away.team.name|..|g.away.team.name| + 4] == " vs "
    ensures q[|g.away.team.name| + 4..|g.away.team.name| + 4 + |g.home.team.name|] == g.home.team.name
    ensures q[|g.away.team.name| + 4 + |g.home.team.name|..|q| - |g.easternLongDate|] == " box score "
    ensures q[|q| - |g.easternLongDate|..] == g.easternLongDate
  {
    g.away.team.name + " vs " + g.home.team.name + " box score " + g.easternLongDate
  }

  // ---------------------------------------------------------------- the card

  /** The view record for one game. */
  function GameCard(g: Game): Card {
    Card(
      LogoUrl(g.away.team.id), g.away.team.name,
      PrimaryText(g), SecondaryText(g), DetailText(g),
      BoxScoreQuery(g),
      LogoUrl(g.home.team.id), g.home.team.name)
  }

  /**
   * Each logo URL names its own team's id (by the logo round trip). The other
   * conjuncts only record which computation fills which card field.
   */
  lemma GameCardFields(g: Game)
    ensures var c := GameCard(g);
      LogoTeamId(c.awayLogo) == Some(g.away.team.id) && LogoTeamId(c.homeLogo) == Some(g.home.team.id)
      && c.awayName == g.away.team.name && c.homeName == g.home.team.name
      && c.primary == PrimaryText(g) && c.secondary == SecondaryText(g) && c.detail == DetailText(g)
      && c.boxScoreQuery == BoxScoreQuery(g)
  {
    LogoUrlRoundTrip(g.away.team.id);
    LogoUrlRoundTrip(g.home.team.id);
  }
}
