/**
 * One refresh cycle's effect on the `#games-list` container: pick the date
 * block for today in Eastern time, then either show "No games today." or
 * append one card per game in order; a failed fetch shows the warning instead.
 */
module Render {
  import opened Wrappers
  import opened Schedule
  import opened GameView

  const NoGamesText := "No games today."
  const WarningText := "\U{26A0}\U{FE0F} Unable to load games."

  // ---------------------------------------------------------------- selection

  /** `dates.find(d => d.date === today)`, as the index of the block found, searching from `from`. */
  function FindEntryFrom(dates: seq<DateEntry>, today: string, from: nat): (r: Option<nat>)
    requires from <= |dates|
    ensures r.Some? ==>
      from <= r.value < |dates| && dates[r.value].date == today
      && forall j :: from <= j < r.value ==> dates[j].date != today
    ensures r.None? ==> forall j :: from <= j < |dates| ==> dates[j].date != today
    decreases |dates| - from
  {
    if from == |dates| then None
    else if dates[from].date == today then Some(from)
    else FindEntryFrom(dates, today, from + 1)
  }

  /** The first block whose date is `today`, if any. */
  function FindEntry(dates: seq<DateEntry>, today: string): (r: Option<nat>)
    ensures r.Some? ==>
      r.value < |dates| && dates[r.value].date == today
      && forall j :: 0 <= j < r.value ==> dates[j].date != today
    ensures r.None? <==> forall j :: 0 <= j < |dates| ==> dates[j].date != today
  {
    FindEntryFrom(dates, today, 0)
  }

  /** `dateEntry?.games || []`: the games of the block found, or none. */
  function TodaysGames(data: Payload, today: string): seq<Game> {
    match FindEntry(data.dates, today)
    case Some(i) => data.dates[i].games
    case None => []
  }

  // ---------------------------------------------------------------- the container

  /** A child of the container: a text node or a game card. */
  datatype Node = TextNode(text: string) | CardNode(card: Card)

  /** The cards for `games`, one per game, in order. */
  function CardNodes(games: seq<Game>): seq<Node> {
    if games == [] then []
    else CardNodes(games[..|games| - 1]) + [CardNode(GameCard(games[|games| - 1]))]
  }

  /** There is one card per game, and the i-th card is built from the i-th game. */
  lemma {:induction false} CardNodesAt(games: seq<Game>)
    ensures |CardNodes(games)| == |games|
    ensures forall i :: 0 <= i < |games| ==> CardNodes(games)[i] == CardNode(GameCard(games[i]))
  {
    if games != [] {
      var init := games[..|games| - 1];
      CardNodesAt(init);
      forall i | 0 <= i < |games| - 1 ensures CardNodes(games)[i] == CardNode(GameCard(games[i])) {
        assert init[i] == games[i];
      }
    }
  }

  /** What the container holds after `renderGames(data)` on a day whose Eastern date is `today`. */
  function RenderedNodes(data: Payload, today: string): seq<Node> {
    var games := TodaysGames(data, today);
    if |games| == 0 then [TextNode(NoGamesText)] else CardNodes(games)
  }

  /** The `#games-list` element, reduced to its sequence of children. */
  class GamesList {
    var children: seq<Node>

    constructor ()
      ensures children == []
    {
      children := [];
    }

    /** `innerHTML = ''`. */
    method Clear()
      modifies this
      ensures children == []
    {
      children := [];
    }

    /** `textContent = t`: every child is replaced by one text node (none for the empty string). */
    method SetText(t: string)
      modifies this
      ensures children == if t == "" then [] else [TextNode(t)]
    {
      children := if t == "" then [] else [TextNode(t)];
    }

    /** `appendChild(box)`. */
    method AppendCard(c: Card)
      modifies this
      ensures children == old(children) + [CardNode(c)]
    {
      children := children + [CardNode(c)];
    }
  }

  /**
   * `renderGames`: clears the container, selects today's games and appends one
   * card per game. The final contents depend on the inputs alone, whatever the
   * container held before.
   */
  method RenderGames(container: GamesList, data: Payload, today: string)
    modifies container
    ensures container.children == RenderedNodes(data, today)
  {
    container.Clear();
    var games := TodaysGames(data, today);
    if |games| == 0 {
      container.SetText(NoGamesText);
      return;
    }
    AppendCards(container, games);
  }

  /** `games.forEach(game => container.appendChild(box))`: one card per game, after what is there. */
  method AppendCards(container: GamesList, games: seq<Game>)
    modifies container
    ensures container.children == old(container.children) + CardNodes(games)
  {
    var i := 0;
    while i < |games|
      invariant 0 <= i <= |games|
      invariant container.children == old(container.children) + CardNodes(games[..i])
    {
      var card := GameCard(games[i]);
      ghost var done := CardNodes(games[..i]);
      container.AppendCard(card);
      assert games[..i + 1][..i] == games[..i];
      assert CardNodes(games[..i + 1]) == done + [CardNode(card)];
      assert container.children == old(container.children) + (done + [CardNode(card)]);
      i := i + 1;
    }
    assert games[..i] == games;
  }

  /** The outcome of `fetch(...).then(res => res.json())`. */
  datatype FetchOutcome = Fetched(data: Payload) | Failed

  /** One refresh cycle after its request settles: render the payload, or show the warning. */
  method RefreshCycle(container: GamesList, outcome: FetchOutcome, today: string)
    modifies container
    ensures outcome.Failed? ==> container.children == [TextNode(WarningText)]
    ensures outcome.Fetched? ==> container.children == RenderedNodes(outcome.data, today)
  {
    match outcome
    case Fetched(data) => RenderGames(container, data, today);
    case Failed => container.SetText(WarningText);
  }

  /** Rendering the same input twice leaves the same contents: nothing accumulates. */
  method RenderTwice(container: GamesList, data: Payload, today: string)
    returns (first: seq<Node>, second: seq<Node>)
    modifies container
    ensures first == second == container.children
  {
    RenderGames(container, data, today);
    first := container.children;
    RenderGames(container, data, today);
    second := container.children;
  }

  // ---------------------------------------------------------------- properties

  /** With no block for today, or an empty one, the container shows exactly "No games today." and no card. */
  lemma NoGamesMessage(data: Payload, today: string)
    requires (forall j :: 0 <= j < |data.dates| ==> data.dates[j].date != today)
      || (exists k :: 0 <= k < |data.dates| && data.dates[k].date == today && data.dates[k].games == []
            && forall j :: 0 <= j < k ==> data.dates[j].date != today)
    ensures RenderedNodes(data, today) == [TextNode(NoGamesText)]
  {
    if !forall j :: 0 <= j < |data.dates| ==> data.dates[j].date != today {
      var k :| 0 <= k < |data.dates| && data.dates[k].date == today && data.dates[k].games == []
        && forall j :: 0 <= j < k ==> data.dates[j].date != today;
      assert FindEntry(data.dates, today) == Some(k);
    }
  }

  /**
   * When the first block for today is at `k` and has games, the container holds
   * exactly one card per game of that block, in the block's order, and no text.
   */
  lemma OneCardPerGame(data: Payload, today: string, k: nat)
    requires k < |data.dates| && data.dates[k].date == today && data.dates[k].games != []
    requires forall j :: 0 <= j < k ==> data.dates[j].date != today
    ensures var nodes, games := RenderedNodes(data, today), data.dates[k].games;
      |nodes| == |games| && forall i :: 0 <= i < |games| ==> nodes[i] == CardNode(GameCard(games[i]))
  {
    assert FindEntry(data.dates, today) == Some(k);
    CardNodesAt(data.dates[k].games);
  }

  /** A rendered grid never mixes in the "No games today." text: every child is a card. */
  lemma CardsOrMessage(data: Payload, today: string)
    ensures var nodes := RenderedNodes(data, today);
      nodes == [TextNode(NoGamesText)] || (nodes != [] && forall i :: 0 <= i < |nodes| ==> nodes[i].CardNode?)
  {
    CardNodesAt(TodaysGames(data, today));
  }
}
