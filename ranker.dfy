/** The list-ranking game (server/Games/Ranker.ts): a suggestion phase in
    which every player names a list, a ranking phase in which every player
    ranks the others' suggestions, and the choice of the winning list.

    The original's `round` keeps its suggestions and rankings in local
    arrays that the session handlers (closures) push into; here they are
    fields of the game object, and the handlers run in `Input` once the
    session registry has routed and recorded a command. */
module Ranker {
  import opened Wrappers
  import opened Lookup
  import opened SharedTypes
  import Util
  import opened BaseGame
  import opened RankerMechanics

  /** One rankable option as a player's device receives it. */
  datatype RankOption = RankOption(id: string, text: string)

  /** The player commands this game sends. */
  datatype Instruction =
    | NoOpReply
    | Wait
    | Write
    | Rank(numberToRank: nat, options: seq<RankOption>)

  /** The metadata of an inbound command: the written text, and the ranked
      option ids when the device sent any. */
  datatype Metadata = Metadata(text: string, ranked: Option<seq<string>>)

  /** The two session handlers of a round. */
  datatype Handler = SuggestionHandler | RankingHandler

  /** The one live-status producer: suggestions per player. */
  datatype Updater = SuggestionCounts

  /** The TypeErrors the original can raise. */
  datatype Failure =
    | UndefinedRanked   // `ranked.map` on a command without `ranked`
    | UndefinedPlayer   // `player.id` for a sender missing from the roster
    | NoScores          // `scores[0].id` with no rankings
    | NoWinner          // `winner.submittedBy` when no suggestion has that id
    | NoSuggester       // `suggestedBy.name` when no player submitted it

  const SUGGEST_HEADING: string := "Let's make a list of lists!"
  const SUGGEST_EXPLAINER: string := "Name something you'd like to see a list of"
  const RANK_HEADING: string := "Let's pick our favorite list"

  /** How many suggestions `playerId` has made. */
  function SubmittedCount(ls: seq<List>, playerId: string): (n: nat)
    ensures n <= |ls|
    ensures n == 0 <==> forall k :: 0 <= k < |ls| ==> ls[k].submittedBy != playerId
  {
    if ls == [] then 0
    else
      var front := ls[..|ls| - 1];
      assert forall k :: 0 <= k < |front| ==> front[k] == ls[k];
      SubmittedCount(front, playerId) + (if ls[|ls| - 1].submittedBy == playerId then 1 else 0)
  }

  /** A new suggestion counts for its author and for nobody else. */
  lemma SubmittedCountAppend(ls: seq<List>, l: List, playerId: string)
    ensures SubmittedCount(ls + [l], playerId)
         == SubmittedCount(ls, playerId) + (if l.submittedBy == playerId then 1 else 0)
  {
    assert (ls + [l])[..|ls|] == ls;
  }

  /** The explain-and-wait status: per player, in roster order, the number
      of suggestions they made. */
  function SuggestionStats(players: seq<Player>, ls: seq<List>): (r: seq<Status>)
    ensures |r| == |players|
    ensures forall k :: 0 <= k < |players| ==>
      r[k] == Status(players[k], Count(SubmittedCount(ls, players[k].id)))
  {
    seq(|players|, k requires 0 <= k < |players| =>
      Status(players[k], Count(SubmittedCount(ls, players[k].id))))
  }

  /** The options offered to `playerId`: the suggestions made by someone
      else, in the order of `ls`. */
  function RankOptions(ls: seq<List>, playerId: string): (os: seq<RankOption>)
    ensures |os| <= |ls|
  {
    if ls == [] then []
    else if ls[0].submittedBy != playerId then
      [RankOption(ls[0].id, ls[0].title)] + RankOptions(ls[1..], playerId)
    else RankOptions(ls[1..], playerId)
  }

  /** Every option is someone else's suggestion: a player never ranks
      their own. */
  lemma {:induction false} RankOptionsOthersOnly(ls: seq<List>, playerId: string, j: nat)
    requires j < |RankOptions(ls, playerId)|
    ensures exists k :: 0 <= k < |ls| && ls[k].submittedBy != playerId
                        && RankOptions(ls, playerId)[j] == RankOption(ls[k].id, ls[k].title)
  {
    var os := RankOptions(ls, playerId);
    var rest := RankOptions(ls[1..], playerId);
    if ls[0].submittedBy != playerId {
      if j == 0 {
        assert os[0] == RankOption(ls[0].id, ls[0].title);
      } else {
        assert os[j] == rest[j - 1];
        RankOptionsOthersOnly(ls[1..], playerId, j - 1);
        var k :| 0 <= k < |ls[1..]| && ls[1..][k].submittedBy != playerId
                 && rest[j - 1] == RankOption(ls[1..][k].id, ls[1..][k].title);
        assert ls[k + 1] == ls[1..][k];
      }
    } else {
      assert os[j] == rest[j];
      RankOptionsOthersOnly(ls[1..], playerId, j);
      var k :| 0 <= k < |ls[1..]| && ls[1..][k].submittedBy != playerId
               && rest[j] == RankOption(ls[1..][k].id, ls[1..][k].title);
      assert ls[k + 1] == ls[1..][k];
    }
  }

  /** Every suggestion made by someone else is offered. */
  lemma {:induction false} RankOptionsComplete(ls: seq<List>, playerId: string, k: nat)
    requires k < |ls| && ls[k].submittedBy != playerId
    ensures RankOption(ls[k].id, ls[k].title) in RankOptions(ls, playerId)
  {
    var os := RankOptions(ls, playerId);
    var rest := RankOptions(ls[1..], playerId);
    if k == 0 {
      assert os[0] == RankOption(ls[0].id, ls[0].title);
    } else {
      assert ls[k] == ls[1..][k - 1];
      RankOptionsComplete(ls[1..], playerId, k - 1);
      assert rest <= os || rest == os[1..];
    }
  }

  function Min(a: int, b: int): int
  {
    if a <= b then a else b
  }

  /** The `rank` instruction built for `player`: rank at most three of the
      others' suggestions, fewer when fewer exist. */
  function RankPrompt(ls: seq<List>, player: Player): (ins: Instruction)
    ensures ins.Rank?
    ensures ins.numberToRank <= 3 && ins.numberToRank <= |ins.options|
    ensures |ins.options| >= 3 ==> ins.numberToRank == 3
    ensures |ins.options| < 3 ==> ins.numberToRank == |ins.options|
    ensures ins.options == RankOptions(ls, player.id)
  {
    var options := RankOptions(ls, player.id);
    Rank(Min(3, |options|), options)
  }

  /** A player's submitted order: the id at index `i` gets position `i + 1`. */
  function RankingsOf(scorerId: string, ids: seq<string>): (rs: seq<ItemRanking>)
    ensures |rs| == |ids|
    ensures forall i :: 0 <= i < |ids| ==> rs[i].targetId == ids[i]
    ensures forall i :: 0 <= i < |ids| ==> rs[i].scorerId == scorerId && rs[i].value == i + 1
  {
    seq(|ids|, i requires 0 <= i < |ids| => ItemRanking(ids[i], scorerId, i + 1))
  }

  /** A single ballot of distinct ids scores its first choice 10 and puts
      it on top. */
  lemma SingleBallotTop(scorerId: string, ids: seq<string>)
    requires ids != []
    requires forall i, j :: 0 <= i < j < |ids| ==> ids[i] != ids[j]
    ensures ScoreRankings(RankingsOf(scorerId, ids)) != []
    ensures ScoreRankings(RankingsOf(scorerId, ids))[0].id == ids[0]
    ensures ScoreRankings(RankingsOf(scorerId, ids))[0].score == LAMBDA
  {
    var rs := RankingsOf(scorerId, ids);
    var s := ScoreRankings(rs);
    ScoreRankingsCovers(rs, 0);
    ScoreRankingsOnlyRanked(rs, 0);
    var k :| 0 <= k < |rs| && rs[k].targetId == s[0].id;
    HeadIsFirstChoice(rs, ids, k);
  }

  /** The helper of `SingleBallotTop`: the head line is the ballot's id at
      `k`, and it must be the one at 0. */
  lemma HeadIsFirstChoice(rs: seq<ItemRanking>, ids: seq<string>, k: nat)
    requires |rs| == |ids| && k < |ids|
    requires forall i :: 0 <= i < |ids| ==> rs[i].targetId == ids[i] && rs[i].value == i + 1
    requires forall i, j :: 0 <= i < j < |ids| ==> ids[i] != ids[j]
    requires ScoreRankings(rs) != [] && ScoreRankings(rs)[0].id == ids[k]
    ensures k == 0 && ScoreRankings(rs)[0].score == LAMBDA
  {
    var s := ScoreRankings(rs);
    ScoreRankingsEntries(rs);
    ScoreRankingsSorted(rs);
    SingleGroup(rs, ids, k);
    SingleGroup(rs, ids, 0);
    FirstPlaceWorthMost(rs[k]);
    FirstPlaceWorthMost(rs[0]);
    ScoreRankingsCovers(rs, 0);
    var i :| 0 <= i < |s| && s[i].id == ids[0];
    assert s[i] == EntryFor(rs, ids[0]);
    assert s[0] == EntryFor(rs, ids[k]);
    assert s[0].score >= s[i].score;
  }

  /** A target nobody ranked has no rankings. */
  lemma {:induction false} GroupOfAbsent(rs: seq<ItemRanking>, id: string)
    requires forall i :: 0 <= i < |rs| ==> rs[i].targetId != id
    ensures GroupOf(rs, id) == []
  {
    if rs != [] {
      GroupOfAbsent(rs[..|rs| - 1], id);
    }
  }

  /** In a ballot of distinct ids, the group of `ids[k]` is its one ranking. */
  lemma {:induction false} SingleGroup(rs: seq<ItemRanking>, ids: seq<string>, k: nat)
    requires |rs| == |ids| && k < |ids|
    requires forall i :: 0 <= i < |ids| ==> rs[i].targetId == ids[i]
    requires forall i, j :: 0 <= i < j < |ids| ==> ids[i] != ids[j]
    ensures GroupOf(rs, ids[k]) == [rs[k]]
    ensures SumScore(GroupOf(rs, ids[k])) == Contribution(rs[k])
    decreases |rs|
  {
    var n := |rs| - 1;
    var front := rs[..n];
    if k == n {
      GroupOfAbsent(front, ids[k]);
    } else {
      SingleGroup(front, ids[..n], k);
    }
    assert [rs[k]][..0] == [];
  }

  /** What `end()` does when the response count reaches the player count:
      a session ends on its n-th response, whoever sent it. */
  function EndIfAllResponded(sessions: seq<Session<Handler, Metadata>>, k: nat, playerCount: nat)
    : (r: seq<Session<Handler, Metadata>>)
    requires k < |sessions|
    ensures |sessions[k].responses| == playerCount ==> r == Deactivated(sessions, k) && !r[k].active
    ensures |sessions[k].responses| != playerCount ==> r == sessions
  {
    if |sessions[k].responses| == playerCount then Deactivated(sessions, k) else sessions
  }

  /** The suggestion list after the builder has run for the first `n`
      players, each call reshuffling it in place with its own draws. */
  function Reshuffled(ls: seq<List>, draws: seq<seq<real>>, n: nat): (r: seq<List>)
    requires n <= |draws|
    requires forall i :: 0 <= i < |draws| ==> |draws[i]| == |ls| && Util.ValidDraws(draws[i])
    ensures |r| == |ls|
  {
    if n == 0 then ls else Util.Shuffled(Reshuffled(ls, draws, n - 1), draws[n - 1])
  }

  /** Reshuffling never changes which suggestions there are. */
  lemma {:induction false} ReshuffledPermutes(ls: seq<List>, draws: seq<seq<real>>, n: nat)
    requires n <= |draws|
    requires forall i :: 0 <= i < |draws| ==> |draws[i]| == |ls| && Util.ValidDraws(draws[i])
    ensures multiset(Reshuffled(ls, draws, n)) == multiset(ls)
  {
    if n > 0 {
      ReshuffledPermutes(ls, draws, n - 1);
      Util.ShuffledIsPermutation(Reshuffled(ls, draws, n - 1), draws[n - 1]);
    }
  }

  /** The `rank` prompts sent to `players` in roster order, the prompt of
      player `i` built after the `i + 1`-th reshuffle. */
  function PromptMessages(players: seq<Player>, ls: seq<List>, draws: seq<seq<real>>)
    : (ms: seq<Message<Instruction>>)
    requires |draws| == |players|
    requires forall i :: 0 <= i < |draws| ==> |draws[i]| == |ls| && Util.ValidDraws(draws[i])
    ensures |ms| == |players|
    ensures forall i :: 0 <= i < |players| ==>
      ms[i] == ToPlayer(players[i].id, RankPrompt(Reshuffled(ls, draws, i + 1), players[i]))
  {
    seq(|players|, i requires 0 <= i < |players| =>
      Message<Instruction>.ToPlayer(players[i].id, RankPrompt(Reshuffled(ls, draws, i + 1), players[i])))
  }

  /** Decimal notation of an integer, as a template literal prints it. */
  function DecimalString(n: int): (s: string)
    ensures s != []
    ensures s[0] == '-' <==> n < 0
    ensures n >= 0 ==> forall k :: 0 <= k < |s| ==> '0' <= s[k] <= '9'
    decreases if n < 0 then 1 - n else n
  {
    if n < 0 then "-" + DecimalString(-n)
    else if n < 10 then ["0123456789"[n]]
    else DecimalString(n / 10) + ["0123456789"[n % 10]]
  }

  /** The value of a string of decimal digits, most significant first. */
  function DigitsValue(s: string): int
  {
    if s == [] then 0 else 10 * DigitsValue(s[..|s| - 1]) + (s[|s| - 1] as int - '0' as int)
  }

  /** The number a decimal string with an optional leading `-` denotes. */
  function DecimalValue(s: string): int
  {
    if s != [] && s[0] == '-' then -DigitsValue(s[1..]) else DigitsValue(s)
  }

  /** The digit character at position `d` stands for `d`. */
  lemma DigitValue(d: int)
    requires 0 <= d < 10
    ensures "0123456789"[d] as int - '0' as int == d
  {
    if d < 5 {
      assert d == 0 || d == 1 || d == 2 || d == 3 || d == 4;
    } else {
      assert d == 5 || d == 6 || d == 7 || d == 8 || d == 9;
    }
  }

  /** Appending a digit shifts the value one decimal place. */
  lemma DigitsSnoc(front: string, d: int)
    requires 0 <= d < 10
    ensures DigitsValue(front + ["0123456789"[d]]) == 10 * DigitsValue(front) + d
  {
    assert (front + ["0123456789"[d]])[..|front|] == front;
    DigitValue(d);
  }

  /** The digits printed for a natural number read back as that number. */
  lemma {:induction false} DigitsRoundTrip(n: nat)
    ensures DigitsValue(DecimalString(n)) == n
  {
    if n < 10 {
      DigitsSnoc([], n);
      assert [] + ["0123456789"[n]] == DecimalString(n);
    } else {
      DigitsRoundTrip(n / 10);
      DigitsSnoc(DecimalString(n / 10), n % 10);
    }
  }

  /** Reading the printed number back gives the number. */
  lemma DecimalRoundTrip(n: int)
    ensures DecimalValue(DecimalString(n)) == n
  {
    if n < 0 {
      DigitsRoundTrip(-n);
      assert ("-" + DecimalString(-n))[1..] == DecimalString(-n);
    } else {
      DigitsRoundTrip(n);
    }
  }

  /** `k` is the first suggestion with id `id`, the one `find` by id picks. */
  predicate FirstWithId(ls: seq<List>, id: string, k: int)
  {
    0 <= k < |ls| && ls[k].id == id && forall j :: 0 <= j < k ==> ls[j].id != id
  }

  /** `j` is the first roster entry with id `id`, the one `find` by id picks. */
  predicate FirstPlayerWithId(ps: seq<Player>, id: string, j: int)
  {
    0 <= j < |ps| && ps[j].id == id && forall i :: 0 <= i < j ==> ps[i].id != id
  }

  /** At most one suggestion is the first with a given id. */
  lemma FirstWithIdUnique(ls: seq<List>, id: string)
    ensures forall k, k' :: FirstWithId(ls, id, k) && FirstWithId(ls, id, k') ==> k == k'
  {
  }

  /** The winner of the ranking round, from the rankings, the suggestions
      and the roster: the suggestion whose id heads `scoreRankings`, and the
      player who suggested it, or the dereference that fails. */
  function WinnerOf(ranks: seq<ItemRanking>, ls: seq<List>, players: seq<Player>): (r: Result<(List, Player), Failure>)
    ensures r.Ok? || r == Err(NoScores) || r == Err(NoWinner) || r == Err(NoSuggester)
    ensures r == Err(NoScores) <==> ranks == []
    ensures ranks != [] ==>
      var top := ScoreRankings(ranks)[0].id;
      && (r == Err(NoWinner) <==> forall k :: 0 <= k < |ls| ==> ls[k].id != top)
      && (r == Err(NoSuggester) <==>
            exists k :: FirstWithId(ls, top, k)
              && forall j :: 0 <= j < |players| ==> players[j].id != ls[k].submittedBy)
    ensures r.Ok? ==>
      && ranks != []
      && (exists k :: FirstWithId(ls, ScoreRankings(ranks)[0].id, k) && r.value.0 == ls[k])
      && (exists j :: FirstPlayerWithId(players, r.value.0.submittedBy, j) && r.value.1 == players[j])
  {
    var scores := ScoreRankings(ranks);
    if scores == [] then Err(NoScores)
    else
      match Find(ls, (x: List) => x.id == scores[0].id)
      case None => Err(NoWinner)
      case Some(winner) =>
        FirstWithIdUnique(ls, scores[0].id);
        match Find(players, (x: Player) => x.id == winner.submittedBy)
        case None => Err(NoSuggester)
        case Some(suggestedBy) => Ok((winner, suggestedBy))
  }

  class Ranker {
    const game: BaseGame<Handler, Updater, Metadata, Instruction>
    /** The round's suggested lists, in submission order (reordered by the
        rank-option builder's shuffles). */
    var listSuggestions: seq<List>
    /** The round's rankings, in submission order. */
    var listSuggestionRanks: seq<ItemRanking>

    constructor(gameCode: string)
      ensures fresh(game)
      ensures game.gameCode == gameCode && game.players == [] && game.presenters == []
      ensures game.sessions == [] && game.outbox == [] && game.explainAndWaitUpdater == None
      ensures listSuggestions == [] && listSuggestionRanks == []
    {
      game := new BaseGame(gameCode);
      listSuggestions := [];
      listSuggestionRanks := [];
    }

    /** The suggestion phase: show the explainer with live suggestion counts
        and ask every player to write a list title. */
    method OpenSuggestions(sessionId: string) returns (k: nat)
      modifies game
      ensures game.players == old(game.players) && game.presenters == old(game.presenters)
      ensures k == |old(game.sessions)|
      ensures game.sessions == old(game.sessions)
        + [Session(sessionId, true, SuggestionHandler, Ids(game.players), [])]
      ensures game.explainAndWaitUpdater == Some(SuggestionCounts)
      ensures game.outbox == old(game.outbox)
        + Broadcast(game.presenters, ExplainAndWaitStep(SUGGEST_HEADING, SUGGEST_EXPLAINER, []))
        + Broadcast(game.presenters, ExplainStats(SuggestionStats(game.players, listSuggestions)))
        + seq(|game.players|, i requires 0 <= i < |game.players| reads game =>
                Message<Instruction>.ToPlayer(game.players[i].id, Write))
    {
      game.ExplainAndWait(SUGGEST_HEADING, SUGGEST_EXPLAINER, SuggestionCounts,
                          SuggestionStats(game.players, listSuggestions));
      var instructions := seq(|game.players|, i => Write);
      k := game.RequestInput(All, instructions, SuggestionHandler, sessionId);
    }

    /** The rank-option builder run for `players` in order: each call first
        reshuffles the suggestion list in place with that player's draws,
        then offers the player the others' suggestions. */
    method BuildRankPrompts(players: seq<Player>, draws: seq<seq<real>>)
      returns (instructions: seq<Instruction>)
      requires |draws| == |players|
      requires forall i :: 0 <= i < |draws| ==>
        |draws[i]| == |listSuggestions| && Util.ValidDraws(draws[i])
      modifies this
      ensures listSuggestions == Reshuffled(old(listSuggestions), draws, |draws|)
      ensures listSuggestionRanks == old(listSuggestionRanks)
      ensures |instructions| == |players|
      ensures forall i :: 0 <= i < |players| ==>
        instructions[i] == RankPrompt(Reshuffled(old(listSuggestions), draws, i + 1), players[i])
    {
      instructions := [];
      var i := 0;
      while i < |players|
        invariant 0 <= i <= |players| && |instructions| == i
        invariant listSuggestions == Reshuffled(old(listSuggestions), draws, i)
        invariant forall j :: 0 <= j < i ==>
          instructions[j] == RankPrompt(Reshuffled(old(listSuggestions), draws, j + 1), players[j])
        invariant listSuggestionRanks == old(listSuggestionRanks)
      {
        var current := listSuggestions;
        var a := new List[|current|](j requires 0 <= j < |current| => current[j]);
        assert a[..] == current;
        var _ := Util.Shuffle(a, draws[i]);
        listSuggestions := a[..];
        instructions := instructions + [RankPrompt(listSuggestions, players[i])];
        i := i + 1;
      }
    }

    /** The ranking phase: show the explainer, then ask every player to rank
        the others' suggestions, reshuffled before each player's prompt. */
    method OpenRanking(sessionId: string, draws: seq<seq<real>>) returns (k: nat)
      requires |draws| == |game.players|
      requires forall i :: 0 <= i < |draws| ==>
        |draws[i]| == |listSuggestions| && Util.ValidDraws(draws[i])
      modifies this, game
      ensures game.players == old(game.players) && game.presenters == old(game.presenters)
      ensures listSuggestions == Reshuffled(old(listSuggestions), draws, |draws|)
      ensures multiset(listSuggestions) == multiset(old(listSuggestions))
      ensures listSuggestionRanks == old(listSuggestionRanks)
      ensures k == |old(game.sessions)|
      ensures game.sessions == old(game.sessions)
        + [Session(sessionId, true, RankingHandler, Ids(game.players), [])]
      ensures game.explainAndWaitUpdater == Some(SuggestionCounts)
      ensures game.outbox == old(game.outbox)
        + Broadcast(game.presenters, ExplainAndWaitStep(RANK_HEADING,
            "Rank your " + DecimalString(Min(3, |game.players| - 1)) + " favorite list ideas", []))
        + Broadcast(game.presenters, ExplainStats(SuggestionStats(game.players, old(listSuggestions))))
        + PromptMessages(game.players, old(listSuggestions), draws)
    {
      game.ExplainAndWait(RANK_HEADING,
        "Rank your " + DecimalString(Min(3, |game.players| - 1)) + " favorite list ideas",
        SuggestionCounts, SuggestionStats(game.players, listSuggestions));
      var instructions := BuildRankPrompts(game.players, draws);
      ReshuffledPermutes(old(listSuggestions), draws, |draws|);
      k := game.RequestInput(All, instructions, RankingHandler, sessionId);
    }

    /** The ranking handler's loop: the id at index `i` of a submission gets
        position `i + 1` from its sender. */
    method RecordRanking(scorerId: string, ids: seq<string>)
      modifies this`listSuggestionRanks
      ensures listSuggestionRanks == old(listSuggestionRanks) + RankingsOf(scorerId, ids)
    {
      var index := 0;
      while index < |ids|
        invariant 0 <= index <= |ids|
        invariant listSuggestionRanks == old(listSuggestionRanks) + RankingsOf(scorerId, ids[..index])
      {
        assert RankingsOf(scorerId, ids[..index + 1])
            == RankingsOf(scorerId, ids[..index]) + [ItemRanking(ids[index], scorerId, index + 1)];
        listSuggestionRanks := listSuggestionRanks + [ItemRanking(ids[index], scorerId, index + 1)];
        index := index + 1;
      }
      assert ids[..index] == ids;
    }

    /** The suggestion session's handler: records a new list by the sender
        with the written title, and ends session `k` on the response that
        makes the count equal the player count. */
    method SuggestionInput(k: nat, cmd: Command<Metadata>, listId: string,
                           responses: seq<Command<Metadata>>) returns (reply: Instruction)
      requires k < |game.sessions|
      modifies this`listSuggestions, game`sessions
      ensures reply == Wait
      ensures |listSuggestions| == |old(listSuggestions)| + 1
      ensures listSuggestions[..|old(listSuggestions)|] == old(listSuggestions)
      ensures fresh(listSuggestions[|old(listSuggestions)|])
      ensures listSuggestions[|old(listSuggestions)|].id == listId
      ensures listSuggestions[|old(listSuggestions)|].title == cmd.metadata.text
      ensures listSuggestions[|old(listSuggestions)|].submittedBy == cmd.sourcePlayerId
      ensures game.sessions == if |responses| == |game.players| then Deactivated(old(game.sessions), k)
                               else old(game.sessions)
    {
      var list := new List(listId, cmd.metadata.text, cmd.sourcePlayerId);
      listSuggestions := listSuggestions + [list];
      if |responses| == |game.players| {
        var _ := game.End(k);
      }
      reply := Wait;
    }

    /** The ranking session's handler: records the sender's positions
        `1..k` in submission order, and ends session `k` on the response
        that makes the count equal the player count. Reading `ranked` of a
        command without it, or `player.id` with no player, throws. */
    method RankingInput(k: nat, cmd: Command<Metadata>, player: Option<Player>,
                        responses: seq<Command<Metadata>>) returns (r: Result<Instruction, Failure>)
      requires k < |game.sessions|
      modifies this`listSuggestionRanks, game`sessions
      ensures cmd.metadata.ranked.None? ==>
        r == Err(UndefinedRanked) && listSuggestionRanks == old(listSuggestionRanks)
        && game.sessions == old(game.sessions)
      ensures cmd.metadata.ranked.Some? && player.None? && cmd.metadata.ranked.value != [] ==>
        r == Err(UndefinedPlayer) && listSuggestionRanks == old(listSuggestionRanks)
        && game.sessions == old(game.sessions)
      ensures cmd.metadata.ranked.Some? && (player.Some? || cmd.metadata.ranked.value == []) ==>
        && r == Ok(Wait)
        && listSuggestionRanks == old(listSuggestionRanks)
             + RankingsOf(if player.Some? then player.value.id else cmd.sourcePlayerId,
                          cmd.metadata.ranked.value)
        && game.sessions == if |responses| == |game.players| then Deactivated(old(game.sessions), k)
                            else old(game.sessions)
    {
      if cmd.metadata.ranked.None? {
        return Err(UndefinedRanked);
      }
      var ids := cmd.metadata.ranked.value;
      if player.None? && ids != [] {
        return Err(UndefinedPlayer);
      }
      // With no ids the loop body, which reads `player.id`, never runs.
      var scorerId := if player.Some? then player.value.id else cmd.sourcePlayerId;
      RecordRanking(scorerId, ids);
      if |responses| == |game.players| {
        var _ := game.End(k);
      }
      r := Ok(Wait);
    }

    /** `input`: route the command; the suggestion handler records a new
        list by the sender with the written title, the ranking handler
        records the sender's positions; either ends its session on the
        response that makes the count equal the player count, replies
        `wait`, and the live counts are pushed. With no claiming session the
        reply is `no-op` and nothing changes. A thrown TypeError is `Err`;
        the command stays recorded. */
    method Input(cmd: Command<Metadata>, listId: string) returns (r: Result<Instruction, Failure>)
      modifies this`listSuggestions, this`listSuggestionRanks, game`sessions, game`outbox
      ensures var k := ClaimingSession(old(game.sessions), cmd.sourcePlayerId);
        k == -1 ==>
          && r == Ok(NoOpReply)
          && game.sessions == old(game.sessions) && game.outbox == old(game.outbox)
          && listSuggestions == old(listSuggestions)
          && listSuggestionRanks == old(listSuggestionRanks)
      ensures var k := ClaimingSession(old(game.sessions), cmd.sourcePlayerId);
        k != -1 && old(game.sessions)[k].handler == SuggestionHandler ==>
          && r == Ok(Wait)
          && |listSuggestions| == |old(listSuggestions)| + 1
          && listSuggestions[..|old(listSuggestions)|] == old(listSuggestions)
          && fresh(listSuggestions[|old(listSuggestions)|])
          && listSuggestions[|old(listSuggestions)|].id == listId
          && listSuggestions[|old(listSuggestions)|].title == cmd.metadata.text
          && listSuggestions[|old(listSuggestions)|].submittedBy == cmd.sourcePlayerId
          && listSuggestionRanks == old(listSuggestionRanks)
          && game.sessions == EndIfAllResponded(Recorded(old(game.sessions), k, cmd), k, |game.players|)
          && game.outbox == old(game.outbox)
               + (if game.explainAndWaitUpdater.None? then []
                  else Broadcast(game.presenters, ExplainStats(SuggestionStats(game.players, listSuggestions))))
      ensures var k := ClaimingSession(old(game.sessions), cmd.sourcePlayerId);
        k != -1 && old(game.sessions)[k].handler == RankingHandler ==>
          && listSuggestions == old(listSuggestions)
          && var player := Find(game.players, (pl: Player) => pl.id == cmd.sourcePlayerId);
          if cmd.metadata.ranked.None? then
            && r == Err(UndefinedRanked)
            && game.sessions == Recorded(old(game.sessions), k, cmd)
            && listSuggestionRanks == old(listSuggestionRanks) && game.outbox == old(game.outbox)
          else if player.None? && cmd.metadata.ranked.value != [] then
            && r == Err(UndefinedPlayer)
            && game.sessions == Recorded(old(game.sessions), k, cmd)
            && listSuggestionRanks == old(listSuggestionRanks) && game.outbox == old(game.outbox)
          else
            && r == Ok(Wait)
            && listSuggestionRanks == old(listSuggestionRanks)
                 + RankingsOf(if player.Some? then player.value.id else cmd.sourcePlayerId,
                              cmd.metadata.ranked.value)
            && game.sessions == EndIfAllResponded(Recorded(old(game.sessions), k, cmd), k, |game.players|)
            && game.outbox == old(game.outbox)
                 + (if game.explainAndWaitUpdater.None? then []
                    else Broadcast(game.presenters, ExplainStats(SuggestionStats(game.players, listSuggestions))))
    {
      var routing := game.Input(cmd);
      if routing.NoOp? {
        return Ok(NoOpReply);
      }
      match routing.handler {
        case SuggestionHandler =>
          var reply := SuggestionInput(routing.index, cmd, listId, routing.responses);
          r := Ok(reply);
        case RankingHandler =>
          r := RankingInput(routing.index, cmd, routing.player, routing.responses);
          if r.Err? {
            return;
          }
      }
      game.UpdateExplainAndWait(SuggestionStats(game.players, listSuggestions));
    }

    /** The winner of this game's ranking round: `WinnerOf` on its state. */
    function Winner(): Result<(List, Player), Failure>
      reads this, game
    {
      WinnerOf(listSuggestionRanks, listSuggestions, game.players)
    }

    /** The winning suggestion has the highest aggregate score of every
        ranked id. */
    lemma WinnerHasTopScore()
      requires Winner().Ok?
      ensures forall k :: 0 <= k < |listSuggestionRanks| ==>
        SumScore(GroupOf(listSuggestionRanks, Winner().value.0.id))
          >= SumScore(GroupOf(listSuggestionRanks, listSuggestionRanks[k].targetId))
    {
      ScoreRankingsHeadIsBest(listSuggestionRanks);
    }
  }
}
