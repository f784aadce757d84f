/** The shirt-design game (server/Games/TKO.ts): players draw designs and
    write slogans, combine parts dealt to them into shirts, score the others'
    shirts and vote between the top two.

    The game object's fields are the class fields below; `Math.random` draws
    and freshly generated ids are inputs. The collect loops' one-second
    sleeps are dropped: the counts the loops poll after each tick are given
    as sequences, one entry per tick. */
module TKO {
  import opened Wrappers
  import opened Lookup
  import opened SharedTypes
  import Util

  /** Ticks of every collect loop. */
  const COLLECT_TICKS: nat := 45
  /** The points shared out among the votes of a votedown. */
  const VOTE_POOL: int := 1000

  datatype Design = Design(id: string, createdBy: string, base64: string)
  datatype Slogan = Slogan(id: string, createdBy: string, text: string)
  /** A shirt's parts are looked up by id when it is submitted and are
      undefined (None) when the lookup fails. */
  datatype Shirt = Shirt(id: string, createdBy: string, design: Option<Design>, slogan: Option<Slogan>)
  datatype ShirtScore = ShirtScore(scorerId: string, shirt: Shirt, value: int)
  datatype AdhocReason = DesignBonus | SloganBonus | VoteBonus
  datatype AdhocScore = AdhocScore(scorerId: string, targetId: string, value: real, reason: AdhocReason)
  datatype Vote = Vote(scorerId: string, voteFor: Shirt)
  datatype FinalScore = FinalScore(player: Player, score: real)
  datatype Round = Round(
    shirts: seq<Shirt>,
    shirtScores: seq<ShirtScore>,
    adhocScores: seq<AdhocScore>,
    votingRounds: seq<seq<Vote>>,
    finalScores: seq<FinalScore>)

  const EMPTY_ROUND: Round := Round([], [], [], [], [])

  /** The inbound command types and their metadata; `Other` is any other
      `type`. */
  datatype Body =
    | DesignCmd(base64: string)
    | SloganCmd(text: string)
    | ShirtCmd(designId: string, sloganId: string)
    | ScoreCmd(shirtId: string, value: int)
    | VoteCmd(targetId: string)
    | Other(kind: string)

  datatype Command = Command(sourcePlayerId: string, body: Body)

  datatype VoteOption = VoteOption(description: string, id: string)

  /** The player commands this game sends. */
  datatype Instruction =
    | Wait
    | DesignPrompt
    | SloganPrompt
    | ShirtPrompt(designs: seq<Design>, slogans: seq<Slogan>)
    | ScorePrompt(description: string, shirtId: string, possibleScores: seq<int>)
    | VotePrompt(between: seq<VoteOption>)

  /** The live-status producers the game script installs: per player the
      number of designs, slogans or shirts, or `?` while scoring. */
  datatype Updater = DesignCounts | SloganCounts | ShirtCounts | Undisclosed

  /** The errors the original raises: the unknown command type, and the
      TypeErrors of dereferencing an undefined lookup. */
  datatype Failure =
    | UnknownCommand
    | UndefinedShirt
    | UndefinedDesign
    | UndefinedSlogan
    | NoVotingRound

  /** `sendToAllPlayers`: one message per player, in roster order. */
  function ToAllPlayers(players: seq<Player>, ins: Instruction): (r: seq<Message<Instruction>>)
    ensures |r| == |players|
    ensures forall k :: 0 <= k < |r| ==> r[k] == ToPlayer(players[k].id, ins)
  {
    seq(|players|, k requires 0 <= k < |players| => Message<Instruction>.ToPlayer(players[k].id, ins))
  }

  /** The status line of every player under producer `u`. */
  function StatsOf(u: Updater, players: seq<Player>, designs: seq<Design>, slogans: seq<Slogan>,
                   shirts: seq<Shirt>): (r: seq<Status>)
    ensures |r| == |players|
    ensures forall k :: 0 <= k < |players| ==> r[k].player == players[k]
    ensures u == Undisclosed ==> forall k :: 0 <= k < |players| ==> r[k].status == Label("?")
    ensures u != Undisclosed ==> forall k :: 0 <= k < |players| ==> r[k].status.Count?
    ensures u == DesignCounts ==> forall k :: 0 <= k < |players| ==>
      r[k].status == Count(|Filter(designs, (d: Design) => d.createdBy == players[k].id)|)
    ensures u == SloganCounts ==> forall k :: 0 <= k < |players| ==>
      r[k].status == Count(|Filter(slogans, (s: Slogan) => s.createdBy == players[k].id)|)
    ensures u == ShirtCounts ==> forall k :: 0 <= k < |players| ==>
      r[k].status == Count(|Filter(shirts, (s: Shirt) => s.createdBy == players[k].id)|)
  {
    seq(|players|, k requires 0 <= k < |players| =>
      var id := players[k].id;
      Status(players[k],
        match u
        case DesignCounts => Count(|Filter(designs, (d: Design) => d.createdBy == id)|)
        case SloganCounts => Count(|Filter(slogans, (s: Slogan) => s.createdBy == id)|)
        case ShirtCounts => Count(|Filter(shirts, (s: Shirt) => s.createdBy == id)|)
        case Undisclosed => Label("?")))
  }

  /** The checks of a collect loop that waits for a count to reach
      `target`: check `i` holds when the count seen after tick `i + 1` is
      the target. */
  function Reached(counts: seq<nat>, target: nat): (stops: seq<bool>)
    ensures |stops| == |counts|
    ensures forall i :: 0 <= i < |counts| ==> (stops[i] <==> counts[i] == target)
  {
    seq(|counts|, i requires 0 <= i < |counts| => counts[i] == target)
  }

  /** Both parts of a shirt were found when it was submitted. */
  predicate HasParts(shirt: Shirt)
  {
    shirt.design.Some? && shirt.slogan.Some?
  }

  /** The round's first shirt with that id, undefined if none. */
  function ShirtById(shirts: seq<Shirt>, id: string): (r: Option<Shirt>)
    ensures r.None? <==> forall k :: 0 <= k < |shirts| ==> shirts[k].id != id
    ensures r.Some? ==> r.value in shirts && r.value.id == id
  {
    Find(shirts, (s: Shirt) => s.id == id)
  }

  /* ---------------- eligibility ---------------- */

  /** `collectScoresFor`: everyone but the shirt's creator scores it. */
  function ScoringPlayers(players: seq<Player>, shirt: Shirt): (r: seq<Player>)
    ensures |r| <= |players|
    ensures forall p :: p in r <==> p in players && p.id != shirt.createdBy
  {
    Filter(players, (p: Player) => p.id != shirt.createdBy)
  }

  /** `collectVotesBetween`: nobody whose shirt is up for the vote votes. */
  function VotingPlayers(players: seq<Player>, shirts: seq<Shirt>): (r: seq<Player>)
    ensures |r| <= |players|
    ensures forall p :: p in r <==> p in players && forall s :: s in shirts ==> s.createdBy != p.id
  {
    var creators := seq(|shirts|, k requires 0 <= k < |shirts| => shirts[k].createdBy);
    assert forall k :: 0 <= k < |shirts| ==> creators[k] == shirts[k].createdBy;
    Filter(players, (p: Player) => p.id !in creators)
  }

  /** The vote prompt's options; undefined when a shirt lacks a slogan, whose
      text the prompt shows. */
  function VoteOptions(shirts: seq<Shirt>): (r: Option<seq<VoteOption>>)
    ensures r.None? <==> exists k :: 0 <= k < |shirts| && shirts[k].slogan.None?
    ensures r.Some? ==> |r.value| == |shirts| && forall k :: 0 <= k < |shirts| ==>
      r.value[k] == VoteOption(shirts[k].slogan.value.text, shirts[k].id)
  {
    if exists k :: 0 <= k < |shirts| && shirts[k].slogan.None? then None
    else Some(seq(|shirts|, k requires 0 <= k < |shirts| =>
                VoteOption(shirts[k].slogan.value.text, shirts[k].id)))
  }

  /* ---------------- scores ---------------- */

  /** What a score command awards when bonuses are on: half the value to the
      design's creator and half to the slogan's. */
  function BonusScores(scorerId: string, design: Design, slogan: Slogan, value: int): (r: seq<AdhocScore>)
    ensures |r| == 2
    ensures r[0] == AdhocScore(scorerId, design.createdBy, value as real / 2.0, DesignBonus)
    ensures r[1] == AdhocScore(scorerId, slogan.createdBy, value as real / 2.0, SloganBonus)
    ensures r[0].value + r[1].value == value as real
  {
    [AdhocScore(scorerId, design.createdBy, value as real / 2.0, DesignBonus),
     AdhocScore(scorerId, slogan.createdBy, value as real / 2.0, SloganBonus)]
  }

  /** A point amount credited to a player id. */
  datatype Credit = Credit(owner: string, value: real)

  /** Shirt scores credit the shirt's creator. */
  function ShirtCredits(ss: seq<ShirtScore>): (cs: seq<Credit>)
    ensures |cs| == |ss|
    ensures forall k :: 0 <= k < |ss| ==> cs[k] == Credit(ss[k].shirt.createdBy, ss[k].value as real)
  {
    seq(|ss|, k requires 0 <= k < |ss| => Credit(ss[k].shirt.createdBy, ss[k].value as real))
  }

  /** Adhoc scores credit their target. */
  function AdhocCredits(xs: seq<AdhocScore>): (cs: seq<Credit>)
    ensures |cs| == |xs|
    ensures forall k :: 0 <= k < |xs| ==> cs[k] == Credit(xs[k].targetId, xs[k].value)
  {
    seq(|xs|, k requires 0 <= k < |xs| => Credit(xs[k].targetId, xs[k].value))
  }

  /** `sumOfScores` of the credits to `id`. */
  function CreditTo(cs: seq<Credit>, id: string): real
  {
    if cs == [] then 0.0
    else CreditTo(cs[..|cs| - 1], id) + (if cs[|cs| - 1].owner == id then cs[|cs| - 1].value else 0.0)
  }

  function Total(cs: seq<Credit>): real
  {
    if cs == [] then 0.0 else Total(cs[..|cs| - 1]) + cs[|cs| - 1].value
  }

  /** What a player is credited is `sumOfScores` of the `filter` of the
      credits by owner, as `computeFinalScoresForRound` writes it. */
  lemma {:induction false} CreditToFiltered(cs: seq<Credit>, id: string)
    ensures CreditTo(cs, id) == Total(Filter(cs, (c: Credit) => c.owner == id))
  {
    if cs != [] {
      var front, last := cs[..|cs| - 1], cs[|cs| - 1];
      CreditToFiltered(front, id);
      var kept := Filter(front, (c: Credit) => c.owner == id);
      if last.owner == id {
        assert (kept + [last])[..|kept|] == kept;
      } else {
        assert kept + [] == kept;
      }
    }
  }

  /** A player with no credit in `cs` is credited nothing. */
  lemma {:induction false} CreditToNone(cs: seq<Credit>, id: string)
    requires forall k :: 0 <= k < |cs| ==> cs[k].owner != id
    ensures CreditTo(cs, id) == 0.0
  {
    if cs != [] {
      CreditToNone(cs[..|cs| - 1], id);
    }
  }

  /** A player owning every credit in `cs` is credited all of it. */
  lemma {:induction false} CreditToAll(cs: seq<Credit>, id: string)
    requires forall k :: 0 <= k < |cs| ==> cs[k].owner == id
    ensures CreditTo(cs, id) == Total(cs)
  {
    if cs != [] {
      CreditToAll(cs[..|cs| - 1], id);
    }
  }

  /** `computeFinalScoresForRound`'s table: one line per player, in roster
      order, with the shirt scores on their shirts plus the adhoc scores
      targeting them. */
  function FinalScores(players: seq<Player>, round: Round): (fs: seq<FinalScore>)
    ensures |fs| == |players|
    ensures forall k :: 0 <= k < |players| ==> fs[k].player == players[k]
  {
    seq(|players|, k requires 0 <= k < |players| =>
      FinalScore(players[k], CreditTo(ShirtCredits(round.shirtScores), players[k].id)
                           + CreditTo(AdhocCredits(round.adhocScores), players[k].id)))
  }

  function SumFinal(fs: seq<FinalScore>): real
  {
    if fs == [] then 0.0 else SumFinal(fs[..|fs| - 1]) + fs[|fs| - 1].score
  }

  ghost predicate DistinctPlayerIds(players: seq<Player>)
  {
    forall i, j :: 0 <= i < j < |players| ==> players[i].id != players[j].id
  }

  /** The sum over players of what each is credited. */
  function CreditedToPlayers(players: seq<Player>, cs: seq<Credit>): real
  {
    if players == [] then 0.0
    else CreditedToPlayers(players[..|players| - 1], cs) + CreditTo(cs, players[|players| - 1].id)
  }

  /** The value of `c`, counted once for every player it credits. */
  function Hits(players: seq<Player>, c: Credit): real
  {
    if players == [] then 0.0
    else Hits(players[..|players| - 1], c) + (if players[|players| - 1].id == c.owner then c.value else 0.0)
  }

  lemma {:induction false} CreditedAppend(players: seq<Player>, cs: seq<Credit>, c: Credit)
    ensures CreditedToPlayers(players, cs + [c]) == CreditedToPlayers(players, cs) + Hits(players, c)
  {
    if players != [] {
      CreditedAppend(players[..|players| - 1], cs, c);
      assert (cs + [c])[..|cs|] == cs;
    }
  }

  lemma {:induction false} HitsNone(players: seq<Player>, c: Credit)
    requires forall k :: 0 <= k < |players| ==> players[k].id != c.owner
    ensures Hits(players, c) == 0.0
  {
    if players != [] {
      HitsNone(players[..|players| - 1], c);
    }
  }

  lemma {:induction false} HitsOnce(players: seq<Player>, c: Credit)
    requires DistinctPlayerIds(players)
    requires exists k :: 0 <= k < |players| && players[k].id == c.owner
    ensures Hits(players, c) == c.value
  {
    var front := players[..|players| - 1];
    if players[|players| - 1].id == c.owner {
      HitsNone(front, c);
    } else {
      var k :| 0 <= k < |players| && players[k].id == c.owner;
      assert front[k] == players[k];
      HitsOnce(front, c);
    }
  }

  /** When ids are distinct and every credit goes to a player, the players'
      credits add up to the total credited. */
  lemma {:induction false} CreditsConserved(players: seq<Player>, cs: seq<Credit>)
    requires DistinctPlayerIds(players)
    requires forall j :: 0 <= j < |cs| ==> exists k :: 0 <= k < |players| && players[k].id == cs[j].owner
    ensures CreditedToPlayers(players, cs) == Total(cs)
  {
    if cs == [] {
      CreditedEmpty(players);
    } else {
      var front := cs[..|cs| - 1];
      var c := cs[|cs| - 1];
      assert cs == front + [c];
      CreditsConserved(players, front);
      CreditedAppend(players, front, c);
      HitsOnce(players, c);
    }
  }

  lemma {:induction false} CreditedEmpty(players: seq<Player>)
    ensures CreditedToPlayers(players, []) == 0.0
  {
    if players != [] {
      CreditedEmpty(players[..|players| - 1]);
    }
  }

  lemma {:induction false} SumFinalSplits(players: seq<Player>, round: Round)
    ensures SumFinal(FinalScores(players, round))
         == CreditedToPlayers(players, ShirtCredits(round.shirtScores))
          + CreditedToPlayers(players, AdhocCredits(round.adhocScores))
  {
    if players != [] {
      var front := players[..|players| - 1];
      SumFinalSplits(front, round);
      assert FinalScores(players, round)[..|players| - 1] == FinalScores(front, round);
    }
  }

  /** The round's final scores distribute exactly the points awarded in
      it: with distinct player ids, every shirt made by a player and every
      adhoc score targeting a player, the final scores sum to all shirt
      scores plus all adhoc scores. */
  lemma FinalScoresConserve(players: seq<Player>, round: Round)
    requires DistinctPlayerIds(players)
    requires forall j :: 0 <= j < |round.shirtScores| ==>
      exists k :: 0 <= k < |players| && players[k].id == round.shirtScores[j].shirt.createdBy
    requires forall j :: 0 <= j < |round.adhocScores| ==>
      exists k :: 0 <= k < |players| && players[k].id == round.adhocScores[j].targetId
    ensures SumFinal(FinalScores(players, round))
         == Total(ShirtCredits(round.shirtScores)) + Total(AdhocCredits(round.adhocScores))
  {
    SumFinalSplits(players, round);
    CreditsConserved(players, ShirtCredits(round.shirtScores));
    CreditsConserved(players, AdhocCredits(round.adhocScores));
  }

  /** Each vote's worth: the pool split evenly, rounded down. */
  function VoteValue(n: nat): (v: int)
    requires n > 0
    ensures 0 <= v <= VOTE_POOL
    ensures VOTE_POOL - n < n * v <= VOTE_POOL
  {
    VOTE_POOL / n
  }

  /** The VOTE adhoc scores of a voting round, one per vote, to the voted
      shirt's creator. */
  function VoteScores(votes: seq<Vote>, value: real): (r: seq<AdhocScore>)
    ensures |r| == |votes|
    ensures forall k :: 0 <= k < |votes| ==>
      r[k] == AdhocScore(votes[k].scorerId, votes[k].voteFor.createdBy, value, VoteBonus)
  {
    seq(|votes|, k requires 0 <= k < |votes| =>
      AdhocScore(votes[k].scorerId, votes[k].voteFor.createdBy, value, VoteBonus))
  }

  /** A votedown hands out `n * floor(1000 / n)` points in all: never more
      than the pool and less than one vote's share short of it. */
  lemma {:induction false} VotePointsTotal(votes: seq<Vote>)
    requires votes != []
    ensures Total(AdhocCredits(VoteScores(votes, VoteValue(|votes|) as real)))
         == (|votes| * VoteValue(|votes|)) as real
    ensures Total(AdhocCredits(VoteScores(votes, VoteValue(|votes|) as real))) <= VOTE_POOL as real
  {
    var v := VoteValue(|votes|) as real;
    EqualCreditsTotal(AdhocCredits(VoteScores(votes, v)), v);
  }

  lemma {:induction false} EqualCreditsTotal(cs: seq<Credit>, v: real)
    requires forall k :: 0 <= k < |cs| ==> cs[k].value == v
    ensures Total(cs) == |cs| as real * v
  {
    if cs != [] {
      EqualCreditsTotal(cs[..|cs| - 1], v);
    }
  }

  /* ---------------- dealing shirt parts ---------------- */

  /** The parts a player may still be dealt: not made by them and not yet
      dealt to anyone, in the order of `xs` (the two chained `filter`s). */
  function Available<T>(xs: seq<T>, idOf: T -> string, creatorOf: T -> string,
                        playerId: string, used: set<string>): (r: seq<T>)
    ensures |r| <= |xs|
    ensures forall k :: 0 <= k < |r| ==> r[k] in xs && creatorOf(r[k]) != playerId && idOf(r[k]) !in used
    ensures forall k :: 0 <= k < |xs| && creatorOf(xs[k]) != playerId && idOf(xs[k]) !in used ==> xs[k] in r
    decreases |xs|
  {
    if xs == [] then []
    else
      var rest := Available(xs[1..], idOf, creatorOf, playerId, used);
      assert forall k :: 1 <= k < |xs| ==> xs[k] == xs[1..][k - 1];
      if creatorOf(xs[0]) != playerId && idOf(xs[0]) !in used then [xs[0]] + rest else rest
  }

  /** `take(n)`: the first `n` elements, or all when there are fewer. */
  function Take<T>(xs: seq<T>, n: nat): (r: seq<T>)
    ensures |r| <= n && |r| <= |xs|
    ensures |xs| >= n ==> |r| == n
    ensures forall k :: 0 <= k < |r| ==> r[k] == xs[k]
  {
    if |xs| <= n then xs else xs[..n]
  }

  /** `take(n)` of the parts available to `playerId`, in one pass: the first
      `n` parts of `xs` neither made by them nor used. */
  function TakeAvailable<T>(xs: seq<T>, idOf: T -> string, creatorOf: T -> string,
                            playerId: string, used: set<string>, n: nat): (r: seq<T>)
    ensures |r| <= n
    ensures forall x :: x in r ==> x in xs && creatorOf(x) != playerId && idOf(x) !in used
    decreases |xs|
  {
    if xs == [] || n == 0 then []
    else if creatorOf(xs[0]) != playerId && idOf(xs[0]) !in used then
      [xs[0]] + TakeAvailable(xs[1..], idOf, creatorOf, playerId, used, n - 1)
    else TakeAvailable(xs[1..], idOf, creatorOf, playerId, used, n)
  }

  /** The one-pass deal is the source's `filter`-`filter`-`take` chain. */
  lemma {:induction false} TakeAvailableIsTake<T>(xs: seq<T>, idOf: T -> string, creatorOf: T -> string,
                                                  playerId: string, used: set<string>, n: nat)
    ensures TakeAvailable(xs, idOf, creatorOf, playerId, used, n)
            == Take(Available(xs, idOf, creatorOf, playerId, used), n)
    decreases |xs|
  {
    if xs != [] && n != 0 {
      var rest := Available(xs[1..], idOf, creatorOf, playerId, used);
      if creatorOf(xs[0]) != playerId && idOf(xs[0]) !in used {
        TakeAvailableIsTake(xs[1..], idOf, creatorOf, playerId, used, n - 1);
        assert Take([xs[0]] + rest, n) == [xs[0]] + Take(rest, n - 1);
      } else {
        TakeAvailableIsTake(xs[1..], idOf, creatorOf, playerId, used, n);
      }
    }
  }

  /** The designs offered to `id`: the first `share` of those available. */
  function DesignsFor(ds: seq<Design>, id: string, used: set<string>, share: nat): (r: seq<Design>)
    ensures |r| <= share
    ensures forall d :: d in r ==> d in ds && d.createdBy != id && d.id !in used
  {
    TakeAvailable(ds, (d: Design) => d.id, (d: Design) => d.createdBy, id, used, share)
  }

  /** The slogans offered to `id`: the first `share` of those available. */
  function SlogansFor(xs: seq<Slogan>, id: string, used: set<string>, share: nat): (r: seq<Slogan>)
    ensures |r| <= share
    ensures forall x :: x in r ==> x in xs && x.createdBy != id && x.id !in used
  {
    TakeAvailable(xs, (x: Slogan) => x.id, (x: Slogan) => x.createdBy, id, used, share)
  }

  function DesignIds(ds: seq<Design>): set<string>
  {
    set k | 0 <= k < |ds| :: ds[k].id
  }

  function SloganIds(ss: seq<Slogan>): set<string>
  {
    set k | 0 <= k < |ss| :: ss[k].id
  }

  /** The two draws for one shuffle pass each, valid for the current parts. */
  ghost predicate ValidDealDraws(draws: seq<seq<real>>, n: nat, len: nat)
  {
    |draws| == n && forall i :: 0 <= i < n ==> |draws[i]| == len && Util.ValidDraws(draws[i])
  }

  /** The fair share of `count` parts among `players` players (`take` of a
      fractional count takes its integer part). */
  function Share(count: nat, players: nat): (r: nat)
    ensures players == 0 ==> r == 0
    ensures players > 0 ==> r * players <= count < (r + 1) * players
  {
    if players == 0 then 0 else count / players
  }

  /** What a dealing produces for the players: no part made by the player
      it is dealt to, no part dealt to two players, at most the fair share
      each. */
  ghost predicate FairDeal(players: seq<Player>, designShare: nat, sloganShare: nat,
                           designs: seq<Design>, slogans: seq<Slogan>, offers: seq<Instruction>)
  {
    && |offers| == |players|
    && (forall i :: 0 <= i < |offers| ==> offers[i].ShirtPrompt?)
    && (forall i :: 0 <= i < |offers| ==>
          && |offers[i].designs| <= designShare
          && |offers[i].slogans| <= sloganShare
          && (forall d :: d in offers[i].designs ==> d in designs && d.createdBy != players[i].id)
          && (forall s :: s in offers[i].slogans ==> s in slogans && s.createdBy != players[i].id))
    && (forall i, j :: 0 <= i < j < |offers| ==>
          && DesignIds(offers[i].designs) !! DesignIds(offers[j].designs)
          && SloganIds(offers[i].slogans) !! SloganIds(offers[j].slogans))
  }

  /** Dealing one more player parts that are not yet used keeps the deal
      fair. */
  lemma DealStep(players: seq<Player>, designShare: nat, sloganShare: nat,
                 designs: seq<Design>, slogans: seq<Slogan>,
                 offers: seq<Instruction>, offer: Instruction, used: set<string>)
    requires |offers| < |players|
    requires FairDeal(players[..|offers|], designShare, sloganShare, designs, slogans, offers)
    requires forall j :: 0 <= j < |offers| ==>
      DesignIds(offers[j].designs) <= used && SloganIds(offers[j].slogans) <= used
    requires offer.ShirtPrompt?
    requires |offer.designs| <= designShare && |offer.slogans| <= sloganShare
    requires forall d :: d in offer.designs ==>
      d in designs && d.createdBy != players[|offers|].id && d.id !in used
    requires forall s :: s in offer.slogans ==>
      s in slogans && s.createdBy != players[|offers|].id && s.id !in used
    ensures FairDeal(players[..|offers| + 1], designShare, sloganShare, designs, slogans, offers + [offer])
  {
    var i := |offers|;
    var ps := players[..i + 1];
    var os := offers + [offer];
    assert forall j :: 0 <= j < i ==> os[j] == offers[j] && ps[j] == players[..i][j];
    forall j | 0 <= j < i
      ensures DesignIds(os[j].designs) !! DesignIds(offer.designs)
      ensures SloganIds(os[j].slogans) !! SloganIds(offer.slogans)
    {
      forall x | x in DesignIds(offer.designs) ensures x !in used {
        var k :| 0 <= k < |offer.designs| && offer.designs[k].id == x;
        assert offer.designs[k] in offer.designs;
      }
      forall x | x in SloganIds(offer.slogans) ensures x !in used {
        var k :| 0 <= k < |offer.slogans| && offer.slogans[k].id == x;
        assert offer.slogans[k] in offer.slogans;
      }
    }
  }

  /** After a turn every part dealt so far is marked used. */
  lemma UsedGrows(offers: seq<Instruction>, offer: Instruction, used: set<string>)
    requires offer.ShirtPrompt? && forall j :: 0 <= j < |offers| ==> offers[j].ShirtPrompt?
    requires forall j :: 0 <= j < |offers| ==>
      DesignIds(offers[j].designs) <= used && SloganIds(offers[j].slogans) <= used
    ensures forall j :: 0 <= j < |offers| + 1 ==>
      var u := used + DesignIds(offer.designs) + SloganIds(offer.slogans);
      DesignIds((offers + [offer])[j].designs) <= u && SloganIds((offers + [offer])[j].slogans) <= u
  {
  }

  /** Dealing to one more player sends one more message, to that player. */
  lemma DealMessagesAppend(players: seq<Player>, offers: seq<Instruction>, offer: Instruction)
    requires |offers| < |players|
    ensures DealMessages(players[..|offers| + 1], offers + [offer])
         == DealMessages(players[..|offers|], offers) + [ToPlayer(players[|offers|].id, offer)]
  {
  }

  /** The state of a dealing: the reshuffled parts, the ids dealt so far
      and the offers made so far, in roster order. */
  datatype Dealt = Dealt(designs: seq<Design>, slogans: seq<Slogan>, used: set<string>, offers: seq<Instruction>)

  /** The dealing after the first `n` players' turns: each turn reshuffles
      both pools with that turn's draws, offers the player the first shares
      of the parts still available to them, and marks the offer used. */
  function Dealing(players: seq<Player>, designs: seq<Design>, slogans: seq<Slogan>,
                   designShare: nat, sloganShare: nat,
                   designDraws: seq<seq<real>>, sloganDraws: seq<seq<real>>, n: nat): (d: Dealt)
    requires n <= |players|
    requires ValidDealDraws(designDraws, |players|, |designs|)
    requires ValidDealDraws(sloganDraws, |players|, |slogans|)
    ensures |d.offers| == n && |d.designs| == |designs| && |d.slogans| == |slogans|
  {
    if n == 0 then Dealt(designs, slogans, {}, [])
    else
      var before := Dealing(players, designs, slogans, designShare, sloganShare, designDraws, sloganDraws, n - 1);
      var id := players[n - 1].id;
      var ds := Util.Shuffled(before.designs, designDraws[n - 1]);
      var ss := Util.Shuffled(before.slogans, sloganDraws[n - 1]);
      var offer := ShirtPrompt(DesignsFor(ds, id, before.used, designShare),
                               SlogansFor(ss, id, before.used, sloganShare));
      Dealt(ds, ss, before.used + DesignIds(offer.designs) + SloganIds(offer.slogans), before.offers + [offer])
  }

  /** A turn that reshuffles the pools of the dealing so far and offers the
      next player the first shares available to them is the next step of
      the dealing. */
  lemma DealingNext(players: seq<Player>, designs: seq<Design>, slogans: seq<Slogan>,
                    designShare: nat, sloganShare: nat,
                    designDraws: seq<seq<real>>, sloganDraws: seq<seq<real>>, n: nat,
                    before: Dealt, ds: seq<Design>, ss: seq<Slogan>, offer: Instruction)
    requires n < |players|
    requires ValidDealDraws(designDraws, |players|, |designs|)
    requires ValidDealDraws(sloganDraws, |players|, |slogans|)
    requires Dealing(players, designs, slogans, designShare, sloganShare, designDraws, sloganDraws, n) == before
    requires ds == Util.Shuffled(before.designs, designDraws[n])
    requires ss == Util.Shuffled(before.slogans, sloganDraws[n])
    requires offer == ShirtPrompt(DesignsFor(ds, players[n].id, before.used, designShare),
                                  SlogansFor(ss, players[n].id, before.used, sloganShare))
    ensures Dealing(players, designs, slogans, designShare, sloganShare, designDraws, sloganDraws, n + 1)
         == Dealt(ds, ss, before.used + DesignIds(offer.designs) + SloganIds(offer.slogans), before.offers + [offer])
  {
  }

  /** The designs dealt from a reshuffled pool come from the original
      designs, none made by the player, none used before. */
  lemma DesignsFromPool(ds: seq<Design>, designs: seq<Design>, id: string, used: set<string>, share: nat)
    requires multiset(ds) == multiset(designs)
    ensures forall d :: d in DesignsFor(ds, id, used, share) ==> d in designs && d.createdBy != id && d.id !in used
  {
    Util.PermutationKeepsMembers(ds, designs);
  }

  /** The slogans dealt from a reshuffled pool come from the original
      slogans, none made by the player, none used before. */
  lemma SlogansFromPool(ss: seq<Slogan>, slogans: seq<Slogan>, id: string, used: set<string>, share: nat)
    requires multiset(ss) == multiset(slogans)
    ensures forall x :: x in SlogansFor(ss, id, used, share) ==> x in slogans && x.createdBy != id && x.id !in used
  {
    Util.PermutationKeepsMembers(ss, slogans);
  }

  /** A dealing state that is fair so far: its pools are permutations of
      the original parts, its offers are a fair deal to the players served,
      and every part offered is marked used. */
  ghost predicate DealtFairly(players: seq<Player>, designShare: nat, sloganShare: nat,
                              designs: seq<Design>, slogans: seq<Slogan>, d: Dealt)
  {
    && |d.offers| <= |players|
    && multiset(d.designs) == multiset(designs)
    && multiset(d.slogans) == multiset(slogans)
    && FairDeal(players[..|d.offers|], designShare, sloganShare, designs, slogans, d.offers)
    && forall j :: 0 <= j < |d.offers| ==>
         DesignIds(d.offers[j].designs) <= d.used && SloganIds(d.offers[j].slogans) <= d.used
  }

  /** One turn of the dealing keeps it fair. */
  lemma TurnFair(players: seq<Player>, designShare: nat, sloganShare: nat,
                 designs: seq<Design>, slogans: seq<Slogan>, before: Dealt,
                 designDraw: seq<real>, sloganDraw: seq<real>)
    requires |before.offers| < |players|
    requires DealtFairly(players, designShare, sloganShare, designs, slogans, before)
    requires |designDraw| == |before.designs| && Util.ValidDraws(designDraw)
    requires |sloganDraw| == |before.slogans| && Util.ValidDraws(sloganDraw)
    ensures var id := players[|before.offers|].id;
      var ds := Util.Shuffled(before.designs, designDraw);
      var ss := Util.Shuffled(before.slogans, sloganDraw);
      var offer := ShirtPrompt(DesignsFor(ds, id, before.used, designShare),
                               SlogansFor(ss, id, before.used, sloganShare));
      DealtFairly(players, designShare, sloganShare, designs, slogans,
                  Dealt(ds, ss, before.used + DesignIds(offer.designs) + SloganIds(offer.slogans), before.offers + [offer]))
  {
    var id := players[|before.offers|].id;
    var ds := Util.Shuffled(before.designs, designDraw);
    var ss := Util.Shuffled(before.slogans, sloganDraw);
    Util.ShuffledIsPermutation(before.designs, designDraw);
    Util.ShuffledIsPermutation(before.slogans, sloganDraw);
    DesignsFromPool(ds, designs, id, before.used, designShare);
    SlogansFromPool(ss, slogans, id, before.used, sloganShare);
    var offer := ShirtPrompt(DesignsFor(ds, id, before.used, designShare),
                             SlogansFor(ss, id, before.used, sloganShare));
    DealStep(players, designShare, sloganShare, designs, slogans, before.offers, offer, before.used);
    UsedGrows(before.offers, offer, before.used);
  }

  /** Every dealing is fair to the players dealt so far, keeps both pools
      as permutations of the original parts, and marks every part it
      offered as used. */
  lemma {:induction false} DealingFair(players: seq<Player>, designs: seq<Design>, slogans: seq<Slogan>,
                                       designShare: nat, sloganShare: nat,
                                       designDraws: seq<seq<real>>, sloganDraws: seq<seq<real>>, n: nat)
    requires n <= |players|
    requires ValidDealDraws(designDraws, |players|, |designs|)
    requires ValidDealDraws(sloganDraws, |players|, |slogans|)
    ensures DealtFairly(players, designShare, sloganShare, designs, slogans,
                        Dealing(players, designs, slogans, designShare, sloganShare, designDraws, sloganDraws, n))
  {
    if n > 0 {
      var before := Dealing(players, designs, slogans, designShare, sloganShare, designDraws, sloganDraws, n - 1);
      DealingFair(players, designs, slogans, designShare, sloganShare, designDraws, sloganDraws, n - 1);
      TurnFair(players, designShare, sloganShare, designs, slogans, before, designDraws[n - 1], sloganDraws[n - 1]);
    }
  }

  /** Every turn only reshuffles the pools, so the dealing leaves them as
      permutations of the original parts. */
  lemma DealingPermutes(players: seq<Player>, designs: seq<Design>, slogans: seq<Slogan>,
                        designShare: nat, sloganShare: nat,
                        designDraws: seq<seq<real>>, sloganDraws: seq<seq<real>>, n: nat)
    requires n <= |players|
    requires ValidDealDraws(designDraws, |players|, |designs|)
    requires ValidDealDraws(sloganDraws, |players|, |slogans|)
    ensures var d := Dealing(players, designs, slogans, designShare, sloganShare, designDraws, sloganDraws, n);
      multiset(d.designs) == multiset(designs) && multiset(d.slogans) == multiset(slogans)
  {
    DealingFair(players, designs, slogans, designShare, sloganShare, designDraws, sloganDraws, n);
  }

  /** The whole dealing, with the fair shares of the original pools, is a
      fair deal to every player and leaves both pools as permutations of
      the original parts. */
  lemma DealingIsFair(players: seq<Player>, designs: seq<Design>, slogans: seq<Slogan>,
                      designDraws: seq<seq<real>>, sloganDraws: seq<seq<real>>,
                      offers: seq<Instruction>, designsAfter: seq<Design>, slogansAfter: seq<Slogan>)
    requires ValidDealDraws(designDraws, |players|, |designs|)
    requires ValidDealDraws(sloganDraws, |players|, |slogans|)
    requires var d := Dealing(players, designs, slogans, Share(|designs|, |players|),
                              Share(|slogans|, |players|), designDraws, sloganDraws, |players|);
      offers == d.offers && designsAfter == d.designs && slogansAfter == d.slogans
    ensures FairDeal(players, Share(|designs|, |players|), Share(|slogans|, |players|), designs, slogans, offers)
    ensures multiset(designsAfter) == multiset(designs)
    ensures multiset(slogansAfter) == multiset(slogans)
  {
    DealingFair(players, designs, slogans, Share(|designs|, |players|), Share(|slogans|, |players|),
                designDraws, sloganDraws, |players|);
    assert players[..|players|] == players;
  }

  class TKO {
    var players: seq<Player>
    var presenters: seq<Presenter>
    var designs: seq<Design>
    var slogans: seq<Slogan>
    var previousRounds: seq<Round>
    var currentRound: Round
    var designAndAssetBonusesEnabled: bool
    var repeatCollectSlogan: bool
    var explainAndWaitUpdater: Option<Updater>
    /** Every `onCommunicate` call so far, oldest first. */
    var outbox: seq<Message<Instruction>>

    constructor(players: seq<Player>, presenters: seq<Presenter>)
      ensures this.players == players && this.presenters == presenters
      ensures designs == [] && slogans == [] && previousRounds == [] && currentRound == EMPTY_ROUND
      ensures designAndAssetBonusesEnabled && repeatCollectSlogan
      ensures explainAndWaitUpdater == None && outbox == []
    {
      this.players := players;
      this.presenters := presenters;
      designs := [];
      slogans := [];
      previousRounds := [];
      currentRound := EMPTY_ROUND;
      designAndAssetBonusesEnabled := true;
      repeatCollectSlogan := true;
      explainAndWaitUpdater := None;
      outbox := [];
    }

    /** What `updateExplainAndWait` sends now: the installed producer's
        statuses to every presenter, or nothing. */
    function StatsUpdate(): (r: seq<Message<Instruction>>)
      reads this
      ensures explainAndWaitUpdater.None? ==> r == []
      ensures explainAndWaitUpdater.Some? ==> |r| == |presenters|
    {
      match explainAndWaitUpdater
      case None => []
      case Some(u) =>
        Broadcast(presenters, ExplainStats(StatsOf(u, players, designs, slogans, currentRound.shirts)))
    }

    method UpdateExplainAndWait()
      modifies this
      ensures outbox == old(outbox) + StatsUpdate()
      ensures players == old(players) && presenters == old(presenters)
      ensures designs == old(designs) && slogans == old(slogans)
      ensures previousRounds == old(previousRounds) && currentRound == old(currentRound)
      ensures designAndAssetBonusesEnabled == old(designAndAssetBonusesEnabled)
      ensures repeatCollectSlogan == old(repeatCollectSlogan)
      ensures explainAndWaitUpdater == old(explainAndWaitUpdater)
    {
      outbox := outbox + StatsUpdate();
    }

    /** `explainAndWait`: installs `updater`, replacing any earlier one, shows
        the explainer and pushes the first statuses. */
    method ExplainAndWait(heading: string, explainer: string, updater: Updater)
      modifies this
      ensures explainAndWaitUpdater == Some(updater)
      ensures outbox == old(outbox) + Broadcast(presenters, ExplainAndWaitStep(heading, explainer, []))
                                    + StatsUpdate()
      ensures players == old(players) && presenters == old(presenters)
      ensures designs == old(designs) && slogans == old(slogans)
      ensures previousRounds == old(previousRounds) && currentRound == old(currentRound)
      ensures designAndAssetBonusesEnabled == old(designAndAssetBonusesEnabled)
      ensures repeatCollectSlogan == old(repeatCollectSlogan)
    {
      explainAndWaitUpdater := Some(updater);
      outbox := outbox + Broadcast(presenters, ExplainAndWaitStep(heading, explainer, []));
      UpdateExplainAndWait();
    }

    /** `input`: a design or slogan is added with the sender as creator; a
        shirt is built from the parts with the given ids; a score is recorded,
        with the halves as bonuses to the parts' creators when bonuses are
        on; a vote joins the latest voting round. Each success pushes the
        live statuses; any other command type fails. `freshId` is the id the
        new design, slogan or shirt gets. */
    method Input(cmd: Command, freshId: string) returns (r: Result<Instruction, Failure>)
      modifies this
      ensures players == old(players) && presenters == old(presenters)
      ensures previousRounds == old(previousRounds)
      ensures designAndAssetBonusesEnabled == old(designAndAssetBonusesEnabled)
      ensures repeatCollectSlogan == old(repeatCollectSlogan)
      ensures explainAndWaitUpdater == old(explainAndWaitUpdater)
      ensures r.Err? ==> designs == old(designs) && slogans == old(slogans)
                         && currentRound == old(currentRound) && outbox == old(outbox)
      ensures r.Ok? ==> r.value == (if cmd.body.SloganCmd? && old(repeatCollectSlogan) then SloganPrompt else Wait)
                        && outbox == old(outbox) + StatsUpdate()
      ensures cmd.body.DesignCmd? ==>
        && r.Ok?
        && designs == old(designs) + [Design(freshId, cmd.sourcePlayerId, cmd.body.base64)]
        && slogans == old(slogans) && currentRound == old(currentRound)
      ensures cmd.body.SloganCmd? ==>
        && r.Ok?
        && slogans == old(slogans) + [Slogan(freshId, cmd.sourcePlayerId, cmd.body.text)]
        && designs == old(designs) && currentRound == old(currentRound)
      ensures cmd.body.ShirtCmd? ==>
        && r.Ok?
        && designs == old(designs) && slogans == old(slogans)
        && currentRound == old(currentRound).(shirts := old(currentRound).shirts
             + [Shirt(freshId, cmd.sourcePlayerId,
                      Find(old(designs), (d: Design) => d.id == cmd.body.designId),
                      Find(old(slogans), (s: Slogan) => s.id == cmd.body.sloganId))])
      ensures cmd.body.ScoreCmd? ==> designs == old(designs) && slogans == old(slogans)
      ensures cmd.body.ScoreCmd? && ShirtById(old(currentRound).shirts, cmd.body.shirtId).None?
        ==> r == Err(UndefinedShirt)
      ensures cmd.body.ScoreCmd? && old(designAndAssetBonusesEnabled)
              && ShirtById(old(currentRound).shirts, cmd.body.shirtId).Some?
              && !HasParts(ShirtById(old(currentRound).shirts, cmd.body.shirtId).value)
        ==> r == Err(if ShirtById(old(currentRound).shirts, cmd.body.shirtId).value.design.None?
                     then UndefinedDesign else UndefinedSlogan)
      ensures cmd.body.ScoreCmd? && ShirtById(old(currentRound).shirts, cmd.body.shirtId).Some?
              && (old(designAndAssetBonusesEnabled)
                  ==> HasParts(ShirtById(old(currentRound).shirts, cmd.body.shirtId).value))
        ==> var shirt := ShirtById(old(currentRound).shirts, cmd.body.shirtId).value;
            && r.Ok?
            && currentRound == old(currentRound).(
                 shirtScores := old(currentRound).shirtScores
                   + [ShirtScore(cmd.sourcePlayerId, shirt, cmd.body.value)],
                 adhocScores := old(currentRound).adhocScores
                   + (if old(designAndAssetBonusesEnabled)
                      then BonusScores(cmd.sourcePlayerId, shirt.design.value, shirt.slogan.value, cmd.body.value)
                      else []))
      ensures cmd.body.VoteCmd? ==>
        var found := ShirtById(old(currentRound).shirts, cmd.body.targetId);
        var rounds := old(currentRound).votingRounds;
        && designs == old(designs) && slogans == old(slogans)
        && (found.None? ==> r == Err(UndefinedShirt))
        && (found.Some? && rounds == [] ==> r == Err(NoVotingRound))
        && (found.Some? && rounds != [] ==>
              && r.Ok?
              && currentRound == old(currentRound).(votingRounds := rounds[..|rounds| - 1]
                   + [rounds[|rounds| - 1] + [Vote(cmd.sourcePlayerId, found.value)]]))
      ensures cmd.body.Other? ==> r == Err(UnknownCommand)
    {
      match cmd.body {
        case DesignCmd(base64) =>
          designs := designs + [Design(freshId, cmd.sourcePlayerId, base64)];
          r := Ok(Wait);
        case SloganCmd(text) =>
          slogans := slogans + [Slogan(freshId, cmd.sourcePlayerId, text)];
          r := Ok(if repeatCollectSlogan then SloganPrompt else Wait);
        case ShirtCmd(designId, sloganId) =>
          var shirt := Shirt(freshId, cmd.sourcePlayerId,
                             Find(designs, (d: Design) => d.id == designId),
                             Find(slogans, (s: Slogan) => s.id == sloganId));
          currentRound := currentRound.(shirts := currentRound.shirts + [shirt]);
          r := Ok(Wait);
        case ScoreCmd(shirtId, value) =>
          var found := ShirtById(currentRound.shirts, shirtId);
          // Every path below dereferences the shirt (the log line at least).
          if found.None? {
            return Err(UndefinedShirt);
          }
          var shirt := found.value;
          var bonuses: seq<AdhocScore> := [];
          if designAndAssetBonusesEnabled {
            if shirt.design.None? {
              return Err(UndefinedDesign);
            }
            if shirt.slogan.None? {
              return Err(UndefinedSlogan);
            }
            bonuses := BonusScores(cmd.sourcePlayerId, shirt.design.value, shirt.slogan.value, value);
          }
          currentRound := currentRound.(adhocScores := currentRound.adhocScores + bonuses);
          currentRound := currentRound.(shirtScores := currentRound.shirtScores
                                          + [ShirtScore(cmd.sourcePlayerId, shirt, value)]);
          r := Ok(Wait);
        case VoteCmd(targetId) =>
          var found := ShirtById(currentRound.shirts, targetId);
          if found.None? {
            return Err(UndefinedShirt);
          }
          var rounds := currentRound.votingRounds;
          if rounds == [] {
            return Err(NoVotingRound);
          }
          var vote := Vote(cmd.sourcePlayerId, found.value);
          currentRound := currentRound.(votingRounds := rounds[..|rounds| - 1]
                                          + [rounds[|rounds| - 1] + [vote]]);
          r := Ok(Wait);
        case Other(_) =>
          return Err(UnknownCommand);
      }
      UpdateExplainAndWait();
    }

    /** `newRound`: files the current round, starts an empty one, drops the
        round's designs and slogans and turns both flags back on. */
    method NewRound()
      modifies this
      ensures previousRounds == old(previousRounds) + [old(currentRound)]
      ensures currentRound == EMPTY_ROUND
      ensures designs == [] && slogans == []
      ensures designAndAssetBonusesEnabled && repeatCollectSlogan
      ensures players == old(players) && presenters == old(presenters)
      ensures explainAndWaitUpdater == old(explainAndWaitUpdater) && outbox == old(outbox)
    {
      previousRounds := previousRounds + [currentRound];
      currentRound := EMPTY_ROUND;
      designs := [];
      slogans := [];
      designAndAssetBonusesEnabled := true;
      repeatCollectSlogan := true;
    }

    /** `computeFinalScoresForRound`: stores the round's final table. */
    method ComputeFinalScoresForRound()
      modifies this
      ensures currentRound == old(currentRound).(finalScores := FinalScores(players, old(currentRound)))
      ensures players == old(players) && presenters == old(presenters)
      ensures designs == old(designs) && slogans == old(slogans)
      ensures previousRounds == old(previousRounds) && outbox == old(outbox)
    {
      currentRound := currentRound.(finalScores := FinalScores(players, currentRound));
    }

    /** The score part of `computeAndBroadcastVotingResult`: every vote of
        the latest voting round becomes a VOTE adhoc score worth
        `floor(1000 / #votes)` for the voted shirt's creator. Fails when
        there is no voting round; an empty one awards nothing. */
    method ComputeVotingResult() returns (r: Result<seq<AdhocScore>, Failure>)
      modifies this
      ensures old(currentRound).votingRounds == [] <==> r == Err(NoVotingRound)
      ensures r.Err? ==> currentRound == old(currentRound)
      ensures r.Ok? ==>
        var votes := old(currentRound).votingRounds[|old(currentRound).votingRounds| - 1];
        && r.value == (if votes == [] then [] else VoteScores(votes, VoteValue(|votes|) as real))
        && currentRound == old(currentRound).(adhocScores := old(currentRound).adhocScores + r.value)
      ensures players == old(players) && presenters == old(presenters)
      ensures designs == old(designs) && slogans == old(slogans)
      ensures previousRounds == old(previousRounds) && outbox == old(outbox)
    {
      var rounds := currentRound.votingRounds;
      if rounds == [] {
        return Err(NoVotingRound);
      }
      var votes := rounds[|rounds| - 1];
      if votes == [] {
        return Ok([]);
      }
      var value := VoteValue(|votes|) as real;
      var i := 0;
      while i < |votes|
        invariant 0 <= i <= |votes|
        invariant currentRound == old(currentRound).(adhocScores := old(currentRound).adhocScores
                                                       + VoteScores(votes[..i], value))
        invariant players == old(players) && presenters == old(presenters)
        invariant designs == old(designs) && slogans == old(slogans)
        invariant previousRounds == old(previousRounds) && outbox == old(outbox)
      {
        assert VoteScores(votes[..i + 1], value) == VoteScores(votes[..i], value)
          + [AdhocScore(votes[i].scorerId, votes[i].voteFor.createdBy, value, VoteBonus)];
        currentRound := currentRound.(adhocScores := currentRound.adhocScores
          + [AdhocScore(votes[i].scorerId, votes[i].voteFor.createdBy, value, VoteBonus)]);
        i := i + 1;
      }
      assert votes[..i] == votes;
      r := Ok(VoteScores(votes, value));
    }

    /** `emitTimer`: shows the remaining seconds on every presenter. */
    method EmitTimer(time: int)
      modifies this`outbox
      ensures outbox == old(outbox) + Broadcast(presenters, Timer(time))
    {
      outbox := outbox + Broadcast(presenters, Timer(time));
    }

    /** A collect loop's countdown over `time` ticks (45 in every collect
        loop): tick `i` (1..time) shows `time - i`, then the loop stops if
        that tick's check `stops[i - 1]` holds. */
    method Countdown(time: nat, stops: seq<bool>) returns (ticks: nat)
      requires |stops| == time
      modifies this`outbox
      ensures ticks == StopTick(stops)
      ensures outbox == old(outbox) + Emissions(presenters, time - 1, ticks)
    {
      var i := 1;
      while i <= time
        invariant 1 <= i <= time + 1
        invariant forall j :: 0 <= j < i - 1 ==> !stops[j]
        invariant outbox == old(outbox) + Emissions(presenters, time - 1, i - 1)
      {
        EmitAppends(old(outbox), presenters, time - 1, i - 1);
        EmitTimer(time - i);
        if stops[i - 1] {
          StopTickAt(stops, i - 1);
          ticks := i;
          return;
        }
        i := i + 1;
      }
      ticks := time;
    }

    /** `collectDesigns`: asks everyone for a design and waits until one
        more per player has arrived; `counts[i]` is the number of designs
        seen after tick `i + 1`. */
    method CollectDesigns(counts: seq<nat>) returns (ticks: nat)
      requires |counts| == COLLECT_TICKS
      modifies this
      ensures ticks == StopTick(Reached(counts, |old(designs)| + |players|))
      ensures outbox == old(outbox) + ToAllPlayers(players, DesignPrompt)
                                    + Emissions(presenters, COLLECT_TICKS - 1, ticks)
      ensures players == old(players) && presenters == old(presenters)
      ensures designs == old(designs) && slogans == old(slogans) && currentRound == old(currentRound)
    {
      var target := |designs| + |players|;
      outbox := outbox + ToAllPlayers(players, DesignPrompt);
      ticks := Countdown(COLLECT_TICKS, Reached(counts, target));
    }

    /** `collectSlogans(target)`: asks everyone for slogans and waits until
        the slogan count equals `target`; with no target (`Infinity`) it
        always runs the full 45 ticks. */
    method CollectSlogans(target: Option<nat>, counts: seq<nat>) returns (ticks: nat)
      requires |counts| == COLLECT_TICKS
      modifies this
      ensures target.None? ==> ticks == COLLECT_TICKS
      ensures target.Some? ==> ticks == StopTick(Reached(counts, target.value))
      ensures outbox == old(outbox) + ToAllPlayers(players, SloganPrompt)
                                    + Emissions(presenters, COLLECT_TICKS - 1, ticks)
      ensures players == old(players) && presenters == old(presenters)
      ensures designs == old(designs) && slogans == old(slogans) && currentRound == old(currentRound)
    {
      outbox := outbox + ToAllPlayers(players, SloganPrompt);
      // With the default target `Infinity` no count ever equals it.
      var stops := if target.Some? then Reached(counts, target.value) else seq(COLLECT_TICKS, _ => false);
      ticks := Countdown(COLLECT_TICKS, stops);
    }

    /** `collectScoresFor`: everyone but the creator is asked to score the
        shirt, and the loop waits for that many new scores. Showing the
        slogan's text fails when the shirt has none and somebody scores. */
    method CollectScoresFor(shirt: Shirt, possibleScores: seq<int>, counts: seq<nat>)
      returns (r: Result<nat, Failure>)
      requires |counts| == COLLECT_TICKS
      modifies this
      ensures var scoring := ScoringPlayers(players, shirt);
        if shirt.slogan.None? && scoring != [] then r == Err(UndefinedSlogan) && outbox == old(outbox)
        else
          var target := |old(currentRound).shirtScores| + |scoring|;
          && r.Ok?
          && r.value == StopTick(Reached(counts, target))
          && outbox == old(outbox)
               + (if scoring == [] then []
                  else ToAllPlayers(scoring, ScorePrompt(shirt.slogan.value.text, shirt.id, possibleScores)))
               + Emissions(presenters, COLLECT_TICKS - 1, r.value)
      ensures players == old(players) && presenters == old(presenters)
      ensures designs == old(designs) && slogans == old(slogans) && currentRound == old(currentRound)
    {
      var scoring := ScoringPlayers(players, shirt);
      if scoring != [] {
        if shirt.slogan.None? {
          return Err(UndefinedSlogan);
        }
        outbox := outbox + ToAllPlayers(scoring, ScorePrompt(shirt.slogan.value.text, shirt.id, possibleScores));
      }
      var target := |currentRound.shirtScores| + |scoring|;
      var ticks := Countdown(COLLECT_TICKS, Reached(counts, target));
      r := Ok(ticks);
    }

    /** `collectVotesBetween`: opens a new voting round, asks everyone whose
        shirt is not up to vote, and waits until each of them has voted.
        Showing the options fails when a shirt has no slogan and somebody
        votes; the voting round is open by then. */
    method CollectVotesBetween(shirts: seq<Shirt>, counts: seq<nat>) returns (r: Result<nat, Failure>)
      requires |counts| == COLLECT_TICKS
      modifies this
      ensures currentRound == old(currentRound).(votingRounds := old(currentRound).votingRounds + [[]])
      ensures var voting := VotingPlayers(players, shirts);
        if VoteOptions(shirts).None? && voting != [] then r == Err(UndefinedSlogan) && outbox == old(outbox)
        else
          && r.Ok?
          && r.value == StopTick(Reached(counts, |voting|))
          && outbox == old(outbox)
               + (if voting == [] then [] else ToAllPlayers(voting, VotePrompt(VoteOptions(shirts).value)))
               + Emissions(presenters, COLLECT_TICKS - 1, r.value)
      ensures players == old(players) && presenters == old(presenters)
      ensures designs == old(designs) && slogans == old(slogans)
    {
      currentRound := currentRound.(votingRounds := currentRound.votingRounds + [[]]);
      var voting := VotingPlayers(players, shirts);
      if voting != [] {
        var options := VoteOptions(shirts);
        if options.None? {
          return Err(UndefinedSlogan);
        }
        outbox := outbox + ToAllPlayers(voting, VotePrompt(options.value));
      }
      var ticks := Countdown(COLLECT_TICKS, Reached(counts, |voting|));
      r := Ok(ticks);
    }

    /** The dealing part of `collectShirts`: for each player in roster order,
        reshuffle the designs in place and deal the first fair share of those
        still available to them, then the same for the slogans, mark what
        was dealt as used and send it. */
    method DealShirtParts(designDraws: seq<seq<real>>, sloganDraws: seq<seq<real>>)
      returns (offers: seq<Instruction>)
      requires ValidDealDraws(designDraws, |players|, |designs|)
      requires ValidDealDraws(sloganDraws, |players|, |slogans|)
      modifies this`designs, this`slogans, this`outbox
      ensures var d := Dealing(players, old(designs), old(slogans), Share(|old(designs)|, |players|),
                               Share(|old(slogans)|, |players|), designDraws, sloganDraws, |players|);
        offers == d.offers && designs == d.designs && slogans == d.slogans
      ensures outbox == old(outbox) + DealMessages(players, offers)
      ensures multiset(designs) == multiset(old(designs))
      ensures multiset(slogans) == multiset(old(slogans))
    {
      var n := |players|;
      var takeDesigns := Share(|designs|, n);
      var takeSlogans := Share(|slogans|, n);
      var used: set<string> := {};
      offers := [];
      var i := 0;
      while i < n
        invariant 0 <= i <= n && |offers| == i
        invariant Dealing(players, old(designs), old(slogans), takeDesigns, takeSlogans, designDraws, sloganDraws, i)
               == Dealt(designs, slogans, used, offers)
        invariant |designs| == |old(designs)| && |slogans| == |old(slogans)|
        invariant outbox == old(outbox) + DealMessages(players[..i], offers)
      {
        var offer;
        offer, used := DealOne(i, used, takeDesigns, takeSlogans, designDraws, sloganDraws, old(designs), old(slogans), offers);
        DealMessagesAppend(players, offers, offer);
        AppendAssoc(old(outbox), DealMessages(players[..i], offers), [ToPlayer(players[i].id, offer)]);
        offers := offers + [offer];
        i := i + 1;
      }
      assert players[..i] == players;
      DealingPermutes(players, old(designs), old(slogans), takeDesigns, takeSlogans, designDraws, sloganDraws, n);
    }

    /** One player's turn of the dealing (the `forEach` callback): reshuffle
        the designs, take the first `designShare` of those available to the
        player, then the same for the slogans; mark what was taken as used
        and send it to the player. */
    method DealOne(i: nat, used: set<string>, designShare: nat, sloganShare: nat,
                   designDraws: seq<seq<real>>, sloganDraws: seq<seq<real>>,
                   ghost designs0: seq<Design>, ghost slogans0: seq<Slogan>, ghost offers: seq<Instruction>)
      returns (offer: Instruction, usedAfter: set<string>)
      requires i < |players|
      requires ValidDealDraws(designDraws, |players|, |designs0|)
      requires ValidDealDraws(sloganDraws, |players|, |slogans0|)
      requires Dealing(players, designs0, slogans0, designShare, sloganShare, designDraws, sloganDraws, i)
            == Dealt(designs, slogans, used, offers)
      modifies this`designs, this`slogans, this`outbox
      ensures designs == Util.Shuffled(old(designs), designDraws[i])
      ensures slogans == Util.Shuffled(old(slogans), sloganDraws[i])
      ensures offer == ShirtPrompt(DesignsFor(designs, players[i].id, used, designShare),
                                   SlogansFor(slogans, players[i].id, used, sloganShare))
      ensures usedAfter == used + DesignIds(offer.designs) + SloganIds(offer.slogans)
      ensures outbox == old(outbox) + [ToPlayer(players[i].id, offer)]
      ensures Dealing(players, designs0, slogans0, designShare, sloganShare, designDraws, sloganDraws, i + 1)
           == Dealt(designs, slogans, usedAfter, offers + [offer])
    {
      var id := players[i].id;
      ghost var before := Dealt(designs, slogans, used, offers);
      designs := Util.ShuffleSeq(designs, designDraws[i]);
      var designsForMe := DesignsFor(designs, id, used, designShare);
      slogans := Util.ShuffleSeq(slogans, sloganDraws[i]);
      var slogansForMe := SlogansFor(slogans, id, used, sloganShare);
      usedAfter := used + DesignIds(designsForMe) + SloganIds(slogansForMe);
      offer := ShirtPrompt(designsForMe, slogansForMe);
      outbox := outbox + [ToPlayer(id, offer)];
      DealingNext(players, designs0, slogans0, designShare, sloganShare, designDraws, sloganDraws, i,
                  before, designs, slogans, offer);
    }

    /** `collectShirts`: deals the parts, then waits until every player has
        submitted one more shirt. */
    method CollectShirts(designDraws: seq<seq<real>>, sloganDraws: seq<seq<real>>, counts: seq<nat>)
      returns (offers: seq<Instruction>, ticks: nat)
      requires ValidDealDraws(designDraws, |players|, |designs|)
      requires ValidDealDraws(sloganDraws, |players|, |slogans|)
      requires |counts| == COLLECT_TICKS
      modifies this`designs, this`slogans, this`outbox
      ensures var d := Dealing(players, old(designs), old(slogans), Share(|old(designs)|, |players|),
                               Share(|old(slogans)|, |players|), designDraws, sloganDraws, |players|);
        offers == d.offers && designs == d.designs && slogans == d.slogans
      ensures FairDeal(players, Share(|old(designs)|, |players|), Share(|old(slogans)|, |players|),
                       old(designs), old(slogans), offers)
      ensures ticks == StopTick(Reached(counts, |currentRound.shirts| + |players|))
      ensures outbox == old(outbox) + DealMessages(players, offers)
                                    + Emissions(presenters, COLLECT_TICKS - 1, ticks)
      ensures multiset(designs) == multiset(old(designs))
      ensures multiset(slogans) == multiset(old(slogans))
    {
      offers := DealShirtParts(designDraws, sloganDraws);
      DealingIsFair(players, old(designs), old(slogans), designDraws, sloganDraws, offers, designs, slogans);
      var target := |currentRound.shirts| + |players|;
      ticks := Countdown(COLLECT_TICKS, Reached(counts, target));
    }
  }

  /** One `shirt` message per player with the parts dealt to them. */
  function DealMessages(players: seq<Player>, offers: seq<Instruction>): (r: seq<Message<Instruction>>)
    requires |offers| == |players|
    ensures |r| == |players|
    ensures forall i :: 0 <= i < |players| ==> r[i] == ToPlayer(players[i].id, offers[i])
  {
    seq(|players|, i requires 0 <= i < |players| => Message<Instruction>.ToPlayer(players[i].id, offers[i]))
  }
}
