/** The session registry and turn timer every game script builds on
    (server/Games/BaseGame.ts).

    A game opens a session with `RequestInput`; inbound commands are routed
    to the first active session that targets their sender. The handler a
    session runs is a closure of the owning game in the original; here a
    session carries a handler tag `H` and the owning game runs the handler
    after `Input` has routed and recorded the command. Outbound messages are
    appended to `outbox` in the order `onCommunicate` would receive them. */
module BaseGame {
  import opened Wrappers
  import opened Lookup
  import opened SharedTypes

  /** Seconds a phase waits for input before it is force-ended. */
  const DEFAULT_WAITING_TIME: nat := 90

  /** An inbound command envelope; the metadata `C` is the game's. */
  datatype Command<C> = Command(sourcePlayerId: string, metadata: C)

  /** What `who()` evaluates to: `'all'` or an explicit list of players. */
  datatype Targets = All | Only(players: seq<Player>)

  /** A request for input and the responses it has collected so far. */
  datatype Session<H, C> = Session(
    id: string,
    active: bool,
    handler: H,
    targetIds: seq<string>,
    responses: seq<Command<C>>)

  /** The outcome of routing: the `no-op` reply, or the claiming session with
      the sender's roster entry (undefined when absent) and the responses
      including the new one, ready for the session's handler. */
  datatype Routing<H, C> =
    | NoOp
    | Claimed(index: nat, handler: H, player: Option<Player>, responses: seq<Command<C>>)

  function TargetsOf(who: Targets, players: seq<Player>): seq<Player>
  {
    match who
    case All => players
    case Only(ps) => ps
  }

  function Ids(ps: seq<Player>): (r: seq<string>)
    ensures |r| == |ps| && forall k :: 0 <= k < |ps| ==> r[k] == ps[k].id
  {
    seq(|ps|, k requires 0 <= k < |ps| => ps[k].id)
  }

  /** A session claims a player while it is active and targets them. */
  predicate Claims<H, C>(s: Session<H, C>, playerId: string)
  {
    s.active && playerId in s.targetIds
  }

  /** The session `input` picks: the first in creation order that claims
      the player, or -1. */
  function ClaimingSession<H, C>(sessions: seq<Session<H, C>>, playerId: string): (r: int)
    ensures -1 <= r < |sessions|
    ensures r >= 0 ==> Claims(sessions[r], playerId)
                       && forall k :: 0 <= k < r ==> !Claims(sessions[k], playerId)
    ensures r == -1 <==> forall k :: 0 <= k < |sessions| ==> !Claims(sessions[k], playerId)
  {
    FindIndex(sessions, (s: Session<H, C>) => Claims(s, playerId))
  }

  /** `end()`: the session, deactivated. */
  function Deactivated<H, C>(sessions: seq<Session<H, C>>, k: nat): (r: seq<Session<H, C>>)
    requires k < |sessions|
    ensures |r| == |sessions| && !r[k].active
    ensures r[k] == sessions[k].(active := false)
    ensures forall j :: 0 <= j < |sessions| && j != k ==> r[j] == sessions[j]
  {
    sessions[k := sessions[k].(active := false)]
  }

  /** Ending a session twice is the same as ending it once. */
  lemma DeactivateIdempotent<H, C>(sessions: seq<Session<H, C>>, k: nat)
    requires k < |sessions|
    ensures Deactivated(Deactivated(sessions, k), k) == Deactivated(sessions, k)
  {
  }

  /** A routed command lands in the claiming session only. */
  function Recorded<H, C>(sessions: seq<Session<H, C>>, k: nat, cmd: Command<C>): (r: seq<Session<H, C>>)
    requires k < |sessions|
    ensures |r| == |sessions|
    ensures r[k].responses == sessions[k].responses + [cmd]
    ensures r[k] == sessions[k].(responses := sessions[k].responses + [cmd])
    ensures forall j :: 0 <= j < |sessions| && j != k ==> r[j] == sessions[j]
  {
    sessions[k := sessions[k].(responses := sessions[k].responses + [cmd])]
  }

  class BaseGame<H, U, C, I> {
    const gameCode: string
    var players: seq<Player>
    var presenters: seq<Presenter>
    var sessions: seq<Session<H, C>>
    /** The current live-status producer of explain-and-wait, if any. */
    var explainAndWaitUpdater: Option<U>
    /** Every `onCommunicate` call so far, oldest first. */
    var outbox: seq<Message<I>>

    /** A new game; the room code is generated by `Util.GenerateRoomCode`. */
    constructor(gameCode: string)
      ensures this.gameCode == gameCode
      ensures players == [] && presenters == [] && sessions == []
      ensures explainAndWaitUpdater == None && outbox == []
    {
      this.gameCode := gameCode;
      players := [];
      presenters := [];
      sessions := [];
      explainAndWaitUpdater := None;
      outbox := [];
    }

    /** `sendToAllPresenters`. */
    method SendToAllPresenters(cmd: PresenterCommand)
      modifies this`outbox
      ensures outbox == old(outbox) + Broadcast(presenters, cmd)
    {
      outbox := outbox + Broadcast(presenters, cmd);
    }

    /** `addPlayer`: appends one player, whose id is `player-<room>-<suffix>`
        with a fresh `suffix`, and shows the new roster on every presenter. */
    method AddPlayer(name: string, suffix: string) returns (p: Player)
      modifies this
      ensures p == Player("player-" + gameCode + "-" + suffix, name)
      ensures players == old(players) + [p]
      ensures outbox == old(outbox) + Broadcast(presenters, AllPlayers(players))
      ensures presenters == old(presenters) && sessions == old(sessions)
      ensures explainAndWaitUpdater == old(explainAndWaitUpdater)
    {
      p := Player("player-" + gameCode + "-" + suffix, name);
      players := players + [p];
      SendToAllPresenters(AllPlayers(players));
    }

    /** `addPresenter`: appends one presenter with a fresh id. */
    method AddPresenter(isCreator: bool, suffix: string) returns (p: Presenter)
      modifies this
      ensures p == Presenter("presenter-" + gameCode + "-" + suffix, isCreator)
      ensures presenters == old(presenters) + [p]
      ensures players == old(players) && sessions == old(sessions) && outbox == old(outbox)
      ensures explainAndWaitUpdater == old(explainAndWaitUpdater)
    {
      p := Presenter("presenter-" + gameCode + "-" + suffix, isCreator);
      presenters := presenters + [p];
    }

    /** `playerByName`: the first player with that name, if any. */
    function PlayerByName(name: string): (r: Option<Player>)
      reads this
      ensures r.None? <==> forall k :: 0 <= k < |players| ==> players[k].name != name
      ensures r.Some? ==> exists k :: 0 <= k < |players| && players[k] == r.value && r.value.name == name
                                      && forall j :: 0 <= j < k ==> players[j].name != name
    {
      Find(players, (pl: Player) => pl.name == name)
    }

    /** `hasPlayerId`: whether some player has that id. */
    function HasPlayerId(id: string): (r: bool)
      reads this
      ensures r <==> exists k :: 0 <= k < |players| && players[k].id == id
    {
      FindIndex(players, (pl: Player) => pl.id == id) >= 0
    }

    /** The routing half of `input`: the first active session targeting the
        sender gets the command appended to its responses, and the handler is
        then due; with no such session the reply is `no-op` and nothing
        changes. The caller runs the handler and the status update. */
    method Input(cmd: Command<C>) returns (r: Routing<H, C>)
      modifies this`sessions
      ensures var k := ClaimingSession(old(sessions), cmd.sourcePlayerId);
        if k == -1 then r == NoOp && sessions == old(sessions)
        else
          && r == Claimed(k, old(sessions)[k].handler,
                          Find(players, (pl: Player) => pl.id == cmd.sourcePlayerId),
                          old(sessions)[k].responses + [cmd])
          && sessions == Recorded(old(sessions), k, cmd)
    {
      var k := ClaimingSession(sessions, cmd.sourcePlayerId);
      if k == -1 {
        return NoOp;
      }
      var player := Find(players, (pl: Player) => pl.id == cmd.sourcePlayerId);
      sessions := Recorded(sessions, k, cmd);
      r := Claimed(k, sessions[k].handler, player, sessions[k].responses);
    }

    /** `requestInput`: opens one active session, with no responses, over
        all current players (`'all'`) or exactly the listed ones, and sends
        target `i` the instruction `instructions[i]` built for it, in target
        order. The new session's index is its handle for `End`/`HasEnded`. */
    method RequestInput(who: Targets, instructions: seq<I>, handler: H, sessionId: string)
      returns (k: nat)
      requires |instructions| == |TargetsOf(who, players)|
      modifies this
      ensures k == |old(sessions)|
      ensures sessions == old(sessions)
        + [Session(sessionId, true, handler, Ids(TargetsOf(who, old(players))), [])]
      ensures var targets := TargetsOf(who, old(players));
        outbox == old(outbox) + seq(|targets|, i requires 0 <= i < |targets| =>
                                      Message<I>.ToPlayer(targets[i].id, instructions[i]))
      ensures players == old(players) && presenters == old(presenters)
      ensures explainAndWaitUpdater == old(explainAndWaitUpdater)
    {
      var targets := TargetsOf(who, players);
      k := |sessions|;
      sessions := sessions + [Session(sessionId, true, handler, Ids(targets), [])];
      var i := 0;
      while i < |targets|
        invariant 0 <= i <= |targets|
        invariant outbox == old(outbox) + seq(i, j requires 0 <= j < i =>
                                                Message<I>.ToPlayer(targets[j].id, instructions[j]))
        invariant players == old(players) && presenters == old(presenters)
        invariant sessions == old(sessions) + [Session(sessionId, true, handler, Ids(targets), [])]
        invariant explainAndWaitUpdater == old(explainAndWaitUpdater)
      {
        outbox := outbox + [ToPlayer(targets[i].id, instructions[i])];
        i := i + 1;
      }
    }

    /** The `end` closure of session `k`: deactivates it and returns the value
        of the assignment `session.active = false`, so always false. */
    method End(k: nat) returns (r: bool)
      requires k < |sessions|
      modifies this`sessions
      ensures sessions == Deactivated(old(sessions), k)
      ensures !r && HasEnded(k)
    {
      sessions := Deactivated(sessions, k);
      r := false;
    }

    /** The `hasEnded` closure of session `k`. */
    predicate HasEnded(k: nat)
      requires k < |sessions|
      reads this
      ensures HasEnded(k) ==> forall id :: ClaimingSession(sessions, id) != k
    {
      !sessions[k].active
    }

    /** `emitTimer`: shows the remaining seconds on every presenter. */
    method EmitTimer(time: int)
      modifies this`outbox
      ensures outbox == old(outbox) + Broadcast(presenters, Timer(time))
    {
      SendToAllPresenters(Timer(time));
    }

    /** `defaultTurnTimer(hasEnded, end, time)` for session `k`: per tick it
        emits `time - i`, sleeps (not modelled) and reads `hasEnded()`, whose
        successive answers are `observed`. It returns as soon as an answer is
        true, without calling `end`; if none is, it calls `end` once after
        `time` ticks. Returns the number of ticks run. */
    method DefaultTurnTimer(k: nat, time: nat, observed: seq<bool>) returns (ticks: nat)
      requires k < |sessions| && |observed| == time
      modifies this`outbox, this`sessions
      ensures ticks == StopTick(observed)
      ensures outbox == old(outbox) + Emissions(presenters, time, ticks)
      ensures (exists i :: 0 <= i < time && observed[i]) ==> sessions == old(sessions)
      ensures (forall i :: 0 <= i < time ==> !observed[i]) ==> sessions == Deactivated(old(sessions), k)
    {
      var i := 0;
      while i < time
        invariant 0 <= i <= time
        invariant forall j :: 0 <= j < i ==> !observed[j]
        invariant outbox == old(outbox) + Emissions(presenters, time, i)
        invariant sessions == old(sessions)
      {
        EmitAppends(old(outbox), presenters, time, i);
        EmitTimer(time - i);
        if observed[i] {
          StopTickAt(observed, i);
          ticks := i + 1;
          return;
        }
        i := i + 1;
      }
      var _ := End(k);
      ticks := time;
    }

    /** `explainAndWait`: installs `updater` as the live-status producer,
        replacing any earlier one, shows the explain-and-wait step and pushes
        the producer's current output `stats` at once. */
    method ExplainAndWait(heading: string, explainer: string, updater: U, stats: seq<Status>)
      modifies this
      ensures explainAndWaitUpdater == Some(updater)
      ensures outbox == old(outbox) + Broadcast(presenters, ExplainAndWaitStep(heading, explainer, []))
                                    + Broadcast(presenters, ExplainStats(stats))
      ensures players == old(players) && presenters == old(presenters) && sessions == old(sessions)
    {
      explainAndWaitUpdater := Some(updater);
      SendToAllPresenters(ExplainAndWaitStep(heading, explainer, []));
      UpdateExplainAndWait(stats);
    }

    /** `updateExplainAndWait`: pushes the installed producer's current output
        `stats`; does nothing when no producer is installed. */
    method UpdateExplainAndWait(stats: seq<Status>)
      modifies this`outbox
      ensures outbox == if explainAndWaitUpdater.None? then old(outbox)
                        else old(outbox) + Broadcast(presenters, ExplainStats(stats))
    {
      if explainAndWaitUpdater.Some? {
        SendToAllPresenters(ExplainStats(stats));
      }
    }
  }
}
