/** The records and messages shared by the game server and its presenter
    display (lib/SharedTypes.ts and server/Games/Game.ts), and the outbound
    messages as the delivery callback `onCommunicate` receives them. */
module SharedTypes {

  /** A participant; the id is namespaced by the room. */
  datatype Player = Player(id: string, name: string)

  /** A display screen; the creator may start the game. */
  datatype Presenter = Presenter(id: string, isCreator: bool)

  /** One line of the live status shown while waiting. */
  datatype StatusValue = Count(n: nat) | Label(text: string)
  datatype Status = Status(player: Player, status: StatusValue)

  /** The presenter commands the modelled server code sends. */
  datatype PresenterCommand =
    | AllPlayers(players: seq<Player>)
    | Timer(time: int)
    /** The explain step; its `stats` (`explainStats`) are sent empty, so
        the statuses of an earlier wait are cleared. */
    | ExplainAndWaitStep(heading: string, explainer: string, stats: seq<Status>)
    | ExplainStats(stats: seq<Status>)

  /** One call of `onCommunicate(id, payload)`; `I` is the game's player
      instruction type. */
  datatype Message<I> =
    | ToPlayer(playerId: string, instruction: I)
    | ToPresenter(presenterId: string, command: PresenterCommand)

  /** `sendToAllPresenters`: one message per presenter, in roster order. */
  function Broadcast<I>(presenters: seq<Presenter>, cmd: PresenterCommand): (r: seq<Message<I>>)
    ensures |r| == |presenters|
    ensures forall k :: 0 <= k < |r| ==> r[k] == ToPresenter(presenters[k].id, cmd)
  {
    seq(|presenters|, k requires 0 <= k < |presenters| => ToPresenter(presenters[k].id, cmd))
  }

  /** The timer broadcasts of `n` ticks of a countdown that starts at `start`:
      tick `k` shows `start - k` on every presenter. */
  function Emissions<I>(presenters: seq<Presenter>, start: int, n: nat): seq<Message<I>>
  {
    if n == 0 then []
    else Emissions(presenters, start, n - 1) + Broadcast(presenters, Timer(start - (n - 1)))
  }

  lemma AppendAssoc<T>(a: seq<T>, b: seq<T>, c: seq<T>)
    ensures (a + b) + c == a + (b + c)
  {
  }

  /** One more tick appends one more broadcast of the next value. */
  lemma EmissionsStep<I>(presenters: seq<Presenter>, start: int, n: nat)
    ensures Emissions<I>(presenters, start, n + 1)
         == Emissions<I>(presenters, start, n) + Broadcast(presenters, Timer(start - n))
  {
  }

  /** Sending the next tick's broadcast after `n` ticks gives the output of
      `n + 1` ticks. */
  lemma EmitAppends<I>(before: seq<Message<I>>, presenters: seq<Presenter>, start: int, n: nat)
    ensures before + Emissions<I>(presenters, start, n) + Broadcast(presenters, Timer(start - n))
         == before + Emissions<I>(presenters, start, n + 1)
  {
    EmissionsStep<I>(presenters, start, n);
    AppendAssoc(before, Emissions<I>(presenters, start, n), Broadcast(presenters, Timer(start - n)));
  }

  /** Every tick reaches every presenter. */
  lemma {:induction false} EmissionsLength<I>(presenters: seq<Presenter>, start: int, n: nat)
    ensures |Emissions<I>(presenters, start, n)| == n * |presenters|
  {
    if n > 0 {
      EmissionsLength<I>(presenters, start, n - 1);
      assert (n - 1) * |presenters| + |presenters| == n * |presenters|;
    }
  }

  /** Seen by one presenter, the countdown reads `start, start - 1, ...`,
      one value per tick. */
  lemma {:induction false} EmissionsCountDown<I>(p: Presenter, start: int, n: nat)
    ensures Emissions<I>([p], start, n)
         == seq(n, t requires 0 <= t < n => Message<I>.ToPresenter(p.id, Timer(start - t)))
  {
    if n > 0 {
      EmissionsCountDown<I>(p, start, n - 1);
    }
  }

  /** How many ticks a polling loop runs when `stops[k]` is its check after
      tick `k`: it stops after the first tick whose check holds, otherwise it
      runs every tick. */
  function StopTick(stops: seq<bool>): (t: nat)
    ensures t <= |stops|
    ensures (forall k :: 0 <= k < |stops| ==> !stops[k]) ==> t == |stops|
    ensures (exists k :: 0 <= k < |stops| && stops[k]) ==>
      0 < t && stops[t - 1] && forall k :: 0 <= k < t - 1 ==> !stops[k]
  {
    if stops == [] then 0
    else if stops[0] then 1
    else
      assert forall k :: 1 <= k < |stops| ==> stops[k] == stops[1..][k - 1];
      1 + StopTick(stops[1..])
  }

  /** A loop that has seen no stop in its first `i` checks and sees one at
      check `i` has run `StopTick` ticks. */
  lemma {:induction false} StopTickAt(stops: seq<bool>, i: nat)
    requires i < |stops| && stops[i]
    requires forall k :: 0 <= k < i ==> !stops[k]
    ensures StopTick(stops) == i + 1
  {
    if i > 0 {
      assert stops[1..][i - 1] == stops[i];
      StopTickAt(stops[1..], i - 1);
    }
  }
}
