/** The presenter display's state (presenter/src/store/Store.ts): the page
    shown, the player roster, the step metadata and the timer, all updated
    by the commands the game server sends. */
module PresenterStore {
  import opened Wrappers
  import opened SharedTypes

  /** The screens of the presenter display. */
  datatype Page = Landing | Lobby | Round | ExplainAndWait | Announcement | VsVote | ShowScores

  /** A metadata value as the display holds it; a key that was assigned
      `undefined` is present and holds `Undefined`. */
  datatype Value = Undefined | Defined(json: string)

  type Metadata = map<string, Value>

  /** An incoming presenter command, by its `type` field. */
  datatype Command =
    | AllPlayersCmd(players: seq<Player>)
    | StepCmd(step: string, metadata: Metadata)
    | PureMetadataCmd(metadata: Metadata)
    | TimerCmd(time: int)
    | OtherCmd(kind: string)

  const ANNOUNCEMENT_HEADING: string := "announcementHeading"
  const ANNOUNCEMENT_SUBTEXT: string := "announcementSubtext"
  const ANNOUNCEMENT_SHIRT: string := "announcementShirt"

  /** The keys an announcement step always assigns. */
  function AnnouncementKeys(): set<string>
  {
    {ANNOUNCEMENT_HEADING, ANNOUNCEMENT_SUBTEXT, ANNOUNCEMENT_SHIRT}
  }

  /** `Object.assign(target, update)`: every key of the update is copied over
      the target; the target's other keys are kept. */
  function Merge(target: Metadata, update: Metadata): (r: Metadata)
    ensures r.Keys == target.Keys + update.Keys
    ensures forall key :: key in update ==> r[key] == update[key]
    ensures forall key :: key in target && key !in update ==> r[key] == target[key]
  {
    target + update
  }

  /** The value destructuring reads for `key`: `undefined` when absent. */
  function Field(m: Metadata, key: string): (v: Value)
    ensures key in m ==> v == m[key]
    ensures key !in m ==> v == Undefined
  {
    if key in m then m[key] else Undefined
  }

  /** The object `{ announcementHeading, announcementSubtext,
      announcementShirt }` built from a step's metadata: exactly the three
      keys, absent ones as `undefined`. */
  function AnnouncementFields(m: Metadata): (r: Metadata)
    ensures r.Keys == AnnouncementKeys()
    ensures forall key :: key in r ==> r[key] == Field(m, key)
  {
    map[ANNOUNCEMENT_HEADING := Field(m, ANNOUNCEMENT_HEADING),
        ANNOUNCEMENT_SUBTEXT := Field(m, ANNOUNCEMENT_SUBTEXT),
        ANNOUNCEMENT_SHIRT := Field(m, ANNOUNCEMENT_SHIRT)]
  }

  /** The page a step opens, if it opens one. */
  function StepPage(step: string): (p: Option<Page>)
    ensures step == "round" <==> p == Some(Round)
    ensures step == "explain-and-wait" <==> p == Some(ExplainAndWait)
    ensures step == "announcement" <==> p == Some(Announcement)
    ensures step == "vs-vote" <==> p == Some(VsVote)
    ensures step == "show-scores" <==> p == Some(ShowScores)
    ensures p.Some? ==> p.value !in {Landing, Lobby}
  {
    if step == "round" then Some(Round)
    else if step == "explain-and-wait" then Some(ExplainAndWait)
    else if step == "announcement" then Some(Announcement)
    else if step == "vs-vote" then Some(VsVote)
    else if step == "show-scores" then Some(ShowScores)
    else None
  }

  /** The metadata after a step: an announcement assigns its three keys,
      any other step merges everything it carries. */
  function StepMetadata(current: Metadata, step: string, update: Metadata): (r: Metadata)
    ensures step == "announcement" ==> r.Keys == current.Keys + AnnouncementKeys()
    ensures step != "announcement" ==> r.Keys == current.Keys + update.Keys
  {
    if step == "announcement" then Merge(current, AnnouncementFields(update))
    else Merge(current, update)
  }

  /** An announcement leaves nothing of the previous announcement behind:
      each of its keys holds the new step's value or `undefined`. */
  lemma AnnouncementClearsStale(current: Metadata, update: Metadata, key: string)
    requires key in AnnouncementKeys()
    ensures key in StepMetadata(current, "announcement", update)
    ensures StepMetadata(current, "announcement", update)[key]
         == (if key in update then update[key] else Undefined)
  {
  }

  /** An announcement touches no key but its three. */
  lemma AnnouncementKeepsOthers(current: Metadata, update: Metadata, key: string)
    requires key in current && key !in AnnouncementKeys()
    ensures key in StepMetadata(current, "announcement", update)
    ensures StepMetadata(current, "announcement", update)[key] == current[key]
  {
  }

  /** Replaying a merge changes nothing more. */
  lemma MergeIdempotent(target: Metadata, update: Metadata)
    ensures Merge(Merge(target, update), update) == Merge(target, update)
  {
  }

  class Store {
    var currentPage: Page
    var players: seq<Player>
    var metadata: Metadata
    var timer: int

    /** A fresh display: landing page, no players, no metadata, timer 0. */
    constructor()
      ensures currentPage == Landing && players == [] && metadata == map[] && timer == 0
    {
      currentPage := Landing;
      players := [];
      metadata := map[];
      timer := 0;
    }

    /** `goToPage`. */
    method GoToPage(page: Page)
      modifies this
      ensures currentPage == page
      ensures players == old(players) && metadata == old(metadata) && timer == old(timer)
    {
      currentPage := page;
    }

    /** `consumeCommand`: each command type changes only its own part of
        the state. */
    method ConsumeCommand(cmd: Command)
      modifies this
      ensures cmd.AllPlayersCmd? ==>
        players == cmd.players && currentPage == old(currentPage)
        && metadata == old(metadata) && timer == old(timer)
      ensures cmd.StepCmd? ==>
        metadata == StepMetadata(old(metadata), cmd.step, cmd.metadata)
        && currentPage == (if StepPage(cmd.step).Some? then StepPage(cmd.step).value else old(currentPage))
        && players == old(players) && timer == old(timer)
      ensures cmd.PureMetadataCmd? ==>
        metadata == Merge(old(metadata), cmd.metadata)
        && currentPage == old(currentPage) && players == old(players) && timer == old(timer)
      ensures cmd.TimerCmd? ==>
        timer == cmd.time
        && currentPage == old(currentPage) && players == old(players) && metadata == old(metadata)
      ensures cmd.OtherCmd? ==>
        currentPage == old(currentPage) && players == old(players)
        && metadata == old(metadata) && timer == old(timer)
    {
      if cmd.AllPlayersCmd? {
        players := cmd.players;
      }
      if cmd.StepCmd? {
        var step := cmd.step;
        if step == "announcement" {
          metadata := Merge(metadata, AnnouncementFields(cmd.metadata));
        } else {
          metadata := Merge(metadata, cmd.metadata);
        }
        if step == "round" {
          GoToPage(Round);
        }
        if step == "explain-and-wait" {
          GoToPage(ExplainAndWait);
        }
        if step == "announcement" {
          GoToPage(Announcement);
        }
        if step == "vs-vote" {
          GoToPage(VsVote);
        }
        if step == "show-scores" {
          GoToPage(ShowScores);
        }
      }
      if cmd.PureMetadataCmd? {
        metadata := Merge(metadata, cmd.metadata);
      }
      if cmd.TimerCmd? {
        timer := cmd.time;
      }
    }
  }
}
