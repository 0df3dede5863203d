/** The dialogue of the NPC Zelan and the quest "unicorn horns for Zelan", as
    the quest's end-to-end test fixes it: the conversation states, the
    player's quest slot, and the karma, experience and inventory effects of
    each utterance. The transition table holds exactly the transitions the
    test exercises; an utterance with no entry for the current situation
    leaves everything as it is. */
module ZelanQuest {
  import opened Wrappers

  datatype ConversationState = Idle | Attending | QuestOffered

  const Horn := "unicorn horn"
  const Soup := "soup"
  const Money := "money"
  const HornsWanted := 10

  const OfferReply := "Hello! I'm in need of some unicorn horns to make some daggers."
    + " It is really dangerous in the woods surrounding Atlantis. If you are a brave sort"
    + " I could really use some help gathering unicorn horns. Will you help me?"
  const RejectReply := "Thats ok, I will find someone else to help me."
  const AcceptReply := "Great! Be careful out there lots of large monsters, and those centaurs are really nasty"
  const ReminderReply := "I asked you to bring me 10 unicorn horns."
  const RewardReply := "Thanks a bunch! As a reward I will give you 3 soups and 20000 money."

  /** Everything a conversation step reads or writes: the NPC's state and
      last reply (`None` where the test fixes no text), and the player's
      quest slot (its first token), karma, experience and equipped items. */
  datatype World = World(state: ConversationState, reply: Option<string>, quest: Option<string>,
                         karma: int, xp: int, items: map<string, nat>)

  function Count(items: map<string, nat>, name: string): nat {
    if name in items then items[name] else 0
  }

  function AddItems(items: map<string, nat>, name: string, n: int): map<string, nat>
    requires Count(items, name) + n >= 0
  {
    items[name := Count(items, name) + n]
  }

  /** The quest can be offered when the player has never answered or has
      rejected it. */
  predicate Offerable(quest: Option<string>) {
    quest == None || quest == Some("rejected")
  }

  /** The words the test says. Any other text has no transition. */
  datatype Word = Hi | Bye | Quest | Yes | No | Done

  function Recognise(text: string): Option<Word> {
    if text == "hi" then Some(Hi)
    else if text == "bye" then Some(Bye)
    else if text == "quest" then Some(Quest)
    else if text == "yes" then Some(Yes)
    else if text == "no" then Some(No)
    else if text == "done" then Some(Done)
    else None
  }

  /** The (state, word) pairs the transition table has an entry for. */
  predicate HasTransition(state: ConversationState, word: Word) {
    (state == Idle && word == Hi)
    || (state == Attending && (word == Bye || word == Quest || word == Done))
    || (state == QuestOffered && (word == No || word == Yes))
  }

  /** The transition table, keyed by the current state and the word said. */
  function Transition(w: World, word: Word): (r: World)
    ensures r.karma == w.karma || (r.karma == w.karma + 5 && r.quest == Some("done") && w.quest == Some("start"))
    ensures !HasTransition(w.state, word) ==> r == w
  {
    match (w.state, word)
    case (Idle, Hi) => w.(state := Attending, reply := None)
    case (Attending, Bye) => w.(state := Idle, reply := None)
    case (Attending, Quest) =>
      if Offerable(w.quest) then w.(state := QuestOffered, reply := Some(OfferReply)) else w
    case (QuestOffered, No) =>
      w.(state := Attending, reply := Some(RejectReply), quest := Some("rejected"))
    case (QuestOffered, Yes) =>
      w.(state := Attending, reply := Some(AcceptReply), quest := Some("start"))
    case (Attending, Done) =>
      if w.quest != Some("start") then w
      else if Count(w.items, Horn) < HornsWanted then w.(reply := Some(ReminderReply))
      else
        var items := AddItems(AddItems(AddItems(w.items, Horn, -HornsWanted), Soup, 3), Money, 20000);
        w.(reply := Some(RewardReply), quest := Some("done"), karma := w.karma + 5, xp := w.xp + 50000, items := items)
    case _ => w
  }

  /** `step(player, text)` on the world: text the table does not know, and
      a known word the current state has no entry for, leave everything
      unchanged. */
  function Step(w: World, text: string): (r: World)
    ensures Recognise(text).None? ==> r == w
    ensures Recognise(text).Some? && !HasTransition(w.state, Recognise(text).value) ==> r == w
  {
    match Recognise(text)
    case Some(word) => Transition(w, word)
    case None => w
  }

  /** The player, as far as the quest touches it. */
  class Player {
    var quest: Option<string>
    var karma: int
    var xp: int
    var items: map<string, nat>

    constructor (karma: int, xp: int)
      ensures quest == None && this.karma == karma && this.xp == xp && items == map[]
    {
      quest, this.karma, this.xp, items := None, karma, xp, map[];
    }

    /** The test helper that gives the player a stack of items. */
    method EquipStack(name: string, n: nat)
      modifies this
      ensures items == old(items)[name := Count(old(items), name) + n]
      ensures quest == old(quest) && karma == old(karma) && xp == old(xp)
    {
      items := items[name := Count(items, name) + n];
    }
  }

  /** Zelan's dialogue engine: the current conversation state and the text of
      the last reply. */
  class Engine {
    var state: ConversationState
    var reply: Option<string>

    constructor ()
      ensures state == Idle && reply == None
    {
      state, reply := Idle, None;
    }

    function Snapshot(player: Player): World
      reads this, player
    {
      World(state, reply, player.quest, player.karma, player.xp, player.items)
    }

    /** `step(player, text)`: apply the transition table to the engine and
        the player. */
    method StepWith(player: Player, utterance: string)
      modifies this, player
      ensures Snapshot(player) == Step(old(Snapshot(player)), utterance)
    {
      var next := Step(Snapshot(player), utterance);
      state, reply := next.state, next.reply;
      player.quest, player.karma, player.xp, player.items := next.quest, next.karma, next.xp, next.items;
    }
  }

  /** What happens between conversation steps in the test: the player says
      something, or is given items. */
  datatype Event = Say(utterance: string) | Receive(name: string, n: nat)

  function Apply(w: World, e: Event): World {
    match e
    case Say(u) => Step(w, u)
    case Receive(name, n) => w.(items := w.items[name := Count(w.items, name) + n])
  }

  function Run(w: World, events: seq<Event>): World
    decreases |events|
  {
    if events == [] then w else Run(Apply(w, events[0]), events[1..])
  }

  /** The rewards are tied to the quest slot: while the slot is not "done",
      karma and experience are what they were at the start; once it is
      "done", both carry the completion bonus exactly once. */
  ghost predicate RewardAccounted(start: World, w: World) {
    && (w.state == QuestOffered ==> Offerable(w.quest))
    && (w.quest != Some("done") ==> w.karma == start.karma && w.xp == start.xp)
    && (w.quest == Some("done") ==> w.karma == start.karma + 5 && w.xp == start.xp + 50000)
  }

  lemma StepKeepsRewardAccounted(start: World, w: World, u: string)
    requires RewardAccounted(start, w)
    ensures RewardAccounted(start, Step(w, u))
  {
  }

  /** From a player who has not finished the quest, no sequence of utterances
      and item gifts grants the reward twice: karma rises by at most 5 and
      experience by at most 50000, and only with the slot set to "done". */
  lemma {:induction false} RewardGrantedAtMostOnce(start: World, w: World, events: seq<Event>)
    requires start.quest != Some("done") && RewardAccounted(start, w)
    ensures RewardAccounted(start, Run(w, events))
    ensures Run(w, events).xp <= start.xp + 50000 && Run(w, events).karma <= start.karma + 5
    decreases |events|
  {
    if events != [] {
      var e := events[0];
      if e.Say? {
        StepKeepsRewardAccounted(start, w, e.utterance);
      }
      RewardGrantedAtMostOnce(start, Apply(w, e), events[1..]);
    }
  }

  /** Rejecting the offer returns to attending, records "rejected" and keeps
      karma; accepting records "start" and keeps karma too. */
  lemma AnswersToOffer(w: World)
    requires w.state == QuestOffered
    ensures Step(w, "no").state == Attending && Step(w, "no").quest == Some("rejected")
    ensures Step(w, "no").karma == w.karma && Step(w, "no").reply == Some(RejectReply)
    ensures Step(w, "yes").state == Attending && Step(w, "yes").quest == Some("start")
    ensures Step(w, "yes").karma == w.karma && Step(w, "yes").reply == Some(AcceptReply)
  {
  }

  /** Reporting with too few horns only earns the reminder; with ten or more,
      ten horns are taken and the rewards given. */
  lemma DoneOutcomes(w: World)
    requires w.state == Attending && w.quest == Some("start")
    ensures Count(w.items, Horn) < HornsWanted ==>
              Step(w, "done") == w.(reply := Some(ReminderReply))
    ensures Count(w.items, Horn) >= HornsWanted ==>
              var r := Step(w, "done");
              && r.quest == Some("done") && r.state == Attending
              && r.karma == w.karma + 5 && r.xp == w.xp + 50000
              && Count(r.items, Horn) == Count(w.items, Horn) - 10
              && Count(r.items, Soup) == Count(w.items, Soup) + 3
              && Count(r.items, Money) == Count(w.items, Money) + 20000
  {
  }

  /** The test's scenario, in its three conversations: the offer (rejected,
      then accepted), a report with nine horns, and a report with ten. */
  const OfferEvents: seq<Event> := [Say("hi"), Say("quest"), Say("no"), Say("quest"), Say("yes"), Say("bye")]
  const ShortEvents: seq<Event> := [Receive(Horn, 9), Say("hi"), Say("done"), Say("bye")]
  const RewardEvents: seq<Event> := [Receive(Horn, 1), Say("hi"), Say("done"), Say("bye")]

  lemma OfferConversation(karma: int, xp: int)
    ensures Run(World(Idle, None, None, karma, xp, map[]), OfferEvents)
            == World(Idle, None, Some("start"), karma, xp, map[])
  {
    var w0 := World(Idle, None, None, karma, xp, map[]);
    var w1 := World(Attending, None, None, karma, xp, map[]);
    var w2 := World(QuestOffered, Some(OfferReply), None, karma, xp, map[]);
    var w3 := World(Attending, Some(RejectReply), Some("rejected"), karma, xp, map[]);
    var w4 := World(QuestOffered, Some(OfferReply), Some("rejected"), karma, xp, map[]);
    var w5 := World(Attending, Some(AcceptReply), Some("start"), karma, xp, map[]);
    var w6 := World(Idle, None, Some("start"), karma, xp, map[]);
    assert Step(w0, "hi") == w1;
    assert Step(w1, "quest") == w2;
    assert Step(w2, "no") == w3;
    assert Step(w3, "quest") == w4;
    assert Step(w4, "yes") == w5;
    assert Step(w5, "bye") == w6;
    RunCons(w5, Say("bye"), []);
    RunCons(w4, Say("yes"), [Say("bye")]);
    RunCons(w3, Say("quest"), [Say("yes"), Say("bye")]);
    RunCons(w2, Say("no"), [Say("quest"), Say("yes"), Say("bye")]);
    RunCons(w1, Say("quest"), [Say("no"), Say("quest"), Say("yes"), Say("bye")]);
    RunCons(w0, Say("hi"), [Say("quest"), Say("no"), Say("quest"), Say("yes"), Say("bye")]);
  }

  lemma ShortConversation(karma: int, xp: int)
    ensures var w := Run(World(Idle, None, Some("start"), karma, xp, map[]), ShortEvents);
            w == World(Idle, None, Some("start"), karma, xp, map[Horn := 9])
  {
    var w0 := World(Idle, None, Some("start"), karma, xp, map[]);
    var w1 := Apply(w0, Receive(Horn, 9));
    assert w1.items == map[Horn := 9];
    var w2 := Step(w1, "hi");
    var w3 := Step(w2, "done");
    assert w3.reply == Some(ReminderReply);
    RunCons(w0, Receive(Horn, 9), ShortEvents[1..]);
    RunCons(w1, Say("hi"), ShortEvents[2..]);
    RunCons(w2, Say("done"), ShortEvents[3..]);
    RunCons(w3, Say("bye"), []);
  }

  lemma RewardConversation(karma: int, xp: int)
    ensures var w := Run(World(Idle, None, Some("start"), karma, xp, map[Horn := 9]), RewardEvents);
            && w.state == Idle && w.quest == Some("done")
            && w.karma == karma + 5 && w.xp == xp + 50000
            && Count(w.items, Horn) == 0 && Count(w.items, Soup) == 3 && Count(w.items, Money) == 20000
  {
    var w0 := World(Idle, None, Some("start"), karma, xp, map[Horn := 9]);
    var w1 := Apply(w0, Receive(Horn, 1));
    assert Count(w1.items, Horn) == 10;
    var w2 := Step(w1, "hi");
    var w3 := Step(w2, "done");
    assert w3.reply == Some(RewardReply);
    RunCons(w0, Receive(Horn, 1), RewardEvents[1..]);
    RunCons(w1, Say("hi"), RewardEvents[2..]);
    RunCons(w2, Say("done"), RewardEvents[3..]);
    RunCons(w3, Say("bye"), []);
  }

  lemma RunCons(w: World, e: Event, rest: seq<Event>)
    ensures Run(w, [e] + rest) == Run(Apply(w, e), rest)
  {
    assert ([e] + rest)[1..] == rest;
  }

  /** A fresh player (no quest slot, no horns, soup or money) who follows the
      test's conversation ends with the slot "done", karma +5, experience
      +50000, no horns, 3 soups and 20000 money, and Zelan idle again. */
  lemma TestScenario(karma: int, xp: int)
    ensures var w := Run(World(Idle, None, None, karma, xp, map[]), OfferEvents + ShortEvents + RewardEvents);
            && w.state == Idle && w.quest == Some("done")
            && w.karma == karma + 5 && w.xp == xp + 50000
            && Count(w.items, Horn) == 0 && Count(w.items, Soup) == 3 && Count(w.items, Money) == 20000
  {
    var w0 := World(Idle, None, None, karma, xp, map[]);
    RunConcat(w0, OfferEvents + ShortEvents, RewardEvents);
    RunConcat(w0, OfferEvents, ShortEvents);
    OfferConversation(karma, xp);
    ShortConversation(karma, xp);
    var w10 := Run(Run(w0, OfferEvents), ShortEvents);
    assert w10 == World(Idle, None, Some("start"), karma, xp, map[Horn := 9]);
    RewardConversation(karma, xp);
  }

  /** Running a sequence is running its first `n` events, then the rest. */
  lemma RunPrefix(w: World, events: seq<Event>, n: nat)
    requires n <= |events|
    ensures Run(w, events) == Run(Run(w, events[..n]), events[n..])
  {
    assert events == events[..n] + events[n..];
    RunConcat(w, events[..n], events[n..]);
  }

  /** Running a sequence is running its first event, then the rest. */
  lemma RunSplits(w: World, events: seq<Event>)
    requires events != []
    ensures Run(w, events) == Run(Apply(w, events[0]), events[1..])
  {
  }

  lemma {:induction false} RunConcat(w: World, a: seq<Event>, b: seq<Event>)
    ensures Run(w, a + b) == Run(Run(w, a), b)
    decreases |a|
  {
    if a == [] {
      assert a + b == b;
    } else {
      assert (a + b)[0] == a[0] && (a + b)[1..] == a[1..] + b;
      RunConcat(Apply(w, a[0]), a[1..], b);
    }
  }

  /** The test, run against the engine and player objects, one conversation
      at a time. */
  method QuestTest() returns (zelan: Engine, player: Player)
    ensures fresh(zelan) && fresh(player)
    ensures zelan.state == Idle
    ensures player.quest == Some("done") && player.karma == 5 && player.xp == 50000
    ensures Count(player.items, Horn) == 0 && Count(player.items, Soup) == 3 && Count(player.items, Money) == 20000
  {
    player := new Player(0, 0);
    zelan := new Engine();
    assert player.quest == None && zelan.state == Idle;
    OfferTest(zelan, player);
    player.EquipStack(Horn, 9);
    ShortTest(zelan, player);
    player.EquipStack(Horn, 1);
    RewardTest(zelan, player);
  }

  /** "hi", "quest", "no", "quest", "yes", "bye" with a player new to the
      quest. */
  method OfferTest(zelan: Engine, player: Player)
    requires zelan.state == Idle && player.quest == None
    modifies zelan, player
    ensures zelan.state == Idle && player.quest == Some("start")
    ensures player.karma == old(player.karma) && player.xp == old(player.xp) && player.items == old(player.items)
  {
    zelan.StepWith(player, "hi");
    assert zelan.state == Attending;
    zelan.StepWith(player, "quest");
    assert zelan.state == QuestOffered && zelan.reply == Some(OfferReply);
    zelan.StepWith(player, "no");
    assert zelan.state == Attending && zelan.reply == Some(RejectReply);
    assert player.karma == old(player.karma) && player.quest == Some("rejected");
    zelan.StepWith(player, "quest");
    zelan.StepWith(player, "yes");
    assert zelan.state == Attending && zelan.reply == Some(AcceptReply);
    zelan.StepWith(player, "bye");
  }

  /** "hi", "done", "bye" while the player holds fewer than ten horns. */
  method ShortTest(zelan: Engine, player: Player)
    requires zelan.state == Idle && player.quest == Some("start") && Count(player.items, Horn) < HornsWanted
    modifies zelan, player
    ensures zelan.state == Idle && zelan.reply == None
    ensures player.quest == old(player.quest) && player.karma == old(player.karma)
    ensures player.xp == old(player.xp) && player.items == old(player.items)
  {
    zelan.StepWith(player, "hi");
    assert zelan.state == Attending;
    zelan.StepWith(player, "done");
    assert zelan.reply == Some(ReminderReply);
    zelan.StepWith(player, "bye");
  }

  /** "hi", "done", "bye" once the player holds ten horns. */
  method RewardTest(zelan: Engine, player: Player)
    requires zelan.state == Idle && player.quest == Some("start") && Count(player.items, Horn) == HornsWanted
    modifies zelan, player
    ensures zelan.state == Idle && player.quest == Some("done")
    ensures player.karma == old(player.karma) + 5 && player.xp == old(player.xp) + 50000
    ensures Count(player.items, Horn) == 0
    ensures Count(player.items, Soup) == Count(old(player.items), Soup) + 3
    ensures Count(player.items, Money) == Count(old(player.items), Money) + 20000
  {
    zelan.StepWith(player, "hi");
    zelan.StepWith(player, "done");
    assert zelan.reply == Some(RewardReply);
    zelan.StepWith(player, "bye");
  }
}
