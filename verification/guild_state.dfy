/** The guild's shared document: every top-level field the household app
    keeps in its one remote record, with JavaScript's absent values made explicit. */
module GuildState {
  import opened Wrappers

  datatype Status = Active | Completed

  /** A family member. `gp` is the member's personal gold; `stats` is never
      changed by any action. */
  datatype Member = Member(id: string, name: string, guildClass: string, gp: int,
                           stats: map<string, int>, color: string)

  /** A quest. Numeric fields hold 0 where the stored record has no value
      (JavaScript treats both as falsy); `room` is absent on non-cleaning quests. */
  datatype Quest = Quest(
    id: int,
    title: string,
    description: string,
    kind: string,
    category: string,
    assignedTo: string,
    status: Status,
    reward: int,
    xp: int,
    resetsMonthly: bool,
    targetValue: int,
    currentValue: int,
    room: Option<string>,
    unit: string)

  /** A bounty on the notice board. */
  datatype Reminder = Reminder(id: int, text: string, status: Status)

  /** A treasury item; `labelText` is the stored `label` key (`label` is reserved in Dafny). */
  datatype RewardItem = RewardItem(labelText: string, cost: int, rarity: string)

  datatype MealSlot = MealSlot(day: string, meal: string)

  datatype ClaimedBonuses = ClaimedBonuses(rooms: seq<string>, sanctuary: bool)

  datatype Guild = Guild(
    familyXP: int,
    familyGold: int,
    members: seq<Member>,
    quests: seq<Quest>,
    reminders: seq<Reminder>,
    claimedBonuses: ClaimedBonuses,
    rewards: map<string, seq<RewardItem>>,
    menu: seq<MealSlot>)

  /** The owner name that stands for the whole household. */
  const FAMILY := "Family"
  /** The category that marks a quest as a room-cleaning chore. */
  const CLEANING := "Cleaning"
  const DAILY := "daily"
  const EPIC := "epic"
  /** The quest filter value that shows every owner. */
  const ALL := "All"

  /** Reward cost by rarity tier. */
  const TIER_COSTS: map<string, int> :=
    map["Common" := 10, "Unusual" := 25, "Rare" := 100, "Epic" := 400,
        "Legendary" := 1000, "Mythic" := 2500]

  const NO_BONUSES := ClaimedBonuses([], false)

  /** JavaScript's `v || d` on a number: 0 (or an absent value) falls back to `d`. */
  function Default(v: int, d: int): int {
    if v == 0 then d else v
  }

  /** The cost of a new reward: the tier's price, 10 for an unknown tier. */
  function TierCost(rarity: string): (cost: int)
    ensures cost > 0
    ensures rarity in TIER_COSTS ==> cost == TIER_COSTS[rarity]
    ensures rarity !in TIER_COSTS ==> cost == 10
  {
    Default(if rarity in TIER_COSTS then TIER_COSTS[rarity] else 0, 10)
  }

  /** `toUpperCase` on one character, for the ASCII letters. */
  function UpperAscii(c: char): char {
    if 'a' <= c <= 'z' then (c as int - 32) as char else c
  }

  predicate IsCleaning(q: Quest) {
    q.category == CLEANING
  }

  predicate IsEpic(q: Quest) {
    q.kind == EPIC
  }

  predicate QuestDone(q: Quest) {
    q.status == Completed
  }

  function QuestHasId(id: int): Quest -> bool {
    (q: Quest) => q.id == id
  }

  function QuestLacksId(id: int): Quest -> bool {
    (q: Quest) => q.id != id
  }

  function ReminderHasId(id: int): Reminder -> bool {
    (r: Reminder) => r.id == id
  }

  function ReminderLacksId(id: int): Reminder -> bool {
    (r: Reminder) => r.id != id
  }

  function RewardLacksLabel(labelText: string): RewardItem -> bool {
    (item: RewardItem) => item.labelText != labelText
  }

  function QuestKey(q: Quest): int {
    q.id
  }

  function ReminderKey(r: Reminder): int {
    r.id
  }

  /** `i` is the position `find(q => q.id === id)` lands on. */
  predicate FirstQuestWithId(qs: seq<Quest>, id: int, i: int) {
    0 <= i < |qs| && qs[i].id == id && forall j :: 0 <= j < i ==> qs[j].id != id
  }

  predicate FirstReminderWithId(rs: seq<Reminder>, id: int, i: int) {
    0 <= i < |rs| && rs[i].id == id && forall j :: 0 <= j < i ==> rs[j].id != id
  }

  /** The list stored under `owner`, or none for a missing owner (`rewards[owner] || []`). */
  function RewardsOf(rewards: map<string, seq<RewardItem>>, owner: string): seq<RewardItem> {
    if owner in rewards then rewards[owner] else []
  }
}
