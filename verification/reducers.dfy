/** The action handlers of the guild hall. Each reads the current guild and
    returns the partial update it would send to the store, or `None` where the
    handler returns early without sending anything. */
module Reducers {
  import opened Wrappers
  import opened Seqs
  import opened GuildState
  import opened Sync

  /** The "Missions" form. */
  datatype QuestForm = QuestForm(
    title: string, description: string, kind: string, assignedTo: string,
    category: string, resetsMonthly: bool, targetValue: int, unit: string)

  /** The "Sanctuary" form. */
  datatype CleaningForm = CleaningForm(title: string, room: string, kind: string)

  /** The "Treasury" form. */
  datatype RewardForm = RewardForm(labelText: string, rarity: string, owner: string)

  function Min(a: int, b: int): int {
    if a <= b then a else b
  }

  /** `c` is `min(a, b)`, stated without computing it. */
  predicate IsMin(c: int, a: int, b: int) {
    c <= a && c <= b && (c == a || c == b)
  }

  /** The progress bound of an epic quest: a missing target counts as 10. */
  function ProgressCap(q: Quest): int {
    Default(q.targetValue, 10)
  }

  /** Every quest carrying `id` marked completed. */
  function MarkQuestsDone(qs: seq<Quest>, id: int): seq<Quest> {
    seq(|qs|, i requires 0 <= i < |qs| =>
      if qs[i].id == id then qs[i].(status := Completed) else qs[i])
  }

  /** Every reminder carrying `id` marked completed. */
  function MarkRemindersDone(rs: seq<Reminder>, id: int): seq<Reminder> {
    seq(|rs|, i requires 0 <= i < |rs| =>
      if rs[i].id == id then rs[i].(status := Completed) else rs[i])
  }

  /** `amount` gold added to every member whose id is `owner`. */
  function CreditMembers(ms: seq<Member>, owner: string, amount: int): seq<Member> {
    seq(|ms|, i requires 0 <= i < |ms| =>
      if ms[i].id == owner then ms[i].(gp := ms[i].gp + amount) else ms[i])
  }

  function CompleteQuest(s: Guild, id: int): (r: Option<Update>)
    ensures r.None? <==>
      || (forall i :: 0 <= i < |s.quests| ==> s.quests[i].id != id)
      || (exists i :: FirstQuestWithId(s.quests, id, i) && s.quests[i].status == Completed)
    ensures r.Some? ==> Carries(r.value, QuestsField) && Carries(r.value, XPField)
    ensures r.Some? ==> (Carries(r.value, GoldField) <==> !Carries(r.value, MembersField))
    ensures r.Some? ==> forall f :: Carries(r.value, f) ==> f in {QuestsField, XPField, GoldField, MembersField}
  {
    match FindFirst(s.quests, QuestHasId(id))
    case None => None
    case Some(i) =>
      var q := s.quests[i];
      assert FirstQuestWithId(s.quests, id, i);
      if q.status == Completed then None
      else
        var reward := Default(q.reward, 10);
        var base := EMPTY.(quests := Some(MarkQuestsDone(s.quests, id)),
                           familyXP := Some(s.familyXP + Default(q.xp, 20)));
        if q.assignedTo == FAMILY then Some(base.(familyGold := Some(s.familyGold + reward)))
        else Some(base.(members := Some(CreditMembers(s.members, q.assignedTo, reward))))
  }

  /** One quest after a progress step: matching epic quests move by `amount`, capped. */
  function Progress(q: Quest, id: int, amount: int): Quest {
    if q.id == id && IsEpic(q) then q.(currentValue := Min(q.currentValue + amount, ProgressCap(q)))
    else q
  }

  function UpdateEpicProgress(s: Guild, id: int, amount: int): (r: Option<Update>)
    ensures r.Some? && r.value.quests.Some?
    ensures forall f :: Carries(r.value, f) <==> f == QuestsField
    ensures |r.value.quests.value| == |s.quests|
    ensures forall i :: 0 <= i < |s.quests| && !(s.quests[i].id == id && IsEpic(s.quests[i])) ==>
      r.value.quests.value[i] == s.quests[i]
    ensures forall i :: 0 <= i < |s.quests| && s.quests[i].id == id && IsEpic(s.quests[i]) ==>
      && r.value.quests.value[i] == s.quests[i].(currentValue := r.value.quests.value[i].currentValue)
      && IsMin(r.value.quests.value[i].currentValue, s.quests[i].currentValue + amount, ProgressCap(s.quests[i]))
  {
    Some(EMPTY.(quests := Some(seq(|s.quests|, i requires 0 <= i < |s.quests| => Progress(s.quests[i], id, amount)))))
  }

  function ClaimRoomBonus(s: Guild, room: string): (r: Option<Update>)
    ensures r.None? <==> room in s.claimedBonuses.rooms
    ensures r.Some? ==> forall f :: Carries(r.value, f) <==> f in {GoldField, XPField, BonusesField}
    ensures r.Some? ==> r.value.familyGold == Some(s.familyGold + 50)
    ensures r.Some? ==> r.value.familyXP == Some(s.familyXP + 100)
    ensures r.Some? ==>
      r.value.claimedBonuses == Some(ClaimedBonuses(s.claimedBonuses.rooms + [room], s.claimedBonuses.sanctuary))
  {
    if room in s.claimedBonuses.rooms then None
    else Some(EMPTY.(familyGold := Some(s.familyGold + 50),
                     familyXP := Some(s.familyXP + 100),
                     claimedBonuses := Some(s.claimedBonuses.(rooms := s.claimedBonuses.rooms + [room]))))
  }

  function ClaimSanctuaryBonus(s: Guild): (r: Option<Update>)
    ensures r.None? <==> s.claimedBonuses.sanctuary
    ensures r.Some? ==> forall f :: Carries(r.value, f) <==> f in {GoldField, XPField, BonusesField}
    ensures r.Some? ==> r.value.familyGold == Some(s.familyGold + 500)
    ensures r.Some? ==> r.value.familyXP == Some(s.familyXP + 1000)
    ensures r.Some? ==> r.value.claimedBonuses == Some(ClaimedBonuses(s.claimedBonuses.rooms, true))
  {
    if s.claimedBonuses.sanctuary then None
    else Some(EMPTY.(familyGold := Some(s.familyGold + 500),
                     familyXP := Some(s.familyXP + 1000),
                     claimedBonuses := Some(s.claimedBonuses.(sanctuary := true))))
  }

  /** One quest after the monthly reset; the cleaning test comes first. */
  function ResetQuest(q: Quest): Quest {
    if IsCleaning(q) then q.(status := Active)
    else if q.resetsMonthly then q.(status := Active, currentValue := 0)
    else q
  }

  function MonthlyReset(s: Guild): (r: Option<Update>)
    ensures r.Some? && r.value.quests.Some?
    ensures forall f :: Carries(r.value, f) <==> f in {QuestsField, BonusesField}
    ensures r.value.claimedBonuses == Some(ClaimedBonuses([], false))
    ensures |r.value.quests.value| == |s.quests|
    ensures forall i :: 0 <= i < |s.quests| ==>
      var q, q' := s.quests[i], r.value.quests.value[i];
      && (IsCleaning(q) ==> q' == q.(status := Active))
      && (!IsCleaning(q) && q.resetsMonthly ==> q' == q.(status := Active, currentValue := 0))
      && (!IsCleaning(q) && !q.resetsMonthly ==> q' == q)
  {
    Some(EMPTY.(quests := Some(seq(|s.quests|, i requires 0 <= i < |s.quests| => ResetQuest(s.quests[i]))),
                claimedBonuses := Some(NO_BONUSES)))
  }

  /** The quest the "Missions" form creates. */
  function NewQuest(form: QuestForm, freshId: int): Quest {
    Quest(freshId, form.title, form.description, form.kind, form.category, form.assignedTo,
          Active, if form.kind == DAILY then 10 else 100, 20, form.resetsMonthly,
          form.targetValue, 0, None, form.unit)
  }

  function AddQuest(s: Guild, form: QuestForm, freshId: int): (r: Option<Update>)
    ensures r.None? <==> form.title == []
    ensures r.Some? ==> r.value.quests.Some? && forall f :: Carries(r.value, f) <==> f == QuestsField
    ensures r.Some? ==>
      var qs := r.value.quests.value;
      && |qs| == |s.quests| + 1
      && qs[..|s.quests|] == s.quests
      && var q := qs[|s.quests|];
      && q.id == freshId && q.status == Active && q.currentValue == 0 && q.xp == 20
      && q.reward == (if form.kind == DAILY then 10 else 100)
      && q.title == form.title && q.description == form.description && q.kind == form.kind
      && q.category == form.category && q.assignedTo == form.assignedTo
      && q.resetsMonthly == form.resetsMonthly && q.targetValue == form.targetValue
      && q.unit == form.unit && q.room.None?
  {
    if form.title == [] then None
    else Some(EMPTY.(quests := Some(s.quests + [NewQuest(form, freshId)])))
  }

  /** The chore the "Sanctuary" form creates; its kind must be non-empty. */
  function NewCleaningQuest(form: CleaningForm, freshId: int): Quest
    requires form.kind != []
  {
    Quest(freshId, form.title, [UpperAscii(form.kind[0])], form.kind, CLEANING, FAMILY,
          Active, 10, 10, false, 0, 0, Some(form.room), [])
  }

  /** An empty kind makes `type[0].toUpperCase()` throw, so nothing is sent. */
  function AddCleaningQuest(s: Guild, form: CleaningForm, freshId: int): (r: Option<Update>)
    ensures r.None? <==> form.title == [] || form.kind == []
    ensures r.Some? ==> r.value.quests.Some? && forall f :: Carries(r.value, f) <==> f == QuestsField
    ensures r.Some? ==>
      var qs := r.value.quests.value;
      && |qs| == |s.quests| + 1
      && qs[..|s.quests|] == s.quests
      && var q := qs[|s.quests|];
      && q.id == freshId && q.status == Active && IsCleaning(q) && q.assignedTo == FAMILY
      && q.reward == 10 && q.xp == 10 && q.room == Some(form.room)
      && q.title == form.title && q.kind == form.kind
      && |q.description| == 1 && q.description[0] == UpperAscii(form.kind[0])
  {
    if form.title == [] || form.kind == [] then None
    else Some(EMPTY.(quests := Some(s.quests + [NewCleaningQuest(form, freshId)])))
  }

  function AddReward(s: Guild, form: RewardForm): (r: Option<Update>)
    ensures r.None? <==> form.labelText == []
    ensures r.Some? ==> r.value.rewards.Some? && forall f :: Carries(r.value, f) <==> f == RewardsField
    ensures r.Some? ==>
      var rw := r.value.rewards.value;
      && rw.Keys == s.rewards.Keys + {form.owner}
      && rw[form.owner] == RewardsOf(s.rewards, form.owner)
                             + [RewardItem(form.labelText, TierCost(form.rarity), form.rarity)]
      && forall o :: o in s.rewards && o != form.owner ==> rw[o] == s.rewards[o]
  {
    if form.labelText == [] then None
    else
      var item := RewardItem(form.labelText, TierCost(form.rarity), form.rarity);
      Some(EMPTY.(rewards := Some(s.rewards[form.owner := RewardsOf(s.rewards, form.owner) + [item]])))
  }

  function AddBounty(s: Guild, text: string, freshId: int): (r: Option<Update>)
    ensures r.None? <==> text == []
    ensures r.Some? ==> r.value.reminders.Some? && forall f :: Carries(r.value, f) <==> f == RemindersField
    ensures r.Some? ==> r.value.reminders.value == s.reminders + [Reminder(freshId, text, Active)]
  {
    if text == [] then None
    else Some(EMPTY.(reminders := Some(s.reminders + [Reminder(freshId, text, Active)])))
  }

  function DeleteQuest(s: Guild, id: int): (r: Option<Update>)
    ensures r.Some? && r.value.quests.Some? && forall f :: Carries(r.value, f) <==> f == QuestsField
    ensures forall q :: q in r.value.quests.value <==> q in s.quests && q.id != id
  {
    Some(EMPTY.(quests := Some(Filter(s.quests, QuestLacksId(id)))))
  }

  /** Deleting from a missing owner still writes an empty list under that owner. */
  function DeleteReward(s: Guild, owner: string, labelText: string): (r: Option<Update>)
    ensures r.Some? && r.value.rewards.Some? && forall f :: Carries(r.value, f) <==> f == RewardsField
    ensures r.value.rewards.value.Keys == s.rewards.Keys + {owner}
    ensures forall o :: o in s.rewards && o != owner ==> r.value.rewards.value[o] == s.rewards[o]
    ensures forall item :: item in r.value.rewards.value[owner] <==>
      item in RewardsOf(s.rewards, owner) && item.labelText != labelText
  {
    Some(EMPTY.(rewards := Some(s.rewards[owner := Filter(RewardsOf(s.rewards, owner), RewardLacksLabel(labelText))])))
  }

  function DeleteBounty(s: Guild, id: int): (r: Option<Update>)
    ensures r.Some? && r.value.reminders.Some? && forall f :: Carries(r.value, f) <==> f == RemindersField
    ensures forall b :: b in r.value.reminders.value <==> b in s.reminders && b.id != id
  {
    Some(EMPTY.(reminders := Some(Filter(s.reminders, ReminderLacksId(id)))))
  }

  function CompleteReminder(s: Guild, id: int): (r: Option<Update>)
    ensures r.None? <==>
      || (forall i :: 0 <= i < |s.reminders| ==> s.reminders[i].id != id)
      || (exists i :: FirstReminderWithId(s.reminders, id, i) && s.reminders[i].status == Completed)
    ensures r.Some? ==> r.value.reminders.Some? && forall f :: Carries(r.value, f) <==> f in {RemindersField, GoldField}
    ensures r.Some? ==> r.value.familyGold == Some(s.familyGold + 10)
    ensures r.Some? ==> |r.value.reminders.value| == |s.reminders|
    ensures r.Some? ==> forall i :: 0 <= i < |s.reminders| ==>
      r.value.reminders.value[i] ==
        (if s.reminders[i].id == id then s.reminders[i].(status := Completed) else s.reminders[i])
  {
    match FindFirst(s.reminders, ReminderHasId(id))
    case None => None
    case Some(i) =>
      assert FirstReminderWithId(s.reminders, id, i);
      if s.reminders[i].status == Completed then None
      else Some(EMPTY.(reminders := Some(MarkRemindersDone(s.reminders, id)),
                       familyGold := Some(s.familyGold + 10)))
  }

  /** The menu is only edited through its own rows, so `index` names an existing slot. */
  function UpdateMeal(s: Guild, index: int, meal: string): (r: Option<Update>)
    requires 0 <= index < |s.menu|
    ensures r.Some? && r.value.menu.Some? && forall f :: Carries(r.value, f) <==> f == MenuField
    ensures |r.value.menu.value| == |s.menu|
    ensures r.value.menu.value[index] == MealSlot(s.menu[index].day, meal)
    ensures forall i :: 0 <= i < |s.menu| && i != index ==> r.value.menu.value[i] == s.menu[i]
  {
    Some(EMPTY.(menu := Some(s.menu[index := s.menu[index].(meal := meal)])))
  }
}
