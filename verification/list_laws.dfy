/** What adding, deleting and editing list entries does to the whole guild:
    additions append one entry and keep everything before it, deletions remove
    exactly the matching entries in order, and an addition with a fresh key is
    undone by the matching deletion. */
module ListLaws {
  import opened Wrappers
  import opened Seqs
  import opened GuildState
  import opened Sync
  import opened Actions
  import R = Reducers

  /** A list without the key: the deletion filter keeps every entry of it. */
  lemma DeleteQuestAbsentId(qs: seq<Quest>, id: int)
    requires forall i :: 0 <= i < |qs| ==> qs[i].id != id
    ensures Filter(qs, QuestLacksId(id)) == qs
  {
    FilterKeepsAll(qs, QuestLacksId(id));
  }

  lemma StepAddQuest(s: Guild, form: R.QuestForm, freshId: int)
    requires form.title != []
    ensures Step(s, AddQuest(form, freshId)) == s.(quests := s.quests + [R.NewQuest(form, freshId)])
  {
    var u := EMPTY.(quests := Some(s.quests + [R.NewQuest(form, freshId)]));
    assert R.AddQuest(s, form, freshId) == Some(u);
  }

  lemma StepAddCleaningQuest(s: Guild, form: R.CleaningForm, freshId: int)
    requires form.title != [] && form.kind != []
    ensures Step(s, AddCleaningQuest(form, freshId))
            == s.(quests := s.quests + [R.NewCleaningQuest(form, freshId)])
  {
    var u := EMPTY.(quests := Some(s.quests + [R.NewCleaningQuest(form, freshId)]));
    assert R.AddCleaningQuest(s, form, freshId) == Some(u);
  }

  lemma StepDeleteQuest(s: Guild, id: int)
    ensures Step(s, DeleteQuest(id)) == s.(quests := Filter(s.quests, QuestLacksId(id)))
  {
    var u := EMPTY.(quests := Some(Filter(s.quests, QuestLacksId(id))));
    assert R.DeleteQuest(s, id) == Some(u);
  }

  /** Deleting a fresh id from a list with one entry appended removes exactly that entry. */
  lemma DropAppendedQuest(qs: seq<Quest>, q: Quest)
    requires forall i :: 0 <= i < |qs| ==> qs[i].id != q.id
    ensures Filter(qs + [q], QuestLacksId(q.id)) == qs
  {
    FilterAppend(qs, [q], QuestLacksId(q.id));
    assert Filter([q], QuestLacksId(q.id)) == [];
    DeleteQuestAbsentId(qs, q.id);
  }

  /** A new quest with a fresh id is removed again by deleting that id, and the
      guild is back where it was. */
  lemma AddQuestThenDelete(s: Guild, form: R.QuestForm, freshId: int)
    requires form.title != []
    requires forall i :: 0 <= i < |s.quests| ==> s.quests[i].id != freshId
    ensures Step(Step(s, AddQuest(form, freshId)), DeleteQuest(freshId)) == s
  {
    var q := R.NewQuest(form, freshId);
    StepAddQuest(s, form, freshId);
    var t := s.(quests := s.quests + [q]);
    StepDeleteQuest(t, freshId);
    DropAppendedQuest(s.quests, q);
  }

  /** The same round trip for a cleaning chore. */
  lemma AddCleaningThenDelete(s: Guild, form: R.CleaningForm, freshId: int)
    requires form.title != [] && form.kind != []
    requires forall i :: 0 <= i < |s.quests| ==> s.quests[i].id != freshId
    ensures Step(Step(s, AddCleaningQuest(form, freshId)), DeleteQuest(freshId)) == s
  {
    var q := R.NewCleaningQuest(form, freshId);
    StepAddCleaningQuest(s, form, freshId);
    var t := s.(quests := s.quests + [q]);
    StepDeleteQuest(t, freshId);
    DropAppendedQuest(s.quests, q);
  }

  lemma StepAddBounty(s: Guild, text: string, freshId: int)
    requires text != []
    ensures Step(s, AddBounty(text, freshId)) == s.(reminders := s.reminders + [Reminder(freshId, text, Active)])
  {
    var u := EMPTY.(reminders := Some(s.reminders + [Reminder(freshId, text, Active)]));
    assert R.AddBounty(s, text, freshId) == Some(u);
  }

  lemma StepDeleteBounty(s: Guild, id: int)
    ensures Step(s, DeleteBounty(id)) == s.(reminders := Filter(s.reminders, ReminderLacksId(id)))
  {
    var u := EMPTY.(reminders := Some(Filter(s.reminders, ReminderLacksId(id))));
    assert R.DeleteBounty(s, id) == Some(u);
  }

  /** The same round trip for a bounty. */
  lemma AddBountyThenDelete(s: Guild, text: string, freshId: int)
    requires text != []
    requires forall i :: 0 <= i < |s.reminders| ==> s.reminders[i].id != freshId
    ensures Step(Step(s, AddBounty(text, freshId)), DeleteBounty(freshId)) == s
  {
    var b := Reminder(freshId, text, Active);
    StepAddBounty(s, text, freshId);
    var t := s.(reminders := s.reminders + [b]);
    StepDeleteBounty(t, freshId);
    FilterAppend(s.reminders, [b], ReminderLacksId(freshId));
    assert Filter([b], ReminderLacksId(freshId)) == [];
    FilterKeepsAll(s.reminders, ReminderLacksId(freshId));
  }

  lemma StepAddReward(s: Guild, form: R.RewardForm)
    requires form.labelText != []
    ensures Step(s, AddReward(form)) == s.(rewards := s.rewards[form.owner :=
      RewardsOf(s.rewards, form.owner) + [RewardItem(form.labelText, TierCost(form.rarity), form.rarity)]])
  {
    var item := RewardItem(form.labelText, TierCost(form.rarity), form.rarity);
    var u := EMPTY.(rewards := Some(s.rewards[form.owner := RewardsOf(s.rewards, form.owner) + [item]]));
    assert R.AddReward(s, form) == Some(u);
  }

  lemma StepDeleteReward(s: Guild, owner: string, labelText: string)
    ensures Step(s, DeleteReward(owner, labelText))
            == s.(rewards := s.rewards[owner := Filter(RewardsOf(s.rewards, owner), RewardLacksLabel(labelText))])
  {
    var u := EMPTY.(rewards := Some(s.rewards[owner := Filter(RewardsOf(s.rewards, owner), RewardLacksLabel(labelText))]));
    assert R.DeleteReward(s, owner, labelText) == Some(u);
  }

  /** The same round trip for a reward whose labelText is new in an existing owner's list. */
  lemma AddRewardThenDelete(s: Guild, form: R.RewardForm)
    requires form.labelText != [] && form.owner in s.rewards
    requires forall i :: 0 <= i < |s.rewards[form.owner]| ==> s.rewards[form.owner][i].labelText != form.labelText
    ensures Step(Step(s, AddReward(form)), DeleteReward(form.owner, form.labelText)) == s
  {
    var list := s.rewards[form.owner];
    var item := RewardItem(form.labelText, TierCost(form.rarity), form.rarity);
    StepAddReward(s, form);
    var t := s.(rewards := s.rewards[form.owner := list + [item]]);
    StepDeleteReward(t, form.owner, form.labelText);
    assert RewardsOf(t.rewards, form.owner) == list + [item];
    FilterAppend(list, [item], RewardLacksLabel(form.labelText));
    assert Filter([item], RewardLacksLabel(form.labelText)) == [];
    FilterKeepsAll(list, RewardLacksLabel(form.labelText));
    assert Filter(list + [item], RewardLacksLabel(form.labelText)) == list;
    assert t.rewards[form.owner := list] == s.rewards;
    assert t.(rewards := s.rewards) == s;
  }

  /** Deleting removes exactly the entries with the id and keeps the order of
      the rest: deleting from a list split in two deletes from each part. */
  lemma DeleteQuestKeepsOrder(s: Guild, id: int, front: seq<Quest>, back: seq<Quest>)
    requires s.quests == front + back
    ensures Step(s, DeleteQuest(id)).quests ==
            Filter(front, QuestLacksId(id)) + Filter(back, QuestLacksId(id))
    ensures forall q :: q in Step(s, DeleteQuest(id)).quests <==> q in s.quests && q.id != id
  {
    StepDeleteQuest(s, id);
    FilterAppend(front, back, QuestLacksId(id));
  }

  /** Deleting a missing id changes nothing, and deleting twice is deleting once. */
  lemma DeleteQuestIdempotent(s: Guild, id: int)
    ensures var t := Step(s, DeleteQuest(id)); Step(t, DeleteQuest(id)) == t
    ensures (forall i :: 0 <= i < |s.quests| ==> s.quests[i].id != id) ==> Step(s, DeleteQuest(id)) == s
  {
    FilterIdempotent(s.quests, QuestLacksId(id));
    if forall i :: 0 <= i < |s.quests| ==> s.quests[i].id != id {
      DeleteQuestAbsentId(s.quests, id);
    }
  }

  /** Deleting a bounty twice is deleting it once. */
  lemma DeleteBountyIdempotent(s: Guild, id: int)
    ensures var t := Step(s, DeleteBounty(id)); Step(t, DeleteBounty(id)) == t
  {
    FilterIdempotent(s.reminders, ReminderLacksId(id));
  }

  /** Deleting a reward twice is deleting it once; other owners' lists never change. */
  lemma DeleteRewardIdempotent(s: Guild, owner: string, labelText: string)
    ensures var t := Step(s, DeleteReward(owner, labelText)); Step(t, DeleteReward(owner, labelText)) == t
    ensures forall o :: o in s.rewards && o != owner ==> Step(s, DeleteReward(owner, labelText)).rewards[o] == s.rewards[o]
  {
    var t := Step(s, DeleteReward(owner, labelText));
    FilterIdempotent(RewardsOf(s.rewards, owner), RewardLacksLabel(labelText));
    assert Step(t, DeleteReward(owner, labelText)).rewards == t.rewards;
  }

  /** Two edits of the same meal slot leave the second text; the week keeps its
      length and every slot keeps its day. */
  lemma UpdateMealLastWins(s: Guild, index: int, first: string, second: string)
    requires 0 <= index < |s.menu|
    ensures var t := Step(s, UpdateMeal(index, first));
      && |t.menu| == |s.menu|
      && (forall i :: 0 <= i < |s.menu| ==> t.menu[i].day == s.menu[i].day)
      && Step(t, UpdateMeal(index, second)) == Step(s, UpdateMeal(index, second))
  {
  }
}
