/** What the quest, bounty and bonus actions do to the whole guild once their
    update has been merged back, and what repeating them does. */
module QuestLaws {
  import opened Wrappers
  import opened Seqs
  import opened GuildState
  import opened Sync
  import opened Actions
  import R = Reducers

  /** Completing an active quest: it and any quest sharing its id become
      completed, experience rises by its xp (20 when unset), and its reward
      (10 when unset) goes to the family treasury or to the assigned member.
      Reminders, bonuses, rewards and the menu are untouched. */
  lemma CompleteQuestEffect(s: Guild, id: int, i: int)
    requires FirstQuestWithId(s.quests, id, i) && s.quests[i].status == Active
    ensures var t := Step(s, CompleteQuest(id));
      var q := s.quests[i];
      var reward := Default(q.reward, 10);
      && |t.quests| == |s.quests|
      && (forall k :: 0 <= k < |s.quests| && s.quests[k].id == id ==>
            t.quests[k] == s.quests[k].(status := Completed))
      && (forall k :: 0 <= k < |s.quests| && s.quests[k].id != id ==> t.quests[k] == s.quests[k])
      && t.familyXP == s.familyXP + Default(q.xp, 20)
      && (q.assignedTo == FAMILY ==> t.familyGold == s.familyGold + reward && t.members == s.members)
      && (q.assignedTo != FAMILY ==>
            && t.familyGold == s.familyGold
            && |t.members| == |s.members|
            && forall k :: 0 <= k < |s.members| ==>
                 t.members[k] == (if s.members[k].id == q.assignedTo
                                  then s.members[k].(gp := s.members[k].gp + reward)
                                  else s.members[k]))
      && t.reminders == s.reminders && t.claimedBonuses == s.claimedBonuses
      && t.rewards == s.rewards && t.menu == s.menu
  {
    var found := FindFirst(s.quests, QuestHasId(id));
    assert found == Some(i);
  }

  /** A quest whose first match is already completed, or that does not exist,
      changes nothing. */
  lemma CompleteQuestNoOp(s: Guild, id: int)
    requires (forall k :: 0 <= k < |s.quests| ==> s.quests[k].id != id)
             || (exists k :: FirstQuestWithId(s.quests, id, k) && s.quests[k].status == Completed)
    ensures Step(s, CompleteQuest(id)) == s
  {
  }

  /** Completing the same quest twice has the effect of completing it once. */
  lemma CompleteQuestOnce(s: Guild, id: int)
    ensures var t := Step(s, CompleteQuest(id)); Step(t, CompleteQuest(id)) == t
  {
    var t := Step(s, CompleteQuest(id));
    match FindFirst(s.quests, QuestHasId(id))
    case None =>
    case Some(i) =>
      if s.quests[i].status == Active {
        CompleteQuestEffect(s, id, i);
        assert FirstQuestWithId(t.quests, id, i);
        assert t.quests[i].status == Completed;
        CompleteQuestNoOp(t, id);
      }
  }

  /** Completing an active bounty marks it (and any bounty sharing its id)
      completed and adds 10 gold; nothing else changes. */
  lemma CompleteReminderEffect(s: Guild, id: int, i: int)
    requires FirstReminderWithId(s.reminders, id, i) && s.reminders[i].status == Active
    ensures var t := Step(s, CompleteReminder(id));
      && |t.reminders| == |s.reminders|
      && (forall k :: 0 <= k < |s.reminders| && s.reminders[k].id == id ==>
            t.reminders[k] == s.reminders[k].(status := Completed))
      && (forall k :: 0 <= k < |s.reminders| && s.reminders[k].id != id ==>
            t.reminders[k] == s.reminders[k])
      && t.familyGold == s.familyGold + 10
      && t.familyXP == s.familyXP && t.members == s.members && t.quests == s.quests
      && t.claimedBonuses == s.claimedBonuses && t.rewards == s.rewards && t.menu == s.menu
  {
    var found := FindFirst(s.reminders, ReminderHasId(id));
    assert found == Some(i);
  }

  /** Completing the same bounty twice pays once. */
  lemma CompleteReminderOnce(s: Guild, id: int)
    ensures var t := Step(s, CompleteReminder(id)); Step(t, CompleteReminder(id)) == t
  {
    var t := Step(s, CompleteReminder(id));
    match FindFirst(s.reminders, ReminderHasId(id))
    case None =>
    case Some(i) =>
      if s.reminders[i].status == Active {
        CompleteReminderEffect(s, id, i);
        assert FirstReminderWithId(t.reminders, id, i);
        assert R.CompleteReminder(t, id).None?;
      }
  }

  /** A progress step never moves a campaign past its cap, and with a
      non-negative step from within the cap it never moves it backwards. */
  lemma ProgressClamped(s: Guild, id: int, amount: int, k: int)
    requires 0 <= k < |s.quests| && s.quests[k].id == id && IsEpic(s.quests[k])
    ensures var q, q' := s.quests[k], Step(s, UpdateEpicProgress(id, amount)).quests[k];
      && q'.currentValue <= R.ProgressCap(q)
      && (amount >= 0 && q.currentValue <= R.ProgressCap(q) ==> q.currentValue <= q'.currentValue)
      && (q.currentValue + amount >= R.ProgressCap(q) ==> q'.currentValue == R.ProgressCap(q))
  {
  }

  /** Progress only touches the campaigns carrying the id, and only their counters. */
  lemma ProgressFrame(s: Guild, id: int, amount: int)
    ensures var t := Step(s, UpdateEpicProgress(id, amount));
      && |t.quests| == |s.quests|
      && (forall k :: 0 <= k < |s.quests| ==>
            t.quests[k] == s.quests[k].(currentValue := t.quests[k].currentValue))
      && (forall k :: 0 <= k < |s.quests| && !(s.quests[k].id == id && IsEpic(s.quests[k])) ==>
            t.quests[k] == s.quests[k])
      && t.familyXP == s.familyXP && t.familyGold == s.familyGold && t.members == s.members
      && t.reminders == s.reminders && t.claimedBonuses == s.claimedBonuses
      && t.rewards == s.rewards && t.menu == s.menu
  {
  }

  /** A room bonus pays 50 gold and 100 experience once: a second claim of the
      same room changes nothing. */
  lemma RoomBonusOnce(s: Guild, room: string)
    requires room !in s.claimedBonuses.rooms
    ensures var t := Step(s, ClaimRoomBonus(room));
      && t.familyGold == s.familyGold + 50 && t.familyXP == s.familyXP + 100
      && room in t.claimedBonuses.rooms
      && Step(t, ClaimRoomBonus(room)) == t
  {
  }

  /** The sanctuary bonus pays 500 gold and 1000 experience once. */
  lemma SanctuaryBonusOnce(s: Guild)
    requires !s.claimedBonuses.sanctuary
    ensures var t := Step(s, ClaimSanctuaryBonus);
      && t.familyGold == s.familyGold + 500 && t.familyXP == s.familyXP + 1000
      && t.claimedBonuses.rooms == s.claimedBonuses.rooms
      && Step(t, ClaimSanctuaryBonus) == t
  {
  }

  /** The monthly reset reopens every chore, reopens and zeroes every other
      monthly quest, forgets all claimed bonuses, and leaves every balance,
      bounty, reward list and meal as it was. */
  lemma MonthlyResetEffect(s: Guild)
    ensures var t := Step(s, MonthlyReset);
      && |t.quests| == |s.quests|
      && (forall k :: 0 <= k < |s.quests| ==>
            && (IsCleaning(s.quests[k]) ==> t.quests[k] == s.quests[k].(status := Active))
            && (!IsCleaning(s.quests[k]) && s.quests[k].resetsMonthly ==>
                  t.quests[k] == s.quests[k].(status := Active, currentValue := 0))
            && (!IsCleaning(s.quests[k]) && !s.quests[k].resetsMonthly ==> t.quests[k] == s.quests[k]))
      && t.claimedBonuses == ClaimedBonuses([], false)
      && t.familyXP == s.familyXP && t.familyGold == s.familyGold && t.members == s.members
      && t.reminders == s.reminders && t.rewards == s.rewards && t.menu == s.menu
  {
  }

  /** Resetting twice is resetting once. */
  lemma MonthlyResetIdempotent(s: Guild)
    ensures var t := Step(s, MonthlyReset); Step(t, MonthlyReset) == t
  {
    var t := Step(s, MonthlyReset);
    var t2 := Step(t, MonthlyReset);
    MonthlyResetEffect(s);
    MonthlyResetEffect(t);
    assert t2.quests == t.quests;
  }
}
