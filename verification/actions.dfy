/** Every user intent as one tagged value, dispatched to its handler, and the
    guild the client holds once the store has echoed the update back. The
    lemmas here are the document-wide invariants: balances only grow, quest and
    bounty ids stay distinct, and campaign progress stays within its cap. */
module Actions {
  import opened Wrappers
  import opened Seqs
  import opened GuildState
  import opened Sync
  import R = Reducers

  datatype Action =
    | CompleteQuest(questId: int)
    | UpdateEpicProgress(questId: int, amount: int)
    | ClaimRoomBonus(room: string)
    | ClaimSanctuaryBonus
    | MonthlyReset
    | AddQuest(questForm: R.QuestForm, freshId: int)
    | AddCleaningQuest(cleaningForm: R.CleaningForm, freshId: int)
    | AddReward(rewardForm: R.RewardForm)
    | AddBounty(text: string, freshId: int)
    | DeleteQuest(questId: int)
    | DeleteReward(owner: string, rewardLabel: string)
    | DeleteBounty(reminderId: int)
    | CompleteReminder(reminderId: int)
    | UpdateMeal(index: int, meal: string)

  /** The only caller-side demand: a meal edit names an existing slot. */
  predicate Admissible(s: Guild, a: Action) {
    a.UpdateMeal? ==> 0 <= a.index < |s.menu|
  }

  function Reduce(s: Guild, a: Action): Option<Update>
    requires Admissible(s, a)
  {
    match a
    case CompleteQuest(id) => R.CompleteQuest(s, id)
    case UpdateEpicProgress(id, amount) => R.UpdateEpicProgress(s, id, amount)
    case ClaimRoomBonus(room) => R.ClaimRoomBonus(s, room)
    case ClaimSanctuaryBonus => R.ClaimSanctuaryBonus(s)
    case MonthlyReset => R.MonthlyReset(s)
    case AddQuest(form, id) => R.AddQuest(s, form, id)
    case AddCleaningQuest(form, id) => R.AddCleaningQuest(s, form, id)
    case AddReward(form) => R.AddReward(s, form)
    case AddBounty(text, id) => R.AddBounty(s, text, id)
    case DeleteQuest(id) => R.DeleteQuest(s, id)
    case DeleteReward(owner, labelText) => R.DeleteReward(s, owner, labelText)
    case DeleteBounty(id) => R.DeleteBounty(s, id)
    case CompleteReminder(id) => R.CompleteReminder(s, id)
    case UpdateMeal(index, meal) => R.UpdateMeal(s, index, meal)
  }

  /** The guild after the action's update has been merged back; unchanged when
      the handler sent nothing. */
  function Step(s: Guild, a: Action): Guild
    requires Admissible(s, a)
  {
    match Reduce(s, a)
    case None => s
    case Some(u) => Merge(s, u)
  }

  /** Quests never pay out negative experience or gold. */
  ghost predicate PayoutsNonNegative(qs: seq<Quest>) {
    forall i :: 0 <= i < |qs| ==> qs[i].xp >= 0 && qs[i].reward >= 0
  }

  /** `t`'s balances are at least `s`'s, member by member. */
  ghost predicate BalancesGrow(s: Guild, t: Guild) {
    && s.familyXP <= t.familyXP
    && s.familyGold <= t.familyGold
    && |s.members| == |t.members|
    && forall k :: 0 <= k < |s.members| ==>
         t.members[k].id == s.members[k].id && s.members[k].gp <= t.members[k].gp
  }

  /** No action lowers the shared experience, the shared gold or any member's
      gold; the monthly reset in particular leaves them alone. Payouts stay
      non-negative, since new quests pay 10 or 100 gold and 10 or 20 experience
      and no action edits a payout, so the lemma applies at every later step. */
  lemma BalancesNeverDecrease(s: Guild, a: Action)
    requires Admissible(s, a)
    requires PayoutsNonNegative(s.quests)
    ensures BalancesGrow(s, Step(s, a))
    ensures PayoutsNonNegative(Step(s, a).quests)
  {
    var t := Step(s, a);
    if a.CompleteQuest? {
      match FindFirst(s.quests, QuestHasId(a.questId))
      case None =>
      case Some(i) =>
        var q := s.quests[i];
        assert Default(q.xp, 20) >= 0 && Default(q.reward, 10) >= 0;
    }
  }

  /** Ids not used by any quest or bounty of `s`, where the action mints one. */
  ghost predicate FreshFor(s: Guild, a: Action) {
    && ((a.AddQuest? || a.AddCleaningQuest?) ==>
          forall i :: 0 <= i < |s.quests| ==> s.quests[i].id != a.freshId)
    && (a.AddBounty? ==> forall i :: 0 <= i < |s.reminders| ==> s.reminders[i].id != a.freshId)
  }

  ghost predicate UniqueIds(s: Guild) {
    DistinctKeys(s.quests, QuestKey) && DistinctKeys(s.reminders, ReminderKey)
  }

  /** Quest and bounty ids stay distinct, provided every new id is fresh. */
  lemma UniqueIdsPreserved(s: Guild, a: Action)
    requires Admissible(s, a)
    requires UniqueIds(s) && FreshFor(s, a)
    ensures UniqueIds(Step(s, a))
  {
    var t := Step(s, a);
    match a
    case DeleteQuest(id) =>
      FilterDistinct(s.quests, QuestLacksId(id), QuestKey);
    case DeleteBounty(id) =>
      FilterDistinct(s.reminders, ReminderLacksId(id), ReminderKey);
    case _ =>
      assert |t.quests| == |s.quests| ==> forall i :: 0 <= i < |s.quests| ==> t.quests[i].id == s.quests[i].id;
  }

  /** Every campaign's progress lies between 0 and its cap. */
  ghost predicate ProgressInRange(qs: seq<Quest>) {
    forall i :: 0 <= i < |qs| && IsEpic(qs[i]) ==> 0 <= qs[i].currentValue <= R.ProgressCap(qs[i])
  }

  /** Progress stays within its cap under every action, as long as progress
      steps are not negative and new campaigns do not get a negative target. */
  lemma ProgressStaysInRange(s: Guild, a: Action)
    requires Admissible(s, a)
    requires ProgressInRange(s.quests)
    requires a.UpdateEpicProgress? ==> a.amount >= 0
    requires a.AddQuest? ==> a.questForm.targetValue >= 0
    ensures ProgressInRange(Step(s, a).quests)
  {
  }
}
