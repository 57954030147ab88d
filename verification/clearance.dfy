/** When the hall offers a clearance bonus. The screen treats a room, or the
    whole house, as cleared once its rounded percentage reads 100; the intended
    rule is that every chore in it is done. The two agree below 200 chores and
    part ways from there, where one open chore still rounds up to 100%. The
    offer conditions below use the intended rule. */
module Clearance {
  import opened Wrappers
  import opened Seqs
  import opened GuildState
  import opened Views
  import opened Actions
  import R = Reducers

  /** A room card's cleared test as the hall evaluates it. */
  predicate RoomClearedAsWritten(qs: seq<Quest>, room: string) {
    RoomPercent(qs, room) == 100
  }

  /** A room is cleared when it has chores and all of them are done. */
  predicate RoomCleared(qs: seq<Quest>, room: string) {
    && (exists i :: 0 <= i < |qs| && qs[i].room == Some(room))
    && forall i :: 0 <= i < |qs| && qs[i].room == Some(room) ==> QuestDone(qs[i])
  }

  /** The sanctuary test as the hall evaluates it. */
  predicate HouseClearedAsWritten(qs: seq<Quest>) {
    CleanPercent(qs) == 100
  }

  /** The house is cleared when it has chores and all of them are done. */
  predicate HouseCleared(qs: seq<Quest>) {
    && (exists i :: 0 <= i < |qs| && IsCleaning(qs[i]))
    && forall i :: 0 <= i < |qs| && IsCleaning(qs[i]) ==> QuestDone(qs[i])
  }

  /** Below 200 chores in the room, the rounded test and the intended one agree. */
  lemma RoomClearedAgreesBelow200(qs: seq<Quest>, room: string)
    requires |RoomQuests(qs, room)| < 200
    ensures RoomClearedAsWritten(qs, room) <==> RoomCleared(qs, room)
  {
    if RoomClearedAsWritten(qs, room) {
      FilterEmptyIff(qs, InRoom(room));
    }
  }

  lemma HouseClearedAgreesBelow200(qs: seq<Quest>)
    requires |CleaningQuests(qs)| < 200
    ensures HouseClearedAsWritten(qs) <==> HouseCleared(qs)
  {
    if HouseClearedAsWritten(qs) {
      FilterEmptyIff(qs, IsCleaning);
    }
  }

  /** A really cleared room always reads 100%, so the intended test never
      hides a bonus the screen would show for the right reason. */
  lemma RoomClearedReadsFull(qs: seq<Quest>, room: string)
    requires RoomCleared(qs, room)
    ensures RoomClearedAsWritten(qs, room)
  {
  }

  lemma HouseClearedReadsFull(qs: seq<Quest>)
    requires HouseCleared(qs)
    ensures HouseClearedAsWritten(qs)
  {
  }

  /** A kitchen chore, finished or not. */
  function KitchenChore(id: int, done: bool): Quest {
    Quest(id, "Wipe counters", "D", DAILY, CLEANING, FAMILY, if done then Completed else Active,
          10, 10, false, 0, 0, Some("Kitchen"), [])
  }

  /** 200 finished kitchen chores followed by one open one. */
  function AlmostCleanKitchen(): (qs: seq<Quest>)
    ensures |qs| == 201
  {
    seq(200, i => KitchenChore(i, true)) + [KitchenChore(200, false)]
  }

  lemma AlmostCleanKitchenIsKitchen()
    ensures forall i :: 0 <= i < 201 ==>
      AlmostCleanKitchen()[i].room == Some("Kitchen") && IsCleaning(AlmostCleanKitchen()[i])
    ensures !QuestDone(AlmostCleanKitchen()[200])
  {
    var qs := AlmostCleanKitchen();
    forall i | 0 <= i < |qs| ensures qs[i].room == Some("Kitchen") && IsCleaning(qs[i]) {
      if i < 200 { assert qs[i] == KitchenChore(i, true); } else { assert qs[i] == KitchenChore(200, false); }
    }
  }

  lemma AlmostCleanKitchenRoom()
    ensures RoomQuests(AlmostCleanKitchen(), "Kitchen") == AlmostCleanKitchen()
  {
    AlmostCleanKitchenIsKitchen();
    FilterKeepsAll(AlmostCleanKitchen(), InRoom("Kitchen"));
  }

  lemma AlmostCleanKitchenCleaning()
    ensures CleaningQuests(AlmostCleanKitchen()) == AlmostCleanKitchen()
  {
    AlmostCleanKitchenIsKitchen();
    FilterKeepsAll(AlmostCleanKitchen(), IsCleaning);
  }

  lemma AlmostCleanKitchenDone()
    ensures |Filter(AlmostCleanKitchen(), QuestDone)| == 200
  {
    var done := seq(200, i => KitchenChore(i, true));
    var open := KitchenChore(200, false);
    FilterAppend(done, [open], QuestDone);
    FilterKeepsAll(done, QuestDone);
    assert Filter([open], QuestDone) == [];
  }

  /** With 201 kitchen chores, 200 of them done, the card reads 100% and the
      room bonus is offered although a chore is still open. */
  lemma RoomClearedTooEarly()
    ensures RoomClearedAsWritten(AlmostCleanKitchen(), "Kitchen")
    ensures !RoomCleared(AlmostCleanKitchen(), "Kitchen")
  {
    var qs := AlmostCleanKitchen();
    AlmostCleanKitchenIsKitchen();
    AlmostCleanKitchenDone();
    AlmostCleanKitchenRoom();
  }

  /** The same house reads 100% clearance with a chore still open. */
  lemma HouseClearedTooEarly()
    ensures HouseClearedAsWritten(AlmostCleanKitchen())
    ensures !HouseCleared(AlmostCleanKitchen())
  {
    var qs := AlmostCleanKitchen();
    AlmostCleanKitchenIsKitchen();
    AlmostCleanKitchenDone();
    AlmostCleanKitchenCleaning();
  }

  /** The room bonus button: the room is cleared and its bonus unclaimed. */
  predicate RoomBonusOffered(s: Guild, room: string) {
    RoomCleared(s.quests, room) && room !in s.claimedBonuses.rooms
  }

  /** The sanctuary bonus button: the house is cleared and its bonus unclaimed. */
  predicate SanctuaryBonusOffered(s: Guild) {
    HouseCleared(s.quests) && !s.claimedBonuses.sanctuary
  }

  /** Pressing an offered room bonus pays it, and the offer disappears. */
  lemma OfferedRoomBonusPaysOnce(s: Guild, room: string)
    requires RoomBonusOffered(s, room)
    ensures var t := Step(s, ClaimRoomBonus(room));
      && t.familyGold == s.familyGold + 50 && t.familyXP == s.familyXP + 100
      && !RoomBonusOffered(t, room)
  {
  }

  /** Pressing an offered sanctuary bonus pays it, and the offer disappears. */
  lemma OfferedSanctuaryBonusPaysOnce(s: Guild)
    requires SanctuaryBonusOffered(s)
    ensures var t := Step(s, ClaimSanctuaryBonus);
      && t.familyGold == s.familyGold + 500 && t.familyXP == s.familyXP + 1000
      && !SanctuaryBonusOffered(t)
  {
  }

  /** After the monthly reset the house reads 0% clearance, the sanctuary is
      not cleared, and every room bonus can be claimed again. */
  lemma ResetRestartsClearance(s: Guild)
    ensures var t := Step(s, MonthlyReset);
      && CleanPercent(t.quests) == 0
      && !HouseCleared(t.quests)
      && !t.claimedBonuses.sanctuary
      && forall room :: R.ClaimRoomBonus(t, room).Some?
  {
    var t := Step(s, MonthlyReset);
    assert forall i :: 0 <= i < |t.quests| && IsCleaning(t.quests[i]) ==> !QuestDone(t.quests[i]);
  }
}
