/** Partial updates and the field-level merge. An action hands the remote
    store a record holding only some top-level fields; the store writes those
    fields and broadcasts the document, and the client folds each snapshot
    over its local copy with `{...prev, ...data}`. Both steps are the same
    shallow merge: a key present in the update wins, every other key is kept. */
module Sync {
  import opened Wrappers
  import opened GuildState

  /** A partial document: `None` marks a top-level key the record does not carry. */
  datatype Update = Update(
    familyXP: Option<int>,
    familyGold: Option<int>,
    members: Option<seq<Member>>,
    quests: Option<seq<Quest>>,
    reminders: Option<seq<Reminder>>,
    claimedBonuses: Option<ClaimedBonuses>,
    rewards: Option<map<string, seq<RewardItem>>>,
    menu: Option<seq<MealSlot>>)

  /** The top-level keys of the guild document. */
  datatype Field = XPField | GoldField | MembersField | QuestsField
                 | RemindersField | BonusesField | RewardsField | MenuField

  const EMPTY := Update(None, None, None, None, None, None, None, None)

  /** The update carries key `f`. */
  predicate Carries(u: Update, f: Field) {
    match f
    case XPField => u.familyXP.Some?
    case GoldField => u.familyGold.Some?
    case MembersField => u.members.Some?
    case QuestsField => u.quests.Some?
    case RemindersField => u.reminders.Some?
    case BonusesField => u.claimedBonuses.Some?
    case RewardsField => u.rewards.Some?
    case MenuField => u.menu.Some?
  }

  /** `s` and `t` hold the same value under key `f`. */
  predicate SameAt(s: Guild, t: Guild, f: Field) {
    match f
    case XPField => s.familyXP == t.familyXP
    case GoldField => s.familyGold == t.familyGold
    case MembersField => s.members == t.members
    case QuestsField => s.quests == t.quests
    case RemindersField => s.reminders == t.reminders
    case BonusesField => s.claimedBonuses == t.claimedBonuses
    case RewardsField => s.rewards == t.rewards
    case MenuField => s.menu == t.menu
  }

  /** `t` holds, under key `f`, the value the update `u` carries there. */
  predicate Wrote(u: Update, t: Guild, f: Field)
    requires Carries(u, f)
  {
    match f
    case XPField => t.familyXP == u.familyXP.value
    case GoldField => t.familyGold == u.familyGold.value
    case MembersField => t.members == u.members.value
    case QuestsField => t.quests == u.quests.value
    case RemindersField => t.reminders == u.reminders.value
    case BonusesField => t.claimedBonuses == u.claimedBonuses.value
    case RewardsField => t.rewards == u.rewards.value
    case MenuField => t.menu == u.menu.value
  }

  /** The shallow merge `{...s, ...u}`: every key the update carries takes the
      update's value, every other key keeps the state's. */
  function Merge(s: Guild, u: Update): (t: Guild)
    ensures forall f :: if Carries(u, f) then Wrote(u, t, f) else SameAt(s, t, f)
  {
    Guild(
      u.familyXP.GetOr(s.familyXP),
      u.familyGold.GetOr(s.familyGold),
      u.members.GetOr(s.members),
      u.quests.GetOr(s.quests),
      u.reminders.GetOr(s.reminders),
      u.claimedBonuses.GetOr(s.claimedBonuses),
      u.rewards.GetOr(s.rewards),
      u.menu.GetOr(s.menu))
  }

  /** The store's side of `updateDoc`: the keys of `u` overwrite those of the document `d`. */
  function Overlay(d: Update, u: Update): Update {
    Update(
      if u.familyXP.Some? then u.familyXP else d.familyXP,
      if u.familyGold.Some? then u.familyGold else d.familyGold,
      if u.members.Some? then u.members else d.members,
      if u.quests.Some? then u.quests else d.quests,
      if u.reminders.Some? then u.reminders else d.reminders,
      if u.claimedBonuses.Some? then u.claimedBonuses else d.claimedBonuses,
      if u.rewards.Some? then u.rewards else d.rewards,
      if u.menu.Some? then u.menu else d.menu)
  }

  /** After `updateDoc` the document carries its old keys and the update's. */
  lemma OverlayKeys(d: Update, u: Update)
    ensures forall f :: Carries(Overlay(d, u), f) <==> Carries(d, f) || Carries(u, f)
  {
    forall f ensures Carries(Overlay(d, u), f) <==> Carries(d, f) || Carries(u, f) {
      match f
      case XPField =>
      case GoldField =>
      case MembersField =>
      case QuestsField =>
      case RemindersField =>
      case BonusesField =>
      case RewardsField =>
      case MenuField =>
    }
  }

  /** A snapshot that carries no keys leaves the local copy as it was. */
  lemma MergeEmpty(s: Guild)
    ensures Merge(s, EMPTY) == s
  {
  }

  /** Receiving the same snapshot twice is receiving it once. */
  lemma MergeIdempotent(s: Guild, u: Update)
    ensures Merge(Merge(s, u), u) == Merge(s, u)
  {
  }

  /** Folding the old document and then the update over the local copy gives
      the same state as folding the document the store holds after `updateDoc`. */
  lemma MergeOverlay(s: Guild, d: Update, u: Update)
    ensures Merge(Merge(s, d), u) == Merge(s, Overlay(d, u))
  {
  }

  /** Updates that carry disjoint keys commute: two clients writing different
      fields both survive, whatever order the store applies them in. */
  lemma MergeDisjointCommute(s: Guild, u: Update, v: Update)
    requires forall f :: !(Carries(u, f) && Carries(v, f))
    ensures Merge(Merge(s, u), v) == Merge(Merge(s, v), u)
  {
    var a, b := Merge(Merge(s, u), v), Merge(Merge(s, v), u);
    assert a.familyXP == b.familyXP by { assert !(Carries(u, XPField) && Carries(v, XPField)); }
    assert a.familyGold == b.familyGold by { assert !(Carries(u, GoldField) && Carries(v, GoldField)); }
    assert a.members == b.members by { assert !(Carries(u, MembersField) && Carries(v, MembersField)); }
    assert a.quests == b.quests by { assert !(Carries(u, QuestsField) && Carries(v, QuestsField)); }
    assert a.reminders == b.reminders by { assert !(Carries(u, RemindersField) && Carries(v, RemindersField)); }
    assert a.claimedBonuses == b.claimedBonuses by { assert !(Carries(u, BonusesField) && Carries(v, BonusesField)); }
    assert a.rewards == b.rewards by { assert !(Carries(u, RewardsField) && Carries(v, RewardsField)); }
    assert a.menu == b.menu by { assert !(Carries(u, MenuField) && Carries(v, MenuField)); }
  }
}
