# Brown Family Guild: business rules

The guild hall is a household chore tracker. Family members are guild
characters: finishing quests, campaigns and bounties earns shared experience
(`familyXP`), shared gold (`familyGold`) and personal gold (`gp`). Everything
lives in one shared remote document. Each button press runs an action handler.
The handler reads the current guild and builds a partial update holding only
some top-level keys, then hands it to the store. The store writes those keys
and broadcasts the document back. The client folds each snapshot over its local
copy with a shallow merge.

This project models that rule layer as pure Dafny:

- `GuildState` (`guild_state.dfy`): the document as immutable records, the
  rarity cost table, and JavaScript's falsy defaults (`v || d` becomes
  `Default(v, d)`). Numeric fields hold 0 where the stored record has no value.
  A missing `room` is `None`.
- `Sync` (`sync.dfy`): the partial update `Update` (one `Option` per top-level
  key), the shallow merge `Merge` (`{...prev, ...data}`), and the store-side
  overwrite `Overlay`.
- `Reducers` (`reducers.dfy`): one function per handler. Each returns
  `Option<Update>`, where `None` is the handler's early `return`.
- `Actions` (`actions.dfy`): the handlers as one tagged `Action`, plus `Step`,
  the guild after the update has been merged back. Also the document-wide
  invariants: balances only grow, ids stay distinct, progress stays in range.
- `QuestLaws`, `ListLaws` (`quest_laws.dfy`, `list_laws.dfy`): what each action
  does to the whole guild. This covers "nothing else changes", one-shot
  completion and bonuses, idempotence, and add-then-delete round trips.
- `Views` (`views.dfy`): the derived figures. These are the clearance
  percentages, the owner-filtered quest and campaign lists, campaign percent
  and the guild level. `Math.round(100*c/n)` is computed exactly as the integer
  `(200c + n) / (2n)`.
- `Clearance` (`clearance.dfy`): when a room or sanctuary bonus is offered. See
  Findings.
- `Seqs`, `Wrappers`: order-preserving `Filter`, first-match `FindFirst`,
  their induction lemmas, and `Option`.

Some behaviour of the code is kept as written:

- A quest assigned to an owner who is neither `Family` nor a member id pays its
  reward to nobody. The experience is still granted.
- Completing a quest marks every quest sharing its id as completed. Only the
  first match decides whether anything happens and what is paid.
- Deleting a reward from an owner with no list still writes an empty list under
  that owner.
- The two campaign defaults differ. Progress caps a missing target at 10,
  while the progress bar divides by 1. A campaign with no target therefore
  shows 100% after one step but can still advance to 10.
- Adding a cleaning chore whose type is empty sends nothing. In the code,
  `type[0].toUpperCase()` throws before the update is built.

## Model

| member | source | states |
|---|---|---|
| Seqs.Filter | index.jsx:290-296 | `filter` keeps exactly the elements that pass the test: an element is in the result iff it is in the input and passes |
| Seqs.FindFirst | index.jsx:162 | `find` yields the first matching position; it yields nothing iff no element matches |
| Seqs.FilterAppend | index.jsx:290 | deleting from a concatenation deletes from each part, so the kept entries keep their relative order |
| Seqs.FilterKeepsAll | index.jsx:290 | a deletion whose key matches nothing returns the list unchanged |
| Seqs.FilterFullIff | index.jsx:517-518 | the completed count equals the group size iff every quest in the group is completed |
| Seqs.FilterEmptyIff | index.jsx:312-313 | the filtered group is empty iff no quest passes the test |
| Seqs.FilterForall | index.jsx:312-313 | a property holds of every filtered quest iff it holds of every quest of the list that passes the filter |
| Seqs.FilterIdempotent | index.jsx:290 | filtering twice by the same key equals filtering once |
| Seqs.FilterDistinct | index.jsx:290 | deleting entries never creates two entries with the same id |
| GuildState.TierCost | index.jsx:278 | a new reward costs the rarity's price from the tier table (Common 10 … Mythic 2500); an unknown rarity costs 10; every cost is positive |
| Sync.Merge | index.jsx:127 | the snapshot merge: each key the update carries takes the update's value, every other key keeps the local value |
| Sync.OverlayKeys | index.jsx:155 | after `updateDoc` the document carries its old keys plus the update's |
| Sync.MergeEmpty | index.jsx:127 | a snapshot carrying no keys leaves the local guild unchanged |
| Sync.MergeIdempotent | index.jsx:127 | receiving the same snapshot twice equals receiving it once |
| Sync.MergeOverlay | index.jsx:127 | merging the old document then the update equals merging the document the store holds after the update |
| Sync.MergeDisjointCommute | index.jsx:127 | two updates with disjoint keys give the same guild in either order |
| Reducers.CompleteQuest | index.jsx:161-176 | no update iff no quest has the id or the first such quest is already completed; otherwise the update carries quests and XP, plus exactly one of family gold or members |
| Reducers.UpdateEpicProgress | index.jsx:178-187 | only quests change; each epic quest with the id gets min(current + amount, target or 10) and keeps every other field; all other quests are unchanged |
| Reducers.ClaimRoomBonus | index.jsx:189-196 | no update iff the room is already claimed; otherwise gold +50, XP +100, the room appended to the claimed list, sanctuary flag kept, nothing else carried |
| Reducers.ClaimSanctuaryBonus | index.jsx:198-205 | no update iff the sanctuary is already claimed; otherwise gold +500, XP +1000, flag set, claimed rooms kept, nothing else carried |
| Reducers.MonthlyReset | index.jsx:207-214 | chores reopen; other monthly quests reopen with progress 0 (the cleaning test wins); all others are unchanged; bonuses cleared; no balance key is carried |
| Reducers.AddQuest | index.jsx:240-253 | no update iff the title is empty; otherwise exactly one quest is appended after the unchanged old list: active, progress 0, reward 10 for daily else 100, xp 20, the form's fields, no room |
| Reducers.AddCleaningQuest | index.jsx:255-272 | no update iff the title or type is empty; otherwise one chore is appended: Cleaning, Family, reward 10, xp 10, active, the form's room, description the upper-cased first letter of the type |
| Reducers.AddReward | index.jsx:274-281 | no update iff the label is empty; otherwise the owner's list, or an empty one, gains the item at its end, priced from the tier table; other owners' lists are unchanged |
| Reducers.AddBounty | index.jsx:283-288 | no update iff the text is empty; otherwise the bounty list gains one active bounty at its end |
| Reducers.DeleteQuest | index.jsx:290 | only quests change; a quest remains iff it was present and its id differs |
| Reducers.DeleteReward | index.jsx:291-295 | only rewards change; the owner's list keeps exactly the items with another label; other owners are unchanged; the owner key is always written |
| Reducers.DeleteBounty | index.jsx:296 | only bounties change; a bounty remains iff it was present and its id differs |
| Reducers.CompleteReminder | index.jsx:299-304 | no update iff no bounty has the id or the first one is completed; otherwise bounties with the id are completed, the rest are unchanged, gold +10 |
| Reducers.UpdateMeal | index.jsx:306-310 | only the menu changes; length kept; the slot keeps its day and takes the new meal; every other slot is unchanged |
| Actions.BalancesNeverDecrease | index.jsx:161-310 | with non-negative quest payouts, no action lowers family XP, family gold or any member's gp, and the roster keeps its ids; payouts stay non-negative afterwards, so the guarantee holds along any run of actions |
| Actions.UniqueIdsPreserved | index.jsx:240-296 | quest and bounty ids stay distinct under every action, given that each new id is fresh |
| Actions.ProgressStaysInRange | index.jsx:178-187 | with non-negative steps and targets, every campaign's progress stays between 0 and its cap under every action |
| QuestLaws.CompleteQuestEffect | index.jsx:161-176 | completing an active quest completes the quests with its id, adds its xp (or 20) to XP and its reward (or 10) to the family or the assignee, and changes nothing else |
| QuestLaws.CompleteQuestNoOp | index.jsx:162-163 | a missing or already completed quest leaves the guild unchanged |
| QuestLaws.CompleteQuestOnce | index.jsx:161-176 | completing a quest twice has the same effect as completing it once |
| QuestLaws.CompleteReminderEffect | index.jsx:299-304 | completing an active bounty completes the bounties with its id, adds 10 gold, and changes nothing else |
| QuestLaws.CompleteReminderOnce | index.jsx:299-304 | completing a bounty twice pays once |
| QuestLaws.ProgressClamped | index.jsx:181 | progress never exceeds the cap; it never decreases for a non-negative step from within the cap; it lands on the cap when the step reaches it |
| QuestLaws.ProgressFrame | index.jsx:178-187 | progress changes only the counters of the matching campaigns and no other key |
| QuestLaws.RoomBonusOnce | index.jsx:189-196 | a room bonus pays 50 gold and 100 XP once; a second claim leaves the guild unchanged |
| QuestLaws.SanctuaryBonusOnce | index.jsx:198-205 | the sanctuary bonus pays 500 gold and 1000 XP once; a second claim leaves the guild unchanged |
| QuestLaws.MonthlyResetEffect | index.jsx:207-214 | after the reset chores are active, other monthly quests are active at 0, bonuses are empty, and balances, bounties, rewards and menu are unchanged |
| QuestLaws.MonthlyResetIdempotent | index.jsx:207-214 | resetting twice equals resetting once |
| ListLaws.DeleteQuestAbsentId | index.jsx:290 | deleting an id no quest carries keeps the list |
| ListLaws.StepAddQuest | index.jsx:240-253 | a new quest leaves the guild as it was except for one quest appended to the list |
| ListLaws.StepAddCleaningQuest | index.jsx:255-272 | a new chore leaves the guild as it was except for one chore appended |
| ListLaws.StepDeleteQuest | index.jsx:290 | deleting a quest changes only the quest list |
| ListLaws.DropAppendedQuest | index.jsx:290 | deleting the fresh id of an appended quest removes exactly that quest |
| ListLaws.AddQuestThenDelete | index.jsx:240-253 | adding a quest with a fresh id and then deleting that id restores the guild |
| ListLaws.AddCleaningThenDelete | index.jsx:255-272 | the same round trip for a cleaning chore |
| ListLaws.StepAddBounty | index.jsx:283-288 | a new bounty changes only the bounty list, by one appended entry |
| ListLaws.StepDeleteBounty | index.jsx:296 | deleting a bounty changes only the bounty list |
| ListLaws.AddBountyThenDelete | index.jsx:283-288 | adding a bounty with a fresh id and then deleting it restores the guild |
| ListLaws.StepAddReward | index.jsx:274-281 | a new reward changes only the owner's list, by one appended item |
| ListLaws.StepDeleteReward | index.jsx:291-295 | deleting a reward changes only the owner's list |
| ListLaws.AddRewardThenDelete | index.jsx:274-295 | adding a reward with a new label to an existing owner and then deleting it restores the guild |
| ListLaws.DeleteQuestKeepsOrder | index.jsx:290 | deletion removes exactly the matching quests and keeps the order of the rest |
| ListLaws.DeleteQuestIdempotent | index.jsx:290 | deleting twice equals deleting once; deleting a missing id changes nothing |
| ListLaws.DeleteBountyIdempotent | index.jsx:296 | deleting a bounty twice equals deleting it once |
| ListLaws.DeleteRewardIdempotent | index.jsx:291-295 | deleting a reward twice equals deleting it once; other owners' lists never change |
| ListLaws.UpdateMealLastWins | index.jsx:306-310 | two edits of one slot leave the second text; the week keeps its length and its days |
| Views.RoundDiv | index.jsx:313 | `Math.round(a/b)`: the result r satisfies r ≤ a/b + 1/2 < r + 1 |
| Views.Percent | index.jsx:313 | 0 for an empty group or none done; within [0,100]; 100 when all are done; below 100 when one is open and the group has fewer than 200; 100 with one open from 200 on; for a non-empty group it is round(100·done/total), i.e. r ≤ 100·done/total + 1/2 < r + 1 |
| Views.GroupPercent | index.jsx:517-518 | a group's percent is within [0,100]; 0 when none is done; 100 when all are done; below 200 quests, 100 only when all are done; for a non-empty group it is the rounded percentage of completed quests |
| Views.CleanPercent | index.jsx:312-313 | house clearance is within [0,100]; 0 when no chore is done; 100 when chores exist and all are done; below 200 chores, 100 only when all are done; with chores present it is the rounded percentage of completed chores |
| Views.RoomPercent | index.jsx:516-518 | the room figure counts every quest with that room, whatever its category, with the same bounds as house clearance; with room quests present it is the rounded percentage of completed ones |
| Views.FilteredQuests | index.jsx:314 | a quest is listed iff it is not a chore, not a campaign, and belongs to the filter's owner unless the filter is All |
| Views.FilteredEpics | index.jsx:315 | a quest is listed iff it is a campaign and either the filter is All or the quest belongs to the filter's owner |
| Views.EpicPercent | index.jsx:472 | never above 100; non-negative for non-negative values; 100 once progress reaches a positive target, or reaches 1 with no target; with the target read as `targetValue || 1`, below 100 it is round(100·progress/target) and it reads 100 only when that rounding reaches 100; for a negative target the same holds with the inequalities for a negative divisor |
| Views.Level | index.jsx:344 | the level is the number of whole thousands of XP |
| Views.LevelProgressTenths | index.jsx:346 | the level bar in tenths of a percent: XP = 1000·level + bar for non-negative XP; JavaScript's signed remainder otherwise |
| Views.LevelMonotone | index.jsx:344 | more XP never gives a lower level |
| Clearance.RoomClearedAgreesBelow200 | index.jsx:519 | below 200 room quests, "reads 100%" and "every room quest done" coincide |
| Clearance.HouseClearedAgreesBelow200 | index.jsx:508 | below 200 chores, "clearance reads 100%" and "every chore done" coincide |
| Clearance.RoomClearedReadsFull | index.jsx:519 | a really cleared room always reads 100% |
| Clearance.HouseClearedReadsFull | index.jsx:508 | a really cleared house always reads 100% |
| Clearance.RoomClearedTooEarly | index.jsx:516-519 | 201 kitchen chores with 200 done read 100%, yet the room is not cleared |
| Clearance.HouseClearedTooEarly | index.jsx:312-313 | the same house reads 100% clearance with one chore open |
| Clearance.OfferedRoomBonusPaysOnce | index.jsx:540-541 | pressing an offered room bonus pays 50 gold and 100 XP and withdraws the offer |
| Clearance.OfferedSanctuaryBonusPaysOnce | index.jsx:508-509 | pressing the offered sanctuary bonus pays 500 gold and 1000 XP and withdraws the offer |
| Clearance.ResetRestartsClearance | index.jsx:207-214 | after the monthly reset, clearance reads 0, the house is not cleared, and every room bonus is claimable again |

## Findings

| source | as written | input that shows it | evidently intended | confidence | as-written member | corrected member |
|---|---|---|---|---|---|---|
| index.jsx:516-519 | a room counts as cleared, and its bonus button appears, when `Math.round(done / total * 100) === 100` | a room with 201 chores, 200 of them done: 99.50…% rounds to 100 (from 200 chores on, one open chore is enough) | a room is cleared only when every chore in it is done | not executed; needs 200 or more chores in one room | Clearance.RoomClearedTooEarly | Clearance.RoomCleared |
| index.jsx:312-313 | the sanctuary bonus button appears (index.jsx:508) when the rounded house clearance is 100 | the same 201 kitchen chores, 200 of them done | the house is cleared only when every chore is done | not executed; needs 200 or more chores | Clearance.HouseClearedTooEarly | Clearance.HouseCleared |

The corrected tests are used by `Clearance.RoomBonusOffered` and
`Clearance.SanctuaryBonusOffered`. `Clearance.OfferedRoomBonusPaysOnce`,
`Clearance.OfferedSanctuaryBonusPaysOnce`, `Clearance.RoomClearedReadsFull`
and `Clearance.HouseClearedReadsFull` prove what is intended of them.
`Clearance.RoomClearedAgreesBelow200` and `Clearance.HouseClearedAgreesBelow200`
show that both tests agree for groups of fewer than 200 chores.

## Left out

- Firebase set-up, sign-in and the store transport (`doc`, `onSnapshot`, `updateDoc`, `setDoc`, index.jsx:64-71, 106-159) are external services. A handler's effect is its returned update, applied by `Sync.Merge`. The `if (!user) return` guard and the logged update failures are transport behaviour.
- The first-run path (index.jsx:128-145) is out: migration from `localStorage`, or seeding the store with the default guild. It is browser storage and JSON parsing.
- Ledger export and import (index.jsx:216-238) are out: clipboard, DOM and `JSON.parse`/`JSON.stringify`.
- `Date.now()` ids are out. Ids are a `freshId` parameter, and freshness is a precondition only of the lemmas that need it.
- Races between clients and fire-and-forget updates are out; concurrency is not modelled. `Sync.MergeDisjointCommute` covers only updates with disjoint keys.
- Rendering is out as presentation only: JSX, `Icon`, `Avatar`, `getRarityColor` and the form state resets.
- Float behaviour of `Math.round` and `/` is out. The percentages use exact rational rounding, which can differ by one from the screen on ordinary inputs. For 23 of 40 chores done, `(23/40)*100` is 57.49999999999999 in doubles and the card shows 57, while `Views.Percent(23, 40)` is 58. The 100% threshold behind the Findings is not affected at the smallest cases: 199/200·100 is exactly 99.5 in doubles and 200/201·100 is 99.502…, so both round to 100 as the exact formula does.
- Absent `claimedBonuses` is out. The `?.` / `|| []` reads and the spread of an undefined object are replaced by an always-present record. Absent balances are out too, since `familyXP || 0` is the identity on numbers.
- JavaScript's loose typing is out: a status other than active or completed, a `NaN` progress step, a target typed as text.
- Reducers.UpdateMeal: requires the index to name an existing slot. The menu rows are the only callers. Out of range, JavaScript would grow the array with holes.
- Reducers.AddCleaningQuest: upper-cases only ASCII letters; `toUpperCase` on other characters is not modelled.
- Actions.ProgressStaysInRange: assumes non-negative progress steps and targets. The buttons only send +1 and +10, but the code does not check it.
- Actions.BalancesNeverDecrease: assumes the starting guild's quests carry non-negative xp and reward, and proves every action keeps it so. Imported or migrated data is not checked.
