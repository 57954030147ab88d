/** The figures the guild hall derives from the document on every render:
    clearance percentages, the quest and campaign lists under the owner
    filter, campaign progress and the guild level. */
module Views {
  import opened Wrappers
  import opened Seqs
  import opened GuildState

  /** `Math.round(a / b)`: the integer nearest to a/b, halves rounded up. */
  function RoundDiv(a: int, b: int): (r: int)
    requires b != 0
    ensures b > 0 ==> 2 * b * r <= 2 * a + b < 2 * b * (r + 1)
    ensures b < 0 ==> 2 * b * r >= 2 * a + b > 2 * b * (r + 1)
  {
    if b > 0 then (2 * a + b) / (2 * b) else (-2 * a - b) / (-2 * b)
  }

  lemma MulMono(a: int, x: int, y: int)
    requires a >= 0 && x <= y
    ensures a * x <= a * y
  {
    assert a * y - a * x == a * (y - x);
  }

  /** Rounding lands at or above `k` once a/b + 1/2 reaches `k`. */
  lemma RoundAtLeast(a: int, b: int, k: int)
    requires b > 0 && 2 * a + b >= 2 * k * b
    ensures RoundDiv(a, b) >= k
  {
    var r := RoundDiv(a, b);
    if r < k {
      MulMono(2 * b, r + 1, k);
    }
  }

  /** Rounding stays below `k` while a/b + 1/2 is below `k`. */
  lemma RoundBelow(a: int, b: int, k: int)
    requires b > 0 && 2 * a + b < 2 * k * b
    ensures RoundDiv(a, b) < k
  {
    var r := RoundDiv(a, b);
    if r >= k {
      MulMono(2 * b, k, r);
    }
  }

  /** `Math.round(done / total * 100)`, or 0 for an empty group. */
  function Percent(done: nat, total: nat): (r: int)
    ensures total == 0 || done == 0 ==> r == 0
    ensures done <= total ==> 0 <= r <= 100
    ensures 0 < total && done == total ==> r == 100
    ensures done < total < 200 ==> r < 100
    ensures 200 <= total && done == total - 1 ==> r == 100
    ensures 0 < total ==> 2 * total * r <= 200 * done + total < 2 * total * (r + 1)
  {
    if total > 0 then
      var r := RoundDiv(100 * done, total);
      assert 0 <= r by { RoundAtLeast(100 * done, total, 0); }
      assert done == 0 ==> r < 1 by {
        if done == 0 { RoundBelow(100 * done, total, 1); }
      }
      assert done <= total ==> r <= 100 by {
        if done <= total { RoundBelow(100 * done, total, 101); }
      }
      assert done == total ==> r >= 100 by {
        if done == total { RoundAtLeast(100 * done, total, 100); }
      }
      assert done < total < 200 ==> r < 100 by {
        if done < total < 200 { RoundBelow(100 * done, total, 100); }
      }
      assert 200 <= total && done == total - 1 ==> r >= 100 by {
        if 200 <= total && done == total - 1 { RoundAtLeast(100 * done, total, 100); }
      }
      r
    else 0
  }

  predicate NotDone(q: Quest) {
    !QuestDone(q)
  }

  function InRoom(room: string): Quest -> bool {
    (q: Quest) => q.room == Some(room)
  }

  /** `q.room === room`; the category is not consulted. */
  function RoomQuests(qs: seq<Quest>, room: string): seq<Quest> {
    Filter(qs, InRoom(room))
  }

  function CleaningQuests(qs: seq<Quest>): seq<Quest> {
    Filter(qs, IsCleaning)
  }

  /** Completion percentage of a group of quests. */
  function GroupPercent(group: seq<Quest>): (r: int)
    ensures (forall i :: 0 <= i < |group| ==> !QuestDone(group[i])) ==> r == 0
    ensures 0 <= r <= 100
    ensures 0 < |group| && (forall i :: 0 <= i < |group| ==> QuestDone(group[i])) ==> r == 100
    ensures |group| < 200 && r == 100 ==> forall i :: 0 <= i < |group| ==> QuestDone(group[i])
    ensures 0 < |group| ==>
      2 * |group| * r <= 200 * |Filter(group, QuestDone)| + |group| < 2 * |group| * (r + 1)
  {
    FilterFullIff(group, QuestDone);
    FilterEmptyIff(group, QuestDone);
    Percent(|Filter(group, QuestDone)|, |group|)
  }

  /** The "Clearance" figure of the whole house. */
  function CleanPercent(qs: seq<Quest>): (r: int)
    ensures (forall i :: 0 <= i < |qs| && IsCleaning(qs[i]) ==> !QuestDone(qs[i])) ==> r == 0
    ensures 0 <= r <= 100
    ensures ((exists i :: 0 <= i < |qs| && IsCleaning(qs[i]))
             && forall i :: 0 <= i < |qs| && IsCleaning(qs[i]) ==> QuestDone(qs[i])) ==> r == 100
    ensures |CleaningQuests(qs)| < 200 && r == 100 ==>
            forall i :: 0 <= i < |qs| && IsCleaning(qs[i]) ==> QuestDone(qs[i])
    ensures var g := CleaningQuests(qs);
      0 < |g| ==> 2 * |g| * r <= 200 * |Filter(g, QuestDone)| + |g| < 2 * |g| * (r + 1)
  {
    FilterForall(qs, IsCleaning, QuestDone);
    FilterForall(qs, IsCleaning, NotDone);
    GroupPercent(CleaningQuests(qs))
  }

  /** The percentage shown on one room's card. */
  function RoomPercent(qs: seq<Quest>, room: string): (r: int)
    ensures (forall i :: 0 <= i < |qs| && qs[i].room == Some(room) ==> !QuestDone(qs[i])) ==> r == 0
    ensures 0 <= r <= 100
    ensures ((exists i :: 0 <= i < |qs| && qs[i].room == Some(room))
             && forall i :: 0 <= i < |qs| && qs[i].room == Some(room) ==> QuestDone(qs[i])) ==> r == 100
    ensures |RoomQuests(qs, room)| < 200 && r == 100 ==>
            forall i :: 0 <= i < |qs| && qs[i].room == Some(room) ==> QuestDone(qs[i])
    ensures var g := RoomQuests(qs, room);
      0 < |g| ==> 2 * |g| * r <= 200 * |Filter(g, QuestDone)| + |g| < 2 * |g| * (r + 1)
  {
    FilterForall(qs, InRoom(room), QuestDone);
    FilterForall(qs, InRoom(room), NotDone);
    GroupPercent(RoomQuests(qs, room))
  }

  function ListedQuest(filter: string): Quest -> bool {
    (q: Quest) => !IsCleaning(q) && !IsEpic(q) && (filter == ALL || q.assignedTo == filter)
  }

  function ListedEpic(filter: string): Quest -> bool {
    (q: Quest) => IsEpic(q) && (filter == ALL || q.assignedTo == filter)
  }

  /** The quest board under the owner filter. */
  function FilteredQuests(qs: seq<Quest>, filter: string): (r: seq<Quest>)
    ensures forall q :: q in r <==>
      q in qs && !IsCleaning(q) && !IsEpic(q) && (filter == ALL || q.assignedTo == filter)
  {
    Filter(qs, ListedQuest(filter))
  }

  /** The campaign list under the owner filter. */
  function FilteredEpics(qs: seq<Quest>, filter: string): (r: seq<Quest>)
    ensures forall q :: q in r <==> q in qs && IsEpic(q) && (filter == ALL || q.assignedTo == filter)
  {
    Filter(qs, ListedEpic(filter))
  }

  /** A campaign's bar width; a missing target counts as 1 here. */
  function EpicPercent(q: Quest): (r: int)
    ensures r <= 100
    ensures 0 <= q.currentValue && 0 <= q.targetValue ==> 0 <= r
    ensures 0 < q.targetValue <= q.currentValue ==> r == 100
    ensures q.targetValue == 0 && 1 <= q.currentValue ==> r == 100
    ensures var t := Default(q.targetValue, 1);
      0 < t && r < 100 ==> 2 * t * r <= 200 * q.currentValue + t < 2 * t * (r + 1)
    ensures var t := Default(q.targetValue, 1);
      0 < t && r == 100 ==> 200 * t <= 200 * q.currentValue + t
    ensures var t := Default(q.targetValue, 1);
      t < 0 && r < 100 ==> 2 * t * r >= 200 * q.currentValue + t > 2 * t * (r + 1)
    ensures var t := Default(q.targetValue, 1);
      t < 0 && r == 100 ==> 200 * t >= 200 * q.currentValue + t
  {
    var t := Default(q.targetValue, 1);
    var rounded := RoundDiv(100 * q.currentValue, t);
    assert 0 <= q.currentValue && 0 <= q.targetValue ==> 0 <= rounded by {
      if 0 <= q.currentValue && 0 <= q.targetValue { RoundAtLeast(100 * q.currentValue, t, 0); }
    }
    assert 0 < t <= q.currentValue ==> rounded >= 100 by {
      if 0 < t <= q.currentValue {
        MulMono(200, t, q.currentValue);
        RoundAtLeast(100 * q.currentValue, t, 100);
      }
    }
    assert 0 < t && rounded >= 100 ==> 200 * t <= 200 * q.currentValue + t by {
      if 0 < t && 200 * q.currentValue + t < 200 * t { RoundBelow(100 * q.currentValue, t, 100); }
    }
    assert t < 0 && rounded >= 100 ==> 200 * t >= 200 * q.currentValue + t by {
      if t < 0 && 200 * q.currentValue + t > 200 * t {
        assert rounded == RoundDiv(-100 * q.currentValue, -t);
        RoundBelow(-100 * q.currentValue, -t, 100);
      }
    }
    if rounded <= 100 then rounded else 100
  }

  /** The guild level: whole thousands of experience. */
  function Level(xp: int): (r: int)
    ensures 1000 * r <= xp < 1000 * (r + 1)
  {
    xp / 1000
  }

  /** The level bar in tenths of a percent: JavaScript's `%`, which keeps the dividend's sign. */
  function LevelProgressTenths(xp: int): (r: int)
    ensures 0 <= xp ==> 0 <= r < 1000 && xp == 1000 * Level(xp) + r
    ensures xp < 0 ==> -1000 < r <= 0 && (xp - r) % 1000 == 0
  {
    if xp >= 0 then xp % 1000 else -((-xp) % 1000)
  }

  /** More experience never means a lower level. */
  lemma LevelMonotone(a: int, b: int)
    requires a <= b
    ensures Level(a) <= Level(b)
  {
  }
}
