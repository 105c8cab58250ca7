/**
 * What the progress engine's operations promise together: a check-off is
 * idempotent and pays a challenge's points once; the incremental badge award,
 * run before the new progress is saved, lands exactly on the full
 * recalculation's tiers; and joining, checking off and leaving keep the stored
 * aggregate consistent (ids unique, earned points matching progress, the point
 * total equal to the points earned, the badges equal to the recalculation).
 */
module EngineLaws {
  import opened Wrappers
  import Seqs
  import Catalog
  import opened Models
  import opened StorageService
  import opened ChallengeEngine

  /** At most one stored challenge per id. */
  ghost predicate UniqueIds(cs: seq<UserChallenge>) {
    forall i, j :: 0 <= i < j < |cs| ==> cs[i].id != cs[j].id
  }

  /** A challenge has earned its reward once every day is done, and nothing before. */
  ghost predicate EarnedMatchesProgress(c: UserChallenge) {
    c.points >= 0 && c.pointsEarned == if AllDone(c.progress) then c.points else 0
  }

  /** The points earned over a challenge list. */
  function SumEarned(cs: seq<UserChallenge>): int {
    if |cs| == 0 then 0 else SumEarned(cs[..|cs| - 1]) + cs[|cs| - 1].pointsEarned
  }

  /** The aggregate the engine maintains when every write goes through. */
  ghost predicate Consistent(d: StorageData) {
    && UniqueIds(d.challenges)
    && AllEarnedMatch(d.challenges)
    && d.user.points == SumEarned(d.challenges)
    && d.user.badges == RecalcBadges(CompletedCount(d.challenges))
  }

  // ---------------------------------------------------------------------------
  // Sums and counts over challenge lists

  lemma {:induction false} SumConcat(a: seq<UserChallenge>, b: seq<UserChallenge>)
    ensures SumEarned(a + b) == SumEarned(a) + SumEarned(b)
  {
    if |b| == 0 {
      assert a + b == a;
    } else {
      assert (a + b)[..|a + b| - 1] == a + b[..|b| - 1];
      SumConcat(a, b[..|b| - 1]);
    }
  }

  lemma SumUpdate(cs: seq<UserChallenge>, i: nat, x: UserChallenge)
    requires i < |cs|
    ensures SumEarned(cs[i := x]) == SumEarned(cs) - cs[i].pointsEarned + x.pointsEarned
  {
    var cs' := cs[i := x];
    assert cs'[..i] + cs'[i + 1..] == cs[..i] + cs[i + 1..];
    SumWithout(cs, i);
    SumWithout(cs', i);
  }

  lemma CountConcat(a: seq<UserChallenge>, b: seq<UserChallenge>)
    ensures CompletedCount(a + b) == CompletedCount(a) + CompletedCount(b)
  {
    Seqs.FilterAppend(a, b, IsCompleted);
  }

  lemma CountUpdate(cs: seq<UserChallenge>, i: nat, x: UserChallenge)
    requires i < |cs|
    ensures CompletedCount(cs[i := x]) ==
      CompletedCount(cs) - (if AllDone(cs[i].progress) then 1 else 0) + (if AllDone(x.progress) then 1 else 0)
  {
    Seqs.FilterLengthUpdate(cs, i, x, IsCompleted);
  }

  lemma SumWithout(cs: seq<UserChallenge>, i: nat)
    requires i < |cs|
    ensures SumEarned(cs[..i] + cs[i + 1..]) == SumEarned(cs) - cs[i].pointsEarned
  {
    var before, after := cs[..i + 1], cs[i + 1..];
    assert SumEarned(cs) == SumEarned(before) + SumEarned(after) by {
      assert before + after == cs;
      SumConcat(before, after);
    }
    assert SumEarned(before) == SumEarned(cs[..i]) + cs[i].pointsEarned by {
      assert before[..i] == cs[..i];
    }
    assert SumEarned(cs[..i] + after) == SumEarned(cs[..i]) + SumEarned(after) by {
      SumConcat(cs[..i], after);
    }
  }

  lemma CountWithout(cs: seq<UserChallenge>, i: nat)
    requires i < |cs|
    ensures CompletedCount(cs[..i] + cs[i + 1..]) == CompletedCount(cs) - (if AllDone(cs[i].progress) then 1 else 0)
  {
    assert cs == cs[..i] + [cs[i]] + cs[i + 1..];
    CountConcat(cs[..i] + [cs[i]], cs[i + 1..]);
    CountConcat(cs[..i], [cs[i]]);
    CountConcat(cs[..i], cs[i + 1..]);
    assert [cs[i]][1..] == [];
  }

  /** With unique ids, deleting an id that is stored at `i` removes exactly position `i`. */
  lemma RemoveUnique(cs: seq<UserChallenge>, id: int, i: nat)
    requires UniqueIds(cs) && i < |cs| && cs[i].id == id
    ensures RemoveId(cs, id) == cs[..i] + cs[i + 1..]
  {
    var p := IdIsNot(id);
    assert forall k :: 0 <= k < |cs| && k != i ==> p(cs[k]) by {
      forall k | 0 <= k < |cs| && k != i ensures p(cs[k]) {
        assert cs[k].id != cs[i].id;
      }
    }
    Seqs.FilterRemovesOne(cs, i, p);
  }

  lemma UniqueWithout(cs: seq<UserChallenge>, i: nat)
    requires UniqueIds(cs) && i < |cs|
    ensures UniqueIds(cs[..i] + cs[i + 1..])
  {
    var r := cs[..i] + cs[i + 1..];
    forall p, q | 0 <= p < q < |r|
      ensures r[p].id != r[q].id
    {
      var p' := if p < i then p else p + 1;
      var q' := if q < i then q else q + 1;
      assert r[p] == cs[p'] && r[q] == cs[q'];
    }
  }

  /** Two lists with the same ids position by position find an id at the same place. */
  lemma {:induction false} SameIdsSameIndex(a: seq<UserChallenge>, b: seq<UserChallenge>, id: int)
    requires |a| == |b| && forall j :: 0 <= j < |a| ==> a[j].id == b[j].id
    ensures IndexOfId(a, id) == IndexOfId(b, id)
  {
    if |a| > 0 {
      SameIdsSameIndex(a[1..], b[1..], id);
    }
  }

  // ---------------------------------------------------------------------------
  // Badges

  /**
   * The incremental award (2/5/8) applied to a completed count `n` tops the
   * recalculated badges for `n` up to exactly the recalculated badges for `n + 1`
   * (3/6/9): the two rule sets agree once the award sees the count from before
   * the completing challenge is saved.
   */
  lemma AwardTopsUpToRecalculation(n: nat)
    ensures RecalcBadges(n) + IncrementalAward(n, RecalcBadges(n)) == RecalcBadges(n + 1)
  {
    assert Bronze != Silver && Silver != Gold && Bronze != Gold;
    if n < 2 {
    } else if n == 2 {
      assert RecalcBadges(n) == [];
    } else if n < 5 {
      assert RecalcBadges(n) == [Bronze];
    } else if n == 5 {
      assert RecalcBadges(n) == [Bronze];
    } else if n < 8 {
      assert RecalcBadges(n) == [Bronze, Silver];
    } else if n == 8 {
      assert RecalcBadges(n) == [Bronze, Silver];
    } else {
      assert RecalcBadges(n) == [Bronze, Silver, Gold];
    }
  }

  // ---------------------------------------------------------------------------
  // markDayComplete

  /** What a successful check-off does, spelled out: `i` is the entry found, `award` whether it pays. */
  lemma MarkSuccessShape(d: StorageData, id: int, day: nat) returns (i: nat, award: bool)
    requires DayInRange(d, id, day) && MarkDay(d, id, day).0.success
    ensures IndexOfId(d.challenges, id) == Some(i) && i < |d.challenges| && d.challenges[i].id == id
    ensures FindChallenge(d.challenges, id) == Some(d.challenges[i])
    ensures day < |d.challenges[i].progress| && !d.challenges[i].progress[day]
    ensures var c := d.challenges[i];
      var progress := c.progress[day := true];
      var newBadges := if award then IncrementalAward(CompletedCount(d.challenges), d.user.badges) else [];
      && award == (AllDone(progress) && c.pointsEarned == 0)
      && MarkDay(d, id, day).0 == MarkResult(true, AllDone(progress), newBadges)
      && MarkDay(d, id, day).1 == StorageData(
           d.challenges[i := c.(progress := progress, pointsEarned := if award then c.points else c.pointsEarned)],
           d.user.(points := d.user.points + (if award then c.points else 0), badges := d.user.badges + newBadges))
  {
    i := IndexOfId(d.challenges, id).value;
    var c := d.challenges[i];
    var progress := c.progress[day := true];
    award := AllDone(progress) && c.pointsEarned == 0;
    var cs' := UpdateFirst(d.challenges, id, ProgressUpdate(progress, if award then c.points else c.pointsEarned));
    assert cs' == d.challenges[i := c.(progress := progress, pointsEarned := if award then c.points else c.pointsEarned)];
  }

  /**
   * A successful check-off changes the first entry with the id in its progress
   * at `day` (from false to true) and its earned points, and no other entry;
   * a failed one changes nothing.
   */
  lemma MarkChangesOnlyThatDay(d: StorageData, id: int, day: nat)
    requires DayInRange(d, id, day)
    ensures MarkDay(d, id, day).0.success <==>
      FindChallenge(d.challenges, id).Some? && !FindChallenge(d.challenges, id).value.progress[day]
    ensures !MarkDay(d, id, day).0.success ==> MarkDay(d, id, day).1 == d
    ensures MarkDay(d, id, day).0.success ==>
      var cs, cs' := d.challenges, MarkDay(d, id, day).1.challenges;
      var i := IndexOfId(cs, id).value;
      && |cs'| == |cs|
      && cs'[i] == cs[i].(progress := cs[i].progress[day := true], pointsEarned := cs'[i].pointsEarned)
      && (forall j :: 0 <= j < |cs| && j != i ==> cs'[j] == cs[j])
  {
    if MarkDay(d, id, day).0.success {
      var i, award := MarkSuccessShape(d, id, day);
    }
  }

  /** Checking off the same day again changes nothing and reports failure. */
  lemma MarkIsIdempotent(d: StorageData, id: int, day: nat)
    requires DayInRange(d, id, day)
    ensures DayInRange(MarkDay(d, id, day).1, id, day)
    ensures MarkDay(MarkDay(d, id, day).1, id, day) == (NotMarked, MarkDay(d, id, day).1)
  {
    var d' := MarkDay(d, id, day).1;
    if MarkDay(d, id, day).0.success {
      MarkChangesOnlyThatDay(d, id, day);
      SameIdsSameIndex(d.challenges, d'.challenges, id);
    }
  }

  /** A challenge done on every day accepts no further check-off, so its points cannot be paid twice. */
  lemma FinishedChallengeIsFrozen(d: StorageData, id: int, day: nat)
    requires DayInRange(d, id, day)
    requires FindChallenge(d.challenges, id).Some? && AllDone(FindChallenge(d.challenges, id).value.progress)
    ensures MarkDay(d, id, day) == (NotMarked, d)
  {
  }

  /**
   * The point total rises by the challenge's reward exactly when the check-off
   * completes it and nothing was earned on it before, and is otherwise unchanged;
   * after the award the entry records the reward as earned.
   */
  lemma MarkPaysPointsOnce(d: StorageData, id: int, day: nat)
    requires DayInRange(d, id, day)
    ensures var (r, d') := MarkDay(d, id, day);
      r.success ==>
        var c := FindChallenge(d.challenges, id).value;
        var award := r.isFullyCompleted && c.pointsEarned == 0;
        && d'.user.points == d.user.points + (if award then c.points else 0)
        && d'.challenges[IndexOfId(d.challenges, id).value].pointsEarned == (if award then c.points else c.pointsEarned)
  {
    if MarkDay(d, id, day).0.success {
      var i, award := MarkSuccessShape(d, id, day);
    }
  }

  /** A check-off adds one to the completed count exactly when it completes the challenge. */
  lemma MarkCountsOneMore(d: StorageData, id: int, day: nat)
    requires DayInRange(d, id, day)
    ensures var (r, d') := MarkDay(d, id, day);
      CompletedCount(d'.challenges) == CompletedCount(d.challenges) + (if r.isFullyCompleted then 1 else 0)
  {
    if MarkDay(d, id, day).0.success {
      var i, award := MarkSuccessShape(d, id, day);
      var c := d.challenges[i];
      assert !AllDone(c.progress) by {
        assert !c.progress[day];
      }
      CountUpdate(d.challenges, i, MarkDay(d, id, day).1.challenges[i]);
    }
  }

  /**
   * The badge check inside a completing check-off sees the completed count from
   * before the new progress is saved: one less than the count afterwards.
   */
  lemma BadgeCheckSeesCountBeforeSave(d: StorageData, id: int, day: nat)
    requires DayInRange(d, id, day)
    ensures var (r, d') := MarkDay(d, id, day);
      r.newBadges != [] ==>
        r.isFullyCompleted && r.newBadges == IncrementalAward(CompletedCount(d'.challenges) - 1, d.user.badges)
  {
    MarkCountsOneMore(d, id, day);
  }

  // ---------------------------------------------------------------------------
  // The consistent aggregate

  lemma DefaultIsConsistent()
    ensures Consistent(DefaultData)
  {
  }

  /** Appending an entry with a new id, nothing done and nothing earned keeps the aggregate consistent. */
  lemma AppendKeepsConsistent(d: StorageData, c: UserChallenge)
    requires Consistent(d) && !HasId(d.challenges, c.id)
    requires c.points >= 0 && c.pointsEarned == 0 && !AllDone(c.progress)
    ensures Consistent(d.(challenges := d.challenges + [c]))
  {
    var cs := d.challenges;
    SumConcat(cs, [c]);
    assert SumEarned([c]) == 0 by {
      assert [c][..0] == [];
    }
    CountConcat(cs, [c]);
    assert CompletedCount([c]) == 0;
  }

  lemma JoinKeepsConsistent(d: StorageData, id: int, startedAt: string)
    requires Consistent(d) && CanJoin(d, id)
    ensures Consistent(Joined(d, id, startedAt))
  {
    var def := Catalog.GetChallengeById(id).value;
    AppendKeepsConsistent(d, NewUserChallenge(def, startedAt));
  }

  /** Every stored challenge's earned points match its progress. */
  ghost predicate AllEarnedMatch(cs: seq<UserChallenge>) {
    forall i :: 0 <= i < |cs| ==> EarnedMatchesProgress(cs[i])
  }

  lemma ReplaceKeepsIds(cs: seq<UserChallenge>, i: nat, c': UserChallenge)
    requires UniqueIds(cs) && i < |cs| && c'.id == cs[i].id
    ensures UniqueIds(cs[i := c'])
  {
    assert forall j :: 0 <= j < |cs| ==> cs[i := c'][j].id == cs[j].id;
  }

  lemma ReplaceKeepsEarned(cs: seq<UserChallenge>, i: nat, c': UserChallenge)
    requires AllEarnedMatch(cs) && i < |cs| && EarnedMatchesProgress(c')
    ensures AllEarnedMatch(cs[i := c'])
  {
  }

  lemma RemoveKeepsEarned(cs: seq<UserChallenge>, i: nat)
    requires AllEarnedMatch(cs) && i < |cs|
    ensures AllEarnedMatch(cs[..i] + cs[i + 1..])
  {
    var rest := cs[..i] + cs[i + 1..];
    forall k | 0 <= k < |rest| ensures EarnedMatchesProgress(rest[k]) {
      assert rest[k] == cs[if k < i then k else k + 1];
    }
  }

  /** Replacing one entry by one with the same id whose earned points match its progress keeps the aggregate consistent. */
  lemma ReplaceKeepsConsistent(d: StorageData, i: nat, c': UserChallenge)
    requires Consistent(d) && i < |d.challenges|
    requires c'.id == d.challenges[i].id && EarnedMatchesProgress(c')
    ensures var cs' := d.challenges[i := c'];
      Consistent(StorageData(cs', d.user.(
        points := d.user.points - d.challenges[i].pointsEarned + c'.pointsEarned,
        badges := RecalcBadges(CompletedCount(cs')))))
  {
    ReplaceKeepsIds(d.challenges, i, c');
    ReplaceKeepsEarned(d.challenges, i, c');
    SumUpdate(d.challenges, i, c');
  }

  /** Deleting one entry and taking its earned points off the total keeps the aggregate consistent. */
  lemma RemoveKeepsConsistent(d: StorageData, i: nat)
    requires Consistent(d) && i < |d.challenges|
    ensures var rest := d.challenges[..i] + d.challenges[i + 1..];
      && SumEarned(rest) >= 0
      && Consistent(StorageData(rest, d.user.(
           points := d.user.points - d.challenges[i].pointsEarned,
           badges := RecalcBadges(CompletedCount(rest)))))
  {
    var rest := d.challenges[..i] + d.challenges[i + 1..];
    UniqueWithout(d.challenges, i);
    RemoveKeepsEarned(d.challenges, i);
    SumWithout(d.challenges, i);
    NonNegativeSum(rest);
  }

  lemma MarkKeepsConsistent(d: StorageData, id: int, day: nat)
    requires Consistent(d) && DayInRange(d, id, day)
    ensures Consistent(MarkDay(d, id, day).1)
  {
    if MarkDay(d, id, day).0.success {
      var i, award := MarkSuccessShape(d, id, day);
      var cs := d.challenges;
      var c := cs[i];
      var progress := c.progress[day := true];
      var c' := c.(progress := progress, pointsEarned := if award then c.points else c.pointsEarned);
      assert !AllDone(c.progress) by {
        assert !c.progress[day];
      }
      assert EarnedMatchesProgress(c);
      assert award == AllDone(progress);
      CountUpdate(cs, i, c');
      if award {
        AwardTopsUpToRecalculation(CompletedCount(cs));
      }
      ReplaceKeepsConsistent(d, i, c');
    }
  }

  /** With unique ids, leaving a stored challenge deletes exactly its position `i`. */
  lemma LeaveDeletesEntry(cs: seq<UserChallenge>, id: int) returns (i: nat)
    requires UniqueIds(cs) && HasId(cs, id)
    ensures i < |cs| && FindChallenge(cs, id) == Some(cs[i])
    ensures RemoveId(cs, id) == cs[..i] + cs[i + 1..]
  {
    i := IndexOfId(cs, id).value;
    RemoveUnique(cs, id, i);
  }

  /** When the total covers what the challenge earned, leaving subtracts exactly that. */
  lemma LeavePointsExact(d: StorageData, id: int, c: UserChallenge)
    requires FindChallenge(d.challenges, id) == Some(c)
    requires c.pointsEarned >= 0 && d.user.points >= c.pointsEarned
    ensures LeavePoints(d, id) == d.user.points - c.pointsEarned
  {
  }

  lemma LeaveKeepsConsistent(d: StorageData, id: int)
    requires Consistent(d)
    ensures Consistent(LeaveState(d, id))
    ensures FindChallenge(d.challenges, id).Some? ==>
      LeaveState(d, id).user.points == d.user.points - FindChallenge(d.challenges, id).value.pointsEarned
    ensures FindChallenge(d.challenges, id).None? ==> LeaveState(d, id) == d
  {
    var cs := d.challenges;
    if HasId(cs, id) {
      var i := LeaveDeletesEntry(cs, id);
      RemoveKeepsConsistent(d, i);
      LeavePointsExact(d, id, cs[i]);
    } else {
      assert RemoveId(d.challenges, id) == d.challenges;
    }
  }

  lemma {:induction false} NonNegativeSum(cs: seq<UserChallenge>)
    requires forall k :: 0 <= k < |cs| ==> cs[k].pointsEarned >= 0
    ensures SumEarned(cs) >= 0
  {
    if |cs| > 0 {
      NonNegativeSum(cs[..|cs| - 1]);
    }
  }

  // ---------------------------------------------------------------------------
  // Consequences

  /** Completing a second challenge by check-off grants no badge (the check sees one completed). */
  lemma SecondCompletionGrantsNothing(d: StorageData, id: int, day: nat)
    requires DayInRange(d, id, day) && CompletedCount(d.challenges) == 1
    requires MarkDay(d, id, day).0.isFullyCompleted
    ensures MarkDay(d, id, day).0.newBadges == []
  {
  }

  /** In a consistent aggregate, completing a third challenge by check-off grants Bronze and nothing else. */
  lemma ThirdCompletionGrantsBronze(d: StorageData, id: int, day: nat)
    requires Consistent(d) && DayInRange(d, id, day) && CompletedCount(d.challenges) == 2
    requires MarkDay(d, id, day).0.isFullyCompleted
    ensures MarkDay(d, id, day).0.newBadges == [Bronze]
    ensures MarkDay(d, id, day).1.user.badges == [Bronze]
  {
    MarkKeepsConsistent(d, id, day);
    MarkCountsOneMore(d, id, day);
    MarkChangesOnlyThatDay(d, id, day);
    var c := FindChallenge(d.challenges, id).value;
    assert !AllDone(c.progress) by {
      assert !c.progress[day];
    }
  }

  /**
   * Leaving one of exactly three completed challenges in a consistent aggregate
   * takes Bronze away: the recalculation drops below its threshold.
   */
  lemma LeavingThirdCompletedDemotes(d: StorageData, id: int)
    requires Consistent(d) && CompletedCount(d.challenges) == 3
    requires FindChallenge(d.challenges, id).Some? && AllDone(FindChallenge(d.challenges, id).value.progress)
    ensures d.user.badges == [Bronze]
    ensures LeaveState(d, id).user.badges == []
  {
    var cs := d.challenges;
    var i := IndexOfId(cs, id).value;
    RemoveUnique(cs, id, i);
    CountWithout(cs, i);
  }

  /** Leaving subtracts the earned points but never takes the total below zero: 30 points, 50 earned, 0 left. */
  lemma LeaveClampsAtZero(d: StorageData, id: int)
    requires FindChallenge(d.challenges, id).Some?
    requires d.user.points == 30 && FindChallenge(d.challenges, id).value.pointsEarned == 50
    ensures LeaveState(d, id).user.points == 0
  {
  }

  /** Leaving a challenge that was never joined deletes nothing but still recalculates the badges. */
  lemma LeaveAbsentOnlyRecalculates(d: StorageData, id: int)
    requires !HasId(d.challenges, id)
    ensures LeaveState(d, id) == d.(user := d.user.(badges := RecalcBadges(CompletedCount(d.challenges))))
  {
  }

  // ---------------------------------------------------------------------------
  // joinChallenge and the statistics

  /** After a join the id is stored exactly once, at the end, and a second join is refused. */
  lemma JoinTwiceKeepsOneEntry(d: StorageData, id: int, startedAt: string)
    requires CanJoin(d, id)
    ensures !CanJoin(Joined(d, id, startedAt), id)
    ensures var cs := Joined(d, id, startedAt).challenges;
      |cs| == |d.challenges| + 1 && cs[|cs| - 1].id == id && forall j :: 0 <= j < |cs| - 1 ==> cs[j].id != id
  {
    var cs := Joined(d, id, startedAt).challenges;
    assert cs[|cs| - 1].id == id;
  }

  /** A freshly joined challenge (every catalog entry lasts a day or more) reads 0 of its days done, 0%. */
  lemma FreshChallengeStats(def: Catalog.Challenge, startedAt: string)
    requires def.durationDays >= 1
    ensures ChallengeService.GetChallengeStats(NewUserChallenge(def, startedAt)) == ChallengeStats(0, def.durationDays, 0)
  {
    var progress := NewUserChallenge(def, startedAt).progress;
    Seqs.FilterKeepsNone(progress, (day: bool) => day);
  }
}
