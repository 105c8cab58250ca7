/**
 * The progress engine (src/app/services/challenge.service.ts): joining and
 * leaving challenges, checking off days, the statistics, and the badge
 * recalculation. Each state-changing operation is a method of the service that
 * drives the store step by step, and is specified by a function of the stored
 * aggregate (`Joined`, `LeaveState`, `MarkDay`) that gives the aggregate the
 * operation leaves behind when every write it makes goes through.
 */
module ChallengeEngine {
  import opened Wrappers
  import Seqs
  import Catalog
  import opened Models
  import opened StorageService

  /** `ChallengeStats` */
  datatype ChallengeStats = ChallengeStats(completed: nat, total: nat, percentage: nat)

  /** What `markDayComplete` reports. */
  datatype MarkResult = MarkResult(success: bool, isFullyCompleted: bool, newBadges: seq<string>)

  /** What `getUserStats` reports. */
  datatype UserStats = UserStats(totalPoints: int, activeChallenges: nat, completedChallenges: nat)

  /** The report of a `markDayComplete` that changed nothing. */
  const NotMarked: MarkResult := MarkResult(false, false, [])

  function Max(a: int, b: int): int {
    if a < b then b else a
  }

  function Min(a: int, b: int): int {
    if a < b then a else b
  }

  /**
   * The badges `recalculateBadges` installs for `count` completed challenges
   * (Bronze at 3, Silver at 6, Gold at 9): one tier per three completed
   * challenges, lowest tiers first.
   */
  function RecalcBadges(count: int): (r: seq<string>)
    ensures count >= 0 ==> r == Tiers[..Min(count / 3, 3)]
  {
    (if count >= 3 then [Bronze] else [])
    + (if count >= 6 then [Silver] else [])
    + (if count >= 9 then [Gold] else [])
  }

  /** `progress.filter(day => day === true).length` */
  function CountTrue(progress: seq<bool>): (n: nat)
    ensures n <= |progress|
    ensures n == |progress| <==> AllDone(progress)
  {
    Seqs.FilterLengthFull(progress, (day: bool) => day);
    |Seqs.Filter(progress, (day: bool) => day)|
  }

  /** Checking off one more day raises the count of days done by exactly one. */
  lemma CountTrueFlip(progress: seq<bool>, i: nat)
    requires i < |progress| && !progress[i]
    ensures CountTrue(progress[i := true]) == CountTrue(progress) + 1
  {
    Seqs.FilterLengthUpdate(progress, i, true, (day: bool) => day);
  }

  /** A quotient stays below `k` when the dividend is below `k` whole divisors. */
  lemma DivBelow(x: int, y: int, k: int)
    requires y > 0 && 0 <= x < k * y
    ensures x / y < k
  {
  }

  /** A quotient reaches `k` once the dividend holds `k` whole divisors. */
  lemma DivAtLeast(x: int, y: int, k: int)
    requires y > 0 && k * y <= x
    ensures k <= x / y
  {
    var q := x / y;
    assert k * y < (q + 1) * y;
  }

  /**
   * `Math.round(completed / total * 100)` on exact values: half-up integer
   * rounding, between 0 and 100, 0 for no day and 100 for every day. The
   * rounding law says `p - 1/2 <= 100 * completed / total < p + 1/2`, with
   * both sides multiplied by `2 * total`.
   */
  function RoundedPercent(completed: nat, total: nat): (p: nat)
    requires 1 <= total && completed <= total
    ensures p <= 100
    ensures completed == 0 ==> p == 0
    ensures completed == total ==> p == 100
    ensures 0 < completed && total <= 200 ==> p > 0
    ensures 2 * total * p <= 200 * completed + total < 2 * total * (p + 1)
  {
    var x := 200 * completed + total;
    var y := 2 * total;
    assert x == y * (x / y) + x % y;
    DivBelow(x, y, 101);
    if completed == 0 then DivBelow(x, y, 1); x / y
    else if completed == total then DivAtLeast(x, y, 100); x / y
    else if total <= 200 then DivAtLeast(x, y, 1); x / y
    else x / y
  }

  /** The lookup predicate `challenge => !userChallengeIds.includes(challenge.id)`. */
  function NotJoined(cs: seq<UserChallenge>): Catalog.Challenge -> bool {
    (def: Catalog.Challenge) => !HasId(cs, def.id)
  }

  /** The key a definition is ordered by. */
  function DefinitionId(def: Catalog.Challenge): int {
    def.id
  }

  /** The definitions among `defs` that no entry of `cs` has joined, in order. */
  function UnjoinedDefinitions(defs: seq<Catalog.Challenge>, cs: seq<UserChallenge>): (r: seq<Catalog.Challenge>)
    ensures forall i :: 0 <= i < |r| ==> r[i] in defs && !HasId(cs, r[i].id)
    ensures forall i :: 0 <= i < |defs| ==> (!HasId(cs, defs[i].id) ==> defs[i] in r)
  {
    var r := Seqs.Filter(defs, NotJoined(cs));
    Seqs.FilterMembers(defs, NotJoined(cs));
    assert forall i :: 0 <= i < |r| ==> NotJoined(cs)(r[i]);
    r
  }

  /** A list of definitions ordered by id stays ordered by id once the joined ones are left out. */
  lemma UnjoinedStaysIncreasing(defs: seq<Catalog.Challenge>, cs: seq<UserChallenge>)
    requires Catalog.IncreasingIds(defs)
    ensures Catalog.IncreasingIds(UnjoinedDefinitions(defs, cs))
  {
    Seqs.FilterKeepsIncreasing(defs, NotJoined(cs), DefinitionId);
  }

  /**
   * The filter keeps order and multiplicity: the definitions before and after any
   * one definition are filtered on their own, and that one stays exactly when it
   * is not joined.
   */
  lemma UnjoinedKeepsOrder(before: seq<Catalog.Challenge>, def: Catalog.Challenge, after: seq<Catalog.Challenge>,
                           cs: seq<UserChallenge>)
    ensures UnjoinedDefinitions(before + [def] + after, cs) ==
      UnjoinedDefinitions(before, cs) + (if !HasId(cs, def.id) then [def] else []) + UnjoinedDefinitions(after, cs)
  {
    Seqs.FilterAround(before, def, after, NotJoined(cs));
  }

  /** `joinChallenge` succeeds only for a catalog id that has no stored challenge yet. */
  predicate CanJoin(d: StorageData, id: int) {
    Catalog.GetChallengeById(id).Some? && !HasId(d.challenges, id)
  }

  /**
   * The aggregate after a successful `joinChallenge(id)` at time `startedAt`: the
   * stored challenges and the profile are kept, and one more entry, the fresh copy
   * of the definition, is what looking the id up now finds.
   */
  function Joined(d: StorageData, id: int, startedAt: string): (r: StorageData)
    requires CanJoin(d, id)
    ensures r.user == d.user
    ensures |r.challenges| == |d.challenges| + 1 && r.challenges[..|d.challenges|] == d.challenges
    ensures FindChallenge(r.challenges, id) == Some(NewUserChallenge(Catalog.GetChallengeById(id).value, startedAt))
  {
    var c := NewUserChallenge(Catalog.GetChallengeById(id).value, startedAt);
    FindAppended(d.challenges, c);
    d.(challenges := d.challenges + [c])
  }

  /**
   * The point total after `leaveChallenge(id)`: earned points come off, never
   * below zero; a never-joined id leaves the total alone.
   */
  function LeavePoints(d: StorageData, id: int): (p: int)
    ensures !HasId(d.challenges, id) ==> p == d.user.points
    ensures d.user.points >= 0 ==> 0 <= p <= d.user.points
    ensures (FindChallenge(d.challenges, id).Some? &&
             0 <= FindChallenge(d.challenges, id).value.pointsEarned <= d.user.points) ==>
      p == d.user.points - FindChallenge(d.challenges, id).value.pointsEarned
    ensures (FindChallenge(d.challenges, id).Some? && FindChallenge(d.challenges, id).value.pointsEarned > 0 &&
             FindChallenge(d.challenges, id).value.pointsEarned > d.user.points) ==>
      p == 0
    ensures (FindChallenge(d.challenges, id).Some? && FindChallenge(d.challenges, id).value.pointsEarned <= 0) ==>
      p == d.user.points
  {
    match FindChallenge(d.challenges, id)
    case Some(c) => if c.pointsEarned > 0 then Max(0, d.user.points - c.pointsEarned) else d.user.points
    case None => d.user.points
  }

  /**
   * The aggregate after `leaveChallenge(id)`: the points adjusted, every entry
   * with `id` deleted, and the badges replaced by the recalculation over what is left.
   */
  function LeaveState(d: StorageData, id: int): (r: StorageData)
    ensures !HasId(r.challenges, id)
    ensures r.challenges == RemoveId(d.challenges, id) && r.user.points == LeavePoints(d, id)
    ensures !HasId(d.challenges, id) ==> r.challenges == d.challenges && r.user.points == d.user.points
    ensures r.user.badges == RecalcBadges(CompletedCount(r.challenges))
    ensures r.user.lastReminderShown == d.user.lastReminderShown
  {
    var cs := RemoveId(d.challenges, id);
    StorageData(cs, d.user.(points := LeavePoints(d, id), badges := RecalcBadges(CompletedCount(cs))))
  }

  /** Day `day` exists in the challenge `markDayComplete(id, day)` would find. */
  predicate DayInRange(d: StorageData, id: int, day: nat) {
    FindChallenge(d.challenges, id).Some? ==> day < |FindChallenge(d.challenges, id).value.progress|
  }

  /**
   * `markDayComplete(id, day)` as a function of the stored aggregate: its report
   * and the aggregate it leaves. Points and badges are settled against the
   * aggregate as it was before the new progress is saved, so the completed count
   * the badge check sees leaves out the challenge being finished.
   */
  function MarkDay(d: StorageData, id: int, day: nat): (r: (MarkResult, StorageData))
    requires DayInRange(d, id, day)
    ensures r.0.success <==> FindChallenge(d.challenges, id).Some? && !FindChallenge(d.challenges, id).value.progress[day]
    ensures !r.0.success ==> r == (NotMarked, d)
    ensures |r.1.challenges| == |d.challenges|
    ensures d.user.badges <= r.1.user.badges && r.1.user.lastReminderShown == d.user.lastReminderShown
  {
    match FindChallenge(d.challenges, id)
    case None => (NotMarked, d)
    case Some(c) =>
      if c.progress[day] then (NotMarked, d)
      else
        var progress := c.progress[day := true];
        var full := AllDone(progress);
        var award := full && c.pointsEarned == 0;
        var user := if award then d.user.(points := d.user.points + c.points) else d.user;
        var newBadges := if award then IncrementalAward(CompletedCount(d.challenges), user.badges) else [];
        var pointsEarned := if award then c.points else c.pointsEarned;
        (MarkResult(true, full, newBadges),
         StorageData(UpdateFirst(d.challenges, id, ProgressUpdate(progress, pointsEarned)),
                     user.(badges := user.badges + newBadges)))
  }

  /** The service, over the store it is given. */
  class ChallengeService {
    const store: Storage

    constructor (store: Storage)
      ensures this.store == store
    {
      this.store := store;
    }

    /**
     * `getAvailableChallenges`: the catalog entries, in catalog order, whose id no
     * stored challenge has; every other catalog entry is left out.
     */
    function GetAvailableChallenges(): (r: seq<Catalog.Challenge>)
      reads store
      ensures forall i :: 0 <= i < |r| ==>
        r[i] in Catalog.ChallengesData && !HasId(store.Current().challenges, r[i].id)
      ensures forall i :: 0 <= i < |Catalog.ChallengesData| ==>
        (!HasId(store.Current().challenges, Catalog.ChallengesData[i].id) ==> Catalog.ChallengesData[i] in r)
    {
      UnjoinedDefinitions(Catalog.ChallengesData, store.GetChallenges())
    }

    /** The available challenges come in catalog order, which is increasing id order. */
    lemma AvailableInCatalogOrder()
      ensures Catalog.IncreasingIds(GetAvailableChallenges())
    {
      Catalog.IdsIncrease();
      UnjoinedStaysIncreasing(Catalog.ChallengesData, store.GetChallenges());
    }

    /** `joinChallenge`: adds a fresh copy of a catalog challenge that is not joined yet. */
    method JoinChallenge(challengeId: int, startedAt: string) returns (ok: bool)
      modifies store
      ensures ok ==> CanJoin(old(store.Current()), challengeId)
      ensures old(store.failedWrites) <= store.failedWrites
      ensures store.failedWrites == old(store.failedWrites) ==> (ok <==> CanJoin(old(store.Current()), challengeId))
      ensures store.Current() ==
        if ok then Joined(old(store.Current()), challengeId, startedAt) else old(store.Current())
    {
      var challenge := Catalog.GetChallengeById(challengeId);
      if challenge.None? {
        return false;
      }
      var existing := store.GetChallengeById(challengeId);
      if existing.Some? {
        return false;
      }
      var newChallenge := NewUserChallenge(challenge.value, startedAt);
      ok := store.AddChallenge(newChallenge);
    }

    /**
     * `leaveChallenge`: takes the challenge's earned points off the total (never
     * below zero), deletes it, and when the delete was written recalculates the
     * badges. `ok` is the delete's own result. Each write lands or not on its own,
     * so each part of the aggregate is either as it was or as `LeaveState` has it;
     * when no write fails the whole aggregate is `LeaveState`.
     */
    method LeaveChallenge(challengeId: int) returns (ok: bool)
      modifies store
      ensures store.Current().challenges ==
        if ok then RemoveId(old(store.Current()).challenges, challengeId) else old(store.Current()).challenges
      ensures store.Current().user.points in {old(store.Current()).user.points, LeavePoints(old(store.Current()), challengeId)}
      ensures !ok ==> store.Current().user.badges == old(store.Current()).user.badges
      ensures ok ==>
        store.Current().user.badges in
          {old(store.Current()).user.badges, RecalcBadges(CompletedCount(store.Current().challenges))}
      ensures store.Current().user.lastReminderShown == old(store.Current()).user.lastReminderShown
      ensures old(store.failedWrites) <= store.failedWrites
      ensures store.failedWrites == old(store.failedWrites) ==>
        ok && store.Current() == LeaveState(old(store.Current()), challengeId)
    {
      var userChallenge := store.GetChallengeById(challengeId);
      if userChallenge.Some? && userChallenge.value.pointsEarned > 0 {
        var userData := store.GetUserData();
        var newPoints := Max(0, userData.points - userChallenge.value.pointsEarned);
        var _ := store.UpdateUserData(UserUpdate(None, Some(newPoints), None));
      }
      ok := store.DeleteChallenge(challengeId);
      if ok {
        RecalculateBadges();
      }
    }

    /**
     * `markDayComplete`: checks off one day; on completing the challenge for the
     * first time it awards its points and runs the incremental badge award, and
     * only then saves the new progress. Each write lands or not on its own: the
     * challenges and the point total are each either as they were or as `MarkDay`
     * has them (so the points are paid at most once), and the badge list only gains
     * reported badges; when no write fails the whole aggregate is `MarkDay`'s.
     */
    method MarkDayComplete(challengeId: int, dayIndex: nat) returns (result: MarkResult)
      requires DayInRange(store.Current(), challengeId, dayIndex)
      modifies store
      ensures result == MarkDay(old(store.Current()), challengeId, dayIndex).0
      ensures !result.success ==> store.Current() == old(store.Current())
      ensures store.Current().challenges in
        {old(store.Current()).challenges, MarkDay(old(store.Current()), challengeId, dayIndex).1.challenges}
      ensures store.Current().user.points in
        {old(store.Current()).user.points, MarkDay(old(store.Current()), challengeId, dayIndex).1.user.points}
      ensures store.Current().user.lastReminderShown == old(store.Current()).user.lastReminderShown
      ensures old(store.Current()).user.badges <= store.Current().user.badges
      ensures forall i :: |old(store.Current()).user.badges| <= i < |store.Current().user.badges| ==>
        store.Current().user.badges[i] in result.newBadges
      ensures old(store.failedWrites) <= store.failedWrites
      ensures store.failedWrites == old(store.failedWrites) ==>
        store.Current() == MarkDay(old(store.Current()), challengeId, dayIndex).1
    {
      var userChallenge := store.GetChallengeById(challengeId);
      if userChallenge.None? || userChallenge.value.progress[dayIndex] {
        return NotMarked;
      }
      var challenge := userChallenge.value;
      var progress := challenge.progress[dayIndex := true];
      var isFullyCompleted := AllDone(progress);
      var newBadges := [];
      var pointsEarned := challenge.pointsEarned;
      if isFullyCompleted && challenge.pointsEarned == 0 {
        pointsEarned := challenge.points;
        var _ := store.AddPoints(challenge.points);
        newBadges := store.CheckAndAwardBadges();
      }
      var _ := store.UpdateChallenge(challengeId, ProgressUpdate(progress, pointsEarned));
      result := MarkResult(true, isFullyCompleted, newBadges);
    }

    /** `getChallengeStats` (a fresh challenge reads 0%, a finished one 100%). */
    static function GetChallengeStats(challenge: UserChallenge): (s: ChallengeStats)
      requires |challenge.progress| >= 1
      ensures s.total == |challenge.progress| && s.completed <= s.total && s.percentage <= 100
      ensures s.completed == CountTrue(challenge.progress) && s.percentage == RoundedPercent(s.completed, s.total)
      ensures s.completed == s.total <==> AllDone(challenge.progress)
      ensures s.completed == 0 ==> s.percentage == 0
      ensures AllDone(challenge.progress) ==> s.percentage == 100
    {
      var completed := CountTrue(challenge.progress);
      var total := |challenge.progress|;
      ChallengeStats(completed, total, RoundedPercent(completed, total))
    }

    /**
     * `recalculateBadges`: replaces the badge list by the tiers the completed count
     * earns, or leaves everything as it was when the write fails.
     */
    method RecalculateBadges()
      modifies store
      ensures store.Current() == old(store.Current()) ||
        store.Current() == old(store.Current()).(user := old(store.Current()).user.(
          badges := RecalcBadges(CompletedCount(old(store.Current()).challenges))))
      ensures old(store.failedWrites) <= store.failedWrites
      ensures store.failedWrites == old(store.failedWrites) ==>
        store.Current() == old(store.Current()).(user := old(store.Current()).user.(
          badges := RecalcBadges(CompletedCount(old(store.Current()).challenges))))
    {
      var completedCount := store.GetCompletedChallengesCount();
      var earnedBadges := [];
      if completedCount >= 3 {
        earnedBadges := earnedBadges + [Bronze];
      }
      if completedCount >= 6 {
        earnedBadges := earnedBadges + [Silver];
      }
      if completedCount >= 9 {
        earnedBadges := earnedBadges + [Gold];
      }
      ghost var recalculated := old(store.Current()).(user := old(store.Current()).user.(badges := earnedBadges));
      var ok := store.UpdateUserData(UserUpdate(Some(earnedBadges), None, None));
      assert store.Current() == if ok then recalculated else old(store.Current());
    }

    /** `getUserStats`: the stored total, how many challenges are stored, and how many of them are done. */
    function GetUserStats(): (s: UserStats)
      reads store
      ensures s.completedChallenges <= s.activeChallenges
      ensures s.completedChallenges == CompletedCount(store.Current().challenges)
      ensures s.totalPoints == store.Current().user.points && s.activeChallenges == |store.Current().challenges|
      ensures s.completedChallenges == s.activeChallenges <==>
        forall i :: 0 <= i < |store.Current().challenges| ==> AllDone(store.Current().challenges[i].progress)
    {
      UserStats(store.GetUserData().points, |store.GetChallenges()|, store.GetCompletedChallengesCount())
    }
  }
}
