/**
 * The persisted shapes (src/app/models/challenge.model.ts and user.model.ts):
 * a joined challenge, the user profile, the `{challenges, user}` aggregate, and
 * the partial records that the store's merge-updates take.
 */
module Models {
  import opened Wrappers
  import Catalog

  /** A joined challenge: the catalog fields copied in, plus per-day progress. */
  datatype UserChallenge = UserChallenge(
    id: int,
    title: string,
    icon: string,
    description: string,
    durationDays: nat,
    points: int,
    startedAt: string,        // an ISO timestamp, kept opaque
    progress: seq<bool>,      // one entry per day, true once that day is checked off
    joined: bool,
    pointsEarned: int)

  /** The user profile: badge names, the running point total, the last reminder time. */
  datatype UserData = UserData(
    badges: seq<string>,
    points: int,
    lastReminderShown: Option<string>)

  /** The whole persisted aggregate. */
  datatype StorageData = StorageData(challenges: seq<UserChallenge>, user: UserData)

  /** `Partial<UserChallenge>`: a present field overrides the stored one. */
  datatype ChallengeUpdate = ChallengeUpdate(
    id: Option<int>,
    title: Option<string>,
    icon: Option<string>,
    description: Option<string>,
    durationDays: Option<nat>,
    points: Option<int>,
    startedAt: Option<string>,
    progress: Option<seq<bool>>,
    joined: Option<bool>,
    pointsEarned: Option<int>)

  /** `Partial<UserData>`. */
  datatype UserUpdate = UserUpdate(
    badges: Option<seq<string>>,
    points: Option<int>,
    lastReminderShown: Option<Option<string>>)

  const Bronze: string := "Bronze"
  const Silver: string := "Silver"
  const Gold: string := "Gold"

  /** The badge tiers, lowest first. */
  const Tiers: seq<string> := [Bronze, Silver, Gold]

  /** The aggregate installed when none is stored. */
  const DefaultData: StorageData := StorageData([], UserData([], 0, None))

  /** `progress.every(day => day === true)`; an empty progress counts as done. */
  predicate AllDone(progress: seq<bool>) {
    forall i :: 0 <= i < |progress| ==> progress[i]
  }

  /** `{ ...c, ...u }` */
  function MergeChallenge(c: UserChallenge, u: ChallengeUpdate): UserChallenge {
    UserChallenge(
      u.id.GetOr(c.id),
      u.title.GetOr(c.title),
      u.icon.GetOr(c.icon),
      u.description.GetOr(c.description),
      u.durationDays.GetOr(c.durationDays),
      u.points.GetOr(c.points),
      u.startedAt.GetOr(c.startedAt),
      u.progress.GetOr(c.progress),
      u.joined.GetOr(c.joined),
      u.pointsEarned.GetOr(c.pointsEarned))
  }

  /** `{ ...user, ...u }` */
  function MergeUser(user: UserData, u: UserUpdate): UserData {
    UserData(
      u.badges.GetOr(user.badges),
      u.points.GetOr(user.points),
      u.lastReminderShown.GetOr(user.lastReminderShown))
  }

  /** The update `{ progress, pointsEarned }` that `markDayComplete` saves. */
  function ProgressUpdate(progress: seq<bool>, pointsEarned: int): ChallengeUpdate {
    ChallengeUpdate(None, None, None, None, None, None, None, Some(progress), None, Some(pointsEarned))
  }

  /** The record `joinChallenge` builds: the catalog fields, no day done, nothing earned. */
  function NewUserChallenge(def: Catalog.Challenge, startedAt: string): (c: UserChallenge)
    ensures |c.progress| == def.durationDays && forall i :: 0 <= i < |c.progress| ==> !c.progress[i]
    ensures c.id == def.id && c.points == def.points && c.durationDays == def.durationDays
    ensures c.title == def.title && c.icon == def.icon && c.description == def.description
    ensures c.startedAt == startedAt
    ensures c.joined && c.pointsEarned == 0
    ensures def.durationDays >= 1 ==> !AllDone(c.progress)
  {
    var c := UserChallenge(def.id, def.title, def.icon, def.description, def.durationDays,
      def.points, startedAt, seq(def.durationDays, _ => false), true, 0);
    assert def.durationDays >= 1 ==> !c.progress[0];
    c
  }
}
