/**
 * The persistence store (src/app/services/storage.service.ts): one durable slot
 * holding the whole `{challenges, user}` aggregate. Every mutator but `importData`
 * (which writes the parsed text without reading) and `clearAll` (which empties the
 * slot and runs `init`) reads the aggregate, installing the default one when the
 * slot is empty, changes it in memory and writes all of it back; a write may
 * fail, and then reports `false` and leaves the slot as it was.
 */
module StorageService {
  import opened Wrappers
  import Seqs
  import opened Models

  /** The lookup predicate `c => c.id === id`. */
  function IdIs(id: int): UserChallenge -> bool {
    (c: UserChallenge) => c.id == id
  }

  /** The filter predicate `c => c.id !== id`. */
  function IdIsNot(id: int): UserChallenge -> bool {
    (c: UserChallenge) => c.id != id
  }

  /** The filter predicate of `getCompletedChallengesCount`. */
  function IsCompleted(c: UserChallenge): bool {
    AllDone(c.progress)
  }

  /** Some stored challenge carries `id`. */
  predicate HasId(cs: seq<UserChallenge>, id: int) {
    exists i :: 0 <= i < |cs| && cs[i].id == id
  }

  /** `challenges.findIndex(c => c.id === id)`. */
  function IndexOfId(cs: seq<UserChallenge>, id: int): Option<nat> {
    Seqs.FindIndex(cs, IdIs(id))
  }

  /** `challenges.find(c => c.id === id)`: the first entry with `id`, if any. */
  function FindChallenge(cs: seq<UserChallenge>, id: int): (r: Option<UserChallenge>)
    ensures r.Some? <==> HasId(cs, id)
    ensures r.Some? ==> IndexOfId(cs, id).Some? && r.value == cs[IndexOfId(cs, id).value]
    ensures r.Some? ==> r.value.id == id && forall j :: 0 <= j < IndexOfId(cs, id).value ==> cs[j].id != id
  {
    assert HasId(cs, id) <==> exists j :: 0 <= j < |cs| && IdIs(id)(cs[j]);
    Seqs.Find(cs, IdIs(id))
  }

  /** An entry appended under an id not stored yet is what looking that id up finds. */
  lemma FindAppended(cs: seq<UserChallenge>, c: UserChallenge)
    requires !HasId(cs, c.id)
    ensures FindChallenge(cs + [c], c.id) == Some(c)
  {
    var s := cs + [c];
    assert IdIs(c.id)(s[|cs|]);
    assert forall j :: 0 <= j < |cs| ==> s[j] == cs[j];
  }

  /**
   * The challenge list after `updateChallenge(id, u)`: the first entry with `id`
   * merged with `u`, every other entry and the order untouched; unchanged when no
   * entry has `id`.
   */
  function UpdateFirst(cs: seq<UserChallenge>, id: int, u: ChallengeUpdate): (r: seq<UserChallenge>)
    ensures |r| == |cs|
    ensures !HasId(cs, id) ==> r == cs
    ensures HasId(cs, id) ==>
      var i := IndexOfId(cs, id).value;
      && i < |cs| && cs[i].id == id
      && (forall j :: 0 <= j < i ==> cs[j].id != id)
      && r[i] == MergeChallenge(cs[i], u)
      && (forall j :: 0 <= j < |cs| && j != i ==> r[j] == cs[j])
  {
    assert HasId(cs, id) <==> exists j :: 0 <= j < |cs| && IdIs(id)(cs[j]);
    match IndexOfId(cs, id)
    case None => cs
    case Some(i) => cs[i := MergeChallenge(cs[i], u)]
  }

  /**
   * `challenges.filter(c => c.id !== id)`: no entry with `id` is left, every other
   * entry is kept, and an absent id leaves the list as it was.
   */
  function RemoveId(cs: seq<UserChallenge>, id: int): (r: seq<UserChallenge>)
    ensures !HasId(r, id)
    ensures forall i :: 0 <= i < |cs| && cs[i].id != id ==> cs[i] in r
    ensures forall i :: 0 <= i < |r| ==> r[i] in cs
    ensures !HasId(cs, id) ==> r == cs
  {
    var r := Seqs.Filter(cs, IdIsNot(id));
    Seqs.FilterMembers(cs, IdIsNot(id));
    assert !HasId(cs, id) ==> r == cs by {
      if !HasId(cs, id) {
        Seqs.FilterKeepsAll(cs, IdIsNot(id));
      }
    }
    r
  }

  /**
   * `filter` keeps the order and the multiplicity of what it keeps: the entries
   * before and after any one entry are filtered on their own, and that entry stays
   * exactly when its id differs from `id`.
   */
  lemma RemoveIdKeepsOrder(before: seq<UserChallenge>, c: UserChallenge, after: seq<UserChallenge>, id: int)
    ensures RemoveId(before + [c] + after, id) ==
      RemoveId(before, id) + (if c.id != id then [c] else []) + RemoveId(after, id)
  {
    Seqs.FilterAround(before, c, after, IdIsNot(id));
  }

  /** `getCompletedChallengesCount` over a challenge list: how many are done on every day. */
  function CompletedCount(cs: seq<UserChallenge>): (n: nat)
    ensures n <= |cs|
    ensures n == |cs| <==> forall i :: 0 <= i < |cs| ==> AllDone(cs[i].progress)
    ensures n == 0 <==> forall i :: 0 <= i < |cs| ==> !AllDone(cs[i].progress)
  {
    var kept := Seqs.Filter(cs, IsCompleted);
    Seqs.FilterLengthFull(cs, IsCompleted);
    Seqs.FilterMembers(cs, IsCompleted);
    assert (exists i :: 0 <= i < |cs| && AllDone(cs[i].progress)) ==> |kept| > 0 by {
      if i :| 0 <= i < |cs| && AllDone(cs[i].progress) {
        assert cs[i] in kept;
      }
    }
    assert |kept| > 0 ==> IsCompleted(kept[0]);
    |kept|
  }

  /** The completed count at which `checkAndAwardBadges` grants each tier. */
  function AwardThreshold(badge: string): int {
    if badge == Bronze then 2 else if badge == Silver then 5 else 8
  }

  /**
   * The badges `checkAndAwardBadges` grants for `count` completed challenges to a
   * user holding `held`: tiers not yet held, in Bronze, Silver, Gold order.
   */
  function IncrementalAward(count: int, held: seq<string>): (r: seq<string>)
    ensures forall b :: b in r ==> b !in held
  {
    (if count >= 2 && Bronze !in held then [Bronze] else [])
    + (if count >= 5 && Silver !in held then [Silver] else [])
    + (if count >= 8 && Gold !in held then [Gold] else [])
  }

  /**
   * The award is exactly the tiers whose threshold `count` reaches and that are not
   * yet held, in tier order.
   */
  lemma IncrementalAwardIsTierFilter(count: int, held: seq<string>)
    ensures IncrementalAward(count, held) ==
      Seqs.Filter(Tiers, (b: string) => count >= AwardThreshold(b) && b !in held)
  {
    var p := (b: string) => count >= AwardThreshold(b) && b !in held;
    assert Tiers[1..] == [Silver, Gold] && Tiers[1..][1..] == [Gold] && Tiers[1..][1..][1..] == [];
    assert Seqs.Filter([Gold], p) == if p(Gold) then [Gold] else [];
    assert Seqs.Filter([Silver, Gold], p) == (if p(Silver) then [Silver] else []) + Seqs.Filter([Gold], p);
  }

  /**
   * A serialised aggregate, kept abstract: the text `exportData` produces encodes
   * an aggregate, and any other text either encodes one or is not valid JSON.
   */
  datatype JsonText = Encoded(aggregate: StorageData) | Unparseable(raw: string)

  /** `JSON.parse`: the aggregate a text encodes, or nothing when it is malformed. */
  function Parse(text: JsonText): Option<StorageData> {
    match text
    case Encoded(d) => Some(d)
    case Unparseable(_) => None
  }

  /**
   * Between `d0` and `d` only badges were added, each one of `added`; when no write
   * failed (`clean`) exactly `added` was appended.
   */
  ghost predicate AwardedSoFar(d0: StorageData, d: StorageData, added: seq<string>, clean: bool) {
    && d.challenges == d0.challenges
    && d.user.points == d0.user.points
    && d.user.lastReminderShown == d0.user.lastReminderShown
    && d0.user.badges <= d.user.badges
    && (forall i :: |d0.user.badges| <= i < |d.user.badges| ==> d.user.badges[i] in added)
    && (clean ==> d.user.badges == d0.user.badges + added)
  }

  /** One more `addBadge` keeps `AwardedSoFar`, with that badge reported. */
  lemma AwardStep(d0: StorageData, d: StorageData, d': StorageData, added: seq<string>, badge: string,
                  clean: bool, clean': bool)
    requires AwardedSoFar(d0, d, added, clean)
    requires d' == d || d' == d.(user := d.user.(badges := d.user.badges + [badge]))
    requires clean' ==> clean && d' == d.(user := d.user.(badges := d.user.badges + [badge]))
    ensures AwardedSoFar(d0, d', added + [badge], clean')
  {
    if d' != d {
      forall i | |d0.user.badges| <= i < |d'.user.badges|
        ensures d'.user.badges[i] in added + [badge]
      {
        if i < |d.user.badges| {
          assert d'.user.badges[i] == d.user.badges[i];
        }
      }
    }
  }

  /**
   * The store, with the browser's durable slot as the field `data`. The ghost
   * counter `failedWrites` counts the writes that did not go through, so "no write
   * failed during an operation" reads as the counter being unchanged.
   */
  class Storage {
    /** The slot's content; `None` when the key is absent or its text does not parse. */
    var data: Option<StorageData>
    ghost var failedWrites: nat

    /** What `getData() || init()` yields: the stored aggregate, or the default one. */
    function Current(): StorageData
      reads this
    {
      data.GetOr(DefaultData)
    }

    /** The service starts over whatever the slot already holds and runs `init`. */
    constructor (existing: Option<StorageData>)
      ensures Current() == existing.GetOr(DefaultData)
      ensures existing.Some? ==> data == existing
    {
      data := existing;
      new;
      var _ := Init();
    }

    /** `setData`: the write either succeeds or fails (quota, disabled storage) and then changes nothing. */
    method SetData(d: StorageData) returns (ok: bool)
      modifies this
      ensures data == if ok then Some(d) else old(data)
      ensures failedWrites == if ok then old(failedWrites) else old(failedWrites) + 1
    {
      ok :| true;
      if ok {
        data := Some(d);
      } else {
        failedWrites := failedWrites + 1;
      }
    }

    /**
     * `init`: an existing aggregate is returned and left alone; when there is none
     * the default aggregate is returned and an attempt is made to store it.
     */
    method Init() returns (d: StorageData)
      modifies this
      ensures d == old(Current()) && Current() == old(Current())
      ensures old(data).Some? ==> data == old(data)
      ensures old(data).None? ==> data == None || data == Some(DefaultData)
      ensures old(failedWrites) <= failedWrites
      ensures old(data).Some? ==> failedWrites == old(failedWrites)
    {
      if data.Some? {
        d := data.value;
      } else {
        d := DefaultData;
        var _ := SetData(d);
      }
    }

    /** `getChallenges`: the stored list, or the empty list of the default aggregate. */
    function GetChallenges(): (r: seq<UserChallenge>)
      reads this
      ensures data.None? ==> r == []
      ensures data.Some? ==> r == data.value.challenges
    {
      Current().challenges
    }

    /** `addChallenge`: appends one entry at the end; no check for a duplicate id. */
    method AddChallenge(challenge: UserChallenge) returns (ok: bool)
      modifies this
      ensures Current() ==
        if ok then old(Current()).(challenges := old(Current()).challenges + [challenge])
        else old(Current())
      ensures old(failedWrites) <= failedWrites
      ensures failedWrites == old(failedWrites) ==> ok
    {
      var d := Init();
      d := d.(challenges := d.challenges + [challenge]);
      ok := SetData(d);
    }

    /** `updateChallenge`: merges `updates` into the first entry with `id`; false and no write when there is none. */
    method UpdateChallenge(id: int, updates: ChallengeUpdate) returns (ok: bool)
      modifies this
      ensures !HasId(old(Current()).challenges, id) ==> !ok
      ensures Current() ==
        if ok then old(Current()).(challenges := UpdateFirst(old(Current()).challenges, id, updates))
        else old(Current())
      ensures old(failedWrites) <= failedWrites
      ensures failedWrites == old(failedWrites) ==> (ok <==> HasId(old(Current()).challenges, id))
    {
      var d := Init();
      var index := IndexOfId(d.challenges, id);
      if index.Some? {
        var i := index.value;
        d := d.(challenges := d.challenges[i := MergeChallenge(d.challenges[i], updates)]);
        ok := SetData(d);
      } else {
        ok := false;
      }
    }

    /** `deleteChallenge`: drops every entry with `id`; an absent id still counts as success. */
    method DeleteChallenge(id: int) returns (ok: bool)
      modifies this
      ensures Current() ==
        if ok then old(Current()).(challenges := RemoveId(old(Current()).challenges, id))
        else old(Current())
      ensures old(failedWrites) <= failedWrites
      ensures failedWrites == old(failedWrites) ==> ok
    {
      var d := Init();
      d := d.(challenges := Seqs.Filter(d.challenges, IdIsNot(id)));
      ok := SetData(d);
    }

    /** `getChallengeById`: the first stored entry with `id`, or nothing. */
    function GetChallengeById(id: int): (r: Option<UserChallenge>)
      reads this
      ensures r.Some? <==> HasId(Current().challenges, id)
      ensures r.Some? ==> r.value.id == id && r.value in Current().challenges
      ensures r == FindChallenge(Current().challenges, id)
    {
      FindChallenge(GetChallenges(), id)
    }

    /** `getUserData`: the stored profile, or the empty default profile. */
    function GetUserData(): (r: UserData)
      reads this
      ensures data.None? ==> r == UserData([], 0, None)
      ensures data.Some? ==> r == data.value.user
    {
      Current().user
    }

    /** `updateUserData`: merges `updates` into the profile. */
    method UpdateUserData(updates: UserUpdate) returns (ok: bool)
      modifies this
      ensures Current() ==
        if ok then old(Current()).(user := MergeUser(old(Current()).user, updates))
        else old(Current())
      ensures old(failedWrites) <= failedWrites
      ensures failedWrites == old(failedWrites) ==> ok
    {
      var d := Init();
      d := d.(user := MergeUser(d.user, updates));
      ok := SetData(d);
    }

    /** `addBadge`: appends a badge not yet held; a held badge gives false and no write. */
    method AddBadge(badge: string) returns (ok: bool)
      modifies this
      ensures badge in old(Current()).user.badges ==> !ok
      ensures Current() ==
        if ok then old(Current()).(user := old(Current()).user.(badges := old(Current()).user.badges + [badge]))
        else old(Current())
      ensures old(failedWrites) <= failedWrites
      ensures failedWrites == old(failedWrites) ==> (ok <==> badge !in old(Current()).user.badges)
    {
      var d := Init();
      if badge !in d.user.badges {
        d := d.(user := d.user.(badges := d.user.badges + [badge]));
        ok := SetData(d);
      } else {
        ok := false;
      }
    }

    /** `addPoints`: raises the point total by exactly `points`; challenges are untouched. */
    method AddPoints(points: int) returns (ok: bool)
      modifies this
      ensures Current() ==
        if ok then old(Current()).(user := old(Current()).user.(points := old(Current()).user.points + points))
        else old(Current())
      ensures old(failedWrites) <= failedWrites
      ensures failedWrites == old(failedWrites) ==> ok
    {
      var d := Init();
      d := d.(user := d.user.(points := d.user.points + points));
      ok := SetData(d);
    }

    /** `getCompletedChallengesCount` */
    function GetCompletedChallengesCount(): (n: nat)
      reads this
      ensures n <= |Current().challenges|
      ensures n == CompletedCount(Current().challenges)
    {
      CompletedCount(GetChallenges())
    }

    /**
     * `checkAndAwardBadges`: grants Bronze, Silver, Gold at 2, 5, 8 completed
     * challenges when not yet held, and returns the badges it granted. It never
     * removes a badge, every badge it adds is one it reports, and it touches nothing
     * but the badge list; when no write fails the list grows by exactly `newBadges`.
     */
    method CheckAndAwardBadges() returns (newBadges: seq<string>)
      modifies this
      ensures newBadges == IncrementalAward(CompletedCount(old(Current()).challenges), old(Current()).user.badges)
      ensures Current().challenges == old(Current()).challenges
      ensures Current().user.points == old(Current()).user.points
      ensures Current().user.lastReminderShown == old(Current()).user.lastReminderShown
      ensures old(Current()).user.badges <= Current().user.badges
      ensures forall i :: |old(Current()).user.badges| <= i < |Current().user.badges| ==>
        Current().user.badges[i] in newBadges
      ensures old(failedWrites) <= failedWrites
      ensures failedWrites == old(failedWrites) ==> Current().user.badges == old(Current()).user.badges + newBadges
    {
      var completedCount := GetCompletedChallengesCount();
      var userData := GetUserData();
      newBadges := [];
      if completedCount >= 2 && Bronze !in userData.badges {
        ghost var before, failedBefore := Current(), failedWrites;
        var _ := AddBadge(Bronze);
        AwardStep(old(Current()), before, Current(), newBadges, Bronze,
          failedBefore == old(failedWrites), failedWrites == old(failedWrites));
        newBadges := newBadges + [Bronze];
      }
      if completedCount >= 5 && Silver !in userData.badges {
        ghost var before, failedBefore := Current(), failedWrites;
        var _ := AddBadge(Silver);
        AwardStep(old(Current()), before, Current(), newBadges, Silver,
          failedBefore == old(failedWrites), failedWrites == old(failedWrites));
        newBadges := newBadges + [Silver];
      }
      if completedCount >= 8 && Gold !in userData.badges {
        ghost var before, failedBefore := Current(), failedWrites;
        var _ := AddBadge(Gold);
        AwardStep(old(Current()), before, Current(), newBadges, Gold,
          failedBefore == old(failedWrites), failedWrites == old(failedWrites));
        newBadges := newBadges + [Gold];
      }
    }

    /** `clearAll`: empties the slot and reinstalls the default aggregate. */
    method ClearAll() returns (ok: bool)
      modifies this
      ensures ok && Current() == DefaultData
      ensures data == None || data == Some(DefaultData)
      ensures old(failedWrites) <= failedWrites
    {
      data := None;
      var _ := Init();
      ok := true;
    }

    /** `exportData`: a text that parses back to the current aggregate. */
    method ExportData() returns (text: JsonText)
      modifies this
      ensures Parse(text) == Some(old(Current()))
      ensures Current() == old(Current())
      ensures old(failedWrites) <= failedWrites
    {
      var d := Init();
      text := Encoded(d);
    }

    /** `importData`: replaces the aggregate wholesale; malformed text gives false and no write. */
    method ImportData(text: JsonText) returns (ok: bool)
      modifies this
      ensures Parse(text).None? ==> !ok
      ensures data == if ok then Parse(text) else old(data)
      ensures old(failedWrites) <= failedWrites
      ensures failedWrites == old(failedWrites) ==> (ok <==> Parse(text).Some?)
    {
      var parsed := Parse(text);
      if parsed.None? {
        ok := false;
      } else {
        ok := SetData(parsed.value);
      }
    }
  }

  /** Importing what was just exported leaves the aggregate as it was, whether or not the write succeeds. */
  method BackupAndRestore(store: Storage) returns (ok: bool)
    modifies store
    ensures store.Current() == old(store.Current())
  {
    var text := store.ExportData();
    ok := store.ImportData(text);
  }
}
