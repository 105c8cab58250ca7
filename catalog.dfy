/**
 * The compiled-in catalog of the twelve challenge definitions
 * (src/app/data/challenges.data.ts) and its lookups.
 */
module Catalog {
  import opened Wrappers
  import Seqs

  /** An immutable challenge definition: the template a joined challenge is copied from. */
  datatype Challenge = Challenge(
    id: int,
    title: string,
    icon: string,
    description: string,
    durationDays: nat,
    points: int)

  /** `CHALLENGES_DATA`, in table order. */
  const ChallengesData: seq<Challenge> := [
    Challenge(1, "Drink 8 Glasses of Water", "\U{1F4A7}",
      "Stay hydrated by drinking 8 glasses (2 liters) of water every day", 7, 50),
    Challenge(2, "No Junk Food", "\U{1F354}",
      "Avoid processed and junk food for a full week", 7, 60),
    Challenge(3, "No Sugar Week", "\U{1F9CA}",
      "Eliminate added sugar from your diet for 7 days", 7, 70),
    Challenge(4, "Cut Down on Soda", "\U{1F964}",
      "Reduce or eliminate soda consumption for 10 days", 10, 55),
    Challenge(5, "No Caffeine After 5 PM", "\U{2615}",
      "Avoid caffeine after 5 PM to improve sleep quality", 7, 45),
    Challenge(6, "No Smoking", "\U{1F6AD}",
      "Stay smoke-free for 7 consecutive days", 7, 80),
    Challenge(7, "10,000 Steps per Day", "\U{1F6B6}",
      "Walk at least 10,000 steps every day for a week", 7, 60),
    Challenge(8, "30-Day Push-Up", "\U{1F4AA}",
      "Complete daily push-ups for 30 days (start with your level)", 30, 100),
    Challenge(9, "Stretch for 10 Minutes", "\U{1F938}\U{200D}\U{2640}\U{FE0F}",
      "Dedicate 10 minutes each day to stretching exercises", 7, 45),
    Challenge(10, "Digital-Free Before Bed", "\U{1F4F1}",
      "No screens one hour before bedtime for better sleep", 7, 50),
    Challenge(11, "Meditate for 15 Minutes", "\U{1F9D8}",
      "Practice mindfulness meditation for 15 minutes each day", 7, 55),
    Challenge(12, "Sleep 8 Hours Every Night", "\U{1F4A4}",
      "Get quality sleep of at least 8 hours every night", 7, 60)
  ]

  /**
   * The shape of the table: twelve entries whose ids are 1..12 in order (so each id
   * appears once), durations of 7, 10 or 30 days and rewards between 45 and 100 points.
   */
  lemma TableShape()
    ensures |ChallengesData| == 12
    ensures forall i :: 0 <= i < 12 ==> ChallengesData[i].id == i + 1
    ensures forall i, j :: 0 <= i < j < 12 ==> ChallengesData[i].id != ChallengesData[j].id
    ensures forall i :: 0 <= i < 12 ==>
      ChallengesData[i].durationDays in {7, 10, 30} && 45 <= ChallengesData[i].points <= 100
  {
  }

  /** Definitions listed in strictly increasing id order. */
  predicate IncreasingIds(defs: seq<Challenge>) {
    forall i, j :: 0 <= i < j < |defs| ==> defs[i].id < defs[j].id
  }

  /** The table is ordered by id. */
  lemma IdsIncrease()
    ensures IncreasingIds(ChallengesData)
  {
    TableShape();
  }

  /** The lookup predicate `challenge => challenge.id === id`. */
  function IdIs(id: int): Challenge -> bool {
    (c: Challenge) => c.id == id
  }

  /** In a table whose ids are 1, 2, ... by position, the first match for `id` is at `id - 1`. */
  lemma {:induction false} LookupByPosition(table: seq<Challenge>, id: int)
    requires forall i :: 0 <= i < |table| ==> table[i].id == i + 1
    ensures Seqs.FindIndex(table, IdIs(id)) == if 1 <= id <= |table| then Some(id - 1) else None
  {
    if 1 <= id <= |table| {
      assert IdIs(id)(table[id - 1]);
    }
  }

  /** Ids 1..12 sit at positions 0..11 of the catalog, so looking `id` up finds entry `id - 1`. */
  lemma LookupIndex(id: int)
    ensures Seqs.FindIndex(ChallengesData, IdIs(id)) == if 1 <= id <= 12 then Some(id - 1) else None
    ensures Seqs.Find(ChallengesData, IdIs(id)) == if 1 <= id <= 12 then Some(ChallengesData[id - 1]) else None
  {
    TableShape();
    LookupByPosition(ChallengesData, id);
  }

  /** `getChallengeById`: the definition with the given id, or nothing. */
  function GetChallengeById(id: int): (r: Option<Challenge>)
    ensures r.Some? <==> 1 <= id <= 12
    ensures r.Some? ==> r.value.id == id && r.value == ChallengesData[id - 1]
    ensures r.Some? ==> r.value.durationDays >= 1 && 45 <= r.value.points <= 100
  {
    LookupIndex(id);
    TableShape();
    Seqs.Find(ChallengesData, IdIs(id))
  }

  /** `getAllChallenges`: a copy of the table, every entry found again by its own id. */
  function GetAllChallenges(): (r: seq<Challenge>)
    ensures |r| == 12
    ensures forall i :: 0 <= i < |r| ==> r[i].id == i + 1 && GetChallengeById(r[i].id) == Some(r[i])
  {
    TableShape();
    ChallengesData[..]
  }
}
