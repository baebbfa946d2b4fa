/**
 * The user's progress: completion records, accumulated XP and the material
 * inventory, the `completeMission` updater, and the session that holds the
 * current user and progress (login, logout, completing a mission).
 */
module Progress {
  import opened Wrappers
  import opened Catalog

  /** One completed mission: its best score and when that record was created. */
  datatype Completion = Completion(missionId: string, score: int, timestamp: int)

  datatype UserProgress = UserProgress(completedMissions: seq<Completion>, xp: int, inventory: seq<string>)

  /** The seed progress: nothing completed, no XP, the three starter materials. */
  const InitialProgress: UserProgress := UserProgress([], 0, ["PLA", "ABS", "PETG"])

  /** The seed progress is consistent: no records, no XP, and its inventory
      lists the catalogued materials in catalogue order. */
  lemma InitialProgressWellFormed()
    ensures Consistent(InitialProgress)
    ensures InitialProgress.completedMissions == [] && InitialProgress.xp == 0
    ensures |InitialProgress.inventory| == |Materials|
    ensures forall i :: 0 <= i < |Materials| ==> InitialProgress.inventory[i] == Materials[i].id
  {
  }

  /** `completedMissions.find(m => m.missionId === id)`, as the index of the
      first record for `id`. */
  function Find(recs: seq<Completion>, id: string): (r: Option<nat>)
    ensures r.Some? ==> r.value < |recs| && recs[r.value].missionId == id
    ensures r.Some? ==> forall j :: 0 <= j < r.value ==> recs[j].missionId != id
    ensures r.None? ==> forall j :: 0 <= j < |recs| ==> recs[j].missionId != id
  {
    if recs == [] then None
    else if recs[0].missionId == id then Some(0)
    else match Find(recs[1..], id)
      case None => None
      case Some(i) => Some(i + 1)
  }

  /** The total of the recorded scores. */
  function SumScores(recs: seq<Completion>): int {
    if recs == [] then 0 else SumScores(recs[..|recs| - 1]) + recs[|recs| - 1].score
  }

  /** No mission has two records. */
  predicate UniqueIds(recs: seq<Completion>) {
    forall i, j :: 0 <= i < j < |recs| ==> recs[i].missionId != recs[j].missionId
  }

  /** The consistency invariant of a progress value: XP is the sum of the
      best score recorded per mission, and records are unique per mission. */
  predicate Consistent(p: UserProgress) {
    p.xp == SumScores(p.completedMissions) && UniqueIds(p.completedMissions)
  }

  /** `completedMissions.map(m => m.missionId === id ? { ...m, score } : m)`. */
  function RaiseScore(recs: seq<Completion>, id: string, score: int): (r: seq<Completion>)
    ensures |r| == |recs|
    ensures forall i :: 0 <= i < |recs| ==>
      r[i].missionId == recs[i].missionId && r[i].timestamp == recs[i].timestamp
    ensures forall i :: 0 <= i < |recs| && recs[i].missionId == id ==> r[i].score == score
    ensures forall i :: 0 <= i < |recs| && recs[i].missionId != id ==> r[i] == recs[i]
    ensures UniqueIds(recs) ==> UniqueIds(r)
  {
    seq(|recs|, i requires 0 <= i < |recs| =>
      if recs[i].missionId == id then recs[i].(score := score) else recs[i])
  }

  /** The state updater of `completeMission(id, score)` applied to `p`, with
      `now` standing for `Date.now()`. A new mission is appended and earns its
      full score; a known mission is raised to a strictly better score and
      earns only the difference; anything else leaves `p` as it is. */
  function ApplyCompletion(p: UserProgress, id: string, score: int, now: int): (r: UserProgress)
    ensures r.inventory == p.inventory
    ensures Find(p.completedMissions, id).None? ==>
      r.completedMissions == p.completedMissions + [Completion(id, score, now)] && r.xp == p.xp + score
    ensures Find(p.completedMissions, id).Some? ==>
      var k := Find(p.completedMissions, id).value;
      var before := p.completedMissions[k].score;
      if score > before then
        |r.completedMissions| == |p.completedMissions|
        && r.completedMissions[k] == p.completedMissions[k].(score := score)
        && r.xp == p.xp + (score - before)
      else r == p
    ensures forall i :: 0 <= i < |p.completedMissions| && p.completedMissions[i].missionId != id ==>
      i < |r.completedMissions| && r.completedMissions[i] == p.completedMissions[i]
    ensures |r.completedMissions| >= |p.completedMissions|
    ensures score >= 0 ==> r.xp >= p.xp
    ensures Find(r.completedMissions, id).Some?
    ensures r.completedMissions[Find(r.completedMissions, id).value].score ==
      match Find(p.completedMissions, id)
      case None => score
      case Some(k) => if score > p.completedMissions[k].score then score else p.completedMissions[k].score
  {
    var recs := p.completedMissions;
    match Find(recs, id)
    case Some(k) =>
      if score > recs[k].score then
        var r := p.(xp := p.xp + (score - recs[k].score), completedMissions := RaiseScore(recs, id, score));
        assert Find(r.completedMissions, id) == Some(k) by { FindUnchangedPrefix(recs, r.completedMissions, id, k); }
        r
      else p
    case None =>
      var r := p.(xp := p.xp + score, completedMissions := recs + [Completion(id, score, now)]);
      assert Find(r.completedMissions, id) == Some(|recs|) by { FindUnchangedPrefix(recs, r.completedMissions, id, |recs|); }
      r
  }

  /** Two record lists that agree before `k`, where only `k` holds `id`,
      locate `id` at `k`. */
  lemma FindUnchangedPrefix(recs: seq<Completion>, recs': seq<Completion>, id: string, k: nat)
    requires k < |recs'| && recs'[k].missionId == id
    requires k <= |recs| && forall j :: 0 <= j < k ==> recs'[j] == recs[j] && recs[j].missionId != id
    ensures Find(recs', id) == Some(k)
  {
  }

  /** Appending a record adds its score to the total. */
  lemma SumAppend(recs: seq<Completion>, c: Completion)
    ensures SumScores(recs + [c]) == SumScores(recs) + c.score
  {
    assert (recs + [c])[..|recs|] == recs;
  }

  /** Changing the score of one record changes the total by the difference. */
  lemma {:induction false} SumUpdate(recs: seq<Completion>, k: nat, score: int)
    requires k < |recs|
    ensures SumScores(recs[k := recs[k].(score := score)]) == SumScores(recs) + (score - recs[k].score)
  {
    var recs' := recs[k := recs[k].(score := score)];
    var n := |recs| - 1;
    if k == n {
      assert recs'[..n] == recs[..n];
    } else {
      assert recs'[..n] == recs[..n][k := recs[k].(score := score)];
      SumUpdate(recs[..n], k, score);
    }
  }

  /** With unique ids, the `map` of `completeMission` changes exactly one record. */
  lemma RaiseIsSingleUpdate(recs: seq<Completion>, id: string, k: nat, score: int)
    requires UniqueIds(recs) && k < |recs| && recs[k].missionId == id
    ensures RaiseScore(recs, id, score) == recs[k := recs[k].(score := score)]
  {
  }

  /** `completeMission` keeps XP equal to the sum of the records and the
      records unique per mission. */
  lemma ApplyPreservesConsistent(p: UserProgress, id: string, score: int, now: int)
    requires Consistent(p)
    ensures Consistent(ApplyCompletion(p, id, score, now))
  {
    var recs := p.completedMissions;
    match Find(recs, id)
    case Some(k) =>
      if score > recs[k].score {
        RaiseIsSingleUpdate(recs, id, k, score);
        SumUpdate(recs, k, score);
      }
    case None =>
      SumAppend(recs, Completion(id, score, now));
  }

  /** Completing the same mission with the same score twice is the same as
      completing it once, whatever the second timestamp. */
  lemma ApplyIdempotent(p: UserProgress, id: string, score: int, now: int, later: int)
    ensures ApplyCompletion(ApplyCompletion(p, id, score, now), id, score, later) == ApplyCompletion(p, id, score, now)
  {
  }

  /** One call `completeMission(missionId, score)` with its timestamp. */
  datatype Call = Call(missionId: string, score: int, now: int)

  /** The progress after a sequence of `completeMission` calls. */
  function Replay(p: UserProgress, calls: seq<Call>): UserProgress {
    if calls == [] then p
    else
      var c := calls[|calls| - 1];
      ApplyCompletion(Replay(p, calls[..|calls| - 1]), c.missionId, c.score, c.now)
  }

  /** Starting from the seed progress, every sequence of completions leaves
      XP equal to the sum of the records and the records unique per mission. */
  lemma {:induction false} ReplayConsistent(calls: seq<Call>)
    ensures Consistent(Replay(InitialProgress, calls))
  {
    if calls != [] {
      var c := calls[|calls| - 1];
      ReplayConsistent(calls[..|calls| - 1]);
      ApplyPreservesConsistent(Replay(InitialProgress, calls[..|calls| - 1]), c.missionId, c.score, c.now);
    }
  }

  /** With non-negative scores, XP never decreases over any sequence of
      completions, and the inventory is never touched. */
  lemma {:induction false} ReplayMonotone(p: UserProgress, calls: seq<Call>)
    requires forall i :: 0 <= i < |calls| ==> calls[i].score >= 0
    ensures Replay(p, calls).xp >= p.xp
    ensures Replay(p, calls).inventory == p.inventory
  {
    if calls != [] {
      ReplayMonotone(p, calls[..|calls| - 1]);
    }
  }

  /** The signed-in user and their progress, as held by the session hook
      (persistence to browser storage is not part of this model). */
  class UserSession {
    var user: Option<User>
    var progress: UserProgress

    ghost predicate Valid()
      reads this
    {
      Consistent(progress)
    }

    /** A session with nothing stored: no user and the seed progress. */
    constructor ()
      ensures Valid()
      ensures user == None && progress == InitialProgress
    {
      user := None;
      progress := InitialProgress;
    }

    /** Signing in replaces the user and resets progress to the seed. */
    method Login(userData: User)
      modifies this
      ensures Valid()
      ensures user == Some(userData) && progress == InitialProgress
    {
      user := Some(userData);
      progress := InitialProgress;
    }

    /** Signing out clears the user and resets progress to the seed. */
    method Logout()
      modifies this
      ensures Valid()
      ensures user == None && progress == InitialProgress
    {
      user := None;
      progress := InitialProgress;
    }

    /** `completeMission(missionId, score)` with `now` for the clock. */
    method CompleteMission(missionId: string, score: int, now: int)
      requires Valid()
      modifies this
      ensures Valid()
      ensures user == old(user)
      ensures progress == ApplyCompletion(old(progress), missionId, score, now)
    {
      ApplyPreservesConsistent(progress, missionId, score, now);
      progress := ApplyCompletion(progress, missionId, score, now);
    }
  }
}
