// Serial point adjustments: the router and the repository each compute the new power, the
// ledger logs the change, and the team rows are brought into line.
module PointsLedger {
  import opened Prelude
  import opened VibeLevels

  datatype Profile = Profile(power: int, level: string, weight: nat)

  datatype LogEntry = LogEntry(provider: string, action: string, points: int, reason: string)

  datatype Adjustment = Adjustment(provider: string, action: string, points: int, reason: string)

  function EntryOf(a: Adjustment): LogEntry {
    LogEntry(a.provider, a.action, a.points, a.reason)
  }

  datatype TeamRow = TeamRow(uuid: string, leader: nat, power: int, level: string, weight: nat)

  function Max(a: int, b: int): int {
    if a >= b then a else b
  }

  function Adjusted(power: int, points: int): int {
    Max(0, power + points)
  }

  function ProfileFor(power: int): Profile {
    var level := LevelForPoints(power, false);
    Profile(power, level.name, level.weight)
  }

  function Sync(row: TeamRow, p: Profile): TeamRow {
    row.(power := p.power, level := p.level, weight := p.weight)
  }

  // The team the id names, else every team its user leads.
  predicate Synced(teams: seq<TeamRow>, users: map<string, nat>, provider: string, row: TeamRow) {
    if exists t <- teams :: t.uuid == provider then row.uuid == provider
    else provider in users && row.leader == users[provider]
  }

  // The rows of that id or, if there are none, of that user's teams take power, level and
  // weight, and nothing else changes.
  predicate SyncedTo(teams: seq<TeamRow>, users: map<string, nat>, provider: string, p: Profile, row: TeamRow, row': TeamRow) {
    && row'.uuid == row.uuid && row'.leader == row.leader
    && (row.uuid == provider || ((forall t <- teams :: t.uuid != provider) && provider in users && users[provider] == row.leader)
        ==> (row'.power, row'.level, row'.weight) == (p.power, p.level, p.weight))
    && (row.uuid != provider && ((exists t <- teams :: t.uuid == provider) || provider !in users || users[provider] != row.leader)
        ==> row' == row)
  }

  datatype Response = NotFound | Done(oldPower: int, newPower: int, oldLevel: string, newLevel: string, levelChanged: bool)

  class RatingRepository {
    var profiles: map<string, Profile>
    var logs: seq<LogEntry>
    var teams: seq<TeamRow>
    var users: map<string, nat>

    constructor (profiles: map<string, Profile>, teams: seq<TeamRow>, users: map<string, nat>)
      ensures this.profiles == profiles && logs == [] && this.teams == teams && this.users == users
    {
      this.profiles, logs, this.teams, this.users := profiles, [], teams, users;
    }

    method UpdateVibePower(provider: string, delta: int, level: string, weight: nat)
      modifies this`profiles
      ensures profiles == if provider in old(profiles)
                          then old(profiles)[provider := Profile(Adjusted(old(profiles)[provider].power, delta), level, weight)]
                          else old(profiles)
    {
      if provider in profiles {
        var power := profiles[provider].power + delta;
        profiles := profiles[provider := Profile(if power > 0 then power else 0, level, weight)];
      }
    }

    method AddPowerLog(entry: LogEntry)
      modifies this`logs
      ensures logs == old(logs) + [entry]
    {
      logs := logs + [entry];
    }

    method SyncProfileToTeam(provider: string, p: Profile)
      modifies this`teams
      ensures |teams| == |old(teams)|
      ensures forall i | 0 <= i < |teams| :: SyncedTo(old(teams), users, provider, p, old(teams)[i], teams[i])
    {
      ghost var before := teams;
      var matched := exists t <- teams :: t.uuid == provider;
      var i := 0;
      while i < |teams|
        invariant 0 <= i <= |teams| == |before|
        invariant forall j | 0 <= j < |teams| ::
                    teams[j] == if j < i && Synced(before, users, provider, before[j]) then Sync(before[j], p) else before[j]
      {
        if if matched then teams[i].uuid == provider else provider in users && teams[i].leader == users[provider] {
          teams := teams[i := Sync(teams[i], p)];
        }
        i := i + 1;
      }
    }

    // The power the response reports is the power the repository stores.
    method AdjustPoints(request: Adjustment) returns (r: Response)
      modifies this
      ensures users == old(users)
      ensures request.provider !in old(profiles) ==>
                r == NotFound && profiles == old(profiles) && logs == old(logs) && teams == old(teams)
      ensures request.provider in old(profiles) ==>
                var before := old(profiles)[request.provider].power;
                var power := if before + request.points > 0 then before + request.points else 0;
                && profiles == old(profiles)[request.provider := ProfileFor(power)]
                && logs == old(logs) + [LogEntry(request.provider, request.action, request.points, request.reason)]
                && r.Done? && (r.oldPower, r.newPower) == (before, power)
                && r.oldLevel == LevelForPoints(before, false).name && r.newLevel == LevelForPoints(power, false).name
                && (r.levelChanged <==> r.oldLevel != r.newLevel)
                && |teams| == |old(teams)|
                && (forall i | 0 <= i < |teams| ::
                      SyncedTo(old(teams), users, request.provider, ProfileFor(power), old(teams)[i], teams[i]))
      ensures request.provider in old(profiles) ==>
                var now, level := profiles[request.provider], LevelForPoints(profiles[request.provider].power, false);
                (now.level, now.weight) == (level.name, level.weight)
    {
      if request.provider !in profiles {
        return NotFound;
      }
      var oldPower := profiles[request.provider].power;
      var newPower := if oldPower + request.points > 0 then oldPower + request.points else 0;
      var newLevel := LevelForPoints(newPower, false);
      UpdateVibePower(request.provider, request.points, newLevel.name, newLevel.weight);
      AddPowerLog(EntryOf(request));
      SyncProfileToTeam(request.provider, Profile(newPower, newLevel.name, newLevel.weight));
      var oldLevel := LevelForPoints(oldPower, false);
      r := Done(oldPower, newPower, oldLevel.name, newLevel.name, oldLevel.name != newLevel.name);
    }

    // A serial run of requests, each for any provider.
    method AdjustAll(requests: seq<Adjustment>)
      modifies this
      ensures profiles == RunProfiles(old(profiles), requests)
      ensures logs == old(logs) + RunLogs(old(profiles), requests)
    {
      ghost var start, startLogs := profiles, logs;
      for i := 0 to |requests|
        invariant profiles == RunProfiles(start, requests[..i])
        invariant logs == startLogs + RunLogs(start, requests[..i])
      {
        assert requests[..i + 1][..i] == requests[..i];
        KeysKept(start, requests[..i]);
        assert logs + [] == logs;
        ghost var logged := RunLogs(start, requests[..i]);
        assert startLogs + (logged + [EntryOf(requests[i])]) == startLogs + logged + [EntryOf(requests[i])];
        assert startLogs + (logged + []) == startLogs + logged;
        var _ := AdjustPoints(requests[i]);
      }
      assert requests[..|requests|] == requests;
    }
  }

  // ---- Whole runs ----

  function StepProfiles(profiles: map<string, Profile>, request: Adjustment): map<string, Profile> {
    if request.provider in profiles
    then profiles[request.provider := ProfileFor(Adjusted(profiles[request.provider].power, request.points))]
    else profiles
  }

  function RunProfiles(profiles: map<string, Profile>, requests: seq<Adjustment>): map<string, Profile> {
    if requests == [] then profiles
    else StepProfiles(RunProfiles(profiles, requests[..|requests| - 1]), requests[|requests| - 1])
  }

  function RunLogs(profiles: map<string, Profile>, requests: seq<Adjustment>): seq<LogEntry> {
    if requests == [] then []
    else
      var last := requests[|requests| - 1];
      RunLogs(profiles, requests[..|requests| - 1])
      + (if last.provider in profiles then [EntryOf(last)] else [])
  }

  // What the log says was added or taken from one provider, in order.
  function LoggedPoints(logs: seq<LogEntry>, provider: string): seq<int> {
    if logs == [] then []
    else
      var last := logs[|logs| - 1];
      LoggedPoints(logs[..|logs| - 1], provider) + (if last.provider == provider then [last.points] else [])
  }

  function Sum(deltas: seq<int>): int {
    if deltas == [] then 0 else Sum(deltas[..|deltas| - 1]) + deltas[|deltas| - 1]
  }

  function Clamped(p0: int, deltas: seq<int>): int {
    if deltas == [] then p0 else Adjusted(Clamped(p0, deltas[..|deltas| - 1]), deltas[|deltas| - 1])
  }

  // The best of all ways to forget a prefix of the changes.
  function BestSuffix(deltas: seq<int>): (best: int)
    ensures forall k | 0 <= k <= |deltas| :: Sum(deltas) - Sum(deltas[..k]) <= best
    ensures exists k | 0 <= k <= |deltas| :: Sum(deltas) - Sum(deltas[..k]) == best
  {
    assert deltas[..|deltas|] == deltas;
    if deltas == [] then 0
    else
      var n := |deltas| - 1;
      var best := Max(0, BestSuffix(deltas[..n]) + deltas[n]);
      assert forall k | 0 <= k <= n :: deltas[..n][..k] == deltas[..k];
      assert forall k | 0 <= k <= n :: Sum(deltas) - Sum(deltas[..k]) == Sum(deltas[..n]) - Sum(deltas[..n][..k]) + deltas[n];
      best
  }

  // The clamped running total in closed form: the plain total, or the best suffix if the
  // total was ever held at zero.
  lemma {:induction false} ClampedClosedForm(p0: int, deltas: seq<int>)
    requires p0 >= 0
    ensures Clamped(p0, deltas) == Max(p0 + Sum(deltas), BestSuffix(deltas)) >= 0
  {
    if deltas != [] { ClampedClosedForm(p0, deltas[..|deltas| - 1]); }
  }

  lemma {:induction false} KeysKept(profiles: map<string, Profile>, requests: seq<Adjustment>)
    ensures RunProfiles(profiles, requests).Keys == profiles.Keys
  {
    if requests != [] { KeysKept(profiles, requests[..|requests| - 1]); }
  }

  lemma {:induction false} RunIsClamped(profiles: map<string, Profile>, requests: seq<Adjustment>, provider: string)
    requires provider in profiles
    ensures RunProfiles(profiles, requests).Keys == profiles.Keys
    ensures var logged := LoggedPoints(RunLogs(profiles, requests), provider);
            var now := RunProfiles(profiles, requests)[provider];
            && now.power == Clamped(profiles[provider].power, logged)
            && (if logged == [] then now == profiles[provider] else now == ProfileFor(now.power))
  {
    if requests != [] {
      var front, last := requests[..|requests| - 1], requests[|requests| - 1];
      KeysKept(profiles, front);
      RunIsClamped(profiles, front, provider);
      LoggedGrows(profiles, requests, provider);
      ProfileMoves(RunProfiles(profiles, front), last, provider);
      if last.provider == provider {
        OneMoreClamped(profiles[provider].power, LoggedPoints(RunLogs(profiles, front), provider), last.points);
      }
    }
  }

  lemma ProfileMoves(profiles: map<string, Profile>, request: Adjustment, provider: string)
    requires provider in profiles
    ensures var after := StepProfiles(profiles, request);
            && after.Keys == profiles.Keys
            && after[provider] == if request.provider == provider
                                  then ProfileFor(Adjusted(profiles[provider].power, request.points))
                                  else profiles[provider]
    ensures ProfileFor(Adjusted(profiles[provider].power, request.points)).power == Adjusted(profiles[provider].power, request.points)
  {
  }

  lemma OneMoreClamped(p0: int, deltas: seq<int>, delta: int)
    ensures Clamped(p0, deltas + [delta]) == Adjusted(Clamped(p0, deltas), delta)
  {
    assert (deltas + [delta])[..|deltas|] == deltas;
  }

  // The log of a provider grows by its own requests only.
  lemma LoggedGrows(profiles: map<string, Profile>, requests: seq<Adjustment>, provider: string)
    requires provider in profiles && requests != []
    ensures var front, last := requests[..|requests| - 1], requests[|requests| - 1];
            var before := LoggedPoints(RunLogs(profiles, front), provider);
            LoggedPoints(RunLogs(profiles, requests), provider)
            == if last.provider == provider then before + [last.points] else before
  {
    var last := requests[|requests| - 1];
    var logs := RunLogs(profiles, requests[..|requests| - 1]);
    if last.provider in profiles {
      assert (logs + [EntryOf(last)])[..|logs|] == logs;
    } else {
      assert logs + [] == logs;
    }
  }

  // After any serial run, from any power not below zero, a provider's stored power is the
  // closed form of its own logged points, and its level and weight are those of the power.
  lemma {:induction false} StoredPowerFollowsTheLog(profiles: map<string, Profile>, requests: seq<Adjustment>, provider: string)
    requires provider in profiles && profiles[provider].power >= 0
    ensures RunProfiles(profiles, requests).Keys == profiles.Keys
    ensures var logged := LoggedPoints(RunLogs(profiles, requests), provider);
            var now := RunProfiles(profiles, requests)[provider];
            && now.power == Max(profiles[provider].power + Sum(logged), BestSuffix(logged))
            && now.power >= 0
            && (logged != [] ==>
                  now.level == LEVELS[Rank(now.power)].name && now.weight == LEVELS[Rank(now.power)].weight)
  {
    RunIsClamped(profiles, requests, provider);
    var logged, now := LoggedPoints(RunLogs(profiles, requests), provider), RunProfiles(profiles, requests)[provider];
    assert logged != [] ==> now == ProfileFor(now.power);
    ClampedProfile(profiles[provider], logged, now);
  }

  lemma ClampedProfile(start: Profile, logged: seq<int>, now: Profile)
    requires start.power >= 0 && now.power == Clamped(start.power, logged)
    requires logged != [] ==> now == ProfileFor(now.power)
    ensures now.power == Max(start.power + Sum(logged), BestSuffix(logged)) && now.power >= 0
    ensures logged != [] ==> now.level == LEVELS[Rank(now.power)].name && now.weight == LEVELS[Rank(now.power)].weight
  {
    PowerOfLog(start.power, logged);
    LevelOfProfile(now.power);
  }

  lemma PowerOfLog(p0: nat, logged: seq<int>)
    ensures Clamped(p0, logged) == Max(p0 + Sum(logged), BestSuffix(logged)) && Clamped(p0, logged) >= 0
  {
    ClampedClosedForm(p0, logged);
  }

  lemma LevelOfProfile(power: nat)
    ensures ProfileFor(power).power == power
    ensures ProfileFor(power).level == LEVELS[Rank(power)].name && ProfileFor(power).weight == LEVELS[Rank(power)].weight
  {
    LevelIsRank(power);
  }
}
