/** The browser-side copy of a player's progress: the reducer that folds actions
    into the cached state, and the provider procedures that talk to the progress
    service and then dispatch. HTTP replies are inputs of the procedures. */
module GameContext {
  import opened Common

  datatype Player = Player(
    id: string,
    name: string,
    currentLevel: int,
    levelsCompleted: seq<int>,
    totalScore: int,
    levelScores: map<int, int>,
    achievements: seq<string>)

  datatype State = State(player: Player, loading: bool, error: Option<string>)

  /** The payload of UPDATE_PLAYER: only the fields that are present overwrite. */
  datatype PlayerPatch = PlayerPatch(
    id: Option<string>,
    name: Option<string>,
    currentLevel: Option<int>,
    levelsCompleted: Option<seq<int>>,
    totalScore: Option<int>,
    levelScores: Option<map<int, int>>,
    achievements: Option<seq<string>>)

  datatype Action =
    | SetLoading(on: bool)
    | SetError(message: string)
    | SetPlayer(player: Player)
    | UpdatePlayer(patch: PlayerPatch)
    | CompleteLevel(level: int, score: int)
    | Unrecognised(kind: string)

  const InitialPlayer := Player("", "", 1, [], 0, map[], [])
  const InitialState := State(InitialPlayer, false, None)

  function Count(s: seq<int>, x: int): (n: nat)
    ensures n <= |s|
    ensures n == 0 <==> x !in s
  {
    if s == [] then 0 else (if s[0] == x then 1 else 0) + Count(s[1..], x)
  }

  /** The best score recorded for a level, 0 when there is none (`|| 0`). */
  function BestScore(scores: map<int, int>, level: int): (r: int)
    ensures level in scores ==> r == scores[level]
    ensures level !in scores ==> r == 0
    ensures (forall l :: l in scores ==> scores[l] >= 0) ==> r >= 0
  {
    if level in scores then scores[level] else 0
  }

  /** The COMPLETE_LEVEL case of the reducer on the player record. */
  function CompletePlayer(p: Player, level: int, score: int): (q: Player)
    ensures level in q.levelsCompleted
    ensures level in p.levelsCompleted ==> q.levelsCompleted == p.levelsCompleted
    ensures level !in p.levelsCompleted ==> q.levelsCompleted == p.levelsCompleted + [level]
    ensures Distinct(p.levelsCompleted) ==> Distinct(q.levelsCompleted)
    ensures q.currentLevel >= p.currentLevel && q.currentLevel >= level + 1
    ensures q.currentLevel == p.currentLevel || q.currentLevel == level + 1
    ensures q.levelScores.Keys == p.levelScores.Keys + {level}
    ensures q.levelScores[level] >= BestScore(p.levelScores, level) && q.levelScores[level] >= score
    ensures q.levelScores[level] == BestScore(p.levelScores, level) || q.levelScores[level] == score
    ensures forall l :: l in p.levelScores && l != level ==> q.levelScores[l] == p.levelScores[l]
    ensures q.totalScore - p.totalScore == score
    ensures q.id == p.id && q.name == p.name && q.achievements == p.achievements
  {
    var completed := if level in p.levelsCompleted then p.levelsCompleted else p.levelsCompleted + [level];
    p.(levelsCompleted := completed,
       currentLevel := Max(p.currentLevel, level + 1),
       levelScores := p.levelScores[level := Max(BestScore(p.levelScores, level), score)],
       totalScore := p.totalScore + score)
  }

  /** `{ ...player, ...payload }`: every present field replaces the old one. */
  function ApplyPatch(p: Player, u: PlayerPatch): (q: Player)
    ensures u.id.Some? ==> q.id == u.id.value
    ensures u.id.None? ==> q.id == p.id
    ensures u.name.Some? ==> q.name == u.name.value
    ensures u.name.None? ==> q.name == p.name
    ensures u.currentLevel.Some? ==> q.currentLevel == u.currentLevel.value
    ensures u.currentLevel.None? ==> q.currentLevel == p.currentLevel
    ensures u.levelsCompleted.Some? ==> q.levelsCompleted == u.levelsCompleted.value
    ensures u.levelsCompleted.None? ==> q.levelsCompleted == p.levelsCompleted
    ensures u.totalScore.Some? ==> q.totalScore == u.totalScore.value
    ensures u.totalScore.None? ==> q.totalScore == p.totalScore
    ensures u.levelScores.Some? ==> q.levelScores == u.levelScores.value
    ensures u.levelScores.None? ==> q.levelScores == p.levelScores
    ensures u.achievements.Some? ==> q.achievements == u.achievements.value
    ensures u.achievements.None? ==> q.achievements == p.achievements
  {
    Player(
      if u.id.Some? then u.id.value else p.id,
      if u.name.Some? then u.name.value else p.name,
      if u.currentLevel.Some? then u.currentLevel.value else p.currentLevel,
      if u.levelsCompleted.Some? then u.levelsCompleted.value else p.levelsCompleted,
      if u.totalScore.Some? then u.totalScore.value else p.totalScore,
      if u.levelScores.Some? then u.levelScores.value else p.levelScores,
      if u.achievements.Some? then u.achievements.value else p.achievements)
  }

  /** gameReducer. */
  function Reduce(s: State, a: Action): (r: State)
    ensures a.SetLoading? ==> r.loading == a.on && r.player == s.player && r.error == s.error
    ensures a.SetError? ==> r.error == Some(a.message) && !r.loading && r.player == s.player
    ensures a.SetPlayer? ==> r.player == a.player && !r.loading && r.error == s.error
    ensures a.UpdatePlayer? ==>
      r.player == ApplyPatch(s.player, a.patch) && r.loading == s.loading && r.error == s.error
    ensures a.CompleteLevel? ==>
      r.player == CompletePlayer(s.player, a.level, a.score) && r.loading == s.loading && r.error == s.error
    ensures a.Unrecognised? ==> r == s
  {
    match a
    case SetLoading(on) => s.(loading := on)
    case SetError(message) => s.(error := Some(message), loading := false)
    case SetPlayer(player) => s.(player := player, loading := false)
    case UpdatePlayer(patch) => s.(player := ApplyPatch(s.player, patch))
    case CompleteLevel(level, score) => s.(player := CompletePlayer(s.player, level, score))
    case Unrecognised(_) => s
  }

  /** The player after a sequence of successful completions, in order. */
  function CompleteAll(p: Player, cs: seq<Completion>): Player
    decreases |cs|
  {
    if cs == [] then p
    else CompleteAll(CompletePlayer(p, cs[0].level, cs[0].score), cs[1..])
  }

  function SumScores(cs: seq<Completion>): int {
    if cs == [] then 0 else cs[0].score + SumScores(cs[1..])
  }

  function HighestUnlock(cs: seq<Completion>, floor: int): (r: int)
    ensures r >= floor
    ensures forall i :: 0 <= i < |cs| ==> r >= cs[i].level + 1
    ensures r == floor || exists i :: 0 <= i < |cs| && r == cs[i].level + 1
  {
    if cs == [] then floor
    else
      var r := HighestUnlock(cs[1..], Max(floor, cs[0].level + 1));
      assert r != Max(floor, cs[0].level + 1) ==> exists i :: 0 <= i < |cs| && r == cs[i].level + 1 by {
        if r != Max(floor, cs[0].level + 1) {
          var j :| 0 <= j < |cs[1..]| && r == cs[1..][j].level + 1;
          assert r == cs[j + 1].level + 1;
        }
      }
      r
  }

  /** totalScore adds every completion, repeats included. */
  lemma {:induction false} TotalCountsEveryCompletion(p: Player, cs: seq<Completion>)
    ensures CompleteAll(p, cs).totalScore == p.totalScore + SumScores(cs)
    decreases |cs|
  {
    if cs != [] {
      TotalCountsEveryCompletion(CompletePlayer(p, cs[0].level, cs[0].score), cs[1..]);
    }
  }

  /** currentLevel ends at the largest unlock any completion asked for (or where it
      was), whatever order the levels were played in. */
  lemma {:induction false} UnlockIsMaximum(p: Player, cs: seq<Completion>)
    ensures CompleteAll(p, cs).currentLevel == HighestUnlock(cs, p.currentLevel)
    decreases |cs|
  {
    if cs != [] {
      UnlockIsMaximum(CompletePlayer(p, cs[0].level, cs[0].score), cs[1..]);
    }
  }

  /** The list of completed levels never holds a level twice, and holds exactly the
      levels it held plus those completed. */
  lemma {:induction false} CompletedLevelsAreASet(p: Player, cs: seq<Completion>)
    requires Distinct(p.levelsCompleted)
    ensures Distinct(CompleteAll(p, cs).levelsCompleted)
    ensures forall l :: l in CompleteAll(p, cs).levelsCompleted <==>
      l in p.levelsCompleted || exists i :: 0 <= i < |cs| && cs[i].level == l
    decreases |cs|
  {
    if cs != [] {
      var q := CompletePlayer(p, cs[0].level, cs[0].score);
      CompletedLevelsAreASet(q, cs[1..]);
      forall l | l in CompleteAll(p, cs).levelsCompleted
        ensures l in p.levelsCompleted || exists i :: 0 <= i < |cs| && cs[i].level == l
      {
        if l !in q.levelsCompleted {
          var i :| 0 <= i < |cs[1..]| && cs[1..][i].level == l;
          assert cs[i + 1].level == l;
        } else if l !in p.levelsCompleted {
          assert cs[0].level == l;
        }
      }
      forall l | l in p.levelsCompleted || exists i :: 0 <= i < |cs| && cs[i].level == l
        ensures l in CompleteAll(p, cs).levelsCompleted
      {
        if l !in p.levelsCompleted {
          var i :| 0 <= i < |cs| && cs[i].level == l;
          if i > 0 {
            assert cs[1..][i - 1].level == l;
          }
        }
      }
    }
  }

  /** Completing the same level twice: the best score wins in either order and the
      level is listed once. */
  lemma BestScoreWins(p: Player, level: int, first: int, second: int)
    requires Distinct(p.levelsCompleted)
    ensures var q := CompletePlayer(CompletePlayer(p, level, first), level, second);
      && q.levelScores[level] == Max(BestScore(p.levelScores, level), Max(first, second))
      && Count(q.levelsCompleted, level) == 1
  {
    var q1 := CompletePlayer(p, level, first);
    var q := CompletePlayer(q1, level, second);
    OnlyOnce(q.levelsCompleted, level);
  }

  lemma {:induction false} OnlyOnce(s: seq<int>, x: int)
    requires Distinct(s) && x in s
    ensures Count(s, x) == 1
  {
    if s[0] != x {
      OnlyOnce(s[1..], x);
    } else {
      assert x !in s[1..];
    }
  }

  /** A fresh player who finishes level 1 with 100. */
  lemma FreshPlayerFinishesLevelOne()
    ensures var r := Reduce(InitialState, CompleteLevel(1, 100));
      && r.player.levelsCompleted == [1]
      && r.player.currentLevel == 2
      && r.player.totalScore == 100
      && r.player.levelScores == map[1 := 100]
  {
  }

  /** What an HTTP call returned: a body, or an error (with the status when the
      server answered). */
  datatype Reply<T> = Ok(body: T) | Failed(status: Option<int>, message: string)

  /** The JSON record the progress service sends back. */
  datatype ProgressBody = ProgressBody(
    id: string,
    player_name: string,
    current_level: int,
    levels_completed: seq<int>,
    total_score: int,
    level_scores: map<int, int>,
    achievements: seq<string>)

  /** The request body of POST /game/complete-level. */
  datatype CompletionRequest = CompletionRequest(
    player_id: string,
    level_number: int,
    score: int,
    completion_time: Option<int>)

  /** An async call either resolves or rejects with the error's message. */
  datatype Outcome<T> = Resolved(value: T) | Rejected(message: string)

  function FromBody(b: ProgressBody): (p: Player)
    ensures p.id == b.id && p.name == b.player_name && p.currentLevel == b.current_level
    ensures p.levelsCompleted == b.levels_completed && p.totalScore == b.total_score
    ensures p.levelScores == b.level_scores && p.achievements == b.achievements
  {
    Player(b.id, b.player_name, b.current_level, b.levels_completed, b.total_score,
           b.level_scores, b.achievements)
  }

  /** The provider: the cached state and the procedures that update it. */
  class Provider {
    var state: State

    constructor ()
      ensures state == InitialState
    {
      state := InitialState;
    }

    method Dispatch(a: Action)
      modifies this
      ensures state == Reduce(old(state), a)
    {
      state := Reduce(state, a);
    }

    /** createPlayer: POST /game/progress, then SET_PLAYER, or SET_ERROR and rethrow. */
    method CreatePlayer(name: string, reply: Reply<ProgressBody>) returns (r: Outcome<ProgressBody>)
      modifies this
      ensures reply.Ok? ==> (r == Resolved(reply.body)
        && state == Reduce(Reduce(old(state), SetLoading(true)), SetPlayer(FromBody(reply.body))))
      ensures reply.Failed? ==> (r == Rejected(reply.message)
        && state == Reduce(Reduce(old(state), SetLoading(true)), SetError(reply.message)))
      ensures !state.loading
    {
      Dispatch(SetLoading(true));
      if reply.Ok? {
        Dispatch(SetPlayer(FromBody(reply.body)));
        r := Resolved(reply.body);
      } else {
        Dispatch(SetError(reply.message));
        r := Rejected(reply.message);
      }
    }

    /** loadPlayer: GET /game/progress/{name}; a 404 falls back to creating the
        player, any other failure sets the error and rethrows. */
    method LoadPlayer(name: string, got: Reply<ProgressBody>, created: Reply<ProgressBody>)
      returns (r: Outcome<ProgressBody>)
      modifies this
      ensures got.Ok? ==> (r == Resolved(got.body)
        && state == Reduce(Reduce(old(state), SetLoading(true)), SetPlayer(FromBody(got.body))))
      ensures got.Failed? && got.status == Some(404) && created.Ok? ==> (r == Resolved(created.body)
        && state == Reduce(Reduce(Reduce(old(state), SetLoading(true)), SetLoading(true)),
                           SetPlayer(FromBody(created.body))))
      ensures got.Failed? && got.status == Some(404) && created.Failed? ==> (r == Rejected(created.message)
        && state == Reduce(Reduce(Reduce(old(state), SetLoading(true)), SetLoading(true)),
                           SetError(created.message)))
      ensures got.Failed? && got.status != Some(404) ==> (r == Rejected(got.message)
        && state == Reduce(Reduce(old(state), SetLoading(true)), SetError(got.message)))
      ensures !state.loading
    {
      Dispatch(SetLoading(true));
      if got.Ok? {
        Dispatch(SetPlayer(FromBody(got.body)));
        r := Resolved(got.body);
      } else if got.status == Some(404) {
        r := CreatePlayer(name, created);
      } else {
        Dispatch(SetError(got.message));
        r := Rejected(got.message);
      }
    }

    /** completeLevel: POST /game/complete-level with the cached id; only after the
        service acknowledges is COMPLETE_LEVEL dispatched, otherwise only the error
        is set. */
    method CompleteLevel(level: int, score: int, completionTime: Option<int>, reply: Reply<()>)
      returns (sent: CompletionRequest, r: Outcome<()>)
      modifies this
      ensures sent == CompletionRequest(old(state).player.id, level, score, completionTime)
      ensures reply.Ok? ==> (r == Resolved(())
        && state == Reduce(old(state), Action.CompleteLevel(level, score)))
      ensures reply.Failed? ==> (r == Rejected(reply.message)
        && state == Reduce(old(state), SetError(reply.message)))
    {
      sent := CompletionRequest(state.player.id, level, score, completionTime);
      if reply.Ok? {
        Dispatch(Action.CompleteLevel(level, score));
        r := Resolved(());
      } else {
        Dispatch(SetError(reply.message));
        r := Rejected(reply.message);
      }
    }
  }
}
