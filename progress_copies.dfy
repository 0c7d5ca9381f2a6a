/** The merge of a completion exists twice: in the browser's reducer and in the
    service's complete_level handler. This module relates the two copies: they agree
    on the completed levels, the unlocked level and the best scores, and differ on
    the total, which the browser accumulates over every completion while the service
    recomputes it as the sum of the best scores. */
module ProgressCopies {
  import opened Common
  import GameContext
  import Server

  /** The JSON object the service sends for a score dict. */
  function ToMap(d: Server.ScoreDict): (m: map<int, int>)
    ensures m.Keys == Server.Keys(d)
    ensures forall k :: k in m ==> m[k] == Server.Get(d, k, 0)
  {
    if d == [] then map[]
    else
      Server.KeysCons(d);
      ToMap(d[1..])[d[0].0 := d[0].1]
  }

  /** The record the service sends back, as the browser reads it. */
  function BodyOf(d: Server.GameProgress): (b: GameContext.ProgressBody)
    ensures b.id == d.id && b.player_name == d.player_name
    ensures b.current_level == d.current_level && b.levels_completed == d.levels_completed
    ensures b.total_score == d.total_score && b.achievements == d.achievements
    ensures b.level_scores == ToMap(d.level_scores)
  {
    GameContext.ProgressBody(d.id, d.player_name, d.current_level, d.levels_completed,
                             d.total_score, ToMap(d.level_scores), d.achievements)
  }

  /** The browser's cached player and the stored record say the same thing about
      completed levels, the unlocked level and best scores. */
  ghost predicate Mirrors(p: GameContext.Player, d: Server.GameProgress) {
    && p.levelsCompleted == d.levels_completed
    && p.currentLevel == d.current_level
    && p.levelScores == ToMap(d.level_scores)
  }

  function ServerCompleteAll(d: Server.GameProgress, cs: seq<Completion>, now: int): Server.GameProgress
    decreases |cs|
  {
    if cs == [] then d
    else ServerCompleteAll(Server.CompleteRecord(d, cs[0].level, cs[0].score, now), cs[1..], now)
  }

  predicate NonNegative(cs: seq<Completion>) {
    forall i :: 0 <= i < |cs| ==> cs[i].score >= 0
  }

  ghost predicate NonNegativeValues(d: Server.ScoreDict) {
    forall i :: 0 <= i < |d| ==> d[i].1 >= 0
  }

  lemma {:induction false} ToMapAfterSet(d: Server.ScoreDict, k: int, v: int)
    ensures ToMap(Server.Set(d, k, v)) == ToMap(d)[k := v]
  {
    if d != [] && d[0].0 != k {
      ToMapAfterSet(d[1..], k, v);
    }
  }

  /** One completion applied to both copies keeps them in step. */
  lemma OneCompletionKeepsMirror(p: GameContext.Player, d: Server.GameProgress, level: int, score: int, now: int)
    requires Mirrors(p, d)
    ensures Mirrors(GameContext.CompletePlayer(p, level, score), Server.CompleteRecord(d, level, score, now))
  {
    var best := Max(Server.Get(d.level_scores, level, 0), score);
    ToMapAfterSet(d.level_scores, level, best);
    assert GameContext.BestScore(p.levelScores, level) == Server.Get(d.level_scores, level, 0);
  }

  /** Both copies agree, after any sequence of completions, on everything except
      the total. */
  lemma {:induction false} CopiesAgree(p: GameContext.Player, d: Server.GameProgress, cs: seq<Completion>, now: int)
    requires Mirrors(p, d)
    ensures Mirrors(GameContext.CompleteAll(p, cs), ServerCompleteAll(d, cs, now))
    decreases |cs|
  {
    if cs != [] {
      OneCompletionKeepsMirror(p, d, cs[0].level, cs[0].score, now);
      CopiesAgree(GameContext.CompletePlayer(p, cs[0].level, cs[0].score),
                  Server.CompleteRecord(d, cs[0].level, cs[0].score, now), cs[1..], now);
    }
  }

  /** With non-negative scores, the service's sum of best scores never exceeds the
      browser's running total. */
  lemma {:induction false} ServerTotalAtMostClientTotal(p: GameContext.Player, d: Server.GameProgress, cs: seq<Completion>, now: int)
    requires NonNegative(cs)
    requires Server.UniqueKeys(d.level_scores) && NonNegativeValues(d.level_scores)
    requires Server.SumValues(d.level_scores) <= p.totalScore
    ensures Server.SumValues(ServerCompleteAll(d, cs, now).level_scores) <= GameContext.CompleteAll(p, cs).totalScore
    ensures cs != [] ==> ServerCompleteAll(d, cs, now).total_score == Server.SumValues(ServerCompleteAll(d, cs, now).level_scores)
    decreases |cs|
  {
    if cs != [] {
      var level, score := cs[0].level, cs[0].score;
      var old_best := Server.Get(d.level_scores, level, 0);
      var best := Max(old_best, score);
      var d' := Server.CompleteRecord(d, level, score, now);
      var p' := GameContext.CompletePlayer(p, level, score);
      Server.SumAfterSet(d.level_scores, level, best);
      assert old_best >= 0 by {
        if level in Server.Keys(d.level_scores) {
          GetIsStored(d.level_scores, level);
        }
      }
      NonNegativeAfterSet(d.level_scores, level, best);
      assert NonNegative(cs[1..]) by {
        forall i | 0 <= i < |cs[1..]| ensures cs[1..][i].score >= 0 {
          assert cs[1..][i] == cs[i + 1];
        }
      }
      ServerTotalAtMostClientTotal(p', d', cs[1..], now);
    }
  }

  lemma {:induction false} GetIsStored(d: Server.ScoreDict, k: int)
    requires k in Server.Keys(d)
    ensures exists i :: 0 <= i < |d| && d[i] == (k, Server.Get(d, k, 0))
  {
    Server.KeysCons(d);
    if d[0].0 != k {
      GetIsStored(d[1..], k);
      var i :| 0 <= i < |d[1..]| && d[1..][i] == (k, Server.Get(d, k, 0));
      assert d[i + 1] == (k, Server.Get(d, k, 0));
    }
  }

  lemma {:induction false} NonNegativeAfterSet(d: Server.ScoreDict, k: int, v: int)
    requires NonNegativeValues(d) && v >= 0
    ensures NonNegativeValues(Server.Set(d, k, v))
  {
    if d != [] && d[0].0 != k {
      NonNegativeAfterSet(d[1..], k, v);
      var r := Server.Set(d, k, v);
      forall i | 0 < i < |r| ensures r[i].1 >= 0 {
        assert r[i] == r[1..][i - 1];
      }
    } else if d != [] {
      var r := Server.Set(d, k, v);
      forall i | 0 < i < |r| ensures r[i].1 >= 0 {
        assert r[i] == d[i];
      }
    }
  }

  /** A new player loaded from a fresh record who finishes level 1 twice with 100:
      the browser shows a total of 200, the service stores 100. */
  lemma RepeatedCompletionDiverges(id: string, name: string, now: int)
    ensures var d := Server.NewProgress(id, name, now);
      var p := GameContext.FromBody(BodyOf(d));
      var cs := [Completion(1, 100), Completion(1, 100)];
      && GameContext.CompleteAll(p, cs).totalScore == 200
      && ServerCompleteAll(d, cs, now).total_score == 100
  {
    var d := Server.NewProgress(id, name, now);
    var p := GameContext.FromBody(BodyOf(d));
    var cs := [Completion(1, 100), Completion(1, 100)];
    GameContext.TotalCountsEveryCompletion(p, cs);
    var d1 := Server.CompleteRecord(d, 1, 100, now);
    assert d1.level_scores == [(1, 100)];
    var d2 := Server.CompleteRecord(d1, 1, 100, now);
    assert d2.level_scores == [(1, 100)];
    assert cs[1..][1..] == [];
    assert ServerCompleteAll(d1, cs[1..], now) == ServerCompleteAll(d2, [], now);
    assert ServerCompleteAll(d, cs, now) == d2;
    assert Server.SumValues(d2.level_scores) == 100;
  }
}
