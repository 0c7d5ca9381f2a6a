/** The progress service: the game_progress collection, and the handlers that
    create, read, update and complete-a-level on its documents. The collection is
    a sequence of documents in insertion order; find_one and update_one act on the
    first document that matches their filter. Ids and clock readings are inputs. */
module Server {
  import opened Common

  /** A Python dict from level to score, in insertion order (assigning an existing
      key keeps its place, a new key goes at the end). */
  type ScoreDict = seq<(int, int)>

  predicate UniqueKeys(d: ScoreDict) {
    forall i, j :: 0 <= i < j < |d| ==> d[i].0 != d[j].0
  }

  function Keys(d: ScoreDict): set<int> {
    set i | 0 <= i < |d| :: d[i].0
  }

  /** `d.get(k, default)`. */
  function Get(d: ScoreDict, k: int, default: int): (v: int)
    ensures k !in Keys(d) ==> v == default
  {
    if d == [] then default
    else if d[0].0 == k then d[0].1
    else
      assert k !in Keys(d) ==> k !in Keys(d[1..]) by {
        if k in Keys(d[1..]) {
          var i :| 0 <= i < |d[1..]| && d[1..][i].0 == k;
          assert d[i + 1].0 == k;
        }
      }
      Get(d[1..], k, default)
  }

  /** `d[k] = v`. */
  function Set(d: ScoreDict, k: int, v: int): (r: ScoreDict)
    ensures Keys(r) == Keys(d) + {k}
  {
    if d == [] then
      assert Keys([(k, v)]) == {k} by { KeysCons([(k, v)]); }
      [(k, v)]
    else if d[0].0 == k then
      assert Keys(d) == {k} + Keys(d[1..]) by { KeysCons(d); }
      assert Keys([(k, v)] + d[1..]) == {k} + Keys(d[1..]) by { KeysCons([(k, v)] + d[1..]); }
      [(k, v)] + d[1..]
    else
      assert Keys(d) == {d[0].0} + Keys(d[1..]) by { KeysCons(d); }
      var r := [d[0]] + Set(d[1..], k, v);
      assert Keys(r) == {d[0].0} + Keys(r[1..]) by { KeysCons(r); }
      r
  }

  lemma KeysCons(d: ScoreDict)
    requires d != []
    ensures Keys(d) == {d[0].0} + Keys(d[1..])
  {
    forall k | k in Keys(d) ensures k in {d[0].0} + Keys(d[1..]) {
      var i :| 0 <= i < |d| && d[i].0 == k;
      if i > 0 {
        assert d[1..][i - 1].0 == k;
      }
    }
    forall k | k in Keys(d[1..]) ensures k in Keys(d) {
      var i :| 0 <= i < |d[1..]| && d[1..][i].0 == k;
      assert d[i + 1].0 == k;
    }
  }

  /** After `d[k] = v`, `k` reads `v` and every other key reads what it did. */
  lemma {:induction false} GetAfterSet(d: ScoreDict, k: int, v: int)
    ensures forall k', x :: Get(Set(d, k, v), k', x) == if k' == k then v else Get(d, k', x)
  {
    if d != [] && d[0].0 != k {
      GetAfterSet(d[1..], k, v);
    }
  }

  /** Assigning a key keeps a dict's keys distinct. */
  lemma {:induction false} SetKeepsKeysUnique(d: ScoreDict, k: int, v: int)
    requires UniqueKeys(d)
    ensures UniqueKeys(Set(d, k, v))
  {
    if d != [] {
      KeysCons(d);
      if d[0].0 != k {
        SetKeepsKeysUnique(d[1..], k, v);
        var r := Set(d, k, v);
        assert r[1..] == Set(d[1..], k, v);
        assert d[0].0 !in Keys(r[1..]);
        forall j | 0 < j < |r| ensures r[0].0 != r[j].0 {
          assert r[j].0 == r[1..][j - 1].0;
        }
      } else {
        var r := Set(d, k, v);
        forall j | 0 < j < |r| ensures r[0].0 != r[j].0 {
          assert r[j] == d[j];
        }
      }
    }
  }

  /** `sum(d.values())`. */
  function SumValues(d: ScoreDict): (r: int)
    ensures (forall i :: 0 <= i < |d| ==> d[i].1 >= 0) ==> r >= 0
    ensures (forall i :: 0 <= i < |d| ==> d[i].1 <= 100) ==> r <= 100 * |d|
  {
    if d == [] then 0 else d[0].1 + SumValues(d[1..])
  }

  /** Assigning a key changes the sum of the values by the difference between the
      new value and the one it replaces. */
  lemma {:induction false} SumAfterSet(d: ScoreDict, k: int, v: int)
    requires UniqueKeys(d)
    ensures SumValues(Set(d, k, v)) == SumValues(d) - Get(d, k, 0) + v
  {
    if d != [] {
      KeysCons(d);
      if d[0].0 != k {
        SumAfterSet(d[1..], k, v);
      } else {
        assert k !in Keys(d[1..]);
      }
    }
  }

  /** Storing the value a key already has leaves the dict as it was. */
  lemma {:induction false} SetUnchanged(d: ScoreDict, k: int)
    requires k in Keys(d)
    ensures Set(d, k, Get(d, k, 0)) == d
  {
    if d[0].0 != k {
      SetUnchanged(d[1..], k);
    }
  }

  datatype GameProgress = GameProgress(
    id: string,
    player_name: string,
    current_level: int,
    levels_completed: seq<int>,
    total_score: int,
    level_scores: ScoreDict,
    achievements: seq<string>,
    created_at: int,
    updated_at: int)

  datatype GameProgressUpdate = GameProgressUpdate(
    current_level: Option<int>,
    levels_completed: Option<seq<int>>,
    total_score: Option<int>,
    level_scores: Option<ScoreDict>,
    achievements: Option<seq<string>>)

  datatype LevelCompletion = LevelCompletion(
    player_id: string,
    level_number: int,
    score: int,
    completion_time: Option<int>)

  /** A handler's answer: its value, or the HTTPException it raised. */
  datatype Response<T> = Ok(value: T) | HttpError(status: int, detail: string)

  const FirstLevel := "first_level"
  const GameMaster := "game_master"
  const HighScorer := "high_scorer"

  /** The defaults of a new GameProgress record. */
  function NewProgress(id: string, name: string, now: int): (p: GameProgress)
    ensures p.id == id && p.player_name == name
    ensures p.current_level == 1 && p.levels_completed == [] && p.total_score == 0
    ensures p.level_scores == [] && p.achievements == []
  {
    GameProgress(id, name, 1, [], 0, [], [], now, now)
  }

  /** `if tag not in achievements: achievements.append(tag)` under a condition. */
  function Grant(achievements: seq<string>, when: bool, tag: string): (r: seq<string>)
    ensures when ==> tag in r
    ensures forall a :: a in r <==> a in achievements || (when && a == tag)
    ensures achievements <= r
    ensures tag in achievements ==> r == achievements
  {
    if when && tag !in achievements then achievements + [tag] else achievements
  }

  /** What complete_level writes back for one record. */
  function CompleteRecord(p: GameProgress, level: int, score: int, now: int): (q: GameProgress)
    ensures level in q.levels_completed
    ensures level in p.levels_completed ==> q.levels_completed == p.levels_completed
    ensures level !in p.levels_completed ==> q.levels_completed == p.levels_completed + [level]
    ensures Get(q.level_scores, level, 0) >= Get(p.level_scores, level, 0)
    ensures Get(q.level_scores, level, 0) >= score
    ensures Get(q.level_scores, level, 0) == Get(p.level_scores, level, 0)
         || Get(q.level_scores, level, 0) == score
    ensures forall k, x :: k != level ==> Get(q.level_scores, k, x) == Get(p.level_scores, k, x)
    ensures Keys(q.level_scores) == Keys(p.level_scores) + {level}
    ensures UniqueKeys(p.level_scores) ==> UniqueKeys(q.level_scores)
    ensures q.total_score == SumValues(q.level_scores)
    ensures q.current_level >= p.current_level && q.current_level >= level + 1
    ensures q.current_level == p.current_level || q.current_level == level + 1
    ensures p.achievements <= q.achievements
    ensures Distinct(p.achievements) ==> Distinct(q.achievements)
    ensures forall a :: a in q.achievements <==>
      a in p.achievements || (level == 1 && a == FirstLevel)
      || (|q.levels_completed| == 5 && a == GameMaster) || (score >= 100 && a == HighScorer)
    ensures q.id == p.id && q.player_name == p.player_name && q.created_at == p.created_at
    ensures q.updated_at == now
  {
    var completed := if level in p.levels_completed then p.levels_completed else p.levels_completed + [level];
    GetAfterSet(p.level_scores, level, Max(Get(p.level_scores, level, 0), score));
    var scores := Set(p.level_scores, level, Max(Get(p.level_scores, level, 0), score));
    assert UniqueKeys(p.level_scores) ==> UniqueKeys(scores) by {
      if UniqueKeys(p.level_scores) {
        SetKeepsKeysUnique(p.level_scores, level, Max(Get(p.level_scores, level, 0), score));
      }
    }
    var a1 := Grant(p.achievements, level == 1, FirstLevel);
    var a2 := Grant(a1, |completed| == 5, GameMaster);
    var a3 := Grant(a2, score >= 100, HighScorer);
    p.(current_level := Max(p.current_level, level + 1),
       levels_completed := completed,
       total_score := SumValues(scores),
       level_scores := scores,
       achievements := a3,
       updated_at := now)
  }

  /** Completing a level again with the same or a lower score rewrites the record
      exactly as it was, except for its update time. */
  lemma RepeatCompletionIsIdempotent(p: GameProgress, level: int, score: int, again: int, t1: int, t2: int)
    requires again <= score
    ensures CompleteRecord(CompleteRecord(p, level, score, t1), level, again, t2)
         == CompleteRecord(p, level, score, t1).(updated_at := t2)
  {
    var q := CompleteRecord(p, level, score, t1);
    SetUnchanged(q.level_scores, level);
  }

  /** `{k: v for k, v in update.dict().items() if v is not None}` applied with $set,
      together with the new update time. */
  function ApplyUpdate(p: GameProgress, u: GameProgressUpdate, now: int): (q: GameProgress)
    ensures u.current_level.Some? ==> q.current_level == u.current_level.value
    ensures u.current_level.None? ==> q.current_level == p.current_level
    ensures u.levels_completed.Some? ==> q.levels_completed == u.levels_completed.value
    ensures u.levels_completed.None? ==> q.levels_completed == p.levels_completed
    ensures u.total_score.Some? ==> q.total_score == u.total_score.value
    ensures u.total_score.None? ==> q.total_score == p.total_score
    ensures u.level_scores.Some? ==> q.level_scores == u.level_scores.value
    ensures u.level_scores.None? ==> q.level_scores == p.level_scores
    ensures u.achievements.Some? ==> q.achievements == u.achievements.value
    ensures u.achievements.None? ==> q.achievements == p.achievements
    ensures q.id == p.id && q.player_name == p.player_name && q.created_at == p.created_at
    ensures q.updated_at == now
  {
    p.(current_level := if u.current_level.Some? then u.current_level.value else p.current_level,
       levels_completed := if u.levels_completed.Some? then u.levels_completed.value else p.levels_completed,
       total_score := if u.total_score.Some? then u.total_score.value else p.total_score,
       level_scores := if u.level_scores.Some? then u.level_scores.value else p.level_scores,
       achievements := if u.achievements.Some? then u.achievements.value else p.achievements,
       updated_at := now)
  }

  /** Whether the `$set` document can be stored. The update's `level_scores` has
      integer keys, and a stored document's keys must be strings (complete_level
      writes `str(level)` keys for that reason), so a non-empty `level_scores`
      makes the write fail before any document is matched. */
  predicate Storable(u: GameProgressUpdate) {
    u.level_scores.None? || u.level_scores.value == []
  }

  /** The two query filters the handlers use. */
  datatype Filter = ById(id: string) | ByName(name: string)

  predicate Matches(doc: GameProgress, f: Filter) {
    match f
    case ById(id) => doc.id == id
    case ByName(name) => doc.player_name == name
  }

  /** The position find_one and update_one pick: the first matching document. */
  function FindFirst(docs: seq<GameProgress>, f: Filter): (r: Option<nat>)
    ensures r.Some? ==> r.value < |docs| && Matches(docs[r.value], f)
    ensures r.Some? ==> forall j :: 0 <= j < r.value ==> !Matches(docs[j], f)
    ensures r.None? ==> forall j :: 0 <= j < |docs| ==> !Matches(docs[j], f)
  {
    if docs == [] then None
    else if Matches(docs[0], f) then Some(0)
    else match FindFirst(docs[1..], f)
      case None => None
      case Some(i) => Some(i + 1)
  }

  predicate NamesUnique(docs: seq<GameProgress>) {
    forall i, j :: 0 <= i < j < |docs| ==> docs[i].player_name != docs[j].player_name
  }

  function CountNamed(docs: seq<GameProgress>, name: string): nat {
    if docs == [] then 0
    else (if docs[0].player_name == name then 1 else 0) + CountNamed(docs[1..], name)
  }

  /** With unique names, a name is held by at most one document. */
  lemma {:induction false} AtMostOneNamed(docs: seq<GameProgress>, name: string)
    requires NamesUnique(docs)
    ensures CountNamed(docs, name) <= 1
    ensures CountNamed(docs, name) == 1 <==> exists i :: 0 <= i < |docs| && docs[i].player_name == name
  {
    if docs != [] {
      AtMostOneNamed(docs[1..], name);
      if docs[0].player_name == name {
        assert forall j :: 0 <= j < |docs[1..]| ==> docs[1..][j].player_name != name by {
          forall j | 0 <= j < |docs[1..]| ensures docs[1..][j].player_name != name {
            assert docs[1..][j] == docs[j + 1];
          }
        }
      } else {
        if exists i :: 0 <= i < |docs| && docs[i].player_name == name {
          var i :| 0 <= i < |docs| && docs[i].player_name == name;
          assert docs[1..][i - 1].player_name == name;
        }
      }
    }
  }

  /** The game_progress collection. */
  class Store {
    var documents: seq<GameProgress>

    ghost predicate Valid()
      reads this
    {
      NamesUnique(documents)
    }

    constructor ()
      ensures Valid() && documents == []
    {
      documents := [];
    }

    /** POST /game/progress: the existing record of that name, or a new one with
        the defaults. */
    method CreateGameProgress(name: string, newId: string, now: int) returns (p: GameProgress)
      requires Valid()
      modifies this
      ensures Valid()
      ensures p.player_name == name
      ensures FindFirst(old(documents), ByName(name)).Some? ==>
        p == old(documents)[FindFirst(old(documents), ByName(name)).value] && documents == old(documents)
      ensures FindFirst(old(documents), ByName(name)).None? ==>
        p == NewProgress(newId, name, now) && documents == old(documents) + [p]
      ensures CountNamed(documents, name) == 1
    {
      var found := FindFirst(documents, ByName(name));
      if found.Some? {
        p := documents[found.value];
      } else {
        p := NewProgress(newId, name, now);
        documents := documents + [p];
      }
      AtMostOneNamed(documents, name);
      assert documents[|documents| - 1].player_name == name || documents[found.value].player_name == name;
    }

    /** GET /game/progress/{player_name}. */
    function GetGameProgress(name: string): (r: Response<GameProgress>)
      reads this
      ensures r.Ok? <==> exists i :: 0 <= i < |documents| && documents[i].player_name == name
      ensures r.Ok? ==> r.value.player_name == name && r.value in documents
      ensures r.HttpError? ==> r.status == 404
    {
      match FindFirst(documents, ByName(name))
      case Some(i) => Ok(documents[i])
      case None => HttpError(404, "Player progress not found")
    }

    /** PUT /game/progress/{player_id}. */
    method UpdateGameProgress(playerId: string, u: GameProgressUpdate, now: int) returns (r: Response<()>)
      requires Valid()
      modifies this
      ensures Valid()
      ensures !Storable(u) ==> r == HttpError(500, "Internal Server Error") && documents == old(documents)
      ensures Storable(u) && FindFirst(old(documents), ById(playerId)).None? ==>
        r == HttpError(404, "Player not found") && documents == old(documents)
      ensures Storable(u) && FindFirst(old(documents), ById(playerId)).Some? ==> (r == Ok(()) &&
        var i := FindFirst(old(documents), ById(playerId)).value;
        documents == old(documents)[i := ApplyUpdate(old(documents)[i], u, now)])
    {
      if !Storable(u) {
        return HttpError(500, "Internal Server Error");
      }
      var found := FindFirst(documents, ById(playerId));
      if found.None? {
        return HttpError(404, "Player not found");
      }
      var i := found.value;
      documents := documents[i := ApplyUpdate(documents[i], u, now)];
      r := Ok(());
      assert forall j :: 0 <= j < |documents| ==> documents[j].player_name == old(documents)[j].player_name;
    }

    /** POST /game/complete-level: 404 for an unknown id, otherwise the merged record
        is written back and the new total returned. */
    method CompleteLevel(c: LevelCompletion, now: int) returns (r: Response<int>)
      requires Valid()
      modifies this
      ensures Valid()
      ensures FindFirst(old(documents), ById(c.player_id)).None? ==>
        r == HttpError(404, "Player not found") && documents == old(documents)
      ensures FindFirst(old(documents), ById(c.player_id)).Some? ==> (
        var i := FindFirst(old(documents), ById(c.player_id)).value;
        var q := CompleteRecord(old(documents)[i], c.level_number, c.score, now);
        documents == old(documents)[i := q] && r == Ok(q.total_score))
    {
      var found := FindFirst(documents, ById(c.player_id));
      if found.None? {
        return HttpError(404, "Player not found");
      }
      var i := found.value;
      var q := CompleteRecord(documents[i], c.level_number, c.score, now);
      documents := documents[i := q];
      r := Ok(q.total_score);
      assert forall j :: 0 <= j < |documents| ==> documents[j].player_name == old(documents)[j].player_name;
    }
  }
}
