/** Level 4, "Cultivador de Kculli": a week of caring for purple corn. Watering and
    fertilizing have cooldowns that punish impatience, each day decays the meters
    and may bring a scripted event, and a healthy plant on day 7 opens a ten-second
    harvest whose clicks add to the final score. */
module Level4 {
  import opened Common

  datatype GameState = GameState(
    water: int,
    sun: int,
    nutrients: int,
    health: int,
    day: int,
    lastWatered: int,
    lastFertilized: int,
    gameOver: bool,
    harvestScore: int,
    showHarvestGame: bool,
    gameCompleted: bool)

  datatype HarvestState = HarvestState(timeLeft: int, score: int, isActive: bool)

  const Initial := GameState(50, 80, 60, 70, 1, 0, 0, false, 0, false, false)
  const HarvestIdle := HarvestState(10, 0, false)
  const HarvestStart := HarvestState(10, 0, true)

  const WaterCooldown := 2
  const FertilizeCooldown := 3
  const HarvestDay := 7
  const HarvestHealth := 90
  const CobCount := 12

  /** The meters the game keeps in range: water and nutrients in [0,100], sun in
      [60,80], and the cooldown stamps never ahead of the day. */
  predicate Bounded(s: GameState) {
    && 0 <= s.water <= 100
    && 60 <= s.sun <= 80
    && 0 <= s.nutrients <= 100
    && s.lastWatered <= s.day
    && s.lastFertilized <= s.day
  }

  /** Watering: ignored once the game is over; within two days of the last
      watering it only costs 5 health; otherwise it adds 30 water (capped at 100),
      stamps the day and adds 5 health. */
  function WaterPlant(s: GameState): (r: GameState)
    ensures s.gameOver ==> r == s
    ensures !s.gameOver && s.day - s.lastWatered < WaterCooldown ==> r == s.(health := s.health - 5)
    ensures !s.gameOver && s.day - s.lastWatered >= WaterCooldown ==>
      (r == s.(water := r.water, lastWatered := s.day, health := s.health + 5)
       && r.water == Min(100, s.water + 30))
    ensures Bounded(s) ==> Bounded(r)
  {
    if s.gameOver then s
    else if s.day - s.lastWatered < WaterCooldown then s.(health := s.health - 5)
    else s.(water := Min(100, s.water + 30), lastWatered := s.day, health := s.health + 5)
  }

  /** Fertilizing: ignored once the game is over; within three days of the last
      fertilizing it only costs 10 health; otherwise it adds 40 nutrients (capped at
      100), stamps the day and adds 10 health. */
  function FertilizePlant(s: GameState): (r: GameState)
    ensures s.gameOver ==> r == s
    ensures !s.gameOver && s.day - s.lastFertilized < FertilizeCooldown ==> r == s.(health := s.health - 10)
    ensures !s.gameOver && s.day - s.lastFertilized >= FertilizeCooldown ==>
      (r == s.(nutrients := r.nutrients, lastFertilized := s.day, health := s.health + 10)
       && r.nutrients == Min(100, s.nutrients + 40))
    ensures Bounded(s) ==> Bounded(r)
  {
    if s.gameOver then s
    else if s.day - s.lastFertilized < FertilizeCooldown then s.(health := s.health - 10)
    else s.(nutrients := Min(100, s.nutrients + 40), lastFertilized := s.day, health := s.health + 10)
  }

  /** A second watering on the same day always takes the penalty, whatever the first
      one did. */
  lemma SecondWateringPenalized(s: GameState)
    requires !s.gameOver && s.lastWatered <= s.day
    ensures WaterPlant(WaterPlant(s)).health == WaterPlant(s).health - 5
    ensures WaterPlant(WaterPlant(s)).water == WaterPlant(s).water
  {
  }

  /** The same holds of fertilizing. */
  lemma SecondFertilizingPenalized(s: GameState)
    requires !s.gameOver && s.lastFertilized <= s.day
    ensures FertilizePlant(FertilizePlant(s)).health == FertilizePlant(s).health - 10
    ensures FertilizePlant(FertilizePlant(s)).nutrients == FertilizePlant(s).nutrients
  {
  }

  /** Watering `k` times in a row. */
  function WaterTimes(s: GameState, k: nat): GameState
  {
    if k == 0 then s else WaterPlant(WaterTimes(s, k - 1))
  }

  /** Health is never clamped and watering never ends the game: on the first day
      every watering costs 5 health, so fifteen of them leave the plant at -5 with
      the game still running. */
  lemma {:induction false} RepeatedWateringUnclamped(k: nat)
    ensures WaterTimes(Initial, k) == Initial.(health := 70 - 5 * k)
  {
    if k > 0 {
      RepeatedWateringUnclamped(k - 1);
    }
  }

  lemma HealthGoesNegative()
    ensures WaterTimes(Initial, 15).health == -5 && !WaterTimes(Initial, 15).gameOver
  {
    RepeatedWateringUnclamped(15);
  }

  /** The day's health penalties: -10 when water is below 20, -15 when sun is below
      60, -5 when nutrients are below 20. */
  function DailyPenalty(water: int, sun: int, nutrients: int): (d: int)
    ensures -30 <= d <= 0
    ensures d == 0 <==> water >= 20 && sun >= 60 && nutrients >= 20
    ensures sun >= 60 ==> d == (if water < 20 then -10 else 0) + (if nutrients < 20 then -5 else 0)
  {
    (if water < 20 then -10 else 0) + (if sun < 60 then -15 else 0) + (if nutrients < 20 then -5 else 0)
  }

  /** The turn of the day: the day advances, water loses 15 and nutrients 10 (both
      floored at 0), sun loses 5 but never drops below 60, and health takes the
      penalties of the new meters. */
  function Decay(s: GameState): (r: GameState)
    ensures r.day == s.day + 1
    ensures r.water == Max(0, s.water - 15) && r.nutrients == Max(0, s.nutrients - 10)
    ensures r.sun == Max(60, s.sun - 5)
    ensures r.health == s.health + DailyPenalty(r.water, r.sun, r.nutrients)
    ensures r.(water := s.water, sun := s.sun, nutrients := s.nutrients, health := s.health, day := s.day) == s
    ensures Bounded(s) ==> Bounded(r)
  {
    var d := s.(day := s.day + 1, water := Max(0, s.water - 15), nutrients := Max(0, s.nutrients - 10),
                sun := Max(60, s.sun - 5));
    d.(health := d.health + DailyPenalty(d.water, d.sun, d.nutrients))
  }

  /** Sun never falls below 60, so its penalty never applies: the daily loss is at
      most 15. */
  lemma SunPenaltyUnreachable(s: GameState)
    ensures Decay(s).sun >= 60
    ensures Decay(s).health >= s.health - 15
  {
  }

  datatype EventKind = Rain | Plague | Heat

  /** The scripted event of a day: rain on day 3, plague on day 4, heat on day 6,
      nothing on any other day. */
  function EventOn(day: int): (e: Option<EventKind>)
    ensures e == Some(Rain) <==> day == 3
    ensures e == Some(Plague) <==> day == 4
    ensures e == Some(Heat) <==> day == 6
    ensures e == None <==> day != 3 && day != 4 && day != 6
  {
    if day == 3 then Some(Rain)
    else if day == 4 then Some(Plague)
    else if day == 6 then Some(Heat)
    else None
  }

  /** An event's effect: rain adds 20 water (capped) and counts as a watering, the
      plague costs 15 health only when nutrients are below 40, the heat takes 15
      water (floored at 0). */
  function ApplyEvent(s: GameState, e: Option<EventKind>): (r: GameState)
    ensures e == None ==> r == s
    ensures e == Some(Rain) ==> r == s.(water := Min(100, s.water + 20), lastWatered := s.day)
    ensures e == Some(Plague) ==> r == s.(health := if s.nutrients < 40 then s.health - 15 else s.health)
    ensures e == Some(Heat) ==> r == s.(water := Max(0, s.water - 15))
    ensures Bounded(s) ==> Bounded(r)
  {
    match e
    case None => s
    case Some(Rain) => s.(water := Min(100, s.water + 20), lastWatered := s.day)
    case Some(Plague) => s.(health := if s.nutrients < 40 then s.health - 15 else s.health)
    case Some(Heat) => s.(water := Max(0, s.water - 15))
  }

  datatype Verdict = Continue | Harvest | Defeat

  /** The end-of-day decision, taken on the decayed record before the day's event:
      from day 7 on a health of 90 or more opens the harvest and anything less is
      defeat; a health of 0 or less is defeat on any day. */
  function Judge(s: GameState): (v: Verdict)
    ensures v == Harvest <==> s.day >= HarvestDay && s.health >= HarvestHealth
    ensures v == Defeat <==> (s.day >= HarvestDay && s.health < HarvestHealth) || s.health <= 0
  {
    if s.day >= HarvestDay && s.health >= HarvestHealth then Harvest
    else if s.day >= HarvestDay || s.health <= 0 then Defeat
    else Continue
  }

  /** Ending the game: over, with the harvest score and the outcome recorded. */
  function EndGame(s: GameState, success: bool, harvestScore: int): (r: GameState)
    ensures r.gameOver && r.gameCompleted == success && r.harvestScore == harvestScore
    ensures r.(gameOver := s.gameOver, gameCompleted := s.gameCompleted, harvestScore := s.harvestScore) == s
  {
    s.(gameOver := true, harvestScore := harvestScore, gameCompleted := success)
  }

  datatype DayResult = DayResult(state: GameState, verdict: Verdict)

  /** "Siguiente día" (ignored once the game is over): the decay, the day's event,
      and the decision taken on the decayed health; defeat ends the game and the
      harvest shows the harvest board. */
  function NextDay(s: GameState): (r: DayResult)
    ensures s.gameOver ==> r == DayResult(s, Continue)
    ensures !s.gameOver ==> r.verdict == Judge(Decay(s)) && r.state.day == s.day + 1
    ensures !s.gameOver ==> var e := ApplyEvent(Decay(s), EventOn(s.day + 1));
      && r.state.health == e.health && r.state.water == e.water && r.state.nutrients == e.nutrients
      && r.state.sun == e.sun && r.state.lastWatered == e.lastWatered
      && r.state.lastFertilized == e.lastFertilized
    ensures r.state.gameOver <==> s.gameOver || r.verdict == Defeat
    ensures r.verdict == Defeat ==> !r.state.gameCompleted && r.state.harvestScore == 0
    ensures r.verdict == Harvest ==> r.state.showHarvestGame
    ensures !s.gameOver && r.verdict != Defeat ==>
      r.state.gameCompleted == s.gameCompleted && r.state.harvestScore == s.harvestScore
    ensures r.verdict != Harvest ==> r.state.showHarvestGame == s.showHarvestGame
    ensures Bounded(s) ==> Bounded(r.state)
  {
    if s.gameOver then DayResult(s, Continue)
    else
      var d := Decay(s);
      var e := ApplyEvent(d, EventOn(d.day));
      var v := Judge(d);
      var r := match v
        case Continue => e
        case Harvest => e.(showHarvestGame := true)
        case Defeat => EndGame(e, false, 0);
      DayResult(r, v)
  }

  /** A day's death check looks at the health before the day's event, so the plague
      can push health below zero without ending the game that day. */
  lemma PlagueDeathDeferred()
    ensures var s := Initial.(health := 10, day := 3, nutrients := 30, water := 60, lastWatered := 3);
      var r := NextDay(s);
      r.state.health < 0 && !r.state.gameOver && r.verdict == Continue
  {
  }

  /** A harvest click on cob `i`: the large cobs (every fourth) are worth 10, the
      others 5. */
  function CornPoints(i: int): (p: int)
    ensures p == 10 <==> i % 4 == 0
    ensures p == 5 <==> i % 4 != 0
  {
    if i % 4 == 0 then 10 else 5
  }

  function SumPoints(n: nat): (t: int)
    ensures t >= 5 * n
  {
    if n == 0 then 0 else SumPoints(n - 1) + CornPoints(n - 1)
  }

  /** Clicking each of the twelve cobs once collects 75 points: three large cobs and
      nine small ones. */
  lemma BoardWorth75()
    ensures SumPoints(CobCount) == 75
  {
  }

  /** A clock tick of the harvest: one second less, or, at zero, the harvest stops
      and reports its score. */
  function HarvestTick(h: HarvestState): (r: HarvestState)
    ensures r.score == h.score
    ensures h.timeLeft - 1 <= 0 ==> r == HarvestState(0, h.score, false)
    ensures h.timeLeft - 1 > 0 ==> r == h.(timeLeft := h.timeLeft - 1)
  {
    if h.timeLeft - 1 <= 0 then h.(timeLeft := 0, isActive := false)
    else h.(timeLeft := h.timeLeft - 1)
  }

  function Ticks(h: HarvestState, n: nat): HarvestState
  {
    if n == 0 then h else HarvestTick(Ticks(h, n - 1))
  }

  /** A fresh harvest runs nine ticks and stops on the tenth, keeping its score. */
  lemma {:induction false} HarvestLastsTenTicks(h: HarvestState, n: nat)
    requires h.isActive && h.timeLeft == 10
    requires n < 10
    ensures Ticks(h, n) == h.(timeLeft := 10 - n)
    ensures Ticks(h, n + 1) == (if n == 9 then HarvestState(0, h.score, false) else h.(timeLeft := 9 - n))
  {
    if n > 0 {
      HarvestLastsTenTicks(h, n - 1);
    }
  }

  /** The final score of a successful game: the average of health and harvest
      score, rounded to the nearest integer with halves rounded up. */
  function FinalScore(health: int, harvestScore: int): (r: int)
    ensures health + harvestScore == 2 * r || health + harvestScore == 2 * r - 1
  {
    RoundDiv(health + harvestScore, 2)
  }

  lemma FinalScoreBounds(health: int, harvestScore: int)
    requires HarvestHealth <= health && 0 <= harvestScore
    ensures FinalScore(health, harvestScore) >= 45
    ensures health <= 100 && harvestScore <= 100 ==> FinalScore(health, harvestScore) <= 100
  {
  }

  class Level4 {
    var game: GameState
    var harvest: HarvestState

    ghost predicate Valid()
      reads this
    {
      Bounded(game) && (harvest.isActive ==> 0 < harvest.timeLeft <= 10) && harvest.score >= 0
    }

    constructor ()
      ensures Valid() && game == Initial && harvest == HarvestIdle
    {
      game, harvest := Initial, HarvestIdle;
    }

    method Water()
      requires Valid()
      modifies this
      ensures Valid() && game == WaterPlant(old(game)) && harvest == old(harvest)
    {
      game := WaterPlant(game);
    }

    method Fertilize()
      requires Valid()
      modifies this
      ensures Valid() && game == FertilizePlant(old(game)) && harvest == old(harvest)
    {
      game := FertilizePlant(game);
    }

    /** The day's turn; opening the harvest starts a fresh ten-second clock. */
    method AdvanceDay()
      requires Valid()
      modifies this
      ensures Valid() && game == NextDay(old(game)).state
      ensures harvest == if NextDay(old(game)).verdict == Harvest then HarvestStart else old(harvest)
    {
      var r := NextDay(game);
      game := r.state;
      if r.verdict == Harvest {
        harvest := HarvestStart;
      }
    }

    /** A click on cob `i` of the twelve: counts only while the harvest runs. */
    method HarvestCorn(i: nat)
      requires Valid() && i < CobCount
      modifies this
      ensures Valid() && game == old(game)
      ensures old(harvest.isActive) ==> harvest == old(harvest).(score := old(harvest.score) + CornPoints(i))
      ensures !old(harvest.isActive) ==> harvest == old(harvest)
    {
      if !harvest.isActive {
        return;
      }
      harvest := harvest.(score := harvest.score + CornPoints(i));
    }

    /** One second of the harvest clock; the last one ends the game in success and
        reports the final score. */
    method Tick() returns (event: Option<Completion>)
      requires Valid() && harvest.isActive
      modifies this
      ensures Valid() && harvest == HarvestTick(old(harvest))
      ensures harvest.isActive ==> game == old(game) && event == None
      ensures !harvest.isActive ==>
        (game == EndGame(old(game), true, old(harvest.score))
         && event == Some(Completion(4, FinalScore(old(game.health), old(harvest.score)))))
    {
      harvest := HarvestTick(harvest);
      event := None;
      if !harvest.isActive {
        event := Finish(true, harvest.score);
      }
    }

    /** Ending the game; a success reports the final score. */
    method Finish(success: bool, harvestScore: int) returns (event: Option<Completion>)
      requires Valid()
      modifies this
      ensures Valid() && game == EndGame(old(game), success, harvestScore) && harvest == old(harvest)
      ensures event.Some? <==> success
      ensures success ==> event == Some(Completion(4, FinalScore(old(game.health), harvestScore)))
    {
      game := EndGame(game, success, harvestScore);
      event := if success then Some(Completion(4, FinalScore(game.health, harvestScore))) else None;
    }

    /** Letting the harvest clock run out with no more clicks: it ticks until it
        stops, and the game ends in success with the score collected so far. */
    method RunOutClock() returns (event: Option<Completion>)
      requires Valid() && harvest.isActive
      modifies this
      ensures Valid() && !harvest.isActive && harvest.score == old(harvest.score)
      ensures game == EndGame(old(game), true, old(harvest.score))
      ensures event == Some(Completion(4, FinalScore(old(game.health), old(harvest.score))))
    {
      event := None;
      while harvest.isActive
        invariant Valid() && harvest.score == old(harvest.score)
        invariant harvest.isActive ==> game == old(game) && event == None
        invariant !harvest.isActive ==>
          (game == EndGame(old(game), true, old(harvest.score))
           && event == Some(Completion(4, FinalScore(old(game.health), old(harvest.score)))))
        decreases harvest.timeLeft, harvest.isActive
      {
        event := Tick();
      }
    }

    method RestartGame()
      modifies this
      ensures Valid() && game == Initial && harvest == HarvestIdle
    {
      game, harvest := Initial, HarvestIdle;
    }
  }
}
