/** Level 1, "Guardianes de la Quebrada": click the three contaminants away; the
    ecosystem's health is the rounded share cleaned. */
module Level1 {
  import opened Common

  datatype Screen = Start | Game | Victory

  const Contaminants := 3
  const LevelScore := 100

  /** The health shown after `cleaned` of `total` contaminants are gone: the rounded
      percentage, capped at 100. */
  function Health(cleaned: nat, total: nat): (h: int)
    requires total > 0
    ensures 0 <= h <= 100
    ensures cleaned >= total ==> h == 100
    ensures cleaned <= total ==> 2 * total * h <= 200 * cleaned + total < 2 * total * (h + 1)
  {
    PercentBounds(cleaned, total);
    assert cleaned >= total ==> Percent(cleaned, total) >= 100 by {
      if cleaned >= total {
        PercentBounds(total, total);
        PercentMonotone(total, cleaned, total);
      }
    }
    Min(100, Percent(cleaned, total))
  }

  /** Cleaning more never lowers the health. */
  lemma HealthMonotone(c1: nat, c2: nat, total: nat)
    requires total > 0 && c1 <= c2
    ensures Health(c1, total) <= Health(c2, total)
  {
    PercentMonotone(c1, c2, total);
  }

  /** The three clicks of a game show 33, 67 and 100. */
  lemma HealthOfThree()
    ensures Health(0, 3) == 0 && Health(1, 3) == 33 && Health(2, 3) == 67 && Health(3, 3) == 100
  {
  }

  class Level1 {
    var health: int
    var cleaned: nat
    var total: nat
    var isPlaying: bool
    var screen: Screen

    ghost predicate Valid()
      reads this
    {
      total == Contaminants && health == Health(cleaned, total)
    }

    constructor ()
      ensures Valid()
      ensures health == 0 && cleaned == 0 && total == Contaminants && !isPlaying && screen == Start
    {
      health, cleaned, total, isPlaying, screen := 0, 0, Contaminants, false, Start;
    }

    method StartGame()
      requires Valid()
      modifies this
      ensures Valid()
      ensures isPlaying && screen == Game
      ensures health == old(health) && cleaned == old(cleaned) && total == old(total)
    {
      screen := Game;
      isPlaying := true;
    }

    /** A click on a contaminant: ignored unless playing; otherwise one more is
        cleaned, and reaching the total shows the victory screen and emits the
        completion with the fixed score. */
    method RemoveContaminant() returns (event: Option<Completion>)
      requires Valid()
      modifies this
      ensures Valid()
      ensures !old(isPlaying) ==> (event == None
        && health == old(health) && cleaned == old(cleaned) && isPlaying == old(isPlaying)
        && screen == old(screen))
      ensures old(isPlaying) ==> cleaned == old(cleaned) + 1 && isPlaying
      ensures event.Some? <==> old(isPlaying) && cleaned >= total
      ensures event.Some? ==> event.value == Completion(1, LevelScore) && screen == Victory
      ensures event.None? ==> screen == old(screen)
    {
      if !isPlaying {
        return None;
      }
      cleaned := cleaned + 1;
      health := Health(cleaned, total);
      if cleaned >= total {
        screen := Victory;
        event := Some(Completion(1, LevelScore));
      } else {
        event := None;
      }
    }

    method ResetGame()
      modifies this
      ensures Valid()
      ensures health == 0 && cleaned == 0 && total == Contaminants && !isPlaying && screen == Start
    {
      health, cleaned, total, isPlaying, screen := 0, 0, Contaminants, false, Start;
    }
  }
}
