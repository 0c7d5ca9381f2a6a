/** Level 2, "Guardián de la Muña": a grid of 24 patches, a fertilizer budget of 10,
    and planting only on fertilized ground. The completion test asks for 12 planted
    patches, more than the budget can ever fertilize. */
module Level2 {
  import opened Common

  datatype Patch = Patch(fertilized: bool, planted: bool)

  datatype Tool = NoTool | Fertilizer | Plant

  const PatchCount := 24
  const StartingFertilizer := 10
  const PlantingGoal := 12
  const EmptyPatch := Patch(false, false)

  function CountFertilized(s: seq<Patch>): (n: nat)
    ensures n <= |s|
  {
    if s == [] then 0 else (if s[0].fertilized then 1 else 0) + CountFertilized(s[1..])
  }

  function CountPlanted(s: seq<Patch>): (n: nat)
    ensures n <= |s|
  {
    if s == [] then 0 else (if s[0].planted then 1 else 0) + CountPlanted(s[1..])
  }

  predicate PlantedAreFertilized(s: seq<Patch>) {
    forall i :: 0 <= i < |s| ==> s[i].planted ==> s[i].fertilized
  }

  /** Replacing one patch changes each count by that patch's own difference. */
  lemma {:induction false} CountsAfterUpdate(s: seq<Patch>, i: nat, p: Patch)
    requires i < |s|
    ensures CountFertilized(s[i := p]) ==
      CountFertilized(s) - (if s[i].fertilized then 1 else 0) + (if p.fertilized then 1 else 0)
    ensures CountPlanted(s[i := p]) ==
      CountPlanted(s) - (if s[i].planted then 1 else 0) + (if p.planted then 1 else 0)
  {
    if i > 0 {
      CountsAfterUpdate(s[1..], i - 1, p);
      assert s[i := p][1..] == s[1..][i - 1 := p];
    }
  }

  /** Every planted patch is fertilized, so there are never more planted patches
      than fertilized ones. */
  lemma {:induction false} PlantedAtMostFertilized(s: seq<Patch>)
    requires PlantedAreFertilized(s)
    ensures CountPlanted(s) <= CountFertilized(s)
  {
    if s != [] {
      PlantedAtMostFertilized(s[1..]);
    }
  }

  /** The grid invariant: the counters are the counts of flagged patches, the
      fertilizer spent plus the fertilizer left is the starting budget. */
  ghost predicate GridInvariant(s: seq<Patch>, fertilized: int, planted: int, fertilizer: int) {
    && |s| == PatchCount
    && fertilized == CountFertilized(s)
    && planted == CountPlanted(s)
    && fertilized + fertilizer == StartingFertilizer
    && fertilizer >= 0
    && PlantedAreFertilized(s)
  }

  /** Under the invariant no more than 10 patches are ever planted, so even one more
      planting cannot reach the goal of 12. */
  lemma GoalUnreachable(s: seq<Patch>, fertilized: int, planted: int, fertilizer: int)
    requires GridInvariant(s, fertilized, planted, fertilizer)
    ensures planted <= fertilized <= StartingFertilizer
    ensures planted + 1 < PlantingGoal
  {
    PlantedAtMostFertilized(s);
  }

  /** The efficiency score: planted patches per unit of fertilizer spent, as a
      rounded percentage. */
  function Efficiency(planted: int, fertilizer: int): (r: int)
    ensures 2 * Max(1, StartingFertilizer - fertilizer) * r
      <= 200 * planted + Max(1, StartingFertilizer - fertilizer)
      < 2 * Max(1, StartingFertilizer - fertilizer) * (r + 1)
  {
    Percent(planted, Max(1, StartingFertilizer - fertilizer))
  }

  /** Planting no more than was fertilized scores at most 100. */
  lemma EfficiencyAtMost100(planted: int, fertilizer: int)
    requires 0 <= fertilizer <= StartingFertilizer
    requires 0 <= planted <= StartingFertilizer - fertilizer
    ensures 0 <= Efficiency(planted, fertilizer) <= 100
  {
    PercentBounds(planted, Max(1, StartingFertilizer - fertilizer));
  }

  lemma {:induction false} EmptyGrid(s: seq<Patch>)
    requires forall i :: 0 <= i < |s| ==> s[i] == EmptyPatch
    ensures CountFertilized(s) == 0 && CountPlanted(s) == 0
  {
    if s != [] {
      EmptyGrid(s[1..]);
    }
  }

  /** The fertilize branch of a click: the tool is the fertilizer, the patch is
      bare and some fertilizer is left. It never overlaps the planting branch. */
  predicate CanFertilize(tool: Tool, p: Patch, fertilizer: int): (b: bool)
    ensures b ==> !CanPlant(tool, p) && fertilizer >= 1
  {
    tool == Fertilizer && !p.fertilized && fertilizer > 0
  }

  /** The planting branch of a click: only a fertilized, unplanted patch takes a muña. */
  predicate CanPlant(tool: Tool, p: Patch) {
    tool == Plant && p.fertilized && !p.planted
  }

  /** Fertilizing where the fertilize branch allows it keeps the grid invariant:
      one more fertilized patch, one unit of fertilizer less. */
  lemma FertilizingKeepsGrid(s: seq<Patch>, fertilized: int, planted: int, fertilizer: int,
                             i: nat, tool: Tool)
    requires GridInvariant(s, fertilized, planted, fertilizer)
    requires i < |s| && CanFertilize(tool, s[i], fertilizer)
    ensures GridInvariant(s[i := s[i].(fertilized := true)], fertilized + 1, planted, fertilizer - 1)
  {
    CountsAfterUpdate(s, i, s[i].(fertilized := true));
  }

  /** Planting where the planting branch allows it keeps the grid invariant: one
      more planted patch, on fertilized ground, and the budget untouched. */
  lemma PlantingKeepsGrid(s: seq<Patch>, fertilized: int, planted: int, fertilizer: int,
                          i: nat, tool: Tool)
    requires GridInvariant(s, fertilized, planted, fertilizer)
    requires i < |s| && CanPlant(tool, s[i])
    ensures GridInvariant(s[i := s[i].(planted := true)], fertilized, planted + 1, fertilizer)
  {
    CountsAfterUpdate(s, i, s[i].(planted := true));
  }

  class Level2 {
    var patches: array<Patch>
    var fertilizedPatches: int
    var plantedPatches: int
    var fertilizerCount: int
    var selectedTool: Tool
    var gameCompleted: bool

    ghost predicate Valid()
      reads this, patches
    {
      GridInvariant(patches[..], fertilizedPatches, plantedPatches, fertilizerCount) && !gameCompleted
    }

    constructor ()
      ensures Valid() && fresh(patches)
      ensures patches[..] == seq(PatchCount, _ => EmptyPatch)
      ensures fertilizedPatches == 0 && plantedPatches == 0 && fertilizerCount == StartingFertilizer
      ensures selectedTool == NoTool
    {
      patches := new Patch[PatchCount](_ => EmptyPatch);
      fertilizedPatches, plantedPatches, fertilizerCount := 0, 0, StartingFertilizer;
      selectedTool, gameCompleted := NoTool, false;
      new;
      EmptyGrid(patches[..]);
    }

    method SelectTool(tool: Tool)
      requires Valid()
      modifies this
      ensures Valid() && selectedTool == tool
      ensures patches == old(patches) && fertilizedPatches == old(fertilizedPatches)
      ensures plantedPatches == old(plantedPatches) && fertilizerCount == old(fertilizerCount)
    {
      selectedTool := tool;
    }

    /** A click on patch `index`: fertilize it, plant on it, or (when the click's
        conditions fail) only warn. No click can complete the level. */
    method HandlePatchClick(index: nat) returns (event: Option<Completion>)
      requires Valid() && index < patches.Length
      modifies this, patches
      ensures Valid() && patches == old(patches) && selectedTool == old(selectedTool)
      ensures event == None
      ensures CanFertilize(old(selectedTool), old(patches[index]), old(fertilizerCount)) ==>
        && patches[..] == old(patches[..])[index := old(patches[index]).(fertilized := true)]
        && fertilizedPatches == old(fertilizedPatches) + 1
        && fertilizerCount == old(fertilizerCount) - 1
        && plantedPatches == old(plantedPatches)
      ensures CanPlant(old(selectedTool), old(patches[index])) ==>
        && patches[..] == old(patches[..])[index := old(patches[index]).(planted := true)]
        && plantedPatches == old(plantedPatches) + 1
        && fertilizedPatches == old(fertilizedPatches)
        && fertilizerCount == old(fertilizerCount)
      ensures (!CanFertilize(old(selectedTool), old(patches[index]), old(fertilizerCount))
           && !CanPlant(old(selectedTool), old(patches[index]))) ==>
        && patches[..] == old(patches[..])
        && fertilizedPatches == old(fertilizedPatches)
        && plantedPatches == old(plantedPatches)
        && fertilizerCount == old(fertilizerCount)
    {
      var patch := patches[index];
      event := None;
      if CanFertilize(selectedTool, patch, fertilizerCount) {
        FertilizePatch(index);
      } else if CanPlant(selectedTool, patch) {
        event := PlantMuna(index);
      }
    }

    method FertilizePatch(index: nat)
      requires Valid() && index < patches.Length
      requires CanFertilize(selectedTool, patches[index], fertilizerCount)
      modifies this, patches
      ensures Valid() && patches == old(patches) && selectedTool == old(selectedTool)
      ensures patches[..] == old(patches[..])[index := old(patches[index]).(fertilized := true)]
      ensures fertilizedPatches == old(fertilizedPatches) + 1
      ensures fertilizerCount == old(fertilizerCount) - 1
      ensures plantedPatches == old(plantedPatches)
    {
      FertilizingKeepsGrid(patches[..], fertilizedPatches, plantedPatches, fertilizerCount, index, selectedTool);
      patches[index] := patches[index].(fertilized := true);
      fertilizedPatches := fertilizedPatches + 1;
      fertilizerCount := fertilizerCount - 1;
    }

    /** Plants muña; the completion test `planted >= 12` is evaluated as written,
        and under the invariant it never passes. */
    method PlantMuna(index: nat) returns (event: Option<Completion>)
      requires Valid() && index < patches.Length
      requires CanPlant(selectedTool, patches[index])
      modifies this, patches
      ensures Valid() && patches == old(patches) && selectedTool == old(selectedTool)
      ensures patches[..] == old(patches[..])[index := old(patches[index]).(planted := true)]
      ensures plantedPatches == old(plantedPatches) + 1
      ensures fertilizedPatches == old(fertilizedPatches) && fertilizerCount == old(fertilizerCount)
      ensures event == None
    {
      PlantingKeepsGrid(patches[..], fertilizedPatches, plantedPatches, fertilizerCount, index, selectedTool);
      GoalUnreachable(patches[..], fertilizedPatches, plantedPatches, fertilizerCount);
      patches[index] := patches[index].(planted := true);
      var newPlantedCount := plantedPatches + 1;
      var completed := newPlantedCount >= PlantingGoal;
      event := None;
      if completed {
        event := Some(Completion(2, Efficiency(newPlantedCount, fertilizerCount)));
      }
      plantedPatches := newPlantedCount;
      gameCompleted := completed;
    }

    method ResetGame()
      modifies this
      ensures Valid() && fresh(patches)
      ensures patches[..] == seq(PatchCount, _ => EmptyPatch)
      ensures fertilizedPatches == 0 && plantedPatches == 0 && fertilizerCount == StartingFertilizer
      ensures selectedTool == NoTool
    {
      patches := new Patch[PatchCount](_ => EmptyPatch);
      fertilizedPatches, plantedPatches, fertilizerCount := 0, 0, StartingFertilizer;
      selectedTool, gameCompleted := NoTool, false;
      EmptyGrid(patches[..]);
    }
  }
}
