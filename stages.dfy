/** The evolution stages of a body and the rule that advances them
    (`Planet.update_stage`). There are five stages, ranked
    PLANET < BROWN_DWARF < STAR < GIANT < BLACK_HOLE; a body moves up to
    the stage its mass implies and never moves down. */
module Stages {
  datatype Stage = Planet | BrownDwarf | Star | Giant | BlackHole

  /** An RGB display colour. */
  datatype Rgb = Rgb(r: int, g: int, b: int)

  // Mass thresholds of the stages.
  const BROWN_DWARF_MASS: real := 80000.0
  const STAR_MASS: real := 200000.0
  const GIANT_STAR_MASS: real := 800000.0
  const BLACK_HOLE_MASS: real := 2000000.0

  function Rank(s: Stage): nat {
    match s
    case Planet => 0
    case BrownDwarf => 1
    case Star => 2
    case Giant => 3
    case BlackHole => 4
  }

  /** The stage a mass implies on its own. */
  function StageFor(mass: real): (s: Stage)
    ensures s == BlackHole <==> mass >= BLACK_HOLE_MASS
    ensures s == Giant <==> GIANT_STAR_MASS <= mass < BLACK_HOLE_MASS
    ensures s == Star <==> STAR_MASS <= mass < GIANT_STAR_MASS
    ensures s == BrownDwarf <==> BROWN_DWARF_MASS <= mass < STAR_MASS
    ensures s == Planet <==> mass < BROWN_DWARF_MASS
  {
    if mass >= BLACK_HOLE_MASS then BlackHole
    else if mass >= GIANT_STAR_MASS then Giant
    else if mass >= STAR_MASS then Star
    else if mass >= BROWN_DWARF_MASS then BrownDwarf
    else Planet
  }

  /** The higher-ranked of two stages. */
  function Higher(a: Stage, b: Stage): Stage {
    if Rank(a) >= Rank(b) then a else b
  }

  /** The fixed colour a body takes on when it enters a stage other than PLANET. */
  function StageColor(s: Stage): (c: Rgb)
    requires s != Planet
    ensures 0 <= c.r <= 255 && 0 <= c.g <= 255 && 0 <= c.b <= 255
    ensures c == Rgb(0, 0, 0) <==> s == BlackHole
  {
    match s
    case BrownDwarf => Rgb(139, 69, 19)
    case Star => Rgb(255, 255, 200)
    case Giant => Rgb(255, 140, 0)
    case BlackHole => Rgb(0, 0, 0)
  }

  /** Each stage after PLANET has its own colour. */
  lemma StageColorIdentifiesStage(a: Stage, b: Stage)
    requires a != Planet && b != Planet
    ensures StageColor(a) == StageColor(b) <==> a == b
  {
  }

  /** `update_stage`: the if/elif chain on (stage, mass), returning the new
      stage and colour. It amounts to taking the higher of the current stage
      and the stage the mass implies; the colour changes exactly when the
      stage does, and then to that stage's fixed colour. */
  function UpdateStage(stage: Stage, color: Rgb, mass: real): (r: (Stage, Rgb))
    ensures r.0 == Higher(stage, StageFor(mass))
    ensures r.0 == stage ==> r.1 == color
    ensures r.0 != stage ==> r.0 != Planet && r.1 == StageColor(r.0)
  {
    if mass >= BLACK_HOLE_MASS && stage != BlackHole then (BlackHole, Rgb(0, 0, 0))
    else if mass >= GIANT_STAR_MASS && stage !in [Giant, BlackHole] then (Giant, Rgb(255, 140, 0))
    else if mass >= STAR_MASS && stage !in [Star, Giant, BlackHole] then (Star, Rgb(255, 255, 200))
    else if mass >= BROWN_DWARF_MASS && stage == Planet then (BrownDwarf, Rgb(139, 69, 19))
    else (stage, color)
  }

  /** The stage never goes down, whatever the mass, so lowering a body's mass
      leaves its stage where it was. */
  lemma StageNeverDecreases(stage: Stage, color: Rgb, mass: real)
    ensures Rank(UpdateStage(stage, color, mass).0) >= Rank(stage)
    ensures mass < BROWN_DWARF_MASS ==> UpdateStage(stage, color, mass) == (stage, color)
  {
  }

  /** More mass never gives a lower stage. */
  lemma StageMonotoneInMass(stage: Stage, color: Rgb, m1: real, m2: real)
    requires m1 <= m2
    ensures Rank(UpdateStage(stage, color, m1).0) <= Rank(UpdateStage(stage, color, m2).0)
  {
  }

  /** Applying the rule twice is the same as applying it once. */
  lemma UpdateStageIdempotent(stage: Stage, color: Rgb, mass: real)
    ensures var (s1, c1) := UpdateStage(stage, color, mass);
            UpdateStage(s1, c1, mass) == (s1, c1)
  {
  }

  /** BLACK_HOLE is terminal: nothing changes once a body has reached it. */
  lemma BlackHoleIsTerminal(color: Rgb, mass: real)
    ensures UpdateStage(BlackHole, color, mass) == (BlackHole, color)
  {
  }

  /** A PLANET below the brown-dwarf threshold keeps the colour it was given. */
  lemma PlanetKeepsItsColor(color: Rgb, mass: real)
    requires mass < BROWN_DWARF_MASS
    ensures UpdateStage(Planet, color, mass) == (Planet, color)
  {
  }
}
