/** The moves of the search algorithms: raising, lowering and switching off one flag
    (flags_util.py, iterative_elimination.py), the rank that lowering reduces, and the finite space
    of flag sets over a list of specifications. */
module FlagNeighbours {
  import opened Sequences
  import opened FlagSets

  /** The values a flag of this specification may have: a random flag may take the end value. */
  predicate Legal(spec: Spec, value: int) {
    match spec
    case Boolean(_) => value == 0
    case Numeric(_, start, end) => start <= value <= end
  }

  ghost predicate WellFormed(f: Flags) {
    forall spec :: spec in f ==> Legal(spec, f[spec])
  }

  /** flags_util.ClimbNext. */
  function ClimbNext(f: Flags, spec: Spec): seq<Flags> {
    if spec !in f then
      [f[spec := if spec.Numeric? then spec.start else 0]]
    else if !spec.Numeric? then
      [f - {spec}]
    else
      var value := f[spec];
      (if value + 1 < spec.end then [f[spec := value + 1]] else [])
      + (if value > spec.start then [f[spec := value - 1]] else [f - {spec}])
  }

  /** iterative_elimination._DecreaseFlag. */
  function Decrease(f: Flags, spec: Spec): Flags
    requires spec in f
  {
    if spec.Numeric? && f[spec] != spec.start then f[spec := f[spec] - 1] else f - {spec}
  }

  // ---------------------------------------------------------------- levels

  /** How far up a flag is turned: 0 when off. */
  function Level(f: Flags, spec: Spec): int {
    if spec !in f then 0 else if spec.Numeric? then f[spec] - spec.start + 1 else 1
  }

  /** f with one flag turned to level n, and every other flag as it was. */
  function AtLevel(f: Flags, spec: Spec, n: int): Flags {
    if n == 0 then f - {spec} else f[spec := if spec.Numeric? then spec.start + n - 1 else 0]
  }

  /** A flag can be raised when it is off, or when the next value stays below the end. */
  predicate CanRaise(f: Flags, spec: Spec) {
    spec !in f || (spec.Numeric? && f[spec] + 1 < spec.end)
  }

  /** The neighbours along a specification are exactly the flag sets one level down, and one level up
      where that is allowed; all other flags stay as they are. */
  lemma ClimbNextLevels(f: Flags, spec: Spec, g: Flags)
    requires WellFormed(f)
    ensures g in ClimbNext(f, spec) <==>
        || (Level(f, spec) > 0 && g == AtLevel(f, spec, Level(f, spec) - 1))
        || (CanRaise(f, spec) && g == AtLevel(f, spec, Level(f, spec) + 1))
  {
  }

  lemma DecreaseLevel(f: Flags, spec: Spec)
    requires WellFormed(f) && spec in f
    ensures Level(f, spec) > 0
    ensures Decrease(f, spec) == AtLevel(f, spec, Level(f, spec) - 1)
    ensures WellFormed(Decrease(f, spec))
  {
  }

  lemma LevelAt(f: Flags, spec: Spec, n: int, other: Spec)
    requires n >= 0 && (!spec.Numeric? ==> n <= 1)
    ensures Level(AtLevel(f, spec, n), other) == if other == spec then n else Level(f, other)
  {
  }

  /** Climbing along a specification and decreasing it leave every other flag as far up as it was. */
  lemma OthersAlone(f: Flags, spec: Spec, g: Flags, other: Spec)
    requires WellFormed(f) && other != spec
    requires g in ClimbNext(f, spec) || (spec in f && g == Decrease(f, spec))
    ensures Level(g, other) == Level(f, other)
    ensures Level(g, spec) == Level(f, spec) - 1 || (CanRaise(f, spec) && Level(g, spec) == Level(f, spec) + 1)
  {
    if g in ClimbNext(f, spec) {
      ClimbNextLevels(f, spec, g);
    } else {
      DecreaseLevel(f, spec);
    }
    var n := if CanRaise(f, spec) && g == AtLevel(f, spec, Level(f, spec) + 1) then Level(f, spec) + 1 else Level(f, spec) - 1;
    LevelAt(f, spec, n, other);
    LevelAt(f, spec, n, spec);
  }

  // ---------------------------------------------------------------- rank

  /** The sum of the levels of all flags. */
  ghost function Rank(f: Flags): int
    decreases |f|
  {
    if f == map[] then 0
    else
      var spec :| spec in f;
      Level(f, spec) + Rank(f - {spec})
  }

  /** Any flag may be counted first. */
  lemma {:induction false} RankWithout(f: Flags, spec: Spec)
    requires spec in f
    ensures Rank(f) == Level(f, spec) + Rank(f - {spec})
    decreases |f|
  {
    var first :| first in f && Rank(f) == Level(f, first) + Rank(f - {first});
    if first != spec {
      RankWithout(f - {first}, spec);
      RankWithout(f - {spec}, first);
      assert f - {spec} - {first} == f - {first} - {spec};
      assert Level(f - {first}, spec) == Level(f, spec) && Level(f - {spec}, first) == Level(f, first);
      assert Rank(f) == Level(f, first) + Rank(f - {first});
    }
  }

  lemma {:induction false} RankNotNegative(f: Flags)
    requires WellFormed(f)
    ensures Rank(f) >= |f|
    decreases |f|
  {
    if f == map[] {
    } else {
      var spec :| spec in f;
      RankWithout(f, spec);
      assert f.Keys - {spec} == (f - {spec}).Keys;
      RankNotNegative(f - {spec});
    }
  }

  /** Turning one flag to level n changes the rank by as much as it changes the level. */
  lemma RankAtLevel(f: Flags, spec: Spec, n: int)
    requires n >= 0 && (!spec.Numeric? ==> n <= 1)
    ensures Rank(AtLevel(f, spec, n)) == Rank(f) - Level(f, spec) + n
  {
    var g := AtLevel(f, spec, n);
    assert g - {spec} == f - {spec};
    if spec in f {
      RankWithout(f, spec);
    } else {
      assert f - {spec} == f;
    }
    if spec in g {
      RankWithout(g, spec);
    } else {
      assert g - {spec} == g;
    }
  }

  /** Decreasing a flag lowers the rank by exactly one. */
  lemma DecreaseRank(f: Flags, spec: Spec)
    requires WellFormed(f) && spec in f
    ensures Rank(Decrease(f, spec)) == Rank(f) - 1
  {
    DecreaseLevel(f, spec);
    RankAtLevel(f, spec, Level(f, spec) - 1);
  }

  lemma LevelRange(f: Flags, spec: Spec)
    requires WellFormed(f)
    ensures Level(f, spec) >= 0
    ensures !spec.Numeric? ==> Level(f, spec) <= 1 && (CanRaise(f, spec) ==> Level(f, spec) == 0)
  {
  }

  /** Every neighbour's rank is one more or one less. */
  lemma ClimbRank(f: Flags, spec: Spec, g: Flags)
    requires WellFormed(f) && g in ClimbNext(f, spec)
    ensures Rank(g) == Rank(f) + 1 || Rank(g) == Rank(f) - 1
  {
    ClimbNextLevels(f, spec, g);
    LevelRange(f, spec);
    hide ClimbNext, AtLevel, Level, Rank, WellFormed;
    if g == AtLevel(f, spec, Level(f, spec) - 1) && Level(f, spec) > 0 {
      RankAtLevel(f, spec, Level(f, spec) - 1);
    } else {
      RankAtLevel(f, spec, Level(f, spec) + 1);
    }
  }

  // ---------------------------------------------------------------- the space

  function Highest(spec: Spec): int {
    if spec.Numeric? then spec.end else 0
  }

  /** f together with its variants in which spec is on. */
  function Variants(f: Flags, spec: Spec): set<Flags> {
    {f} + set v | 0 <= v <= Highest(spec) && Legal(spec, v) :: f[spec := v]
  }

  /** All well-formed flag sets over the specifications: a finite set. */
  function Space(specs: seq<Spec>): set<Flags> {
    if specs == [] then {map[]}
    else set f, g | f in Space(specs[1..]) && g in Variants(f, specs[0]) :: g
  }

  lemma {:induction false} InSpace(specs: seq<Spec>, f: Flags)
    ensures f in Space(specs) <==> WellFormed(f) && f.Keys <= Elements(specs)
  {
    if specs == [] {
      assert f.Keys <= {} ==> f == map[];
    } else {
      var spec, rest := specs[0], specs[1..];
      assert Elements(specs) == {spec} + Elements(rest);
      if f in Space(specs) {
        var e :| e in Space(rest) && f in Variants(e, spec);
        InSpace(rest, e);
      }
      if WellFormed(f) && f.Keys <= Elements(specs) {
        var e := if spec in f then f - {spec} else f;
        InSpace(rest, e);
        VariantOf(f, spec);
        assert e in Space(rest);
      }
    }
  }

  lemma VariantOf(f: Flags, spec: Spec)
    requires WellFormed(f)
    ensures f in Variants(f - {spec}, spec)
    ensures spec !in f ==> f - {spec} == f
  {
    if spec in f {
      assert f == (f - {spec})[spec := f[spec]];
      assert Legal(spec, f[spec]);
    } else {
      assert f - {spec} == f;
    }
  }

  /** The moves stay inside the space. */
  lemma ClimbStays(specs: seq<Spec>, f: Flags, spec: Spec, g: Flags)
    requires f in Space(specs) && spec in specs && g in ClimbNext(f, spec)
    requires spec.Numeric? ==> spec.start <= spec.end
    ensures g in Space(specs)
  {
    InSpace(specs, f);
    InSpace(specs, g);
  }

  lemma DecreaseStays(specs: seq<Spec>, f: Flags, spec: Spec)
    requires f in Space(specs) && spec in f
    ensures Decrease(f, spec) in Space(specs)
  {
    InSpace(specs, f);
    InSpace(specs, Decrease(f, spec));
    DecreaseLevel(f, spec);
  }
}
