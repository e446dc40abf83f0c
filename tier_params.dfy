/** The tier ladder: bet-sizing presets (Standard, Fortress, Titan) and the
    selection of a tier for a bankroll ("GA"), with hysteresis in Titan mode.
    Amounts are euros as reals; a tier map is a dictionary from level to tier. */
module TierParams {

  datatype Option<T> = None | Some(value: T)

  /** Upper end of a tier's bankroll range; `Unbounded` stands for float('inf'). */
  datatype Bound = Finite(value: real) | Unbounded

  /** True when `x` lies strictly below the bound. */
  predicate Below(x: real, b: Bound) {
    match b
    case Finite(v) => x < v
    case Unbounded => true
  }

  /** One rung of the ladder. `maxPressesPerShoe` is read by the policy engine
      but the source never defines it; the builders below take it as `pressCap`. */
  datatype TierConfig = TierConfig(
    level: int,
    minGa: real,
    maxGa: Bound,
    baseUnit: real,
    pressUnit: real,
    stopLoss: real,
    profitLock: real,
    catastrophicCap: real,
    maxPressesPerShoe: nat)

  /** The three presets; any mode name other than "Titan" or "Fortress" is Standard. */
  datatype LadderMode = Standard | Fortress | Titan

  function ModeOf(name: string): (m: LadderMode)
    ensures m == Titan <==> name == "Titan"
    ensures m == Fortress <==> name == "Fortress"
  {
    if name == "Titan" then Titan else if name == "Fortress" then Fortress else Standard
  }

  const BaseBetT1: real := 50.0
  const Multipliers: seq<int> := [1, 2, 4, 10, 20, 40]
  const DefaultSafetyFactor: int := 25

  type TierMap = map<int, TierConfig>

  /** Every preset derives its stop-loss, profit lock and catastrophic cap from the base unit. */
  function MakeTier(level: int, minGa: real, maxGa: Bound, base: real, press: real, pressCap: nat): TierConfig {
    TierConfig(level, minGa, maxGa, base, press, -(base * 10.0), base * 6.0, -(base * 20.0), pressCap)
  }

  /** Level `level` (1-based) of the Standard exponential ladder. */
  function StandardTier(safetyFactor: int, level: int, pressCap: nat): TierConfig
    requires 1 <= level <= |Multipliers|
  {
    var base := BaseBetT1 * (Multipliers[level - 1] as real);
    var maxGa := if level < |Multipliers|
                 then Finite(BaseBetT1 * (Multipliers[level] as real) * (safetyFactor as real))
                 else Unbounded;
    MakeTier(level, base * (safetyFactor as real), maxGa, base, base, pressCap)
  }

  function StandardMap(safetyFactor: int, pressCap: nat): (m: TierMap)
    ensures forall k :: k in m ==> m[k].level == k && m[k].pressUnit == m[k].baseUnit
  {
    map level | 1 <= level <= |Multipliers| :: StandardTier(safetyFactor, level, pressCap)
  }

  function FortressMap(pressCap: nat): TierMap {
    map[1 := MakeTier(1, 0.0, Finite(2000.0), 50.0, 50.0, pressCap),
        2 := MakeTier(2, 2000.0, Unbounded, 100.0, 100.0, pressCap)]
  }

  function TitanMap(pressCap: nat): TierMap {
    map[1 := MakeTier(1, 0.0, Finite(2000.0), 50.0, 50.0, pressCap),
        2 := MakeTier(2, 2000.0, Unbounded, 100.0, 150.0, pressCap),
        3 := MakeTier(3, 5000.0, Unbounded, 150.0, 250.0, pressCap)]
  }

  /** The map `generate_tier_map` returns. */
  function TierMapFor(safetyFactor: int, mode: LadderMode, pressCap: nat): (r: TierMap)
    ensures r.Keys == match mode
      case Titan => {1, 2, 3}
      case Fortress => {1, 2}
      case Standard => {1, 2, 3, 4, 5, 6}
    ensures forall k :: k in r ==> r[k].level == k
  {
    match mode
    case Titan => TitanMap(pressCap)
    case Fortress => FortressMap(pressCap)
    case Standard => StandardMap(safetyFactor, pressCap)
  }

  /** generate_tier_map: the Standard ladder is filled level by level in a loop. */
  method GenerateTierMap(safetyFactor: int, mode: LadderMode, pressCap: nat) returns (tiers: TierMap)
    ensures tiers == TierMapFor(safetyFactor, mode, pressCap)
  {
    if mode == Titan {
      tiers := TitanMap(pressCap);
      return;
    }
    if mode == Fortress {
      tiers := FortressMap(pressCap);
      return;
    }
    tiers := map[];
    var i := 0;
    while i < |Multipliers|
      invariant 0 <= i <= |Multipliers|
      invariant tiers == map level | 1 <= level <= i :: StandardTier(safetyFactor, level, pressCap)
    {
      var level := i + 1;
      var base := BaseBetT1 * (Multipliers[i] as real);
      var minGa := base * (safetyFactor as real);
      var maxGa := if i < |Multipliers| - 1
                   then Finite(BaseBetT1 * (Multipliers[i + 1] as real) * (safetyFactor as real))
                   else Unbounded;
      assert MakeTier(level, minGa, maxGa, base, base, pressCap) == StandardTier(safetyFactor, level, pressCap);
      tiers := tiers[level := MakeTier(level, minGa, maxGa, base, base, pressCap)];
      i := i + 1;
    }
  }

  // ---------------------------------------------------------------------
  // Sorted keys of a tier map
  // ---------------------------------------------------------------------

  predicate Increasing(q: seq<int>) {
    forall i, j :: 0 <= i < j < |q| ==> q[i] < q[j]
  }

  /** `m` is the least element of `s`. */
  predicate IsLeast(m: int, s: set<int>) {
    m in s && forall k :: k in s ==> m <= k
  }

  /** Some key is present. Written as a bounded existential, since a least element
      is picked out of the set by `:|`. */
  predicate NonEmpty(s: set<int>) {
    exists k :: k in s
  }

  lemma {:induction false} LeastOf(s: set<int>) returns (m: int)
    requires NonEmpty(s)
    ensures IsLeast(m, s)
    decreases |s|
  {
    var x :| x in s;
    var rest := s - {x};
    if !NonEmpty(rest) {
      m := x;
    } else {
      var y := LeastOf(rest);
      m := if x < y then x else y;
    }
    forall k | k in s ensures m <= k {
      if k != x { assert k in rest; }
    }
  }

  lemma LeastExists(s: set<int>)
    requires NonEmpty(s)
    ensures exists m :: IsLeast(m, s)
  {
    var m := LeastOf(s);
  }

  /** Python's `min(tier_map.keys())`. */
  function MinKey(s: set<int>): (m: int)
    requires NonEmpty(s)
    ensures IsLeast(m, s)
  {
    LeastExists(s);
    var m :| IsLeast(m, s);
    m
  }

  /** Python's `sorted(tier_map.keys())`: repeatedly take the least key. */
  function SortedKeys(s: set<int>): (q: seq<int>)
    ensures forall k :: k in q <==> k in s
    decreases |s|
  {
    if !NonEmpty(s) then []
    else
      var m := MinKey(s);
      [m] + SortedKeys(s - {m})
  }

  /** The keys come out in strictly increasing order. */
  lemma {:induction false} SortedKeysIncreasing(s: set<int>)
    ensures Increasing(SortedKeys(s))
    decreases |s|
  {
    if NonEmpty(s) {
      var m := MinKey(s);
      var rest := SortedKeys(s - {m});
      SortedKeysIncreasing(s - {m});
      forall j | 0 <= j < |rest| ensures m < rest[j] {
        assert rest[j] in rest;
      }
      assert SortedKeys(s) == [m] + rest;
    }
  }

  /** The sorted key list of a non-empty key set starts with its least key. */
  lemma SortedKeysHead(s: set<int>)
    requires NonEmpty(s)
    ensures |SortedKeys(s)| > 0 && SortedKeys(s)[0] == MinKey(s)
  {
  }

  /** An increasing sequence holding exactly the keys of `s` is the sorted key list. */
  lemma {:induction false} SortedKeysUnique(s: set<int>, q: seq<int>)
    requires Increasing(q)
    requires forall k :: k in q <==> k in s
    ensures q == SortedKeys(s)
    decreases |q|
  {
    if q == [] {
      assert !NonEmpty(s);
    } else {
      assert q[0] in q;
      var m := MinKey(s);
      assert m in q;
      assert forall j :: 0 <= j < |q| ==> q[0] <= q[j];
      assert m == q[0];
      var rest := q[1..];
      forall k
        ensures k in rest <==> k in s - {m}
      {
        if k in rest {
          var j :| 0 <= j < |rest| && rest[j] == k;
          assert q[j + 1] == k;
        }
        if k in s - {m} {
          assert k in q;
          var j :| 0 <= j < |q| && q[j] == k;
          assert j != 0;
          assert rest[j - 1] == k;
        }
      }
      SortedKeysUnique(s - {m}, rest);
      assert q == [m] + rest;
    }
  }

  // ---------------------------------------------------------------------
  // Tier selection
  // ---------------------------------------------------------------------

  /** Result of a lookup: a tier, a missing dictionary key (KeyError), or an
      empty map (the ValueError of `min` on no keys). */
  datatype Lookup = Found(tier: TierConfig) | MissingLevel(level: int) | NoTiers

  function Get(m: TierMap, level: int): (r: Lookup)
    ensures r.Found? <==> level in m
    ensures r.Found? ==> r.tier == m[level]
    ensures r.MissingLevel? ==> r.level == level
  {
    if level in m then Found(m[level]) else MissingLevel(level)
  }

  /** How many keys, in order, have a minimum bankroll the GA reaches before the
      first one it does not: the point where the Standard loop breaks. */
  function ReachedPrefix(ga: real, m: TierMap, keys: seq<int>): (n: nat)
    requires forall i :: 0 <= i < |keys| ==> keys[i] in m
    ensures n <= |keys|
    ensures forall i :: 0 <= i < n ==> m[keys[i]].minGa <= ga
    ensures n < |keys| ==> ga < m[keys[n]].minGa
    decreases |keys|
  {
    if keys == [] || ga < m[keys[0]].minGa then 0
    else 1 + ReachedPrefix(ga, m, keys[1..])
  }

  /** The Standard branch: the tier of the last key in the reached prefix, or the
      tier of the least key (the first in sorted order) when even that one is not
      reached. */
  function StandardSelect(ga: real, m: TierMap): (r: Lookup)
    ensures r.NoTiers? <==> !NonEmpty(m.Keys)
    ensures r.Found? ==> r.tier in m.Values
    ensures r.Found? ==> r.tier.minGa <= ga || r.tier == m[MinKey(m.Keys)]
  {
    if !NonEmpty(m.Keys) then NoTiers
    else
      var keys := SortedKeys(m.Keys);
      SortedKeysHead(m.Keys);
      var n := ReachedPrefix(ga, m, keys);
      Found(m[keys[if n == 0 then 0 else n - 1]])
  }

  /** The map supplied, or `generate_tier_map()` when none is. */
  function MapOrDefault(tierMap: Option<TierMap>, pressCap: nat): TierMap {
    if tierMap.Some? then tierMap.value else StandardMap(DefaultSafetyFactor, pressCap)
  }

  /** get_tier_for_ga as a function of its inputs. */
  function TierForGa(ga: real, tierMap: Option<TierMap>, activeLevel: int, mode: LadderMode, pressCap: nat): (r: Lookup)
    ensures r.Found? ==> r.tier in MapOrDefault(tierMap, pressCap).Values
    ensures r.NoTiers? ==> mode == Standard && tierMap.Some? && !NonEmpty(tierMap.value.Keys)
    ensures r.MissingLevel? ==> mode != Standard
  {
    var m := MapOrDefault(tierMap, pressCap);
    match mode
    case Titan =>
      if activeLevel < 3 then
        (if ga >= 5000.0 then Get(m, 3) else if ga >= 2000.0 then Get(m, 2) else Get(m, 1))
      else if activeLevel == 3 then
        (if ga < 4500.0 then Get(m, 2) else Get(m, 3))
      else Get(m, activeLevel)
    case Fortress =>
      if ga >= 2000.0 then Get(m, 2) else Get(m, 1)
    case Standard =>
      assert tierMap.None? ==> 1 in m.Keys;
      StandardSelect(ga, m)
  }

  /** get_tier_for_ga: the Titan and Fortress ladders by fixed thresholds, the
      Standard ladder by StandardWalk. */
  method GetTierForGa(ga: real, tierMap: Option<TierMap>, activeLevel: int, mode: LadderMode, pressCap: nat)
    returns (r: Lookup)
    ensures r == TierForGa(ga, tierMap, activeLevel, mode, pressCap)
  {
    var m := if tierMap.Some? then tierMap.value else StandardMap(DefaultSafetyFactor, pressCap);
    if mode == Titan {
      if activeLevel < 3 {
        if ga >= 5000.0 { return Get(m, 3); }
        if ga >= 2000.0 { return Get(m, 2); }
        return Get(m, 1);
      }
      if activeLevel == 3 {
        if ga < 4500.0 { return Get(m, 2); }
        return Get(m, 3);
      }
      return Get(m, activeLevel);
    }
    if mode == Fortress {
      if ga >= 2000.0 { return Get(m, 2); }
      return Get(m, 1);
    }
    r := StandardWalk(ga, m);
  }

  /** The Standard branch of get_tier_for_ga: start from the least key's tier, walk
      the sorted keys, keep each tier whose minimum the bankroll reaches, and break
      at the first it does not. */
  method StandardWalk(ga: real, m: TierMap) returns (r: Lookup)
    ensures r == StandardSelect(ga, m)
  {
    if !NonEmpty(m.Keys) {
      return NoTiers;
    }
    var keys := SortedKeys(m.Keys);
    SortedKeysHead(m.Keys);
    ghost var n := ReachedPrefix(ga, m, keys);
    var selected := m[MinKey(m.Keys)];
    var i := 0;
    while i < |keys|
      invariant 0 <= i <= n
      invariant selected == m[keys[if i == 0 then 0 else i - 1]]
    {
      var t := m[keys[i]];
      assert i == n ==> ga < t.minGa;
      if ga >= t.minGa {
        selected := t;
      } else {
        break;
      }
      i := i + 1;
    }
    assert i == n;
    r := Found(selected);
  }

  // ---------------------------------------------------------------------
  // Properties of the presets and of selection
  // ---------------------------------------------------------------------

  /** Standard levels: base = 50 x [1,2,4,10,20,40], flat presses, stop-loss
      -10 base, profit lock 6 base, catastrophic cap -20 base. */
  lemma StandardTierShape(safetyFactor: int, level: int, pressCap: nat)
    requires 1 <= level <= 6
    ensures var t := StandardMap(safetyFactor, pressCap)[level];
      && t.level == level
      && t.baseUnit == 50.0 * ([1.0, 2.0, 4.0, 10.0, 20.0, 40.0][level - 1])
      && t.pressUnit == t.baseUnit
      && t.stopLoss == -10.0 * t.baseUnit
      && t.profitLock == 6.0 * t.baseUnit
      && t.catastrophicCap == -20.0 * t.baseUnit
      && t.minGa == t.baseUnit * (safetyFactor as real)
      && t.maxPressesPerShoe == pressCap
  {
  }

  /** Standard ranges are contiguous: each level's maximum is the next level's
      minimum, and the top level is unbounded. */
  lemma StandardContiguous(safetyFactor: int, level: int, pressCap: nat)
    requires 1 <= level <= 6
    ensures var m := StandardMap(safetyFactor, pressCap);
      m.Keys == {1, 2, 3, 4, 5, 6}
      && (level < 6 ==> m[level].maxGa == Finite(m[level + 1].minGa))
      && (level == 6 ==> m[level].maxGa == Unbounded)
  {
    var m := StandardMap(safetyFactor, pressCap);
    assert forall k :: k in m.Keys <==> 1 <= k <= 6;
  }

  lemma StandardMaxIsNextMin(safetyFactor: int, level: int, pressCap: nat)
    requires 1 <= level < 6
    ensures StandardTier(safetyFactor, level, pressCap).maxGa == Finite(StandardTier(safetyFactor, level + 1, pressCap).minGa)
  {
  }

  lemma StandardMinIncreasing(safetyFactor: int, j: int, k: int, pressCap: nat)
    requires safetyFactor > 0
    requires 1 <= j < k <= 6
    ensures StandardTier(safetyFactor, j, pressCap).minGa < StandardTier(safetyFactor, k, pressCap).minGa
  {
    var sf := safetyFactor as real;
    assert sf > 0.0;
    assert StandardTier(safetyFactor, j, pressCap).minGa == 50.0 * (Multipliers[j - 1] as real) * sf;
    assert StandardTier(safetyFactor, k, pressCap).minGa == 50.0 * (Multipliers[k - 1] as real) * sf;
    assert Multipliers[j - 1] < Multipliers[k - 1];
    assert (Multipliers[k - 1] - Multipliers[j - 1]) as real >= 1.0;
    assert 50.0 * (Multipliers[k - 1] as real) * sf - 50.0 * (Multipliers[j - 1] as real) * sf
        == 50.0 * ((Multipliers[k - 1] - Multipliers[j - 1]) as real) * sf;
  }

  /** A bankroll below one level's minimum is below every higher level's minimum. */
  lemma BelowAllFrom(ga: real, safetyFactor: int, j: int, pressCap: nat)
    requires safetyFactor > 0
    requires 1 <= j <= 6
    requires ga < StandardTier(safetyFactor, j, pressCap).minGa
    ensures forall k :: j <= k <= 6 ==> ga < StandardTier(safetyFactor, k, pressCap).minGa
  {
    forall k | j < k <= 6
      ensures ga < StandardTier(safetyFactor, k, pressCap).minGa
    {
      StandardMinIncreasing(safetyFactor, j, k, pressCap);
    }
  }

  lemma StandardKeysSorted(safetyFactor: int, pressCap: nat)
    ensures SortedKeys(StandardMap(safetyFactor, pressCap).Keys) == [1, 2, 3, 4, 5, 6]
  {
    var m := StandardMap(safetyFactor, pressCap);
    var q := [1, 2, 3, 4, 5, 6];
    assert forall k :: k in q <==> k in m.Keys;
    SortedKeysUnique(m.Keys, q);
  }

  /** The level Standard selection picks for a bankroll, when it succeeds. */
  function SelectedLevel(r: Lookup): int {
    if r.Found? then r.tier.level else 0
  }

  /** The key list 1, 2, ..., 6. */
  predicate LevelsInOrder(keys: seq<int>) {
    |keys| == 6 && forall i :: 0 <= i < |keys| ==> keys[i] == i + 1
  }

  /** On any map whose sorted keys are 1..6 the loop walks the levels in order and
      starts from level 1; `n` is where it breaks. */
  lemma SelectOnLevels(ga: real, m: TierMap) returns (n: nat)
    requires LevelsInOrder(SortedKeys(m.Keys))
    ensures n <= 6
    ensures n > 0 ==> n in m && m[n].minGa <= ga
    ensures n < 6 ==> n + 1 in m && ga < m[n + 1].minGa
    ensures StandardSelect(ga, m) == Found(m[if n == 0 then 1 else n])
  {
    var keys := SortedKeys(m.Keys);
    assert keys[0] in keys;
    assert NonEmpty(m.Keys);
    n := ReachedPrefix(ga, m, keys);
    var last := if n == 0 then 0 else n - 1;
    assert keys[last] == last + 1 == (if n == 0 then 1 else n);
    assert StandardSelect(ga, m) == Found(m[keys[last]]);
    if n > 0 {
      assert keys[n - 1] in keys;
    }
    if n < 6 {
      assert keys[n] == n + 1;
      assert keys[n] in keys;
    }
  }

  /** The break point of the Standard loop on the Standard map, read off in terms of
      the levels. */
  lemma StandardPrefixFacts(ga: real, safetyFactor: int, pressCap: nat) returns (n: nat)
    ensures n <= 6
    ensures n > 0 ==> StandardTier(safetyFactor, n, pressCap).minGa <= ga
    ensures n < 6 ==> ga < StandardTier(safetyFactor, n + 1, pressCap).minGa
    ensures StandardSelect(ga, StandardMap(safetyFactor, pressCap))
         == Found(StandardTier(safetyFactor, if n == 0 then 1 else n, pressCap))
  {
    var m := StandardMap(safetyFactor, pressCap);
    StandardKeysSorted(safetyFactor, pressCap);
    n := SelectOnLevels(ga, m);
    var level := if n == 0 then 1 else n;
    assert m[level] == StandardTier(safetyFactor, level, pressCap);
    if n < 6 {
      assert m[n + 1] == StandardTier(safetyFactor, n + 1, pressCap);
    }
  }

  /** Standard selection returns the highest level whose minimum the bankroll
      reaches, and level 1 when the bankroll is below every minimum. */
  lemma {:induction false} StandardSelectsHighest(ga: real, safetyFactor: int, activeLevel: int, pressCap: nat)
    requires safetyFactor > 0
    ensures var r := TierForGa(ga, Some(StandardMap(safetyFactor, pressCap)), activeLevel, Standard, pressCap);
      && r.Found?
      && 1 <= r.tier.level <= 6
      && r.tier == StandardTier(safetyFactor, r.tier.level, pressCap)
      && (r.tier.level == 1 || r.tier.minGa <= ga)
      && (ga < StandardTier(safetyFactor, 1, pressCap).minGa ==> r.tier.level == 1)
      && (forall k :: r.tier.level < k <= 6 ==> ga < StandardTier(safetyFactor, k, pressCap).minGa)
  {
    var n := StandardPrefixFacts(ga, safetyFactor, pressCap);
    if n < 6 {
      BelowAllFrom(ga, safetyFactor, n + 1, pressCap);
    }
    if n > 0 && ga < StandardTier(safetyFactor, 1, pressCap).minGa {
      BelowAllFrom(ga, safetyFactor, 1, pressCap);
    }
  }

  /** A larger bankroll never selects a lower Standard level. */
  lemma {:induction false} StandardMonotone(ga1: real, ga2: real, safetyFactor: int, activeLevel: int, pressCap: nat)
    requires safetyFactor > 0
    requires ga1 <= ga2
    ensures var m := Some(StandardMap(safetyFactor, pressCap));
      SelectedLevel(TierForGa(ga1, m, activeLevel, Standard, pressCap))
        <= SelectedLevel(TierForGa(ga2, m, activeLevel, Standard, pressCap))
  {
    StandardSelectsHighest(ga1, safetyFactor, activeLevel, pressCap);
    StandardSelectsHighest(ga2, safetyFactor, activeLevel, pressCap);
  }

  /** From level 1's minimum upward, the selected Standard tier's range [min, max)
      contains the bankroll. */
  lemma {:induction false} StandardRangeContains(ga: real, safetyFactor: int, activeLevel: int, pressCap: nat)
    requires safetyFactor > 0
    requires ga >= StandardTier(safetyFactor, 1, pressCap).minGa
    ensures var r := TierForGa(ga, Some(StandardMap(safetyFactor, pressCap)), activeLevel, Standard, pressCap);
      r.Found? && r.tier.minGa <= ga && Below(ga, r.tier.maxGa)
  {
    StandardSelectsHighest(ga, safetyFactor, activeLevel, pressCap);
    var r := TierForGa(ga, Some(StandardMap(safetyFactor, pressCap)), activeLevel, Standard, pressCap);
    var level := r.tier.level;
    if level < 6 {
      StandardMaxIsNextMin(safetyFactor, level, pressCap);
    }
  }

  /** With no map supplied, selection uses the Standard map with safety factor 25,
      whatever the mode. */
  lemma DefaultMapIsStandard25(ga: real, activeLevel: int, mode: LadderMode, pressCap: nat)
    ensures TierForGa(ga, None, activeLevel, mode, pressCap)
         == TierForGa(ga, Some(StandardMap(25, pressCap)), activeLevel, mode, pressCap)
  {
  }

  /** Titan below level 3: 5000 and up gives tier 3, 2000 and up tier 2, else tier 1. */
  lemma TitanUpgrade(ga: real, activeLevel: int, pressCap: nat)
    requires activeLevel < 3
    ensures var m := TitanMap(pressCap);
      TierForGa(ga, Some(m), activeLevel, Titan, pressCap)
        == Found(if ga >= 5000.0 then m[3] else if ga >= 2000.0 then m[2] else m[1])
  {
  }

  /** Titan at level 3: stays at tier 3 down to 4500, and below that drops to tier 2,
      never straight to tier 1. */
  lemma TitanDowngrade(ga: real, pressCap: nat)
    ensures var m := TitanMap(pressCap);
      TierForGa(ga, Some(m), 3, Titan, pressCap) == Found(if ga >= 4500.0 then m[3] else m[2])
  {
  }

  /** The hysteresis band: a bankroll in [4500, 5000) keeps tier 3 from level 3 but
      gets tier 2 from any lower level. */
  lemma TitanHysteresisBand(ga: real, lower: int, pressCap: nat)
    requires 4500.0 <= ga < 5000.0
    requires lower < 3
    ensures TierForGa(ga, Some(TitanMap(pressCap)), 3, Titan, pressCap).tier.level == 3
    ensures TierForGa(ga, Some(TitanMap(pressCap)), lower, Titan, pressCap).tier.level == 2
  {
  }

  /** Above level 3 Titan falls back to `tier_map[active_level]`, which the Titan
      preset does not have. */
  lemma TitanFallbackMissing(ga: real, activeLevel: int, pressCap: nat)
    requires activeLevel > 3
    ensures TierForGa(ga, Some(TitanMap(pressCap)), activeLevel, Titan, pressCap) == MissingLevel(activeLevel)
  {
  }

  /** Fortress: 2000 and up gives tier 2, otherwise tier 1; both tiers bet flat. */
  lemma FortressSelection(ga: real, activeLevel: int, pressCap: nat)
    ensures var m := FortressMap(pressCap);
      var r := TierForGa(ga, Some(m), activeLevel, Fortress, pressCap);
      && r == Found(if ga >= 2000.0 then m[2] else m[1])
      && r.tier.pressUnit == r.tier.baseUnit
  {
  }
}
