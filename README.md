# Baccarat single-session betting engine, in Dafny

This project models the core of a baccarat bankroll manager: the engine that
decides the next bet of a session and updates the session after each hand, the
tier ladder that maps a bankroll ("GA") to bet sizes, the yearly bankroll
arithmetic (luxury tax and insolvency), and the scorecard operations that enter
a hand's result and move from one shoe to the next.

- `tier_params.dfy` (module `TierParams`): the `TierConfig` record, the three
  presets (Standard exponential ladder, Fortress, Titan), and tier selection for a
  bankroll, with Titan's upgrade and downgrade thresholds. `GenerateTierMap` fills
  the Standard ladder in a loop. `GetTierForGa` walks the sorted keys of the map
  in `StandardWalk`, with `break`. Both are proved equal to pure definitions
  (`TierMapFor`, `TierForGa`), and the ladder's properties are proved about those.
- `strategy_rules.dfy` (module `StrategyRules`): the session record as a class,
  `SessionState`, whose fields mirror a value type, `Session`, through `View()`.
  - `GetNextDecision` is the read-only chain of guards: stop-loss, profit lock,
    Iron Gate watching, shoe-1 tripwire, re-entry cooldown, then the Sniper
    (press or base).
  - `UpdateStateAfterHand` changes the record in place. It is proved to produce
    `AfterHand` of the old value.
  - Lemmas state the precedence of the guards, the bookkeeping of each hand, the
    Iron Gate transitions, and that the tripwire fires at most once. They also
    cover runs of many hands (`PlayHands`).
- `ecosystem.dfy` (module `Ecosystem`): the year's balance identities, the tax of
  a quarter of the surplus above 12,500, and the insolvency floor of 1,000.
- `scorecard.dfy` (module `Scorecard`): the scorecard without its screen.
  - `ProcessResult` is ignored once the session is stopped. Otherwise it feeds
    plus or minus the current bet to the engine and takes the next decision.
  - `AdvanceShoe` moves to the next shoe: it resets the per-shoe counters and
    snapshots the session result on entering shoe 3. After shoe 3 it stops the
    session.

Money is exact `real` arithmetic, standing in for Python floats. The tripwire
test `pnl < stop_loss * 0.5` and the tax `surplus * 0.25` are kept as written;
over the reals they are `2 * pnl < stop_loss` and `surplus / 4`. `float('inf')`
as a tier's upper bound is `Bound.Unbounded`. Mode names are the `LadderMode`
enumeration: `ModeOf` maps any name other than "Titan" or "Fortress" to
Standard, as the code's string tests do.

Some behaviour of the code is kept as it is:
- A decision's STOPPED mode is never written to the session. Only `AdvanceShoe`
  after shoe 3 sets the session's mode to Stopped. So after a stop-loss,
  `ProcessResult` still runs and books a zero bet (`ZeroBetAddsNothing`,
  `StopPersistsOverZeroBets`).
- `presses_this_shoe` is read by the Sniper but never incremented by any update.
  The model keeps it that way (`AfterHandBooks`).
- The Titan preset gives tier 2 an unbounded upper end that overlaps tier 3, as
  the code does.
- Level 1's stop-loss is −10 × base = −500 (`IronGateBeforeStopLoss`).

## Model

| member | source | states |
|---|---|---|
| `TierParams.ModeOf` | engine/tier_params.py:82-97 | the ladder is Titan exactly for the name "Titan", Fortress exactly for "Fortress", and Standard for every other name |
| `TierParams.GenerateTierMap` | engine/tier_params.py:19-72 | the map built (Standard by a loop over the six multipliers) is the preset of the requested mode: the Titan three-tier map, the Fortress two-tier map, or levels 1..6 of the Standard ladder |
| `TierParams.StandardMap` | engine/tier_params.py:59-72 | every Standard tier sits at the key of its own level and bets flat (press equals base); `StandardTierShape` and `StandardContiguous` give the rest of the ladder |
| `TierParams.TierMapFor` | engine/tier_params.py:19-72 | the preset of a mode has keys {1,2,3} for Titan, {1,2} for Fortress and 1..6 for Standard, each tier at the key of its own level |
| `TierParams.MinKey` | engine/tier_params.py:102 | `min(tier_map.keys())` is a key that is at most every key |
| `TierParams.SortedKeys` | engine/tier_params.py:103 | `sorted(keys)` holds exactly the keys of the map |
| `TierParams.SortedKeysIncreasing` | engine/tier_params.py:103 | the sorted keys are strictly increasing |
| `TierParams.SortedKeysUnique` | engine/tier_params.py:103 | any strictly increasing sequence holding exactly the keys is the sorted key list |
| `TierParams.SortedKeysHead` | engine/tier_params.py:102-103 | the first sorted key is the minimum key, so the loop starts from `tier_map[min(keys)]` |
| `TierParams.ReachedPrefix` | engine/tier_params.py:103-108 | the break point of the loop: every key before it has `min_ga <= ga`, and the key at it (if any) has `ga < min_ga` |
| `TierParams.StandardSelect` | engine/tier_params.py:102-109 | Standard selection fails exactly on an empty map; otherwise it returns a tier of the map that the bankroll reaches, or the least key's tier; `StandardSelectsHighest` shows it is the highest level reached |
| `TierParams.TierForGa` | engine/tier_params.py:74-109 | the selected tier is one of the map's tiers (the default Standard map when none is given); the empty-map error arises only for a supplied empty map in Standard mode, and a missing key only in Titan or Fortress mode; the Titan, Fortress and Standard lemmas below give each branch |
| `TierParams.GetTierForGa` | engine/tier_params.py:74-109 | the selected tier, or the KeyError or empty-map error, is `TierForGa` of the inputs, with the default Standard map when none is given |
| `TierParams.StandardWalk` | engine/tier_params.py:102-109 | the walk returns the tier of the last key in the reached prefix, or the least key's tier when none is reached, and fails only on an empty map |
| `TierParams.StandardTierShape` | engine/tier_params.py:59-72 | each Standard level 1..6 has base 50 × [1,2,4,10,20,40], press equal to base, stop-loss −10 base, profit lock 6 base, catastrophic cap −20 base, min_ga base × safety factor, and the given press cap |
| `TierParams.StandardContiguous` | engine/tier_params.py:61-65 | the Standard map has exactly levels 1..6; each level's max_ga is the next level's min_ga, and level 6 is unbounded |
| `TierParams.StandardMaxIsNextMin` | engine/tier_params.py:64-65 | a level's upper bound is the next level's minimum |
| `TierParams.StandardMinIncreasing` | engine/tier_params.py:63-64 | with a positive safety factor, Standard minimums strictly increase with the level |
| `TierParams.BelowAllFrom` | engine/tier_params.py:63-64 | a bankroll below one level's minimum is below every higher level's minimum |
| `TierParams.StandardKeysSorted` | engine/tier_params.py:61-67 | the sorted keys of the Standard map are 1, 2, 3, 4, 5, 6 |
| `TierParams.SelectOnLevels` | engine/tier_params.py:102-109 | on any map whose sorted keys are 1..6, the walk breaks at n, where levels up to n are reached and level n+1 is not, and it returns level n (level 1 when n = 0) |
| `TierParams.StandardPrefixFacts` | engine/tier_params.py:102-109 | on the Standard map the result is the Standard tier at the break point (level 1 when nothing is reached) |
| `TierParams.StandardSelectsHighest` | engine/tier_params.py:102-109 | Standard selection succeeds with the highest level whose min_ga the bankroll reaches; below level 1's minimum it still returns level 1 |
| `TierParams.StandardMonotone` | engine/tier_params.py:102-109 | a larger bankroll never selects a lower Standard level |
| `TierParams.StandardRangeContains` | engine/tier_params.py:102-109 | from level 1's minimum up, the selected tier's [min_ga, max_ga) contains the bankroll |
| `TierParams.DefaultMapIsStandard25` | engine/tier_params.py:78-79 | with no map supplied, selection is selection on the Standard map with safety factor 25, in every mode |
| `TierParams.TitanUpgrade` | engine/tier_params.py:84-87 | below level 3: 5000 and up gives tier 3, then 2000 and up tier 2, otherwise tier 1 |
| `TierParams.TitanDowngrade` | engine/tier_params.py:90-92 | at level 3: 4500 and up stays at tier 3, below it tier 2, never tier 1 |
| `TierParams.TitanHysteresisBand` | engine/tier_params.py:84-92 | a bankroll in [4500, 5000) keeps tier 3 from level 3 but gets tier 2 from any lower level |
| `TierParams.TitanFallbackMissing` | engine/tier_params.py:94 | above level 3 the fallback `tier_map[active_level]` is a missing key of the Titan preset |
| `TierParams.FortressSelection` | engine/tier_params.py:97-99 | 2000 and up gives Fortress tier 2, otherwise tier 1, and both tiers bet flat (press equals base) |
| `Ecosystem.CurrentGaIsStartPlusContributionsPlusYtd` | engine/ecosystem.py:11-17 | the current bankroll is start plus contributions plus the year-to-date result |
| `Ecosystem.YearState.CurrentGa` | engine/ecosystem.py:11-13 | starting bankroll plus contributions plus play less tax; `CurrentGaIsStartPlusContributionsPlusYtd` relates it to the year-to-date result |
| `Ecosystem.YearState.YtdPnl` | engine/ecosystem.py:15-17 | play less tax; by `CurrentGaIsStartPlusContributionsPlusYtd` it is what the bankroll gained beyond the start and the contributions |
| `Ecosystem.LuxuryTax` | engine/ecosystem.py:19-29 | the tax is never negative and is zero up to 12,500 inclusive; above it, it is positive, below the surplus, and exactly a quarter of it |
| `Ecosystem.LuxuryTaxKeepsAboveThreshold` | engine/ecosystem.py:24-28 | exactly 12,500 pays nothing; above it, the bankroll after tax stays strictly above 12,500, at the threshold plus three times the tax |
| `Ecosystem.LuxuryTaxIgnoresCurrentLt` | engine/ecosystem.py:19-29 | the tax does not depend on the tax already withdrawn |
| `Ecosystem.LuxuryTaxExample` | engine/ecosystem.py:24-28 | 13,000 is taxed 125, leaving 12,875 |
| `Ecosystem.IsInsolvent` | engine/ecosystem.py:31-36 | `check_insolvency`; `FloorIsSolvent` shows it holds exactly below 1,000, with 1,000 itself solvent |
| `Ecosystem.FloorIsSolvent` | engine/ecosystem.py:31-36 | insolvent exactly below 1,000; exactly 1,000 is solvent |
| `StrategyRules.SessionState.constructor` | engine/strategy_rules.py:17-45 | a new record has the dataclass defaults, with the given shoe map or {1: 0, 2: 0, 3: 0}; with the default map it satisfies the session invariant |
| `StrategyRules.NewSession` | engine/strategy_rules.py:17-45 | a new session with the default map satisfies the session invariant; a supplied map is kept as given |
| `StrategyRules.NewSessionValid` | engine/strategy_rules.py:43-45 | a new session with the default map has keys {1,2,3} summing to the session result, shoe 1 and no counters |
| `StrategyRules.GetNextDecision` | engine/strategy_rules.py:53-119 | the decision is never PENALTY, is STOPPED exactly under a stop condition, and bets 0 whenever it is not ACTIVE; the lemmas below give the order of its guards |
| `StrategyRules.GetNextDecisionAsDeclared` | engine/strategy_rules.py:53-108 | over the tier record as declared, the guards before the press check decide as in the code and never decide by the Sniper; reaching the press check raises |
| `StrategyRules.StopLossFirst` | engine/strategy_rules.py:66-67 | at or below the stop-loss the decision is bet 0, STOPPED, whatever the mode, tripwire or streaks |
| `StrategyRules.ProfitLockSecond` | engine/strategy_rules.py:69-75 | above the stop-loss, at or above the profit lock with gold churn off, the decision is bet 0, STOPPED |
| `StrategyRules.WatcherBetsNothing` | engine/strategy_rules.py:79-80 | without a stop condition, watching decides bet 0, WATCHER |
| `StrategyRules.ActivePrecedence` | engine/strategy_rules.py:86-119 | not stopped and not watching: the tripwire's flat 50 comes before the cooldown's base unit, which comes before the Sniper; the Sniper presses exactly when there are two wins in hand and the shoe's press cap is not reached, and otherwise bets the base unit |
| `StrategyRules.DecisionModes` | engine/strategy_rules.py:53-119 | the decision is never PENALTY; it is STOPPED exactly under a stop condition, WATCHER exactly when watching without one, and both of those bet 0 |
| `StrategyRules.DecisionIgnoresYtd` | engine/strategy_rules.py:53-119 | the year-to-date argument does not change the decision |
| `StrategyRules.FreshSessionRaisesAsDeclared` | engine/strategy_rules.py:108 | with the tier record as declared, a fresh session's decision reaches the press-cap read and raises |
| `StrategyRules.PressCapFixesOnlyTheSniper` | engine/strategy_rules.py:89-119 | the declared-record version raises exactly where the corrected decision comes from the Sniper, and otherwise agrees with it |
| `StrategyRules.AfterHand` | engine/strategy_rules.py:121-170 | an update keeps the current shoe and the set of shoe keys |
| `StrategyRules.Settle` | engine/strategy_rules.py:132-170 | after booking, the Iron Gate, streak and tripwire steps keep the shoe, the shoe map and the session result |
| `StrategyRules.UpdateStateAfterHand` | engine/strategy_rules.py:121-170 | the record after the in-place update is `AfterHand` of the record before |
| `StrategyRules.SettleHand` | engine/strategy_rules.py:132-170 | the Iron Gate, streak and tripwire part of the update, in place, produces `Settle` of the booked record |
| `StrategyRules.AfterHandBooks` | engine/strategy_rules.py:126-129 | every hand adds its amount to the session result and to the current shoe's entry, and counts one hand; the press counter, tier, snapshot and flags are untouched |
| `StrategyRules.AfterHandValid` | engine/strategy_rules.py:126-129 | a hand keeps the session invariant; in particular the per-shoe results still add up to the session result |
| `StrategyRules.WatcherTransitions` | engine/strategy_rules.py:132-140 | watching, a win sets ACTIVE with one win, no losses and cooldown 3; a loss changes neither mode, streaks, cooldown nor tripwire |
| `StrategyRules.ActiveWin` | engine/strategy_rules.py:142-148 | not watching, a win adds a win, zeroes the losses, and lowers a positive cooldown by one, so the cooldown stays non-negative |
| `StrategyRules.ActiveLoss` | engine/strategy_rules.py:156-165 | not watching, a loss adds a loss and zeroes the wins; reaching the gate limit (3 up to level 2, else 2) sets WATCHER and Sniper RESET and skips the tripwire |
| `StrategyRules.TripwireOneShot` | engine/strategy_rules.py:168-170 | a set tripwire stays set; it is only set in shoe 1, outside the Iron Gate, when the session result is below half the stop-loss |
| `StrategyRules.TripwireFires` | engine/strategy_rules.py:168-170 | in shoe 1, outside the Iron Gate, a hand that does not close the gate and leaves the session below half the stop-loss sets the tripwire |
| `StrategyRules.PlayHandsValid` | engine/strategy_rules.py:121-170 | any number of hands keeps the session invariant |
| `StrategyRules.PlayHandsBooks` | engine/strategy_rules.py:126-129 | over a run of hands the session result moves by the sum of the amounts, one hand counts per call, and the press counter never moves |
| `StrategyRules.PlayHandsKeepsTripwire` | engine/strategy_rules.py:168-170 | no run of hands clears the tripwire |
| `StrategyRules.StopPersistsOverZeroBets` | engine/strategy_rules.py:66-75 | a stopped decision stays the same through any hands that move no money |
| `Scorecard.StartNextShoe` | ui/scorecard.py:43-61 | the record after advancing is `ShoeAdvanced` of the record before |
| `Scorecard.ShoeAdvanced` | ui/scorecard.py:41-61 | advancing keeps the session result, the shoe map, the tier and the tripwire, moves the shoe by at most one and keeps it within 1..3; `AdvanceAtLastShoe` and `AdvanceBeforeLastShoe` give each case |
| `Scorecard.ResultAmount` | ui/scorecard.py:29-30 | the P&L change of a hand: the bet on a win and minus the bet on a loss; `Scorecard.ProcessResult` feeds it to the engine |
| `Scorecard.Scorecard.constructor` | ui/scorecard.py:6-9 | a new scorecard holds a new session for the given tier and decides the base unit, "New Shoe", ACTIVE |
| `Scorecard.Scorecard.ProcessResult` | ui/scorecard.py:23-36 | once stopped, nothing changes; otherwise the engine books +bet on a win and −bet on a loss, the next decision is taken from the updated session, and a zero bet leaves the session result unchanged |
| `Scorecard.Scorecard.AdvanceShoe` | ui/scorecard.py:41-65 | the session becomes `ShoeAdvanced` of the old one and keeps its invariant; after shoe 3 the decision is kept, otherwise it is taken afresh from the new session |
| `Scorecard.ShoeAdvancedValid` | ui/scorecard.py:43-57 | advancing keeps the session invariant, so the shoe stays within 1..3 |
| `Scorecard.AdvanceAtLastShoe` | ui/scorecard.py:43-47 | at shoe 3 or later, advancing sets STOPPED and leaves the shoe number and the session result |
| `Scorecard.AdvanceBeforeLastShoe` | ui/scorecard.py:49-61 | before shoe 3, advancing adds one to the shoe, zeroes the hand, press, streak and cooldown counters, keeps results, mode, tripwire and tier, and snapshots the session result exactly on entering shoe 3 |
| `Scorecard.InitialDecisionAgrees` | ui/scorecard.py:8-9 | for a tier with a negative stop-loss and a positive profit lock, the engine's own first decision also bets the base unit, ACTIVE |
| `Scorecard.ZeroBetAddsNothing` | ui/scorecard.py:29-33 | after a stop or watching decision, entering any result leaves the session result unchanged |
| `Scorecard.IronGateBeforeStopLoss` | engine/strategy_rules.py:156-165 | on Standard level 1, three lost base bets from a new session close the gate at −150, before the −500 stop-loss; the next decisions bet 0, WATCHER, and two more results leave the session there |

## Left out

- Screen code: `refresh_hud`, `build_ui` and every `ui.notify` call of the scorecard. They are presentation only.
- The simulator report, the persistence layer (JSON files and clock stamps) and the application entry point are not part of this model.
- The shoe-3 trailing stop in `get_next_decision` is a `pass` and is not modelled.
- `sniper_state` and `gold_churn_active` are plain fields without behaviour of their own, as in the code. The first is written and never read; the second is never set.
- The per-shoe press cap is read at engine/strategy_rules.py:108 but is not declared on the tier record. The model gives `TierConfig` a `maxPressesPerShoe` field. Its value is the `pressCap` parameter of the map builders and of tier selection's default map, because the code supplies no value.
- The scorecard imports a `TIER_MAP` table that engine/tier_params.py does not define. `Scorecard.Scorecard.constructor` therefore takes the tier record itself rather than a level.
- `shoe3_start_pnl` is written by the scorecard but not declared on the session record. The model declares it as an `Option<real>`, `None` until the snapshot.
- StrategyRules.UpdateStateAfterHand: requires the current shoe to be a key of the shoe map. The code raises KeyError there, and the model does not represent that error. With the default map, the shoe stays within 1..3 (`ShoeAdvancedValid`), so the key is always present.
- StrategyRules.SessionState.constructor: promises the session invariant only for the default shoe map. A supplied map is stored as given, as in the code. The code keeps a reference to the caller's dictionary and tier object, so each update also changes the caller's dictionary. The model stores both as values and does not capture that aliasing, which only the supplied-map path, unused by the scorecard, would show.
- Default arguments are not modelled: `GenerateTierMap` takes the safety factor and mode that `generate_tier_map` defaults to 25 and 'Standard'; `GetTierForGa` takes the active level and mode that `get_tier_for_ga` defaults to 1 and 'Standard'; `Scorecard.Scorecard.constructor` takes the tier that `Scorecard` looks up for its default level 1.
- Python floating-point rounding is not modelled; amounts are exact reals.
- `get_next_decision`'s result dictionary is the `Decision` datatype. Its reason strings are the `Reason` enumeration, with the re-entry count kept as data.

## Findings

| source | as written | input that shows it | evidently intended | confidence | as-written member | corrected member |
|---|---|---|---|---|---|---|
| engine/strategy_rules.py:108 | the Sniper reads `state.tier.max_presses_per_shoe`, a field the `TierConfig` dataclass (engine/tier_params.py:4-12) does not declare, so the read raises AttributeError | a fresh session on any tier with a negative stop-loss and a positive profit lock: no earlier guard returns, so its decision reaches the read | each tier carries a per-shoe press cap, and the Sniper presses with two wins in hand while the cap is not reached | high (not executed) | `StrategyRules.FreshSessionRaisesAsDeclared` | `StrategyRules.ActivePrecedence` |
