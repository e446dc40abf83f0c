/** The scorecard's session logic without its screen: entering a hand's result
    (the bet of the current decision is won or lost) and moving to the next shoe
    (counter resets, the shoe-3 snapshot, and the end of the session after shoe 3). */
module Scorecard {
  import opened TierParams
  import opened StrategyRules

  /** Number of shoes in a session. */
  const LastShoe: int := 3

  /** advance_shoe on the session value. */
  function ShoeAdvanced(s: Session): (r: Session)
    ensures r.sessionPnl == s.sessionPnl && r.shoePnls == s.shoePnls && r.tier == s.tier
    ensures r.shoe1TripwireTriggered == s.shoe1TripwireTriggered
    ensures 1 <= s.currentShoe <= LastShoe ==> 1 <= r.currentShoe <= LastShoe
    ensures r.currentShoe == s.currentShoe || r.currentShoe == s.currentShoe + 1
  {
    if s.currentShoe >= LastShoe then
      s.(mode := Stopped)
    else
      var next := s.(currentShoe := s.currentShoe + 1, handsPlayedInShoe := 0, pressesThisShoe := 0,
                     consecutiveWins := 0, consecutiveLosses := 0, penaltyCooldown := 0);
      if next.currentShoe == LastShoe then next.(shoe3StartPnl := Some(next.sessionPnl)) else next
  }

  /** The result fed to the engine: the bet is won or lost in full. */
  function ResultAmount(bet: real, won: bool): real {
    if won then bet else -bet
  }

  /** The record changes advance_shoe makes, on the engine's session record. */
  method StartNextShoe(st: SessionState)
    modifies st
    ensures st.View() == ShoeAdvanced(old(st.View()))
  {
    if st.currentShoe >= LastShoe {
      st.mode := Stopped;
    } else {
      var shoe := st.currentShoe + 1;
      st.currentShoe, st.handsPlayedInShoe, st.pressesThisShoe := shoe, 0, 0;
      st.consecutiveWins, st.consecutiveLosses, st.penaltyCooldown := 0, 0, 0;
      if shoe == LastShoe {
        st.shoe3StartPnl := Some(st.sessionPnl);
      }
    }
  }

  class Scorecard {
    var state: SessionState
    var currentDecision: Decision

    ghost predicate Valid()
      reads this, state
    {
      state.View().Valid()
    }

    /** A new scorecard for the given tier bets the tier's base unit. */
    constructor (tier: TierConfig)
      ensures Valid() && fresh(state)
      ensures state.View() == NewSession(tier, None)
      ensures currentDecision == Decision(tier.baseUnit, NewShoe, Active)
    {
      state := new SessionState(tier, None);
      currentDecision := Decision(tier.baseUnit, NewShoe, Active);
    }

    /** process_result: ignored once the session is stopped; otherwise the current
        bet is won or lost, the engine updates the session, and the next decision is
        taken from the updated session. */
    method ProcessResult(won: bool)
      requires Valid()
      modifies this, state
      ensures Valid() && state == old(state)
      ensures old(state.mode) == Stopped ==>
        state.View() == old(state.View()) && currentDecision == old(currentDecision)
      ensures old(state.mode) != Stopped ==>
        && state.View() == AfterHand(old(state.View()), won, ResultAmount(old(currentDecision.betAmount), won))
        && currentDecision == GetNextDecision(state.View(), 0.0)
      ensures old(currentDecision.betAmount) == 0.0 ==> state.sessionPnl == old(state.sessionPnl)
    {
      if state.mode == Stopped {
        return;
      }
      var betAmt := currentDecision.betAmount;
      var pnlChange := if won then betAmt else -betAmt;
      AfterHandValid(state.View(), won, pnlChange);
      UpdateStateAfterHand(state, won, pnlChange);
      currentDecision := GetNextDecision(state.View(), 0.0);
    }

    /** advance_shoe: after shoe 3 the session stops where it is; before that the
        shoe number goes up, the per-shoe counters are reset, entering shoe 3 takes
        the snapshot, and the decision is taken afresh. */
    method AdvanceShoe()
      requires Valid()
      modifies this, state
      ensures Valid() && state == old(state)
      ensures state.View() == ShoeAdvanced(old(state.View()))
      ensures old(state.currentShoe) >= LastShoe ==> currentDecision == old(currentDecision)
      ensures old(state.currentShoe) < LastShoe ==> currentDecision == GetNextDecision(state.View(), 0.0)
    {
      ShoeAdvancedValid(state.View());
      var finished := state.currentShoe >= LastShoe;
      StartNextShoe(state);
      if !finished {
        currentDecision := GetNextDecision(state.View(), 0.0);
      }
    }
  }

  // ---------------------------------------------------------------------
  // Properties
  // ---------------------------------------------------------------------

  /** Advancing keeps the session invariant; in particular the shoe stays in 1..3. */
  lemma ShoeAdvancedValid(s: Session)
    ensures s.Valid() ==> ShoeAdvanced(s).Valid()
  {
  }

  /** At the last shoe, advancing stops the session and leaves the shoe number. */
  lemma AdvanceAtLastShoe(s: Session)
    requires s.currentShoe >= LastShoe
    ensures var r := ShoeAdvanced(s);
      r.mode == Stopped && r.currentShoe == s.currentShoe && r.sessionPnl == s.sessionPnl
  {
  }

  /** Before the last shoe: the shoe number goes up by one, the per-shoe counters
      and the cooldown are zeroed, the results, mode and tripwire are kept, and the
      snapshot is taken exactly on entering shoe 3. */
  lemma AdvanceBeforeLastShoe(s: Session)
    requires s.currentShoe < LastShoe
    ensures var r := ShoeAdvanced(s);
      && r.currentShoe == s.currentShoe + 1
      && r.handsPlayedInShoe == 0 && r.pressesThisShoe == 0
      && r.consecutiveWins == 0 && r.consecutiveLosses == 0 && r.penaltyCooldown == 0
      && r.sessionPnl == s.sessionPnl && r.shoePnls == s.shoePnls
      && r.mode == s.mode && r.shoe1TripwireTriggered == s.shoe1TripwireTriggered
      && r.tier == s.tier
      && (r.currentShoe == LastShoe ==> r.shoe3StartPnl == Some(s.sessionPnl))
      && (r.currentShoe != LastShoe ==> r.shoe3StartPnl == s.shoe3StartPnl)
  {
  }

  /** For a tier whose stop-loss is negative and profit lock positive, the engine's
      first decision on a new session is the base unit, ACTIVE, as the scorecard shows. */
  lemma InitialDecisionAgrees(tier: TierConfig, ytdPnl: real)
    requires tier.stopLoss < 0.0 < tier.profitLock
    ensures GetNextDecision(NewSession(tier, None), ytdPnl) == Decision(tier.baseUnit, SniperBase, Active)
  {
  }

  /** A zero bet moves nothing: after a stop or a watching decision, entering a
      result leaves the session result where it was. */
  lemma ZeroBetAddsNothing(s: Session, won: bool, ytdPnl: real)
    requires s.currentShoe in s.shoePnls
    requires GetNextDecision(s, ytdPnl).mode != Active
    ensures var amount := ResultAmount(GetNextDecision(s, ytdPnl).betAmount, won);
      AfterHand(s, won, amount).sessionPnl == s.sessionPnl
  {
    DecisionModes(s, ytdPnl);
  }

  /** The Iron Gate fires before the stop-loss: on level 1 of the Standard ladder,
      three losses of the 50 base bet from a new session close the gate at -150,
      the next decisions bet nothing, and two more losses leave the session at -150,
      watching, not stopped. */
  lemma IronGateBeforeStopLoss(pressCap: nat)
    ensures var t := StandardTier(DefaultSafetyFactor, 1, pressCap);
      var s0 := NewSession(t, None);
      var lost := Hand(false, -50.0);
      var s3 := PlayHands(s0, [lost, lost, lost]);
      var s5 := PlayHands(s3, [Hand(false, 0.0), Hand(false, 0.0)]);
      && s3.mode == Watcher && s3.sessionPnl == -150.0
      && GetNextDecision(s3, 0.0) == Decision(0.0, IronGateWatching, Watcher)
      && s5.mode == Watcher && s5.sessionPnl == -150.0
      && GetNextDecision(s5, 0.0) == Decision(0.0, IronGateWatching, Watcher)
  {
    var t := StandardTier(DefaultSafetyFactor, 1, pressCap);
    assert t.baseUnit == 50.0 && t.stopLoss == -500.0 && t.profitLock == 300.0 && t.level == 1;
    var s0 := NewSession(t, None);
    var lost := Hand(false, -50.0);
    assert GetNextDecision(s0, 0.0).betAmount == 50.0;
    var s1 := AfterHand(s0, false, -50.0);
    assert s1.sessionPnl == -50.0 && s1.consecutiveLosses == 1 && s1.mode == Active;
    assert !s1.shoe1TripwireTriggered;
    assert GetNextDecision(s1, 0.0).betAmount == 50.0;
    var s2 := AfterHand(s1, false, -50.0);
    assert s2.sessionPnl == -100.0 && s2.consecutiveLosses == 2 && s2.mode == Active;
    assert !s2.shoe1TripwireTriggered;
    assert GetNextDecision(s2, 0.0).betAmount == 50.0;
    var s3 := AfterHand(s2, false, -50.0);
    assert s3.sessionPnl == -150.0 && s3.mode == Watcher;
    assert PlayHands(s0, [lost, lost, lost]) == s3 by {
      assert [lost, lost, lost][1..] == [lost, lost];
      assert [lost, lost][1..] == [lost];
      assert PlayHands(s2, [lost]) == PlayHands(s3, []);
      assert PlayHands(s1, [lost, lost]) == PlayHands(s2, [lost]);
      assert PlayHands(s0, [lost, lost, lost]) == PlayHands(s1, [lost, lost]);
    }
    var quiet := Hand(false, 0.0);
    var s4 := AfterHand(s3, false, 0.0);
    var s5 := AfterHand(s4, false, 0.0);
    assert s5.mode == Watcher && s5.sessionPnl == -150.0;
    assert PlayHands(s3, [quiet, quiet]) == s5 by {
      assert [quiet, quiet][1..] == [quiet];
      assert PlayHands(s4, [quiet]) == PlayHands(s5, []);
      assert PlayHands(s3, [quiet, quiet]) == PlayHands(s4, [quiet]);
    }
  }
}
