/** The single-session policy engine: the session record, the read-only decision
    of the next bet (stop-loss, profit lock, Iron Gate watching, shoe-1 tripwire,
    re-entry cooldown, Sniper press) and the in-place update after each hand. */
module StrategyRules {
  import opened TierParams

  datatype SniperState = Wait | Trigger | Fire | Reset

  datatype PlayMode = Active | Watcher | Penalty | Stopped

  /** Why a bet was chosen; `NewShoe` is the label a fresh scorecard shows. */
  datatype Reason =
    | StopLossHit
    | ProfitLockHit
    | IronGateWatching
    | TripwireFlat
    | ReEntry(handsLeft: int)
    | SniperBase
    | SniperFire
    | NewShoe

  datatype Decision = Decision(betAmount: real, reason: Reason, mode: PlayMode)

  /** Consecutive wins after which the Sniper presses. */
  const PressTrigger: int := 2
  /** Flat bet forced once the shoe-1 tripwire has fired. */
  const TripwireBet: real := 50.0
  /** Hands of flat betting imposed when leaving the Iron Gate. */
  const ReEntryHands: int := 3

  /** The Iron Gate closes after 3 straight losses at levels 1 and 2, after 2 above. */
  function GateLimit(level: int): int {
    if level <= 2 then 3 else 2
  }

  /** The value of a session record. */
  datatype Session = Session(
    tier: TierConfig,
    currentShoe: int,
    handsPlayedInShoe: int,
    pressesThisShoe: int,
    sessionPnl: real,
    shoePnls: map<int, real>,
    consecutiveWins: int,
    consecutiveLosses: int,
    sniperState: SniperState,
    mode: PlayMode,
    ironGateActive: bool,
    penaltyCooldown: int,
    shoe1TripwireTriggered: bool,
    goldChurnActive: bool,
    shoe3StartPnl: Option<real>)
  {
    /** Sum of the three per-shoe results. */
    function ShoeTotal(): real
      requires {1, 2, 3} <= shoePnls.Keys
    {
      shoePnls[1] + shoePnls[2] + shoePnls[3]
    }

    /** What the program keeps true of a session between calls. */
    predicate Valid() {
      && shoePnls.Keys == {1, 2, 3}
      && 1 <= currentShoe <= 3
      && sessionPnl == ShoeTotal()
      && handsPlayedInShoe >= 0
      && pressesThisShoe >= 0
      && consecutiveWins >= 0
      && consecutiveLosses >= 0
      && 0 <= penaltyCooldown <= ReEntryHands
      && mode != Penalty
    }
  }

  /** The per-shoe map `__post_init__` installs when none is given. */
  const ZeroShoePnls: map<int, real> := map[1 := 0.0, 2 := 0.0, 3 := 0.0]

  /** A session as the dataclass builds it from a tier (and, optionally, a shoe map). */
  function NewSession(tier: TierConfig, shoePnls: Option<map<int, real>>): (r: Session)
    ensures shoePnls.None? ==> r.Valid()
    ensures shoePnls.Some? ==> r.shoePnls == shoePnls.value
  {
    Session(tier, 1, 0, 0, 0.0,
            if shoePnls.None? then ZeroShoePnls else shoePnls.value,
            0, 0, Wait, Active, false, 0, false, false, None)
  }

  lemma NewSessionValid(tier: TierConfig)
    ensures NewSession(tier, None).Valid()
    ensures NewSession(tier, None).shoePnls == map[1 := 0.0, 2 := 0.0, 3 := 0.0]
  {
  }

  /** Either stop condition holds. */
  predicate StopCondition(s: Session) {
    s.sessionPnl <= s.tier.stopLoss || (s.sessionPnl >= s.tier.profitLock && !s.goldChurnActive)
  }

  /** get_next_decision: a chain of guarded returns that only reads the session.
      The year-to-date result it is passed is not consulted. */
  function GetNextDecision(s: Session, ytdPnl: real): (d: Decision)
    ensures d.mode != Penalty
    ensures d.mode == Stopped <==> StopCondition(s)
    ensures d.mode != Active ==> d.betAmount == 0.0
  {
    if s.sessionPnl <= s.tier.stopLoss then
      Decision(0.0, StopLossHit, Stopped)
    else if s.sessionPnl >= s.tier.profitLock && !s.goldChurnActive then
      Decision(0.0, ProfitLockHit, Stopped)
    else if s.mode == Watcher then
      Decision(0.0, IronGateWatching, Watcher)
    else if s.shoe1TripwireTriggered then
      Decision(TripwireBet, TripwireFlat, Active)
    else if s.penaltyCooldown > 0 then
      Decision(s.tier.baseUnit, ReEntry(s.penaltyCooldown), Active)
    else if s.consecutiveWins >= PressTrigger && s.pressesThisShoe < s.tier.maxPressesPerShoe then
      Decision(s.tier.pressUnit, SniperFire, Active)
    else
      Decision(s.tier.baseUnit, SniperBase, Active)
  }

  /** update_state_after_hand as a function of the old session. */
  function AfterHand(s: Session, won: bool, amountWon: real): (r: Session)
    requires s.currentShoe in s.shoePnls
    ensures r.currentShoe == s.currentShoe && r.shoePnls.Keys == s.shoePnls.Keys
  {
    Settle(Book(s, amountWon), won)
  }

  /** The hand's amount goes to the session and to the current shoe; one more hand. */
  function Book(s: Session, amountWon: real): Session
    requires s.currentShoe in s.shoePnls
  {
    s.(sessionPnl := s.sessionPnl + amountWon,
       shoePnls := s.shoePnls[s.currentShoe := s.shoePnls[s.currentShoe] + amountWon],
       handsPlayedInShoe := s.handsPlayedInShoe + 1)
  }

  /** After booking: the Iron Gate while watching, otherwise the streak counters,
      the gate check on a loss, and the shoe-1 tripwire. */
  function Settle(b: Session, won: bool): (r: Session)
    ensures r.currentShoe == b.currentShoe && r.shoePnls == b.shoePnls && r.sessionPnl == b.sessionPnl
  {
    if b.mode == Watcher then WatcherStep(b, won)
    else if won then TripwireCheck(WinStreak(b))
    else
      var streak := LossStreak(b);
      if streak.consecutiveLosses >= GateLimit(streak.tier.level) then CloseGate(streak)
      else TripwireCheck(streak)
  }

  /** Watching: a win leaves the Iron Gate with one win and the re-entry cooldown. */
  function WatcherStep(s: Session, won: bool): Session {
    if won then s.(mode := Active, consecutiveWins := 1, consecutiveLosses := 0, penaltyCooldown := ReEntryHands)
    else s
  }

  function WinStreak(s: Session): Session {
    s.(consecutiveWins := s.consecutiveWins + 1, consecutiveLosses := 0,
       penaltyCooldown := if s.penaltyCooldown > 0 then s.penaltyCooldown - 1 else s.penaltyCooldown)
  }

  function LossStreak(s: Session): Session {
    s.(consecutiveLosses := s.consecutiveLosses + 1, consecutiveWins := 0)
  }

  function CloseGate(s: Session): Session {
    s.(mode := Watcher, sniperState := Reset)
  }

  /** The shoe-1 tripwire: fires once the session loss passes half the stop-loss. */
  function TripwireCheck(s: Session): Session {
    if s.currentShoe == 1 && !s.shoe1TripwireTriggered && s.sessionPnl < s.tier.stopLoss * 0.5 then
      s.(shoe1TripwireTriggered := true)
    else
      s
  }

  /** The mutable session record. */
  class SessionState {
    var tier: TierConfig
    var currentShoe: int
    var handsPlayedInShoe: int
    var pressesThisShoe: int
    var sessionPnl: real
    var shoePnls: map<int, real>
    var consecutiveWins: int
    var consecutiveLosses: int
    var sniperState: SniperState
    var mode: PlayMode
    var ironGateActive: bool
    var penaltyCooldown: int
    var shoe1TripwireTriggered: bool
    var goldChurnActive: bool
    var shoe3StartPnl: Option<real>

    /** The record's current value. */
    function View(): Session
      reads this
    {
      Session(tier, currentShoe, handsPlayedInShoe, pressesThisShoe, sessionPnl, shoePnls,
              consecutiveWins, consecutiveLosses, sniperState, mode, ironGateActive,
              penaltyCooldown, shoe1TripwireTriggered, goldChurnActive, shoe3StartPnl)
    }

    /** The dataclass defaults, then `__post_init__`: a missing shoe map becomes
        {1: 0, 2: 0, 3: 0}. */
    constructor (tier: TierConfig, shoePnls: Option<map<int, real>>)
      ensures View() == NewSession(tier, shoePnls)
      ensures shoePnls.None? ==> View().Valid()
    {
      this.tier := tier;
      currentShoe := 1;
      handsPlayedInShoe := 0;
      pressesThisShoe := 0;
      sessionPnl := 0.0;
      consecutiveWins := 0;
      consecutiveLosses := 0;
      sniperState := Wait;
      mode := Active;
      ironGateActive := false;
      penaltyCooldown := 0;
      shoe1TripwireTriggered := false;
      goldChurnActive := false;
      shoe3StartPnl := None;
      if shoePnls.None? {
        this.shoePnls := map[1 := 0.0, 2 := 0.0, 3 := 0.0];
      } else {
        this.shoePnls := shoePnls.value;
      }
    }
  }

  /** update_state_after_hand: books the hand, then runs the Iron Gate, the streak
      counters and the tripwire, changing the record in place. */
  method UpdateStateAfterHand(state: SessionState, won: bool, amountWon: real)
    requires state.currentShoe in state.shoePnls
    modifies state
    ensures state.View() == AfterHand(old(state.View()), won, amountWon)
  {
    ghost var before := state.View();
    state.sessionPnl, state.shoePnls, state.handsPlayedInShoe :=
      state.sessionPnl + amountWon,
      state.shoePnls[state.currentShoe := state.shoePnls[state.currentShoe] + amountWon],
      state.handsPlayedInShoe + 1;
    assert state.View() == Book(before, amountWon);
    SettleHand(state, won);
  }

  /** The rest of update_state_after_hand, on the booked record: the Iron Gate, the
      streak counters and the tripwire. */
  method SettleHand(state: SessionState, won: bool)
    modifies state
    ensures state.View() == Settle(old(state.View()), won)
  {
    ghost var booked := state.View();
    if state.mode == Watcher {
      if won {
        state.mode, state.consecutiveWins, state.consecutiveLosses, state.penaltyCooldown :=
          Active, 1, 0, ReEntryHands;
      }
      assert state.View() == WatcherStep(booked, won);
      return;
    }

    if won {
      state.consecutiveWins, state.consecutiveLosses := state.consecutiveWins + 1, 0;
      if state.penaltyCooldown > 0 {
        state.penaltyCooldown := state.penaltyCooldown - 1;
      }
      assert state.View() == WinStreak(booked);
    } else {
      state.consecutiveLosses, state.consecutiveWins := state.consecutiveLosses + 1, 0;
      assert state.View() == LossStreak(booked);
      if state.consecutiveLosses >= GateLimit(state.tier.level) {
        state.mode, state.sniperState := Watcher, Reset;
        assert state.View() == CloseGate(LossStreak(booked));
        return;
      }
    }
    ghost var streak := state.View();

    if state.currentShoe == 1 && !state.shoe1TripwireTriggered {
      if state.sessionPnl < state.tier.stopLoss * 0.5 {
        state.shoe1TripwireTriggered := true;
      }
    }
    assert state.View() == TripwireCheck(streak);
  }

  // ---------------------------------------------------------------------
  // The decision: precedence of its guards
  // ---------------------------------------------------------------------

  /** Stop-loss is checked first: whatever the mode, tripwire or streaks. */
  lemma StopLossFirst(s: Session, ytdPnl: real)
    requires s.sessionPnl <= s.tier.stopLoss
    ensures GetNextDecision(s, ytdPnl) == Decision(0.0, StopLossHit, Stopped)
  {
  }

  /** Profit lock is next, unless gold churn is on. */
  lemma ProfitLockSecond(s: Session, ytdPnl: real)
    requires s.sessionPnl > s.tier.stopLoss
    requires s.sessionPnl >= s.tier.profitLock && !s.goldChurnActive
    ensures GetNextDecision(s, ytdPnl) == Decision(0.0, ProfitLockHit, Stopped)
  {
  }

  /** Without a stop condition, watching bets nothing. */
  lemma WatcherBetsNothing(s: Session, ytdPnl: real)
    requires !StopCondition(s) && s.mode == Watcher
    ensures GetNextDecision(s, ytdPnl) == Decision(0.0, IronGateWatching, Watcher)
  {
  }

  /** When playing: tripwire (flat 50) before cooldown (base unit) before the Sniper,
      which presses exactly when two wins are in hand and the shoe's press cap is not
      reached. */
  lemma ActivePrecedence(s: Session, ytdPnl: real)
    requires !StopCondition(s) && s.mode != Watcher
    ensures var d := GetNextDecision(s, ytdPnl);
      && d.mode == Active
      && (s.shoe1TripwireTriggered ==> d.betAmount == TripwireBet && d.reason == TripwireFlat)
      && (!s.shoe1TripwireTriggered && s.penaltyCooldown > 0 ==>
            d.betAmount == s.tier.baseUnit && d.reason == ReEntry(s.penaltyCooldown))
      && (!s.shoe1TripwireTriggered && s.penaltyCooldown <= 0 ==>
            (d.reason == SniperFire <==> s.consecutiveWins >= 2 && s.pressesThisShoe < s.tier.maxPressesPerShoe)
            && d.betAmount == (if d.reason == SniperFire then s.tier.pressUnit else s.tier.baseUnit))
  {
  }

  /** The decision's mode is never Penalty; it is Stopped exactly on a stop condition
      and Watcher exactly when watching without one; both bet nothing. */
  lemma DecisionModes(s: Session, ytdPnl: real)
    ensures var d := GetNextDecision(s, ytdPnl);
      && d.mode != Penalty
      && (d.mode == Stopped <==> StopCondition(s))
      && (d.mode == Watcher <==> !StopCondition(s) && s.mode == Watcher)
      && (d.mode != Active ==> d.betAmount == 0.0)
  {
  }

  /** The year-to-date argument makes no difference. */
  lemma DecisionIgnoresYtd(s: Session, ytd1: real, ytd2: real)
    ensures GetNextDecision(s, ytd1) == GetNextDecision(s, ytd2)
  {
  }

  // ---------------------------------------------------------------------
  // The decision over the tier record as declared
  // ---------------------------------------------------------------------

  /** A decision, or the AttributeError raised when the press cap is read from a
      tier record that does not declare it. */
  datatype Outcome = Decided(decision: Decision) | NoPressCapAttribute

  /** get_next_decision over the tier record as declared (no press cap): the guards
      up to the cooldown decide as before, and reaching the press check raises. */
  function GetNextDecisionAsDeclared(s: Session, ytdPnl: real): (o: Outcome)
    ensures o.Decided? ==> o.decision.reason != SniperBase && o.decision.reason != SniperFire
  {
    if s.sessionPnl <= s.tier.stopLoss then Decided(Decision(0.0, StopLossHit, Stopped))
    else if s.sessionPnl >= s.tier.profitLock && !s.goldChurnActive then Decided(Decision(0.0, ProfitLockHit, Stopped))
    else if s.mode == Watcher then Decided(Decision(0.0, IronGateWatching, Watcher))
    else if s.shoe1TripwireTriggered then Decided(Decision(TripwireBet, TripwireFlat, Active))
    else if s.penaltyCooldown > 0 then Decided(Decision(s.tier.baseUnit, ReEntry(s.penaltyCooldown), Active))
    else NoPressCapAttribute
  }

  /** As declared, the very first decision of a fresh session raises: with a
      negative stop-loss and a positive profit lock nothing earlier returns. */
  lemma FreshSessionRaisesAsDeclared(tier: TierConfig, ytdPnl: real)
    requires tier.stopLoss < 0.0 < tier.profitLock
    ensures GetNextDecisionAsDeclared(NewSession(tier, None), ytdPnl) == NoPressCapAttribute
  {
  }

  /** Giving the tier its press cap changes exactly the raising case: it raises
      precisely when the corrected decision comes from the Sniper, and otherwise
      the two agree. */
  lemma PressCapFixesOnlyTheSniper(s: Session, ytdPnl: real)
    ensures var d := GetNextDecision(s, ytdPnl);
      && (GetNextDecisionAsDeclared(s, ytdPnl) == NoPressCapAttribute <==> d.reason in {SniperBase, SniperFire})
      && (GetNextDecisionAsDeclared(s, ytdPnl).Decided? ==> GetNextDecisionAsDeclared(s, ytdPnl).decision == d)
  {
  }

  // ---------------------------------------------------------------------
  // One hand
  // ---------------------------------------------------------------------

  /** Every hand adds its amount to the session and to the current shoe, counts one
      hand, and never touches the press counter, the shoe, the tier or the snapshot. */
  lemma AfterHandBooks(s: Session, won: bool, amountWon: real)
    requires s.currentShoe in s.shoePnls
    ensures var r := AfterHand(s, won, amountWon);
      && r.sessionPnl == s.sessionPnl + amountWon
      && r.shoePnls == s.shoePnls[s.currentShoe := s.shoePnls[s.currentShoe] + amountWon]
      && r.handsPlayedInShoe == s.handsPlayedInShoe + 1
      && r.pressesThisShoe == s.pressesThisShoe
      && r.tier == s.tier && r.shoe3StartPnl == s.shoe3StartPnl
      && r.goldChurnActive == s.goldChurnActive && r.ironGateActive == s.ironGateActive
  {
  }

  /** A hand keeps the session invariant, in particular that the per-shoe results
      add up to the session result. */
  lemma AfterHandValid(s: Session, won: bool, amountWon: real)
    requires s.currentShoe in s.shoePnls
    ensures s.Valid() ==> AfterHand(s, won, amountWon).Valid()
  {
    if s.Valid() {
      var r := AfterHand(s, won, amountWon);
      var p := s.shoePnls[s.currentShoe := s.shoePnls[s.currentShoe] + amountWon];
      assert r.shoePnls == p;
      assert p[1] + p[2] + p[3] == s.ShoeTotal() + amountWon;
    }
  }

  /** Watching: a win reopens play with one win in hand and a 3-hand cooldown; a loss
      changes neither mode, streaks, cooldown nor tripwire. */
  lemma WatcherTransitions(s: Session, won: bool, amountWon: real)
    requires s.currentShoe in s.shoePnls && s.mode == Watcher
    ensures var r := AfterHand(s, won, amountWon);
      && r.shoe1TripwireTriggered == s.shoe1TripwireTriggered
      && r.sniperState == s.sniperState
      && (won ==> r.mode == Active && r.consecutiveWins == 1 && r.consecutiveLosses == 0
                  && r.penaltyCooldown == ReEntryHands)
      && (!won ==> r.mode == Watcher && r.consecutiveWins == s.consecutiveWins
                   && r.consecutiveLosses == s.consecutiveLosses && r.penaltyCooldown == s.penaltyCooldown)
  {
  }

  /** Not watching, a win: one more win, losses zeroed, cooldown down by one if positive. */
  lemma ActiveWin(s: Session, amountWon: real)
    requires s.currentShoe in s.shoePnls && s.mode != Watcher
    ensures var r := AfterHand(s, true, amountWon);
      && r.mode == s.mode
      && r.consecutiveWins == s.consecutiveWins + 1 && r.consecutiveLosses == 0
      && r.penaltyCooldown == (if s.penaltyCooldown > 0 then s.penaltyCooldown - 1 else s.penaltyCooldown)
      && (s.penaltyCooldown >= 0 ==> r.penaltyCooldown >= 0)
  {
  }

  /** Not watching, a loss: one more loss, wins zeroed; reaching the gate limit
      (3 at levels up to 2, else 2) closes the Iron Gate and resets the Sniper, and
      then the tripwire is not looked at. */
  lemma ActiveLoss(s: Session, amountWon: real)
    requires s.currentShoe in s.shoePnls && s.mode != Watcher
    ensures var r := AfterHand(s, false, amountWon);
      && r.consecutiveLosses == s.consecutiveLosses + 1 && r.consecutiveWins == 0
      && r.penaltyCooldown == s.penaltyCooldown
      && (r.consecutiveLosses >= GateLimit(s.tier.level) ==>
            r.mode == Watcher && r.sniperState == Reset
            && r.shoe1TripwireTriggered == s.shoe1TripwireTriggered)
      && (r.consecutiveLosses < GateLimit(s.tier.level) ==>
            r.mode == s.mode && r.sniperState == s.sniperState)
  {
  }

  /** The tripwire is one-shot: once set it stays set, and it is only ever set in
      shoe 1, outside the Iron Gate, by a session result below half the stop-loss. */
  lemma TripwireOneShot(s: Session, won: bool, amountWon: real)
    requires s.currentShoe in s.shoePnls
    ensures var r := AfterHand(s, won, amountWon);
      && (s.shoe1TripwireTriggered ==> r.shoe1TripwireTriggered)
      && (!s.shoe1TripwireTriggered && r.shoe1TripwireTriggered ==>
            s.currentShoe == 1 && s.mode != Watcher && r.sessionPnl < s.tier.stopLoss * 0.5)
  {
  }

  /** And it does fire: in shoe 1, outside the Iron Gate, a hand that does not close
      the gate and leaves the session below half the stop-loss sets the tripwire. */
  lemma TripwireFires(s: Session, won: bool, amountWon: real)
    requires s.currentShoe in s.shoePnls
    requires s.currentShoe == 1 && s.mode != Watcher && !s.shoe1TripwireTriggered
    requires won || s.consecutiveLosses + 1 < GateLimit(s.tier.level)
    requires s.sessionPnl + amountWon < s.tier.stopLoss * 0.5
    ensures AfterHand(s, won, amountWon).shoe1TripwireTriggered
  {
  }

  // ---------------------------------------------------------------------
  // Many hands (one call per resolved hand)
  // ---------------------------------------------------------------------

  datatype Hand = Hand(won: bool, amount: real)

  function PlayHands(s: Session, hands: seq<Hand>): (r: Session)
    requires s.currentShoe in s.shoePnls
    ensures r.currentShoe == s.currentShoe && r.shoePnls.Keys == s.shoePnls.Keys
    decreases |hands|
  {
    if hands == [] then s
    else PlayHands(AfterHand(s, hands[0].won, hands[0].amount), hands[1..])
  }

  function TotalAmount(hands: seq<Hand>): real
    decreases |hands|
  {
    if hands == [] then 0.0 else hands[0].amount + TotalAmount(hands[1..])
  }

  /** After any sequence of hands the invariant still holds: the per-shoe results
      still add up to the session result. */
  lemma {:induction false} PlayHandsValid(s: Session, hands: seq<Hand>)
    requires s.Valid()
    ensures PlayHands(s, hands).Valid()
    decreases |hands|
  {
    if hands != [] {
      AfterHandValid(s, hands[0].won, hands[0].amount);
      PlayHandsValid(AfterHand(s, hands[0].won, hands[0].amount), hands[1..]);
    }
  }

  /** The session result moves by exactly the sum of the amounts, one hand is counted
      per call, and the press counter never moves. */
  lemma {:induction false} PlayHandsBooks(s: Session, hands: seq<Hand>)
    requires s.currentShoe in s.shoePnls
    ensures var r := PlayHands(s, hands);
      && r.sessionPnl == s.sessionPnl + TotalAmount(hands)
      && r.handsPlayedInShoe == s.handsPlayedInShoe + |hands|
      && r.pressesThisShoe == s.pressesThisShoe
      && r.tier == s.tier
    decreases |hands|
  {
    if hands != [] {
      var next := AfterHand(s, hands[0].won, hands[0].amount);
      AfterHandBooks(s, hands[0].won, hands[0].amount);
      PlayHandsBooks(next, hands[1..]);
    }
  }

  /** No sequence of hands clears the tripwire. */
  lemma {:induction false} PlayHandsKeepsTripwire(s: Session, hands: seq<Hand>)
    requires s.currentShoe in s.shoePnls && s.shoe1TripwireTriggered
    ensures PlayHands(s, hands).shoe1TripwireTriggered
    decreases |hands|
  {
    if hands != [] {
      TripwireOneShot(s, hands[0].won, hands[0].amount);
      PlayHandsKeepsTripwire(AfterHand(s, hands[0].won, hands[0].amount), hands[1..]);
    }
  }

  /** Hands that move no money (the bets a stopped decision makes) leave a stop in
      force, whatever their outcome. */
  lemma {:induction false} StopPersistsOverZeroBets(s: Session, hands: seq<Hand>, ytdPnl: real)
    requires s.currentShoe in s.shoePnls
    requires GetNextDecision(s, ytdPnl).mode == Stopped
    requires forall i :: 0 <= i < |hands| ==> hands[i].amount == 0.0
    ensures GetNextDecision(PlayHands(s, hands), ytdPnl) == GetNextDecision(s, ytdPnl)
    decreases |hands|
  {
    if hands != [] {
      var next := AfterHand(s, hands[0].won, hands[0].amount);
      AfterHandBooks(s, hands[0].won, hands[0].amount);
      assert GetNextDecision(next, ytdPnl) == GetNextDecision(s, ytdPnl);
      StopPersistsOverZeroBets(next, hands[1..], ytdPnl);
    }
  }
}
