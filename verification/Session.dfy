/** Overflow recovery of a session: prune harder, compact harder, level by level. */
module Session {
  import opened Wrappers
  import opened Texts
  import opened Messages
  import opened ContextPruner
  import opened TokenEstimate
  import opened Conversation
  import opened Compactor

  datatype RecoveryLevel = RecoveryLevel(hardPruneAfter: int, maxToolResultChars: int, softPruneLines: int,
                                         keepRecent: int)

  const LEVELS := [
    RecoveryLevel(10, 2000, 5, 0),
    RecoveryLevel(5, 1000, 4, 0),
    RecoveryLevel(3, 600, 3, 0),
    RecoveryLevel(0, 400, 3, 3),
    RecoveryLevel(0, 200, 2, 1)
  ]

  /** What recovery reads of its surroundings: a size limit, a cap on model calls and the model's summaries. */
  datatype Recovery = Recovery(safeThreshold: int, maxCompactCalls: int, answers: nat -> nat -> string)

  function ViewTokens(h: History, enabled: bool, o: Options): nat {
    HistoryTokens(if enabled then Pruned(h, o).messages else h)
  }

  function AtLevel(o: Options, l: RecoveryLevel): Options {
    o.(hardPruneAfter := l.hardPruneAfter, maxToolResultChars := l.maxToolResultChars,
       softPruneLines := l.softPruneLines)
  }

  function LevelKeep(i: nat, c: Config): int
    requires i < |LEVELS|
  {
    if LEVELS[i].keepRecent == 0 && i == 1 then Max(Halved(c.keepRecent), 3) else LEVELS[i].keepRecent
  }

  /** C++ division by two: towards zero. */
  function Halved(n: int): int {
    if n >= 0 then n / 2 else -((-n) / 2)
  }

  datatype Recovered = Recovered(history: History, options: Options, ok: bool)

  datatype AfterLevel = AfterLevel(history: History, options: Options, calls: nat, fits: bool)

  /** One recovery level: prune at the level; if that is not enough and calls remain, compact too. */
  function OneLevel(i: nat, calls: nat, h: History, o: Options, enabled: bool, c: Config, r: Recovery): AfterLevel
    requires i < |LEVELS|
  {
    var o1 := AtLevel(o, LEVELS[i]);
    if ViewTokens(h, enabled, o1) < r.safeThreshold then AfterLevel(h, o1, calls, true)
    else if calls >= r.maxCompactCalls then AfterLevel(h, o1, calls, false)
    else
      var h1 := Compaction(h, LevelKeep(i, c), c, r.answers(calls));
      AfterLevel(h1, o1, calls + 1, ViewTokens(h1, enabled, o1) < r.safeThreshold)
  }

  function RecoverFrom(i: nat, calls: nat, h: History, o: Options, enabled: bool, c: Config, r: Recovery): Recovered
    requires i <= |LEVELS|
    decreases |LEVELS| - i
  {
    if i == |LEVELS| then Recovered(h, o, false)
    else
      var l := OneLevel(i, calls, h, o, enabled, c, r);
      if l.fits then Recovered(l.history, l.options, true)
      else RecoverFrom(i + 1, l.calls, l.history, l.options, enabled, c, r)
  }

  /** With a reset cache the token count is that of the full pruning. */
  method FreshTokens(history: ConversationHistory) returns (n: int)
    requires history.Valid() && history.pruneDirty && history.lastPrunedCount == 0
    modifies history
    ensures history.Valid() && !history.pruneDirty && (history.pruneEnabled ==> history.Current())
    ensures n == ViewTokens(history.messages, history.pruneEnabled, history.pruneOptions)
    ensures history.messages == old(history.messages)
    ensures history.pruneEnabled == old(history.pruneEnabled) && history.pruneOptions == old(history.pruneOptions)
  {
    var tokens := history.PrunedTokens();
    n := tokens.value;
    if history.pruneEnabled {
      FreshViewIsCurrent(history);
    }
  }

  method RunLevel(history: ConversationHistory, compactor: Compactor, i: nat, calls: nat, r: Recovery)
    returns (callsAfter: nat, fits: bool)
    requires history.Valid() && i < |LEVELS|
    modifies history, compactor
    ensures history.Valid() && history.pruneEnabled == old(history.pruneEnabled)
    ensures !history.pruneDirty && (history.pruneEnabled ==> history.Current())
    ensures AfterLevel(history.messages, history.pruneOptions, callsAfter, fits)
         == OneLevel(i, calls, old(history.messages), old(history.pruneOptions), old(history.pruneEnabled),
                     compactor.config, r)
  {
    hide Compaction, Pruned, AtLevel;
    var level := LEVELS[i];
    history.SetPruneConfig(history.pruneEnabled, AtLevel(history.pruneOptions, level));
    history.InvalidateAllCache();
    var estimated := FreshTokens(history);
    if estimated < r.safeThreshold {
      return calls, true;
    }
    if calls >= r.maxCompactCalls {
      return calls, false;
    }
    var keep := level.keepRecent;
    if keep == 0 && i == 1 {
      keep := Max(Halved(compactor.config.keepRecent), 3);
    }
    compactor.Compact(history, r.answers(calls), keep);
    history.InvalidateAllCache();
    estimated := FreshTokens(history);
    return calls + 1, estimated < r.safeThreshold;
  }

  method ForceCompact(history: ConversationHistory, compactor: Compactor, r: Recovery) returns (ok: bool)
    requires history.Valid()
    modifies history, compactor
    ensures history.Valid() && history.pruneEnabled == old(history.pruneEnabled)
    ensures !history.pruneDirty && (history.pruneEnabled ==> history.Current())
    ensures Recovered(history.messages, history.pruneOptions, ok)
         == RecoverFrom(0, 0, old(history.messages), old(history.pruneOptions), old(history.pruneEnabled),
                        compactor.config, r)
  {
    hide OneLevel, ConversationHistory.Valid, ConversationHistory.Current;
    var calls := 0;
    var i := 0;
    ghost var result := RecoverFrom(0, 0, history.messages, history.pruneOptions, history.pruneEnabled,
                                    compactor.config, r);
    while i < |LEVELS|
      invariant 0 <= i <= |LEVELS| && 0 <= calls
      invariant history.Valid() && history.pruneEnabled == old(history.pruneEnabled)
      invariant i > 0 ==> !history.pruneDirty && (history.pruneEnabled ==> history.Current())
      invariant result
             == RecoverFrom(i, calls, history.messages, history.pruneOptions, history.pruneEnabled, compactor.config, r)
    {
      var fits;
      calls, fits := RunLevel(history, compactor, i, calls, r);
      if fits {
        return true;
      }
      i := i + 1;
    }
    return false;
  }

  lemma {:induction false} RecoveryKeepsProtection(i: nat, calls: nat, h: History, o: Options, enabled: bool,
                                                   c: Config, r: Recovery)
    requires i <= |LEVELS|
    ensures RecoverFrom(i, calls, h, o, enabled, c, r).options.protectRecent == o.protectRecent
    decreases |LEVELS| - i
  {
    if i < |LEVELS| {
      var l := OneLevel(i, calls, h, o, enabled, c, r);
      RecoveryKeepsProtection(i + 1, l.calls, l.history, l.options, enabled, c, r);
    }
  }

  /** Recovery keeps pairing and never touches the protected zone's size. */
  lemma {:induction false} RecoveryKeepsPairing(i: nat, calls: nat, h: History, o: Options, enabled: bool, c: Config,
                                                r: Recovery)
    requires i <= |LEVELS| && Paired(h)
    ensures Paired(RecoverFrom(i, calls, h, o, enabled, c, r).history)
    ensures RecoverFrom(i, calls, h, o, enabled, c, r).options.protectRecent == o.protectRecent
    decreases |LEVELS| - i
  {
    RecoveryKeepsProtection(i, calls, h, o, enabled, c, r);
    if i < |LEVELS| {
      var l := OneLevel(i, calls, h, o, enabled, c, r);
      CompactionKeepsPairing(h, LevelKeep(i, c), c, r.answers(calls));
      RecoveryKeepsPairing(i + 1, l.calls, l.history, l.options, enabled, c, r);
    }
  }

  /** Recovery keeps the one system message, whatever it compacts. */
  lemma {:induction false} RecoveryKeepsSystem(i: nat, calls: nat, h: History, o: Options, enabled: bool, c: Config,
                                               r: Recovery, m: Message)
    requires i <= |LEVELS| && OnlySystem(h, m)
    ensures OnlySystem(RecoverFrom(i, calls, h, o, enabled, c, r).history, m)
    decreases |LEVELS| - i
  {
    if i < |LEVELS| {
      hide ViewTokens, Compaction, OnlySystem;
      var l := OneLevel(i, calls, h, o, enabled, c, r);
      CompactionKeepsOnlySystem(h, LevelKeep(i, c), c, r.answers(calls), m);
      RecoveryKeepsSystem(i + 1, l.calls, l.history, l.options, enabled, c, r, m);
    }
  }

  // ---------------------------------------------------------------- what a recovery went through

  /** What level `i` sets: strip beyond, cut results over, lines to keep. */
  predicate SetAt(i: nat, before: Options, after: Options)
    requires i < 5
  {
    && after.hardPruneAfter == [10, 5, 3, 0, 0][i]
    && after.maxToolResultChars == [2000, 1000, 600, 400, 200][i]
    && after.softPruneLines == [5, 4, 3, 3, 2][i]
    && after.protectRecent == before.protectRecent
  }

  /** How many rounds level `i` asks for; 0 leaves it to the compactor. */
  function Asked(i: nat, keepRecent: int): int
    requires i < 5
  {
    [0, if keepRecent < 6 then 3 else keepRecent / 2, 0, 3, 1][i]
  }

  /** Level `i` compacts only if stricter pruning is not enough and a call is left; `fits` is what it measures last. */
  ghost predicate LevelDoes(i: nat, before: AfterLevel, after: AfterLevel, enabled: bool, c: Config, r: Recovery)
    requires i < 5
  {
    var view := (h: History) => HistoryTokens(if enabled then Pruned(h, after.options).messages else h);
    && SetAt(i, before.options, after.options)
    && (after.fits <==> view(after.history) < r.safeThreshold)
    && if view(before.history) < r.safeThreshold || before.calls >= r.maxCompactCalls then
         after.history == before.history && after.calls == before.calls
       else
         && after.history == Compaction(before.history, Asked(i, c.keepRecent), c, r.answers(before.calls))
         && after.calls == before.calls + 1
  }

  lemma OneLevelDoes(i: nat, before: AfterLevel, enabled: bool, c: Config, r: Recovery)
    requires i < |LEVELS|
    ensures LevelDoes(i, before, OneLevel(i, before.calls, before.history, before.options, enabled, c, r), enabled, c,
                      r)
  {
    hide Compaction, HistoryTokens, Pruned;
    assert |LEVELS| == 5;
    var after := OneLevel(i, before.calls, before.history, before.options, enabled, c, r);
    assert after.options == AtLevel(before.options, LEVELS[i]);
    if i == 0 {
    } else if i == 1 {
      assert Max(Halved(c.keepRecent), 3) == if c.keepRecent < 6 then 3 else c.keepRecent / 2;
    } else if i == 2 {
    } else if i == 3 {
    } else {
      assert i == 4;
    }
  }

  /** The levels from `i` on, each from where the one before it stopped; none but the last fits. */
  ghost predicate Trail(i: nat, start: AfterLevel, levels: seq<AfterLevel>, enabled: bool, c: Config, r: Recovery)
    decreases |levels|
  {
    i + |levels| <= 5 &&
    (levels != [] ==>
      && LevelDoes(i, start, levels[0], enabled, c, r)
      && (levels[0].fits ==> |levels| == 1)
      && Trail(i + 1, levels[0], levels[1..], enabled, c, r))
  }

  /**
   A recovery goes through the levels in order and ends at the first whose view fits, or fails after the fifth; its
   history and settings are those of the level it ended at.
   */
  lemma {:induction false} RecoveryTrail(i: nat, start: AfterLevel, enabled: bool, c: Config, r: Recovery)
    returns (levels: seq<AfterLevel>)
    requires i <= |LEVELS| && |LEVELS| == 5
    ensures Trail(i, start, levels, enabled, c, r)
    ensures var end := if levels == [] then start else levels[|levels| - 1];
            var ok := levels != [] && end.fits;
            && (!ok ==> i + |levels| == 5)
            && RecoverFrom(i, start.calls, start.history, start.options, enabled, c, r)
            == Recovered(end.history, end.options, ok)
    decreases |LEVELS| - i
  {
    hide OneLevel, LevelDoes;
    levels := [];
    if i < |LEVELS| {
      var l := OneLevel(i, start.calls, start.history, start.options, enabled, c, r);
      OneLevelDoes(i, start, enabled, c, r);
      var rest := [];
      if !l.fits {
        rest := RecoveryTrail(i + 1, l, enabled, c, r);
      }
      levels := [l] + rest;
      assert levels[1..] == rest;
      assert rest != [] ==> levels[|levels| - 1] == rest[|rest| - 1];
    }
  }

  /** A successful recovery leaves a view below the safe size. */
  lemma {:induction false} RecoveryFits(i: nat, calls: nat, h: History, o: Options, enabled: bool, c: Config,
                                        r: Recovery)
    requires i <= |LEVELS|
    ensures var x := RecoverFrom(i, calls, h, o, enabled, c, r);
            x.ok ==> ViewTokens(x.history, enabled, x.options) < r.safeThreshold
    decreases |LEVELS| - i
  {
    if i < |LEVELS| {
      var l := OneLevel(i, calls, h, o, enabled, c, r);
      RecoveryFits(i + 1, l.calls, l.history, l.options, enabled, c, r);
    }
  }

  /**
   The last two levels strip everything the recent zone does not protect; whenever that zone is not
   empty they leave overlapping zones behind, the options under which the incremental view is unsound.
   */
  lemma DeepRecoveryOverlapsZones(i: nat, calls: nat, h: History, o: Options, enabled: bool, c: Config, r: Recovery)
    requires 3 <= i < |LEVELS|
    ensures SeparateZones(OneLevel(i, calls, h, o, enabled, c, r).options) <==> o.protectRecent <= 0
  {
    assert LEVELS[3].hardPruneAfter == 0 && LEVELS[4].hardPruneAfter == 0;
  }
}
