/**
  The claim ledger.  It only grows, never repeats an identifier, and makes every
  gate transition take effect exactly once however often its call is repeated.
 */
module Claims {
  import opened KernelTypes
  import opened Lookup
  import opened GateRules
  import opened Dispatcher
  import opened Effects

  // ------------------------------------------------------------ the ledger

  /** The claims of `after` are those of `before` and at most the action's own. */
  predicate LedgerGrows(before: seq<Claim>, after: seq<Claim>, a: Action) {
    || after == before
    || (&& FindClaim(before, a.threshold.claim) == |before| && a.threshold.claim != 0
        && exists failed: bool :: after == before + [NewClaim(a, failed)])
  }

  lemma SettlementLedger(w: World, a: Action, before: seq<EventKind>)
    requires Known(w, a.actor) && FindGate(w.gates, a.threshold.gate) < |w.gates|
    ensures var o := SettleTransition(w, a, before);
            if o.status == Success then o.world.claims == w.claims + [NewClaim(a, false)] else o.world == w
  {
    hide ItemRefusal;
  }

  lemma TransitionLedger(w: World, a: Action, seed: Seed)
    ensures var o := ApplyGateTransition(w, a, seed);
            LedgerGrows(w.claims, o.world.claims, a)
    ensures var o := ApplyGateTransition(w, a, seed);
            o.status == Success ==>
              && a.threshold.claim != 0
              && (FindClaim(w.claims, a.threshold.claim) == |w.claims| ==>
                    exists failed: bool :: o.world.claims == w.claims + [NewClaim(a, failed)])
  {
    hide TransitionRefusal;
    hide CheckTotal;
    hide SettlementRefusal;
    if Known(w, a.actor) && FindGate(w.gates, a.threshold.gate) < |w.gates| {
      SettlementLedger(w, a, []);
      SettlementLedger(w, a, [AbilityCheckRolled(CheckTotal(GetActor(w, a.actor), a, seed) >= a.dc)]);
    }
    hide SettleTransition;
  }

  lemma StepLedger(w: World, c: Call)
    ensures LedgerGrows(w.claims, Step(w, c).world.claims, c.action)
    ensures c.action.kind == GateTransition && Step(w, c).status == Success ==>
              IsRetry(Step(w, c).world.claims, c.action)
  {
    hide ApplyItemRule;
    hide ApplyCombatRule;
    hide ApplyActorRule;
    hide ApplyGateTransition;
    hide ApplyReport;
    hide BarredByCombat;
    if c.action.kind != GateTransition {
      RuleFrame(Clocked(w, c), c);
      hide ApplyRule;
    } else if !NamesRecordedClaim(w.claims, c.action) {
      var o := ApplyRule(Clocked(w, c), c);
      assert o == ApplyGateTransition(Clocked(w, c), c.action, c.seed);
      hide ApplyRule;
      TransitionLedger(Clocked(w, c), c.action, c.seed);
      if !BarredByCombat(w, c.action) && o.status == Success {
        assert FindClaim(w.claims, c.action.threshold.claim) == |w.claims|;
        var failed :| o.world.claims == w.claims + [NewClaim(c.action, failed)];
        AppendedClaimIsFound(w.claims, c.action, failed);
      }
    }
  }

  lemma AppendedClaimIsFound(claims: seq<Claim>, a: Action, failed: bool)
    requires a.kind == GateTransition && a.threshold.claim != 0
    requires FindClaim(claims, a.threshold.claim) == |claims|
    ensures IsRetry(claims + [NewClaim(a, failed)], a)
  {
    var longer := claims + [NewClaim(a, failed)];
    assert longer[|claims|].id == a.threshold.claim;
    assert forall j :: 0 <= j < |claims| ==> longer[j] == claims[j];
  }

  /** A recorded claim keeps its place as the ledger grows. */
  lemma RecordedStaysRecorded(shorter: seq<Claim>, longer: seq<Claim>, a: Action)
    requires shorter <= longer
    ensures NamesRecordedClaim(shorter, a) ==> NamesRecordedClaim(longer, a)
    ensures NamesRecordedClaim(shorter, a) ==> IsRetry(shorter, a) == IsRetry(longer, a)
  {
    var i, k := FindClaim(shorter, a.threshold.claim), FindClaim(longer, a.threshold.claim);
    assert forall j :: 0 <= j < |shorter| ==> shorter[j] == longer[j];
    if i < |shorter| {
      assert i == k;
    }
  }

  predicate DistinctClaims(claims: seq<Claim>) {
    && (forall i :: 0 <= i < |claims| ==> claims[i].id != 0)
    && forall i, j :: 0 <= i < j < |claims| ==> claims[i].id != claims[j].id
  }

  lemma StepKeepsClaimsDistinct(w: World, c: Call)
    requires DistinctClaims(w.claims)
    ensures DistinctClaims(Step(w, c).world.claims)
  {
    StepLedger(w, c);
    hide Step;
  }

  // ---------------------------------------------------------------- one call

  /** A matching repeat of a recorded claim is accepted and does nothing: no
      clock, no revision, no event, no roll. */
  lemma RetryIsInert(k: Kernel, c: Call)
    requires IsRetry(k.world.claims, c.action)
    ensures Step(k.world, c) == Outcome(Success, k.world, [])
    ensures Advance(k, c) == k
  {
    hide ApplyRule;
  }

  /** A recorded identifier used for anything else is refused and changes nothing. */
  lemma ReuseIsRefused(w: World, c: Call)
    requires NamesRecordedClaim(w.claims, c.action) && !IsRetry(w.claims, c.action)
    ensures Step(w, c) == Outcome(ErrRule, w, [RuleRejected(GateClaimConflict)])
  {
    hide ApplyRule;
  }

  // -------------------------------------------------------------- whole runs

  lemma {:induction false} LedgerOnlyGrows(k: Kernel, calls: seq<Call>)
    ensures k.world.claims <= Run(k, calls).world.claims
    ensures DistinctClaims(k.world.claims) ==> DistinctClaims(Run(k, calls).world.claims)
    decreases |calls|
  {
    hide Step;
    if calls != [] {
      StepLedger(k.world, calls[0]);
      if DistinctClaims(k.world.claims) {
        StepKeepsClaimsDistinct(k.world, calls[0]);
      }
      LedgerOnlyGrows(Advance(k, calls[0]), calls[1..]);
    }
  }

  /** The calls that are not matching repeats of the given claims. */
  function WithoutRetries(claims: seq<Claim>, calls: seq<Call>): seq<Call>
    decreases |calls|
  {
    if calls == [] then []
    else (if IsRetry(claims, calls[0].action) then [] else [calls[0]]) + WithoutRetries(claims, calls[1..])
  }

  /** Exactly once, as seen from outside: wherever repeats of recorded claims are
      scattered through a run, the final world, the sequence counter and every
      event are those of the run without them. */
  lemma {:induction false} RetriesAreInvisible(k: Kernel, recorded: seq<Claim>, calls: seq<Call>)
    requires recorded <= k.world.claims
    ensures Run(k, calls) == Run(k, WithoutRetries(recorded, calls))
    ensures Trace(k, calls) == Trace(k, WithoutRetries(recorded, calls))
    decreases |calls|
  {
    hide Step;
    if calls != [] {
      var c, rest := calls[0], calls[1..];
      RecordedStaysRecorded(recorded, k.world.claims, c.action);
      StepLedger(k.world, c);
      if IsRetry(recorded, c.action) {
        RetryIsInert(k, c);
        assert StepLog(k.world, k.nextSeq, c).events == [];
        assert WithoutRetries(recorded, calls) == WithoutRetries(recorded, rest);
        RetriesAreInvisible(k, recorded, rest);
      } else {
        RetriesAreInvisible(Advance(k, c), recorded, rest);
        var kept := WithoutRetries(recorded, rest);
        assert WithoutRetries(recorded, calls) == [c] + kept;
        assert ([c] + kept)[0] == c && ([c] + kept)[1..] == kept;
      }
    }
  }

  lemma {:induction false} RunSplits(k: Kernel, first: seq<Call>, second: seq<Call>)
    ensures Run(k, first + second) == Run(Run(k, first), second)
    decreases |first|
  {
    hide Step;
    if first == [] {
      assert first + second == second;
    } else {
      assert (first + second)[0] == first[0] && (first + second)[1..] == first[1..] + second;
      RunSplits(Advance(k, first[0]), first[1..], second);
    }
  }

  /** Exactly once, as seen inside a run: after a transition has succeeded under a
      claim identifier, every later transition call under that identifier leaves
      the world alone and writes at most a refusal. */
  lemma ExactlyOnce(k: Kernel, calls: seq<Call>, i: nat, j: nat)
    requires i < j < |calls|
    requires calls[i].action.kind == GateTransition && calls[j].action.kind == GateTransition
    requires calls[i].action.threshold.claim == calls[j].action.threshold.claim
    requires Step(Run(k, calls[..i]).world, calls[i]).status == Success
    ensures var now := Run(k, calls[..j]).world;
            var o := Step(now, calls[j]);
            o.world == now && (o.events == [] || o.events == [RuleRejected(GateClaimConflict)])
  {
    hide Step;
    var before := Run(k, calls[..i]);
    var after := Advance(before, calls[i]);
    var now := Run(k, calls[..j]);
    StepLedger(before.world, calls[i]);
    assert now == Run(after, calls[i + 1..j]) by {
      assert calls[..j] == calls[..i] + calls[i..j];
      RunSplits(k, calls[..i], calls[i..j]);
      assert calls[i..j][0] == calls[i] && calls[i..j][1..] == calls[i + 1..j];
    }
    LedgerOnlyGrows(after, calls[i + 1..j]);
    RecordedStaysRecorded(after.world.claims, now.world.claims, calls[i].action);
    if IsRetry(now.world.claims, calls[j].action) {
      RetryIsInert(now, calls[j]);
    } else {
      ReuseIsRefused(now.world, calls[j]);
    }
  }
}
