/** The second way to lose a target: two monitors process one UE at once and put in the opposite
    order of their indications. After any disciplined run and for any further indication of the
    UE, this module proves exactly when every way of coming to rest meets its target. */
module LookupRace {
  import opened Wrappers
  import opened UeKey
  import opened HandoverTypes
  import opened Interleaving
  import opened PutRace
  import opened TargetLost
  import opened TargetMet
  import NoStuckHandover
  import Quiescence

  /** What looking up an indication of the UE changes. */
  ghost predicate LookedUp(s: Sys, t: Sys, ind: Indication, key: string) {
    && t.heap == s.heap && t.records == s.records && t.inFlight == s.inFlight && t.handlers == s.handlers
    && t.controls == s.controls && LastTarget(t, key) == Some(ind.tgtCellId)
    && (forall n: NodeId :: n != ind.node ==> MonitorOf(t, n) == MonitorOf(s, n))
    && MonitorOf(s, ind.node) == Waits
    && MonitorOf(t, ind.node) == if key in s.records then Present(ind) else PutNew(ind)
  }

  lemma LookupFacts(ws: set<Recipient>, s: Sys, ind: Indication, key: string)
    requires Enabled(ws, s, Lookup(ind)) && RendersTo(ind.rawUeId, key)
    ensures LookedUp(s, Do(ws, s, Lookup(ind)), ind, key)
  {
    LogKept(ws, s, Lookup(ind), key);
    hide GenerateGnbUeIDString, LastTarget;
  }

  lemma LookedUpFacts(s: Sys, t: Sys, ind: Indication, key: string)
    requires LookedUp(s, t, ind, key) && RendersTo(ind.rawUeId, key)
    ensures NoRival(t, key, ind.tgtCellId) <==> NoRival(s, key, ind.tgtCellId)
    ensures HasTarget(t, key, ind.tgtCellId) <==> HasTarget(s, key, ind.tgtCellId)
    ensures Setting(t, ind.node, key, ind.tgtCellId)
  {
    hide GenerateGnbUeIDString, LastTarget;
    var target := ind.tgtCellId;
    forall n: NodeId ensures Rival(t, n, key, target) <==> Rival(s, n, key, target) {
      if n != ind.node {
        assert MonitorOf(t, n) == MonitorOf(s, n);
      }
    }
  }

  lemma SameContention(s: Sys, t: Sys, key: string)
    requires t.heap == s.heap && t.records == s.records && t.inFlight == s.inFlight && t.handlers == s.handlers
    ensures Contended(t, key) <==> Contended(s, key)
  {
    forall r, e ensures Acting(t, key, r, e) <==> Acting(s, key, r, e) {
    }
    forall r ensures Took(t, key, r) <==> Took(s, key, r) {
    }
    forall r ensures Holds(t, r, key) <==> Holds(s, r, key) {
    }
    hide Acting, Took, Holds;
  }

  // ---------- meeting the target ----------

  /** A done entry, or one sent for, has the last control attempt, and that names its target. */
  lemma NamedOrUnsent(s: Sys, key: string, target: string)
    requires Coherent(s, key) && ControlsMatch(s, key) && HasTarget(s, key, target)
    ensures LastControlNames(s, key, target) || Unsent(s, key)
  {
    hide Holds, RefHeld, SentFor;
    if n: NodeId :| SentFor(s, n, key) {
      assert LastControlIs(s, key, ControlFor(s.heap[s.records[key]]));
    }
  }

  lemma SameHandling(s: Sys, t: Sys, key: string)
    requires t.heap == s.heap && t.records == s.records && t.handlers == s.handlers && t.controls == s.controls
    ensures Coherent(s, key) ==> Coherent(t, key)
    ensures ControlsMatch(s, key) ==> ControlsMatch(t, key)
  {
    forall r ensures Holds(t, r, key) <==> Holds(s, r, key) {
    }
    forall n: NodeId ensures SentFor(t, n, key) <==> SentFor(s, n, key) {
    }
    hide Holds, SentFor;
  }

  /** The entry has the target already. */
  lemma RepeatIsNamed(s: Sys, t: Sys, ind: Indication, key: string)
    requires Serial(s, key) && LookedUp(s, t, ind, key) && RendersTo(ind.rawUeId, key)
    requires NoRival(s, key, ind.tgtCellId) && HasTarget(s, key, ind.tgtCellId)
    ensures OneTarget(t, key, ind.tgtCellId)
  {
    LookedUpFacts(s, t, ind, key);
    SameHandling(s, t, key);
    hide LastTarget, NoRival, MonitorsServe, ControlsMatch, Unsent, LastControlNames, Holds, GenerateGnbUeIDString;
    NamedOrUnsent(t, key, ind.tgtCellId);
  }

  lemma SerialMeets(ws: set<Recipient>, s: Sys, ind: Indication, key: string)
    requires Inv(ws, s) && NoStuckHandover.Moves(s) && Serial(s, key)
    requires Enabled(ws, s, Lookup(ind)) && RendersTo(ind.rawUeId, key) && NoRival(s, key, ind.tgtCellId)
    requires HasTarget(s, key, ind.tgtCellId) || !Contended(s, key)
    ensures AlwaysOnTarget(ws, Do(ws, s, Lookup(ind)), key)
  {
    LookupFacts(ws, s, ind, key);
    hide Do, Enabled, Inv, Serial, NoStuckHandover.Moves, AlwaysOnTarget, NoRival, HasTarget, Contended, OneTarget,
         Setting, GenerateGnbUeIDString;
    var t := Do(ws, s, Lookup(ind));
    StepKeepsInv(ws, s, Lookup(ind));
    NoStuckHandover.StepKeepsMoves(ws, s, Lookup(ind));
    LookedUpFacts(s, t, ind, key);
    if HasTarget(s, key, ind.tgtCellId) {
      RepeatIsNamed(s, t, ind, key);
    } else {
      SameContention(s, t, key);
    }
    CourseIsMet(ws, t, key, ind.tgtCellId);
  }

  // ---------- losing the target ----------

  /** At most one other monitor is busy with the UE. */
  lemma BusyPair(s: Sys, t: Sys, ind: Indication, key: string) returns (n: NodeId)
    requires MonitorsServe(s, key) && LookedUp(s, t, ind, key)
    ensures OnlyBusy(t, key, ind.node, n)
    ensures forall q: NodeId :: Rival(s, q, key, ind.tgtCellId) ==> q == n && n != ind.node && Rival(t, n, key, ind.tgtCellId)
  {
    hide GenerateGnbUeIDString, LastTarget, HasTarget;
    if q: NodeId :| BusyOn(s, q, key) {
      n := q;
    } else {
      n := ind.node;
    }
    forall q: NodeId | BusyOn(t, q, key) ensures q == ind.node || q == n {
      if q != ind.node {
        assert BusyOn(s, q, key);
      }
    }
    forall q: NodeId | Rival(s, q, key, ind.tgtCellId)
      ensures q == n && n != ind.node && Rival(t, n, key, ind.tgtCellId)
    {
      assert BusyOn(s, q, key);
    }
  }

  lemma LookupSets(s: Sys, t: Sys, ind: Indication, key: string)
    requires LookedUp(s, t, ind, key) && RendersTo(ind.rawUeId, key)
    ensures SetsTarget(t, ind.node, key, ind.tgtCellId)
  {
    hide GenerateGnbUeIDString;
  }

  lemma SerialLoses(ws: set<Recipient>, s: Sys, ind: Indication, key: string)
    requires Inv(ws, s) && Serial(s, key) && Enabled(ws, s, Lookup(ind)) && RendersTo(ind.rawUeId, key)
    requires !NoRival(s, key, ind.tgtCellId) || !(HasTarget(s, key, ind.tgtCellId) || !Contended(s, key))
    ensures !AlwaysOnTarget(ws, Do(ws, s, Lookup(ind)), key)
  {
    LookupFacts(ws, s, ind, key);
    var t := Do(ws, s, Lookup(ind));
    var target := ind.tgtCellId;
    CoherentKept(ws, s, Lookup(ind), key);
    StepKeepsInv(ws, s, Lookup(ind));
    var n := BusyPair(s, t, ind, key);
    LookedUpFacts(s, t, ind, key);
    SameContention(s, t, key);
    LookupSets(s, t, ind, key);
    hide Do, Enabled, Inv, Serial, AlwaysOnTarget, HasTarget, Contended, OnlyBusy, Coherent, SetsTarget, Rival, LastTarget;
    if Contended(s, key) && !HasTarget(s, key, target) {
      ContendedLoses(ws, t, key, target, ind.node, n);
    } else {
      var q: NodeId :| Rival(s, q, key, target);
      NotContended(t, key);
      ReleasedRivalLoses(ws, t, key, target, ind.node, n);
    }
  }

  lemma NotContended(s: Sys, key: string)
    ensures !Contended(s, key) ==> NoHolder(s, key)
  {
  }

  // ---------- the condition is exact ----------

  /** After any disciplined run, let a monitor look up a further indication of the UE. Every way
      of coming to rest after it has the entry and the last control attempt name the
      indication's target exactly if no other monitor may yet put another target, and either
      the entry has the target already or no handler holds or is about to hold the entry. */
  lemma LookupRaceExact(ws: set<Recipient>, steps: seq<Step>, ind: Indication, key: string)
    requires Controller in ws && Legal(ws, Start, steps) && DisciplinedRun(ws, Start, steps, key)
    requires Enabled(ws, Run(ws, Start, steps), Lookup(ind)) && RendersTo(ind.rawUeId, key)
    ensures var s := Run(ws, Start, steps);
            AlwaysOnTarget(ws, Do(ws, s, Lookup(ind)), key) <==>
              && NoRival(s, key, ind.tgtCellId)
              && (HasTarget(s, key, ind.tgtCellId) || !Contended(s, key))
  {
    StartInv(ws);
    StartSerial(key);
    hide Legal, Run, Do, Enabled, Inv, Serial, DisciplinedRun, AlwaysOnTarget, NoRival, HasTarget, Contended,
         NoStuckHandover.Moves, GenerateGnbUeIDString;
    var s := Run(ws, Start, steps);
    RunKeepsInv(ws, Start, steps);
    RunKeepsSerial(ws, Start, steps, key);
    NoStuckHandover.RunKeepsMoves(ws, Start, steps);
    if NoRival(s, key, ind.tgtCellId) && (HasTarget(s, key, ind.tgtCellId) || !Contended(s, key)) {
      SerialMeets(ws, s, ind, key);
    } else {
      SerialLoses(ws, s, ind, key);
    }
  }
}
