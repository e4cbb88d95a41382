/**
 * When a proposal is lost: a confirming call of apps/bff/src/params-service.ts
 * clears its slot some awaits after it read what was open there.
 */
module ParamsServiceLoss {
  import opened Wrappers
  import opened Actors
  import opened ParamsService
  import opened ParamsServiceCall

  /** The state before step `n` of a schedule. */
  function Before(definitions: map<string, Definition>, schedule: seq<Event>, n: nat): State
    requires n <= |schedule|
  {
    Run(Start(definitions), schedule[..n])
  }

  lemma NextState(definitions: map<string, Definition>, schedule: seq<Event>, n: nat)
    requires n < |schedule|
    ensures var s := Before(definitions, schedule, n);
            Before(definitions, schedule, n + 1) == Step(s, schedule[n]) && Grows(s, Step(s, schedule[n])) && Inv(s)
  {
    hide Step, Grows, ValuesHold, PendingHolds, CallHolds;
    assert schedule[..n + 1][..n] == schedule[..n];
    RunKeepsInv(definitions, schedule[..n]);
    StepGrows(Before(definitions, schedule, n), schedule[n]);
  }

  lemma NothingBefore(definitions: map<string, Definition>, schedule: seq<Event>)
    ensures Before(definitions, schedule, 0) == Start(definitions)
  {
    assert schedule[..0] == [];
  }

  /** Step `n` resumes call `i` at a point of that kind, for that slot. */
  predicate Puts(s: State, e: Event, slot: Slot) {
    e.Resume? && e.call < |s.calls| && s.calls[e.call].point.PutPending? && s.calls[e.call].request.slot == slot
  }

  predicate Clears(s: State, e: Event, slot: Slot) {
    e.Resume? && e.call < |s.calls| && s.calls[e.call].point.ClearPending? && s.calls[e.call].request.slot == slot
  }

  predicate ReadsOpen(s: State, e: Event, i: nat, slot: Slot, writer: nat) {
    && e == Resume(i) && i < |s.calls| && s.calls[i].point.ReadPending? && s.calls[i].request.slot == slot
    && slot in s.pending && s.pending[slot].writer == writer
  }

  /** The plan a call carries towards its write. */
  function PlanOf(p: Point): Option<Plan> {
    match p
    case ReadValues(plan) => Some(plan)
    case ApplyChange(plan, _) => Some(plan)
    case AppendAudit(plan, _) => Some(plan)
    case ClearPending(plan, _) => Some(plan)
    case _ => None
  }

  // ------------------------------------------------------------ one step

  /** What a step does to a slot. */
  lemma StepTouches(s: State, e: Event, slot: Slot)
    requires e.Resume? && e.call < |s.calls| ==> CallHolds(s, e.call)
    ensures !Puts(s, e, slot) && !Clears(s, e, slot) ==>
              (if slot in s.pending then slot in Step(s, e).pending && Step(s, e).pending[slot] == s.pending[slot] else slot !in Step(s, e).pending)
    ensures Clears(s, e, slot) ==> slot !in Step(s, e).pending
    ensures Puts(s, e, slot) ==>
              slot in Step(s, e).pending && Step(s, e).pending[slot].writer == e.call && !s.calls[e.call].point.Done?
  {
    StepEffect(s, e);
    if e.Resume? && e.call < |s.calls| && s.calls[e.call].point.PutPending? {
      var p := s.calls[e.call].point.proposal;
      assert p.writer == e.call && ProposalHolds(s, p);
      hide Step, CallHolds, Taken;
    } else {
      hide Step, CallHolds, ProposalHolds, Taken;
    }
  }

  /** How a call comes by its plan: by reading an open proposal, if its slot is guarded. */
  lemma StepPlans(s: State, e: Event, i: nat)
    requires i < |Step(s, e).calls| && PlanOf(Step(s, e).calls[i].point).Some?
    ensures var t := Step(s, e);
            var slot, plan := t.calls[i].request.slot, PlanOf(t.calls[i].point).value;
            && i < |s.calls| && s.calls[i].request.slot == slot
            && (PlanOf(s.calls[i].point) == Some(plan) || !Guarded(s, slot) || ReadsOpen(s, e, i, slot, plan.confirms))
  {
    StepEffect(s, e);
    hide Latest, Taken, SamePerson;
    if e != Resume(i) {
      hide Step, ReadsOpen;
    } else {
      assert s.calls[i].point.ReadPending? && !Decide(s.pending, s.calls[i].request, i).PutPending? ==> s.calls[i].request.slot in s.pending;
    }
  }

  // ------------------------------------------------------------- whole runs

  /** Call `i` read the open proposal of `writer` at step `r`. */
  predicate ReadAt(definitions: map<string, Definition>, schedule: seq<Event>, r: nat, i: nat, slot: Slot, writer: nat)
    requires r < |schedule|
  {
    ReadsOpen(Before(definitions, schedule, r), schedule[r], i, slot, writer)
  }

  /** A guarded call with a plan has read the proposal it confirms. */
  lemma {:induction false} PlanWasRead(definitions: map<string, Definition>, schedule: seq<Event>, n: nat, i: nat) returns (r: nat)
    requires n <= |schedule| && i < |Before(definitions, schedule, n).calls|
    requires PlanOf(Before(definitions, schedule, n).calls[i].point).Some?
    requires Guarded(Before(definitions, schedule, n), Before(definitions, schedule, n).calls[i].request.slot)
    ensures var s := Before(definitions, schedule, n);
            r < n && ReadAt(definitions, schedule, r, i, s.calls[i].request.slot, PlanOf(s.calls[i].point).value.confirms)
    decreases n
  {
    r := 0;
    NothingBefore(definitions, schedule);
    if n > 0 {
      NextState(definitions, schedule, n - 1);
      var s := Before(definitions, schedule, n - 1);
      StepPlans(s, schedule[n - 1], i);
      hide Before, Step, Inv, ReadsOpen;
      if PlanOf(s.calls[i].point) == PlanOf(Before(definitions, schedule, n).calls[i].point) {
        r := PlanWasRead(definitions, schedule, n - 1, i);
      } else {
        r := n - 1;
      }
    }
  }

  ghost predicate PutBetween(definitions: map<string, Definition>, schedule: seq<Event>, low: nat, high: nat, slot: Slot)
    requires low <= high <= |schedule|
  {
    exists m :: low <= m < high && Puts(Before(definitions, schedule, m), schedule[m], slot)
  }

  ghost predicate ClearBetween(definitions: map<string, Definition>, schedule: seq<Event>, low: nat, high: nat, slot: Slot)
    requires low <= high <= |schedule|
  {
    exists m :: low <= m < high && Clears(Before(definitions, schedule, m), schedule[m], slot)
  }

  lemma BetweenOneMore(definitions: map<string, Definition>, schedule: seq<Event>, low: nat, high: nat, slot: Slot)
    requires low <= high < |schedule|
    ensures PutBetween(definitions, schedule, low, high + 1, slot)
        <==> PutBetween(definitions, schedule, low, high, slot) || Puts(Before(definitions, schedule, high), schedule[high], slot)
    ensures ClearBetween(definitions, schedule, low, high + 1, slot)
        <==> ClearBetween(definitions, schedule, low, high, slot) || Clears(Before(definitions, schedule, high), schedule[high], slot)
  {
    hide Before, Puts, Clears;
  }

  /** A proposal made after `low` has a writer that had not finished then. */
  predicate MadeAfter(s: State, p: Proposal) {
    p.writer < |s.calls| ==> !s.calls[p.writer].point.Done?
  }

  /**
   * What is open at `high` was open at `low` unless something was proposed for
   * the slot in between; then its writer had not finished at `low`.
   */
  lemma {:induction false} OpenSince(definitions: map<string, Definition>, schedule: seq<Event>, low: nat, high: nat, slot: Slot)
    requires low <= high <= |schedule| && slot in Before(definitions, schedule, high).pending
    ensures var s, t := Before(definitions, schedule, low), Before(definitions, schedule, high);
            if PutBetween(definitions, schedule, low, high, slot) then MadeAfter(s, t.pending[slot])
            else !ClearBetween(definitions, schedule, low, high, slot) && slot in s.pending && t.pending[slot] == s.pending[slot]
    decreases high
  {
    if low < high {
      var s, e := Before(definitions, schedule, high - 1), schedule[high - 1];
      NextState(definitions, schedule, high - 1);
      StepTouches(s, e, slot) by {
        assert Inv(s);
      }
      BetweenOneMore(definitions, schedule, low, high - 1, slot);
      if Puts(s, e, slot) {
        DoneStays(definitions, schedule, low, high - 1);
        hide Before, Step, Inv, Grows, Clears, PutBetween, ClearBetween;
      } else {
        hide Before, Step, Inv, Grows, Puts, Clears, PutBetween, ClearBetween, MadeAfter;
        OpenSince(definitions, schedule, low, high - 1, slot);
      }
    }
  }

  lemma {:induction false} DoneStays(definitions: map<string, Definition>, schedule: seq<Event>, low: nat, high: nat)
    requires low <= high <= |schedule|
    ensures var s, t := Before(definitions, schedule, low), Before(definitions, schedule, high);
            |s.calls| <= |t.calls| && forall i | 0 <= i < |s.calls| && s.calls[i].point.Done? :: t.calls[i] == s.calls[i]
    decreases high
  {
    if low < high {
      DoneStays(definitions, schedule, low, high - 1);
      NextState(definitions, schedule, high - 1);
      hide Before, Step, Inv;
    }
  }

  lemma WriterIsDone(s: State, slot: Slot)
    requires Inv(s) && slot in s.pending
    ensures s.pending[slot].writer < |s.calls| && s.calls[s.pending[slot].writer].point.Done?
    ensures s.calls[s.pending[slot].writer].request.value == s.pending[slot].value
  {
  }

  lemma ConfirmedIsStored(s: State, i: nat)
    requires Inv(s) && i < |s.calls| && s.calls[i].point.ClearPending?
    ensures var plan, c := s.calls[i].point.plan, s.calls[i].point.change;
            && c in s.values && Guarded(s, s.calls[i].request.slot) && plan.confirms < |s.calls|
            && s.calls[plan.confirms].request.value.canonical == c.value.canonical
  {
    assert CallHolds(s, i);
    hide Inv, Guarded, SpeaksFor, SamePerson;
  }

  /**
   * On every run: when a confirming call clears its slot, the proposal it removes
   * is another than the one it confirmed exactly when something was proposed for
   * the slot after that call had read it. If it is the one, its value is stored.
   */
  lemma ClearLosesAProposalExactlyWhen(definitions: map<string, Definition>, schedule: seq<Event>, n: nat, i: nat) returns (r: nat)
    requires n <= |schedule|
    requires var s := Before(definitions, schedule, n);
             i < |s.calls| && s.calls[i].point.ClearPending? && s.calls[i].request.slot in s.pending
    ensures var s := Before(definitions, schedule, n);
            var slot, plan := s.calls[i].request.slot, s.calls[i].point.plan;
            && r < n && ReadAt(definitions, schedule, r, i, slot, plan.confirms)
            && (s.pending[slot].writer != plan.confirms <==> PutBetween(definitions, schedule, r, n, slot))
            && (s.pending[slot].writer == plan.confirms ==>
                  s.calls[i].point.change in s.values && s.calls[i].point.change.value.canonical == s.pending[slot].value.canonical)
  {
    var s := Before(definitions, schedule, n);
    RunKeepsInv(definitions, schedule[..n]);
    ConfirmedIsStored(s, i);
    var slot, plan := s.calls[i].request.slot, s.calls[i].point.plan;
    WriterIsDone(s, slot);
    r := PlanWasRead(definitions, schedule, n, i);
    RunKeepsInv(definitions, schedule[..r]);
    WriterIsDone(Before(definitions, schedule, r), slot);
    OpenSince(definitions, schedule, r, n, slot);
    hide Before, Inv, PutBetween, ClearBetween, Run, Step;
  }

  // ------------------------------------------- one proposal, two versions

  predicate HasWritten(p: Point) {
    p.AppendAudit? || p.ClearPending? || p.Done?
  }

  /** A step adds at most one version: that of the call it resumes, which is past its write from then on. */
  lemma StepWrites(s: State, e: Event)
    ensures var t := Step(s, e);
            || t.origins == s.origins
            || (&& e.Resume? && e.call < |s.calls| && s.calls[e.call].point.ApplyChange?
                && t.origins == s.origins + [Origin(e.call, s.calls[e.call].point.plan)] && t.values == s.values + [s.calls[e.call].point.change])
    ensures |s.calls| <= |Step(s, e).calls|
    ensures forall i | 0 <= i < |s.calls| && HasWritten(s.calls[i].point) :: HasWritten(Step(s, e).calls[i].point)
    ensures e.Resume? && e.call < |s.calls| && s.calls[e.call].point.ApplyChange? ==> HasWritten(Step(s, e).calls[e.call].point)
  {
    StepEffect(s, e);
    if e.Resume? && e.call < |s.calls| {
      PastItsWrite(s, e.call);
    }
    hide Step;
  }

  lemma PastItsWrite(s: State, i: nat)
    requires i < |s.calls|
    ensures i < |ResumeCall(s, i).calls|
    ensures HasWritten(s.calls[i].point) || s.calls[i].point.ApplyChange? ==> HasWritten(ResumeCall(s, i).calls[i].point)
  {
    hide Decide, Latest, Taken;
  }

  /** Behind a stored guarded version: a call that is past its write, and its reading of the proposal. */
  lemma {:induction false} VersionWasRead(definitions: map<string, Definition>, schedule: seq<Event>, n: nat, k: nat) returns (r: nat)
    requires n <= |schedule|
    requires var s := Before(definitions, schedule, n); k < |s.values| && k < |s.origins| && Guarded(s, s.values[k].slot)
    ensures var s := Before(definitions, schedule, n);
            && r < n && s.origins[k].call < |s.calls| && HasWritten(s.calls[s.origins[k].call].point)
            && ReadAt(definitions, schedule, r, s.origins[k].call, s.values[k].slot, s.origins[k].plan.confirms)
    decreases n
  {
    r := 0;
    NothingBefore(definitions, schedule);
    if n > 0 {
      var s, e := Before(definitions, schedule, n - 1), schedule[n - 1];
      NextState(definitions, schedule, n - 1);
      StepWrites(s, e);
      if k < |s.values| {
        hide Before, Step, Inv, ReadsOpen, HasWritten;
        assert s.values[k] == Before(definitions, schedule, n).values[k];
        r := VersionWasRead(definitions, schedule, n - 1, k);
      } else {
        assert ChangeOf(s, e.call, s.calls[e.call].point.plan, s.calls[e.call].point.change) by {
          assert CallHolds(s, e.call);
        }
        hide Before, Step, Inv, ReadsOpen, HasWritten;
        r := PlanWasRead(definitions, schedule, n - 1, e.call);
      }
    }
  }

  lemma {:induction false} StoresOnce(definitions: map<string, Definition>, schedule: seq<Event>, n: nat, j: nat, k: nat)
    requires n <= |schedule|
    requires var s := Before(definitions, schedule, n);
             j < k < |s.values| == |s.origins| && Guarded(s, s.values[j].slot)
    ensures var s := Before(definitions, schedule, n); s.origins[j].call != s.origins[k].call
    decreases n
  {
    NothingBefore(definitions, schedule);
    if n > 0 {
      var s, e := Before(definitions, schedule, n - 1), schedule[n - 1];
      NextState(definitions, schedule, n - 1);
      StepWrites(s, e);
      hide Before, Step, Inv;
      assert s.values[j] == Before(definitions, schedule, n).values[j];
      if k < |s.values| {
        StoresOnce(definitions, schedule, n - 1, j, k);
      } else {
        var r := VersionWasRead(definitions, schedule, n - 1, j);
      }
    }
  }

  /**
   * One proposal backs two versions only where two different calls both read it
   * while it stood open: between the two reads nothing was cleared or proposed.
   */
  lemma TwoVersionsNeedTwoReads(definitions: map<string, Definition>, schedule: seq<Event>, n: nat, j: nat, k: nat)
    returns (first: nat, second: nat)
    requires n <= |schedule|
    requires var s := Before(definitions, schedule, n);
             && j < k < |s.values| == |s.origins| && s.values[j].slot == s.values[k].slot && Guarded(s, s.values[j].slot)
             && s.origins[j].plan.confirms == s.origins[k].plan.confirms
    ensures first < second < n
    ensures var s := Before(definitions, schedule, n);
            var slot, p, a, b := s.values[j].slot, s.origins[j].plan.confirms, s.origins[j].call, s.origins[k].call;
            && a != b
            && ((ReadAt(definitions, schedule, first, a, slot, p) && ReadAt(definitions, schedule, second, b, slot, p))
                || (ReadAt(definitions, schedule, first, b, slot, p) && ReadAt(definitions, schedule, second, a, slot, p)))
            && !ClearBetween(definitions, schedule, first, second, slot) && !PutBetween(definitions, schedule, first, second, slot)
  {
    var s := Before(definitions, schedule, n);
    var slot := s.values[j].slot;
    StoresOnce(definitions, schedule, n, j, k);
    var rj := VersionWasRead(definitions, schedule, n, j);
    var rk := VersionWasRead(definitions, schedule, n, k);
    first, second := if rj <= rk then rj else rk, if rj <= rk then rk else rj;
    RunKeepsInv(definitions, schedule[..first]);
    WriterIsDone(Before(definitions, schedule, first), slot);
    OpenSince(definitions, schedule, first, second, slot);
    hide Before, Inv, Run, PutBetween, ClearBetween;
  }

  lemma ResumeTwice(s: State, i: nat)
    requires i < |s.calls|
    ensures i < |ResumeCall(s, i).calls| && Step(Step(s, Resume(i)), Resume(i)) == ResumeCall(ResumeCall(s, i), i)
  {
    StepEffect(s, Resume(i));
    hide ResumeCall;
  }

  /** And there it does: two calls that both read it may both store it, as two versions in a row. */
  lemma BothConfirmersStore(s: State, a: nat, b: nat)
    requires Inv(s) && a < |s.calls| && b < |s.calls| && a != b && s.calls[a].request.slot == s.calls[b].request.slot
    requires s.calls[a].point.ReadValues? && s.calls[b].point.ReadValues?
    ensures var t := Step(Step(Step(Step(s, Resume(a)), Resume(a)), Resume(b)), Resume(b));
            var v := Latest(s.values, s.calls[a].request.slot);
            && |t.values| == |s.values| + 2
            && t.values[|s.values|].value == s.calls[a].request.value && t.values[|s.values|].version == v + 1
            && t.values[|s.values| + 1].value == s.calls[b].request.value && t.values[|s.values| + 1].version == v + 2
            && t.origins == s.origins + [Origin(a, s.calls[a].point.plan), Origin(b, s.calls[b].point.plan)]
  {
    var s1 := Step(s, Resume(a));
    var s2 := Step(s1, Resume(a));
    StepKeepsInv(s, Resume(a));
    StepKeepsInv(s1, Resume(a));
    assert Numbered(s.values) && Numbered(s2.values);
    hide Inv, Step, ResumeCall, Numbered;
    StoreRunsThrough(s, a) by {
      assert s.calls[a].point.ReadValues?;
    }
    assert s2 == ResumeCall(ResumeCall(s, a), a) by {
      ResumeTwice(s, a);
    }
    StoreRunsThrough(s2, b);
    ResumeTwice(s2, b);
    assert s2.values[..|s.values|] == s.values;
  }
}
