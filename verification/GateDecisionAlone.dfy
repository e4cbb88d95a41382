/**
 * The gate decision as one call, `JiraCommands.Decide`, is the gate decision as
 * steps, `GateDecision.Run`, with nothing in between.
 */
module GateDecisionAlone {
  import opened Wrappers
  import opened JiraCommands
  import Gates = GateDecision

  function AsEntry(e: Entry): Gates.Entry {
    if e.GateClosed? then Gates.GateEntry(e.record) else Gates.OtherEntry
  }

  function AsTrail(trail: seq<Entry>): (r: seq<Gates.Entry>)
    ensures |r| == |trail|
  {
    seq(|trail|, i requires 0 <= i < |trail| => AsEntry(trail[i]))
  }

  function AsWorld(setup: Setup, fx: Effects, call: Gates.Call): Gates.World {
    Gates.World(map t | t in fx.runs :: fx.runs[t].state, setup.owners, setup.members, AsTrail(fx.trail), [], map[0 := call])
  }

  function Turn(w: Gates.World): Gates.World {
    Gates.Step(w, Gates.Turn(0, false))
  }

  lemma TrailAppend(trail: seq<Entry>, record: Gates.GateRecord)
    ensures AsTrail(trail + [GateClosed(record)]) == AsTrail(trail) + [Gates.GateEntry(record)]
  {
  }

  /** A call at phase `c.phase`, with nothing else in the world that moves. */
  function At(w: Gates.World, phase: Gates.Phase): Gates.World
    requires 0 in w.calls
  {
    w.(calls := map[0 := Gates.After(w, w.calls[0], phase)])
  }

  /** One undisturbed turn is `Next`; a call that has ended stays as it is. */
  lemma OneTurn(w: Gates.World)
    requires w.calls.Keys == {0}
    ensures var (phase, trail, facts) := Gates.Next(w, 0, w.calls[0]);
            Turn(w) == if w.calls[0].phase.Done? then w else At(w, phase).(trail := trail, facts := w.facts + facts)
    ensures w.calls[0].phase.Threw? ==> Turn(w) == w
  {
    var (phase, trail, facts) := Gates.Next(w, 0, w.calls[0]);
    assert w.calls == map[0 := w.calls[0]];
    assert !w.calls[0].phase.Done? ==> Turn(w).calls == At(w, phase).calls;
    assert facts == [] ==> w.facts + facts == w.facts;
  }

  /** The three questions: gate, owner, membership. */
  lemma ThreeQuestions(setup: Setup, fx: Effects, q: Gates.Request)
    ensures var w := AsWorld(setup, fx, Gates.Call(q, Gates.Asked, 0));
            var asked := Turn(Turn(Turn(w)));
            && asked.calls.Keys == {0} && asked.calls[0].request == q && asked.runs == w.runs && asked.trail == w.trail
            && (forall f | f in asked.facts :: !f.Delivered?)
            && (if q.ticket in fx.runs && fx.runs[q.ticket].state.atGate && Gates.IsApprovalGate(fx.runs[q.ticket].state.step)
                   && (fx.runs[q.ticket].state.step, Gates.ProjectKeyOf(q.ticket)) in setup.owners
                   && (q.membershipId, setup.owners[(fx.runs[q.ticket].state.step, Gates.ProjectKeyOf(q.ticket))]) in setup.members
                then
                  var step := fx.runs[q.ticket].state.step;
                  asked.calls[0].phase == Gates.SawMember(step, setup.owners[(step, Gates.ProjectKeyOf(q.ticket))])
                else Decide(setup, fx, q).1.GateAnswer? && asked.calls[0].phase == Gates.Done(Decide(setup, fx, q).1.result) && Decide(setup, fx, q).0 == fx)
  {
    hide Gates.ProjectKeyOf, Gates.IsApprovalGate, Gates.RecordOf, Gates.SignalOf, AsTrail, Turn, Gates.Step;
    var w := AsWorld(setup, fx, Gates.Call(q, Gates.Asked, 0));
    OneTurn(w);
    OneTurn(Turn(w));
    OneTurn(Turn(Turn(w)));
  }

  /** Signing and sending. */
  lemma SignAndSend(w: Gates.World)
    requires w.calls.Keys == {0} && w.calls[0].phase.SawMember? && w.calls[0].request.ticket in w.runs
    ensures var c, end := w.calls[0], Turn(Turn(w));
            var record := Gates.RecordOf(c.request, c.phase.step, c.phase.group);
            var signal := Gates.SignalOf(c.request, c.phase.step, c.phase.group, |w.trail| + 1);
            && 0 in end.calls
            && (if c.request.actor.Human? then
                  && end.calls[0].phase == Gates.Done(Gates.Closed(c.phase.step, c.phase.group, |w.trail| + 1))
                  && end.trail == w.trail + [Gates.GateEntry(record)]
                  && end.facts == w.facts + [Gates.Delivered(0, signal, c.asked, w.runs[c.request.ticket].step)]
                else end.calls[0].phase == Gates.Threw && end.trail == w.trail && end.facts == w.facts)
  {
    hide Gates.RecordOf, Gates.SignalOf, Turn, Gates.Step;
    OneTurn(w);
    OneTurn(Turn(w));
    assert w.facts + [] == w.facts;
  }

  lemma StaysDone(w: Gates.World)
    requires w.calls.Keys == {0} && w.calls[0].phase.Done?
    ensures Turn(Turn(w)) == w
  {
    OneTurn(w);
  }

  /** Five undisturbed turns leave the answer, the trail and the signal that the call as a whole leaves. */
  lemma UninterruptedStepsAreTheCall(setup: Setup, fx: Effects, q: Gates.Request)
    ensures var end := Turn(Turn(Turn(Turn(Turn(AsWorld(setup, fx, Gates.Call(q, Gates.Asked, 0)))))));
            var (after, outcome) := Decide(setup, fx, q);
            && 0 in end.calls
            && end.calls[0].phase == (match outcome case GateThrew => Gates.Threw case GateAnswer(result) => Gates.Done(result))
            && end.trail == AsTrail(after.trail)
            && (if end.facts != [] && end.facts[|end.facts| - 1].Delivered? then after.sent == fx.sent + [GateSignal(end.facts[|end.facts| - 1].signal)]
                else after.sent == fx.sent)
  {
    hide Gates.ProjectKeyOf, Gates.IsApprovalGate, Gates.RecordOf, Gates.SignalOf, AsTrail, Turn, Gates.Step;
    var asked := Turn(Turn(Turn(AsWorld(setup, fx, Gates.Call(q, Gates.Asked, 0)))));
    ThreeQuestions(setup, fx, q);
    var (after, outcome) := Decide(setup, fx, q);
    if asked.calls[0].phase.Done? {
      StaysDone(asked);
    } else {
      SignAndSend(asked);
      if after.trail != fx.trail {
        TrailAppend(fx.trail, after.trail[|fx.trail|].record);
      }
    }
  }
}
