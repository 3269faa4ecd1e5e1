/** How the operator edits a status in memory and what every status it stores looks like
    (setStatusPhase, the condition upserts and checkComponentStatus of
    internal/controller/kubenova_controller.go). */
module Statuses {
  import opened Types

  /** Records a condition: in place of the one of the same type, or at the end (apimachinery's SetStatusCondition). */
  function SetCondition(conditions: seq<Condition>, c: Condition): seq<Condition> {
    if conditions == [] then [c]
    else if conditions[0].kind == c.kind then [c] + conditions[1..]
    else [conditions[0]] + SetCondition(conditions[1..], c)
  }

  predicate OnePerType(conditions: seq<Condition>) {
    forall i, j :: 0 <= i < j < |conditions| ==> conditions[i].kind != conditions[j].kind
  }

  lemma {:induction false} SetConditionMembers(conditions: seq<Condition>, c: Condition)
    ensures c in SetCondition(conditions, c)
    ensures forall d :: d in conditions && d.kind != c.kind ==> d in SetCondition(conditions, c)
    ensures forall d :: d in SetCondition(conditions, c) ==> d in conditions || d == c
    ensures OnePerType(conditions) ==> OnePerType(SetCondition(conditions, c))
    ensures OnePerType(conditions) ==> forall d :: d in SetCondition(conditions, c) && d.kind == c.kind ==> d == c
  {
    if conditions != [] && conditions[0].kind != c.kind {
      SetConditionMembers(conditions[1..], c);
      var rest := SetCondition(conditions[1..], c);
      assert SetCondition(conditions, c) == [conditions[0]] + rest;
      if OnePerType(conditions) {
        forall d | d in rest ensures d.kind != conditions[0].kind {
          if d in conditions[1..] {
            var i :| 0 <= i < |conditions[1..]| && conditions[1..][i] == d;
            assert conditions[i + 1] == d;
          }
        }
      }
    }
  }

  function SetPhase(status: Status, phase: Phase, generation: nat): Status {
    status.(phase := phase, observedGeneration := generation)
  }

  function Mark(status: Status, kind: ConditionType, value: bool, generation: nat): Status {
    status.(conditions := SetCondition(status.conditions, Condition(kind, value, generation)))
  }

  /** What every stored status satisfies. `Validating` is never stored; a stored Ready carries both
      conditions at the observed generation, a stored Creating says it is not ready. */
  predicate Persisted(status: Status) {
    status.phase in {Unset, Creating, Ready, Failed, Deleting}
    && OnePerType(status.conditions)
    && (status.phase == Ready ==>
          Condition(ReadyCondition, true, status.observedGeneration) in status.conditions
          && Condition(ValidatedCondition, true, status.observedGeneration) in status.conditions)
    && (status.phase == Creating ==>
          Condition(ReadyCondition, false, status.observedGeneration) in status.conditions)
  }

  // ---------- readiness of the components ----------

  /** What one read of a Deployment found: its replica counts, or nothing. */
  datatype Reading = Unread | Read(desired: int, ready: int)

  /** The backends' states distinguish partly ready from pending; the web front end's do not. */
  function StateOf(c: Component, r: Reading): (state: ComponentStatus)
    requires r.Read?
    ensures state.state == StateReady <==> r.ready == r.desired
    ensures state.state == StatePending <==> c != WebFrontend && r.ready <= 0 && r.ready != r.desired
    ensures state.ready == r.ready && state.desired == r.desired
  {
    if r.ready == r.desired then ComponentStatus(StateReady, r.ready, r.desired)
    else if c == WebFrontend || r.ready > 0 then ComponentStatus(StateRunning, r.ready, r.desired)
    else ComponentStatus(StatePending, r.ready, r.desired)
  }

  predicate AllReady(readings: seq<Reading>) {
    forall r :: r in readings && r.Read? ==> r.ready == r.desired
  }

  type ServiceStates = map<Component, ComponentStatus>

  /** The entries after as many readings, taken of these components in this order: read ones are replaced,
      all others keep what they had. */
  predicate Recorded(before: ServiceStates, components: seq<Component>, readings: seq<Reading>, after: ServiceStates)
    requires |readings| <= |components|
  {
    && (forall i :: 0 <= i < |readings| && readings[i].Read? ==>
          components[i] in after && after[components[i]] == StateOf(components[i], readings[i]))
    && (forall c :: (forall i :: 0 <= i < |readings| && components[i] == c ==> readings[i].Unread?) ==>
          (c in after <==> c in before) && (c in after && c in before ==> after[c] == before[c]))
  }

  lemma RecordedOneMore(before: ServiceStates, components: seq<Component>, readings: seq<Reading>,
                        after: ServiceStates, r: Reading)
    requires |readings| < |components| && components[|readings|] !in components[..|readings|]
    requires Recorded(before, components, readings, after)
    ensures var c := components[|readings|];
      Recorded(before, components, readings + [r], if r.Read? then after[c := StateOf(c, r)] else after)
  {
    var n := |readings|;
    var c, more := components[n], readings + [r];
    var after' := if r.Read? then after[c := StateOf(c, r)] else after;
    assert forall i :: 0 <= i < n ==> more[i] == readings[i] && components[i] == components[..n][i];
    forall d | forall i :: 0 <= i < n + 1 && components[i] == d ==> more[i].Unread?
      ensures (d in after' <==> d in before) && (d in after' && d in before ==> after'[d] == before[d])
    {
      assert forall i :: 0 <= i < n && components[i] == d ==> more[i].Unread?;
      assert more[n] == r;
    }
  }

  /** The final status of a run: the phase and the Ready condition say whether every Deployment read was ready. */
  function Conclude(status: Status, allReady: bool, generation: nat): Status {
    Mark(SetPhase(status, if allReady then Ready else Creating, generation), ReadyCondition, allReady, generation)
  }

  lemma ConcludedStatusIsPersisted(status: Status, allReady: bool, generation: nat)
    requires OnePerType(status.conditions)
    requires Condition(ValidatedCondition, true, generation) in status.conditions
    ensures Persisted(Conclude(status, allReady, generation))
    ensures Conclude(status, allReady, generation).phase == Ready <==> allReady
  {
    SetConditionMembers(status.conditions, Condition(ReadyCondition, allReady, generation));
  }

  lemma FailedStatusIsPersisted(status: Status, generation: nat)
    requires OnePerType(status.conditions)
    ensures Persisted(SetPhase(status, Failed, generation)) && Persisted(SetPhase(status, Deleting, generation))
  {
  }
}
