/**
 * `ConfigSet.materialize` (configenerator.py:134-172): resolve every
 * configuration, run the configset modifiers on the shared list of outputs,
 * validate every configuration, run the configset validators, and only then
 * write every configuration. The calls made are recorded as a trace of events.
 */
module ConfigSets {
  import opened Wrappers
  import opened Values
  import opened Equality
  import opened Configs

  /** A phase's outcome and the calls it made. */
  datatype Stage = Stage(outcome: Outcome<Failure>, events: seq<Event>)

  /** A whole materialisation: its outcome, its calls, and the outputs after the configset modifiers. */
  datatype Run = Run(outcome: Outcome<Failure>, trace: seq<Event>, outputs: seq<Template>)

  ghost predicate ValidSetups(setups: seq<Setup>) {
    forall i | 0 <= i < |setups| :: ValidSetup(setups[i])
  }

  /** Phase 1: every configuration resolved, in list order. */
  function ResolveAll(setups: seq<Setup>, h: Hooks): (outputs: seq<Template>)
    requires ValidSetups(setups)
    ensures |outputs| == |setups|
    ensures forall i | 0 <= i < |setups| :: outputs[i] == Resolution(setups[i], h)
  {
    seq(|setups|, i requires 0 <= i < |setups| && ValidSetup(setups[i]) => Resolution(setups[i], h))
  }

  function ResolvedEvents(n: nat): (events: seq<Event>)
    ensures |events| == n && forall i | 0 <= i < n :: events[i] == Resolved(i)
  {
    seq(n, i requires 0 <= i < n => Resolved(i))
  }

  /** One configset modifier: every record of the shared list changed in place. */
  function ModifyRecords(modifier: nat, outputs: seq<Template>, h: Hooks): (r: seq<Template>)
    ensures |r| == |outputs|
    ensures forall i | 0 <= i < |outputs| :: r[i] == h.modifySet(modifier, i, outputs)
  {
    seq(|outputs|, i requires 0 <= i < |outputs| => h.modifySet(modifier, i, outputs))
  }

  /** Phase 2: the configset modifiers in list order. */
  function ModifyAll(outputs: seq<Template>, modifiers: seq<nat>, h: Hooks): (r: seq<Template>)
    ensures |r| == |outputs|
  {
    if modifiers == [] then outputs
    else
      var n := |modifiers| - 1;
      ModifyRecords(modifiers[n], ModifyAll(outputs, modifiers[..n], h), h)
  }

  /** The calls of phase 2: each modifier with the list it is given. */
  function ModifyEvents(outputs: seq<Template>, modifiers: seq<nat>, h: Hooks): (events: seq<Event>)
    ensures |events| == |modifiers|
  {
    if modifiers == [] then []
    else
      var n := |modifiers| - 1;
      ModifyEvents(outputs, modifiers[..n], h) + [SetModified(modifiers[n], ModifyAll(outputs, modifiers[..n], h))]
  }

  /** Phase 3 from configuration `from` on: each validated against the shared list; the first failure stops. */
  function ConfigChecks(setups: seq<Setup>, outputs: seq<Template>, h: Hooks, from: nat): Stage
    requires from <= |setups| && |outputs| == |setups|
    decreases |setups| - from
  {
    if from == |setups| then Stage(Pass, [])
    else
      var event := Validated(from, outputs);
      var r := Validation(Some(outputs[from]), outputs, setups[from].validators, h);
      if r.Fail? then Stage(r, [event])
      else
        var rest := ConfigChecks(setups, outputs, h, from + 1);
        Stage(rest.outcome, [event] + rest.events)
  }

  /** Phase 4 from validator `from` on: each must answer `True` or `None`; the first other answer stops. */
  function SetChecks(validators: seq<nat>, outputs: seq<Template>, h: Hooks, from: nat): Stage
    requires from <= |validators|
    decreases |validators| - from
  {
    if from == |validators| then Stage(Pass, [])
    else
      var v := validators[from];
      var event := SetValidated(v, outputs);
      if !Accepted(h.checkSet(v, outputs)) then Stage(Fail(SetCheckFailed(v, outputs)), [event])
      else
        var rest := SetChecks(validators, outputs, h, from + 1);
        Stage(rest.outcome, [event] + rest.events)
  }

  /** Phase 5: every configuration handed to its writer, in list order. */
  function Writes(setups: seq<Setup>, outputs: seq<Template>): (events: seq<Event>)
    requires |outputs| == |setups|
    ensures |events| == |setups|
    ensures forall i | 0 <= i < |setups| :: events[i] == Written(i, setups[i].writer, outputs[i])
  {
    seq(|setups|, i requires 0 <= i < |setups| => Written(i, setups[i].writer, outputs[i]))
  }

  /** `materialize()` as a whole. */
  function Materialization(setups: seq<Setup>, modifiers: seq<nat>, validators: seq<nat>, h: Hooks): Run
    requires ValidSetups(setups)
  {
    Pipeline(setups, ResolveAll(setups, h), modifiers, validators, h)
  }

  /** The calls of phase 1 for `resolved`, then phases 2 to 5 on it. */
  function Pipeline(setups: seq<Setup>, resolved: seq<Template>, modifiers: seq<nat>, validators: seq<nat>, h: Hooks): Run
    requires |resolved| == |setups|
  {
    var outputs := ModifyAll(resolved, modifiers, h);
    var prefix := ResolvedEvents(|setups|) + ModifyEvents(resolved, modifiers, h);
    var configs := ConfigChecks(setups, outputs, h, 0);
    if configs.outcome.Fail? then Run(configs.outcome, prefix + configs.events, outputs)
    else
      var sets := SetChecks(validators, outputs, h, 0);
      if sets.outcome.Fail? then Run(sets.outcome, prefix + configs.events + sets.events, outputs)
      else Run(Pass, prefix + configs.events + sets.events + Writes(setups, outputs), outputs)
  }

  /** Phase 2: the configset modifiers run in turn on the shared list of outputs. */
  method ModifySet(resolved: seq<Template>, modifiers: seq<nat>, h: Hooks) returns (outputs: seq<Template>, events: seq<Event>)
    ensures outputs == ModifyAll(resolved, modifiers, h)
    ensures events == ModifyEvents(resolved, modifiers, h)
  {
    outputs, events := resolved, [];
    for k := 0 to |modifiers|
      invariant outputs == ModifyAll(resolved, modifiers[..k], h)
      invariant events == ModifyEvents(resolved, modifiers[..k], h)
    {
      assert modifiers[..k + 1][..k] == modifiers[..k];
      events := events + [SetModified(modifiers[k], outputs)];
      outputs := ModifyRecords(modifiers[k], outputs, h);
    }
    assert modifiers[..|modifiers|] == modifiers;
  }

  /** Phase 4: each configset validator must answer `True` or `None`; the first other answer stops. */
  method CheckSet(validators: seq<nat>, outputs: seq<Template>, h: Hooks) returns (stage: Stage)
    ensures stage == SetChecks(validators, outputs, h, 0)
  {
    var checked := [];
    for k := 0 to |validators|
      invariant SetChecks(validators, outputs, h, 0)
                == Stage(SetChecks(validators, outputs, h, k).outcome, checked + SetChecks(validators, outputs, h, k).events)
    {
      var validator := validators[k];
      var event := SetValidated(validator, outputs);
      var result := h.checkSet(validator, outputs);
      if !Accepted(result) {
        return Stage(Fail(SetCheckFailed(validator, outputs)), checked + [event]);
      }
      assert checked + ([event] + SetChecks(validators, outputs, h, k + 1).events)
             == (checked + [event]) + SetChecks(validators, outputs, h, k + 1).events;
      checked := checked + [event];
    }
    return Stage(Pass, checked);
  }

  class ConfigSet {
    const configs: seq<Config>
    const modifiers: seq<nat>
    const validators: seq<nat>

    constructor(configs: seq<Config>, modifiers: seq<nat>, validators: seq<nat>)
      ensures this.configs == configs && this.modifiers == modifiers && this.validators == validators
    {
      this.configs := configs;
      this.modifiers := modifiers;
      this.validators := validators;
    }

    /** What the configurations are made of. */
    function Setups(): (setups: seq<Setup>)
      ensures |setups| == |configs|
      ensures forall i | 0 <= i < |configs| :: setups[i] == configs[i].Spec()
    {
      seq(|configs|, i requires 0 <= i < |configs| => configs[i].Spec())
    }

    /** Phase 1: each configuration resolved in turn, its output kept in the configuration. */
    method ResolveConfigs(h: Hooks) returns (outputs: seq<Template>)
      requires Distinct(configs)
      requires ValidSetups(Setups())
      modifies configs
      ensures outputs == ResolveAll(Setups(), h)
      ensures forall i | 0 <= i < |configs| :: configs[i].output == Some(outputs[i])
    {
      ghost var setups := Setups();
      outputs := [];
      for i := 0 to |configs|
        invariant |outputs| == i
        invariant forall j | 0 <= j < i :: outputs[j] == Resolution(setups[j], h)
        invariant forall j | 0 <= j < i :: configs[j].output == Some(outputs[j])
      {
        configs[i].Resolve(h);
        outputs := outputs + [configs[i].output.value];
      }
    }

    /** The records changed by the configset modifiers are the configurations' own outputs. */
    method StoreOutputs(outputs: seq<Template>)
      requires Distinct(configs) && |outputs| == |configs|
      modifies configs
      ensures forall i | 0 <= i < |configs| :: configs[i].output == Some(outputs[i])
    {
      for i := 0 to |configs|
        invariant forall j | 0 <= j < i :: configs[j].output == Some(outputs[j])
      {
        configs[i].output := Some(outputs[i]);
      }
    }

    /** Phase 3: each configuration validated against the shared list; the first failure stops. */
    method CheckConfigs(outputs: seq<Template>, h: Hooks) returns (stage: Stage)
      requires |outputs| == |configs|
      requires forall i | 0 <= i < |configs| :: configs[i].output == Some(outputs[i])
      ensures stage == ConfigChecks(Setups(), outputs, h, 0)
    {
      ghost var setups := Setups();
      var checked := [];
      for i := 0 to |configs|
        invariant ConfigChecks(setups, outputs, h, 0)
                  == Stage(ConfigChecks(setups, outputs, h, i).outcome, checked + ConfigChecks(setups, outputs, h, i).events)
      {
        var event := Validated(i, outputs);
        var r := configs[i].Validate(outputs, h);
        if r.Fail? {
          return Stage(r, checked + [event]);
        }
        assert checked + ([event] + ConfigChecks(setups, outputs, h, i + 1).events)
               == (checked + [event]) + ConfigChecks(setups, outputs, h, i + 1).events;
        checked := checked + [event];
      }
      return Stage(Pass, checked);
    }

    /** Phase 5: every configuration handed to its writer. */
    method WriteConfigs(outputs: seq<Template>) returns (events: seq<Event>)
      requires |outputs| == |configs|
      requires forall i | 0 <= i < |configs| :: configs[i].output == Some(outputs[i])
      ensures events == Writes(Setups(), outputs)
    {
      ghost var setups := Setups();
      events := [];
      for i := 0 to |configs|
        invariant |events| == i
        invariant forall j | 0 <= j < i :: events[j] == Written(j, setups[j].writer, outputs[j])
      {
        var written := configs[i].Materialize(i);
        assert written.Ok?;
        events := events + [written.value];
      }
    }

    /**
     * `materialize()`. The configurations are distinct objects; each one's
     * output ends as its record of the shared list after the configset
     * modifiers.
     */
    method Materialize(h: Hooks) returns (outcome: Outcome<Failure>, trace: seq<Event>)
      requires Distinct(configs)
      requires ValidSetups(Setups())
      modifies configs
      ensures var run := Materialization(Setups(), modifiers, validators, h);
              && outcome == run.outcome && trace == run.trace
              && forall i | 0 <= i < |configs| :: configs[i].output == Some(run.outputs[i])
    {
      var resolved := ResolveConfigs(h);
      trace := ResolvedEvents(|configs|);
      var outputs, modified := ModifySet(resolved, modifiers, h);
      trace := trace + modified;
      StoreOutputs(outputs);
      var configChecks := CheckConfigs(outputs, h);
      trace := trace + configChecks.events;
      if configChecks.outcome.Fail? {
        return configChecks.outcome, trace;
      }
      var setChecks := CheckSet(validators, outputs, h);
      trace := trace + setChecks.events;
      if setChecks.outcome.Fail? {
        return setChecks.outcome, trace;
      }
      var written := WriteConfigs(outputs);
      trace := trace + written;
      return Pass, trace;
    }
  }

  /** The phase a call belongs to, 1 (resolve) to 5 (write). */
  function Phase(e: Event): nat {
    match e
    case Resolved(_) => 1
    case SetModified(_, _) => 2
    case Validated(_, _) => 3
    case SetValidated(_, _) => 4
    case Written(_, _, _) => 5
  }

  predicate InPhase(events: seq<Event>, p: nat) {
    forall i | 0 <= i < |events| :: Phase(events[i]) == p
  }

  predicate NoLaterThan(events: seq<Event>, p: nat) {
    forall i | 0 <= i < |events| :: Phase(events[i]) <= p
  }

  /** No call of a later phase comes before a call of an earlier one. */
  predicate PhaseOrdered(events: seq<Event>) {
    forall i, j | 0 <= i < j < |events| :: Phase(events[i]) <= Phase(events[j])
  }

  lemma Extend(a: seq<Event>, b: seq<Event>, p: nat)
    requires PhaseOrdered(a) && NoLaterThan(a, p) && InPhase(b, p)
    ensures PhaseOrdered(a + b) && NoLaterThan(a + b, p)
  {
  }

  /** Modifier `k` is given the list as the modifiers before it left it. */
  lemma {:induction false} ModifierSeesStep(outputs: seq<Template>, modifiers: seq<nat>, h: Hooks, k: nat)
    requires k < |modifiers|
    ensures ModifyEvents(outputs, modifiers, h)[k] == SetModified(modifiers[k], ModifyAll(outputs, modifiers[..k], h))
    decreases |modifiers|
  {
    var n := |modifiers| - 1;
    if k < n {
      ModifierSeesStep(outputs, modifiers[..n], h, k);
      assert modifiers[..n][..k] == modifiers[..k];
    }
  }

  lemma ModifyEventsInPhase(outputs: seq<Template>, modifiers: seq<nat>, h: Hooks)
    ensures InPhase(ModifyEvents(outputs, modifiers, h), 2)
  {
    forall k | 0 <= k < |modifiers| ensures Phase(ModifyEvents(outputs, modifiers, h)[k]) == 2 {
      ModifierSeesStep(outputs, modifiers, h, k);
    }
  }

  /** The calls of phase 3 from configuration `from` on, and when it passes or fails. */
  lemma ConfigChecksShape(setups: seq<Setup>, outputs: seq<Template>, h: Hooks, from: nat)
    requires from <= |setups| && |outputs| == |setups|
    ensures var stage := ConfigChecks(setups, outputs, h, from);
            && (forall i | 0 <= i < |stage.events| :: stage.events[i] == Validated(from + i, outputs))
            && (stage.outcome == Pass <==>
                forall i | from <= i < |setups| :: Validation(Some(outputs[i]), outputs, setups[i].validators, h) == Pass)
            && (stage.outcome == Pass ==> |stage.events| == |setups| - from)
            && (stage.outcome.Fail? ==>
                var last := from + |stage.events| - 1;
                && from <= last < |setups|
                && stage.outcome == Validation(Some(outputs[last]), outputs, setups[last].validators, h)
                && forall i | from <= i < last :: Validation(Some(outputs[i]), outputs, setups[i].validators, h) == Pass)
  {
    ConfigChecksEvents(setups, outputs, h, from);
    ConfigChecksPasses(setups, outputs, h, from);
    if ConfigChecks(setups, outputs, h, from).outcome.Fail? {
      ConfigChecksFailure(setups, outputs, h, from);
    }
  }

  lemma {:induction false} ConfigChecksEvents(setups: seq<Setup>, outputs: seq<Template>, h: Hooks, from: nat)
    requires from <= |setups| && |outputs| == |setups|
    ensures var stage := ConfigChecks(setups, outputs, h, from);
            && |stage.events| <= |setups| - from
            && (forall i | 0 <= i < |stage.events| :: stage.events[i] == Validated(from + i, outputs))
            && (stage.outcome == Pass ==> |stage.events| == |setups| - from)
            && (stage.outcome.Fail? ==> stage.events != [])
    decreases |setups| - from
  {
    if from < |setups| {
      ConfigChecksEvents(setups, outputs, h, from + 1);
      var stage := ConfigChecks(setups, outputs, h, from);
      var rest := ConfigChecks(setups, outputs, h, from + 1);
      if Validation(Some(outputs[from]), outputs, setups[from].validators, h).Pass? {
        assert stage.events == [Validated(from, outputs)] + rest.events;
        forall i | 0 < i < |stage.events| ensures stage.events[i] == Validated(from + i, outputs) {
          assert stage.events[i] == rest.events[i - 1];
        }
      }
    }
  }

  lemma {:induction false} ConfigChecksPasses(setups: seq<Setup>, outputs: seq<Template>, h: Hooks, from: nat)
    requires from <= |setups| && |outputs| == |setups|
    ensures ConfigChecks(setups, outputs, h, from).outcome == Pass <==>
            forall i | from <= i < |setups| :: Validation(Some(outputs[i]), outputs, setups[i].validators, h) == Pass
    decreases |setups| - from
  {
    if from < |setups| {
      ConfigChecksPasses(setups, outputs, h, from + 1);
    }
  }

  lemma {:induction false} ConfigChecksFailure(setups: seq<Setup>, outputs: seq<Template>, h: Hooks, from: nat)
    requires from <= |setups| && |outputs| == |setups|
    requires ConfigChecks(setups, outputs, h, from).outcome.Fail?
    ensures var stage := ConfigChecks(setups, outputs, h, from);
            var last := from + |stage.events| - 1;
            && from <= last < |setups|
            && stage.outcome == Validation(Some(outputs[last]), outputs, setups[last].validators, h)
            && forall i | from <= i < last :: Validation(Some(outputs[i]), outputs, setups[i].validators, h) == Pass
    decreases |setups| - from
  {
    ConfigChecksEvents(setups, outputs, h, from);
    if Validation(Some(outputs[from]), outputs, setups[from].validators, h).Pass? {
      ConfigChecksFailure(setups, outputs, h, from + 1);
    }
  }

  /** The calls of phase 4 from validator `from` on, and when it passes or fails. */
  lemma SetChecksShape(validators: seq<nat>, outputs: seq<Template>, h: Hooks, from: nat)
    requires from <= |validators|
    ensures var stage := SetChecks(validators, outputs, h, from);
            && |stage.events| <= |validators| - from
            && (forall i | 0 <= i < |stage.events| :: stage.events[i] == SetValidated(validators[from + i], outputs))
            && (stage.outcome == Pass <==>
                forall k | from <= k < |validators| :: Accepted(h.checkSet(validators[k], outputs)))
            && (stage.outcome == Pass ==> |stage.events| == |validators| - from)
            && (stage.outcome.Fail? ==>
                var last := from + |stage.events| - 1;
                && from <= last < |validators|
                && stage.outcome == Fail(SetCheckFailed(validators[last], outputs))
                && !Accepted(h.checkSet(validators[last], outputs))
                && forall k | from <= k < last :: Accepted(h.checkSet(validators[k], outputs)))
  {
    SetChecksEvents(validators, outputs, h, from);
    SetChecksPasses(validators, outputs, h, from);
    if SetChecks(validators, outputs, h, from).outcome.Fail? {
      SetChecksFailure(validators, outputs, h, from);
    }
  }

  lemma {:induction false} SetChecksEvents(validators: seq<nat>, outputs: seq<Template>, h: Hooks, from: nat)
    requires from <= |validators|
    ensures var stage := SetChecks(validators, outputs, h, from);
            && |stage.events| <= |validators| - from
            && (forall i | 0 <= i < |stage.events| :: stage.events[i] == SetValidated(validators[from + i], outputs))
            && (stage.outcome == Pass ==> |stage.events| == |validators| - from)
            && (stage.outcome.Fail? ==> stage.events != [])
    decreases |validators| - from
  {
    if from < |validators| {
      SetChecksEvents(validators, outputs, h, from + 1);
      var stage := SetChecks(validators, outputs, h, from);
      var rest := SetChecks(validators, outputs, h, from + 1);
      if Accepted(h.checkSet(validators[from], outputs)) {
        assert stage.events == [SetValidated(validators[from], outputs)] + rest.events;
        forall i | 0 < i < |stage.events| ensures stage.events[i] == SetValidated(validators[from + i], outputs) {
          assert stage.events[i] == rest.events[i - 1];
        }
      }
    }
  }

  lemma {:induction false} SetChecksPasses(validators: seq<nat>, outputs: seq<Template>, h: Hooks, from: nat)
    requires from <= |validators|
    ensures SetChecks(validators, outputs, h, from).outcome == Pass <==>
            forall k | from <= k < |validators| :: Accepted(h.checkSet(validators[k], outputs))
    decreases |validators| - from
  {
    if from < |validators| {
      SetChecksPasses(validators, outputs, h, from + 1);
    }
  }

  lemma {:induction false} SetChecksFailure(validators: seq<nat>, outputs: seq<Template>, h: Hooks, from: nat)
    requires from <= |validators|
    requires SetChecks(validators, outputs, h, from).outcome.Fail?
    ensures var stage := SetChecks(validators, outputs, h, from);
            var last := from + |stage.events| - 1;
            && from <= last < |validators|
            && stage.outcome == Fail(SetCheckFailed(validators[last], outputs))
            && !Accepted(h.checkSet(validators[last], outputs))
            && forall k | from <= k < last :: Accepted(h.checkSet(validators[k], outputs))
    decreases |validators| - from
  {
    SetChecksEvents(validators, outputs, h, from);
    if Accepted(h.checkSet(validators[from], outputs)) {
      SetChecksFailure(validators, outputs, h, from + 1);
    }
  }

  /**
   * The calls come phase by phase: every configuration resolved (in order)
   * before any configset modifier, every modifier before any validation,
   * configurations validated before the configset, and writes last.
   */
  lemma PhasesOrdered(setups: seq<Setup>, modifiers: seq<nat>, validators: seq<nat>, h: Hooks)
    requires ValidSetups(setups)
    ensures var run := Materialization(setups, modifiers, validators, h);
            && PhaseOrdered(run.trace)
            && |setups| <= |run.trace|
            && run.trace[..|setups|] == ResolvedEvents(|setups|)
  {
    PhasesOrderedOf(setups, ResolveAll(setups, h), modifiers, validators, h);
  }

  lemma PhasesOrderedOf(setups: seq<Setup>, resolved: seq<Template>, modifiers: seq<nat>, validators: seq<nat>, h: Hooks)
    requires |resolved| == |setups|
    ensures var run := Pipeline(setups, resolved, modifiers, validators, h);
            && PhaseOrdered(run.trace)
            && |setups| <= |run.trace|
            && run.trace[..|setups|] == ResolvedEvents(|setups|)
  {
    var outputs := ModifyAll(resolved, modifiers, h);
    var resolving := ResolvedEvents(|setups|);
    var modifying := ModifyEvents(resolved, modifiers, h);
    var configs := ConfigChecks(setups, outputs, h, 0);
    var sets := SetChecks(validators, outputs, h, 0);
    assert InPhase(resolving, 1);
    assert InPhase(modifying, 2) by { ModifyEventsInPhase(resolved, modifiers, h); }
    assert InPhase(configs.events, 3) by { ConfigChecksShape(setups, outputs, h, 0); }
    assert InPhase(sets.events, 4) by { SetChecksShape(validators, outputs, h, 0); }
    Extend(resolving, modifying, 2);
    Extend(resolving + modifying, configs.events, 3);
    Extend(resolving + modifying + configs.events, sets.events, 4);
    Extend(resolving + modifying + configs.events + sets.events, Writes(setups, outputs), 5);
    var run := Pipeline(setups, resolved, modifiers, validators, h);
    assert run.trace[..|setups|] == resolving;
  }

  /**
   * A materialisation passes exactly when every configuration's validators
   * accept its output and every configset validator accepts the list, both
   * judged on the outputs after the configset modifiers.
   */
  lemma MaterializationPassesIff(setups: seq<Setup>, modifiers: seq<nat>, validators: seq<nat>, h: Hooks)
    requires ValidSetups(setups)
    ensures var run := Materialization(setups, modifiers, validators, h);
            run.outcome == Pass <==>
              && (forall i | 0 <= i < |setups| :: Validation(Some(run.outputs[i]), run.outputs, setups[i].validators, h) == Pass)
              && (forall k | 0 <= k < |validators| :: Accepted(h.checkSet(validators[k], run.outputs)))
  {
    MaterializationPassesIffOf(setups, ResolveAll(setups, h), modifiers, validators, h);
  }

  lemma MaterializationPassesIffOf(setups: seq<Setup>, resolved: seq<Template>, modifiers: seq<nat>, validators: seq<nat>, h: Hooks)
    requires |resolved| == |setups|
    ensures var run := Pipeline(setups, resolved, modifiers, validators, h);
            run.outcome == Pass <==>
              && (forall i | 0 <= i < |setups| :: Validation(Some(run.outputs[i]), run.outputs, setups[i].validators, h) == Pass)
              && (forall k | 0 <= k < |validators| :: Accepted(h.checkSet(validators[k], run.outputs)))
  {
    var outputs := ModifyAll(resolved, modifiers, h);
    ConfigChecksShape(setups, outputs, h, 0);
    SetChecksShape(validators, outputs, h, 0);
  }

  /**
   * Nothing is written unless everything validates; when everything does,
   * the trace ends with every configuration written, in order, with its
   * final output; a failing configuration stops before any configset
   * validator runs.
   */
  lemma NoWriteUnlessValid(setups: seq<Setup>, modifiers: seq<nat>, validators: seq<nat>, h: Hooks)
    requires ValidSetups(setups)
    ensures var run := Materialization(setups, modifiers, validators, h);
            && (run.outcome.Fail? ==> forall i | 0 <= i < |run.trace| :: !run.trace[i].Written?)
            && (run.outcome.Fail? && run.outcome.error.ConfigCheckFailed? ==>
                  forall i | 0 <= i < |run.trace| :: !run.trace[i].SetValidated?)
            && (run.outcome == Pass ==>
                  |setups| <= |run.trace| && run.trace[|run.trace| - |setups|..] == Writes(setups, run.outputs))
  {
    NoWriteUnlessValidOf(setups, ResolveAll(setups, h), modifiers, validators, h);
  }

  lemma NoWriteUnlessValidOf(setups: seq<Setup>, resolved: seq<Template>, modifiers: seq<nat>, validators: seq<nat>, h: Hooks)
    requires |resolved| == |setups|
    ensures var run := Pipeline(setups, resolved, modifiers, validators, h);
            && (run.outcome.Fail? ==> forall i | 0 <= i < |run.trace| :: !run.trace[i].Written?)
            && (run.outcome.Fail? && run.outcome.error.ConfigCheckFailed? ==>
                  forall i | 0 <= i < |run.trace| :: !run.trace[i].SetValidated?)
            && (run.outcome == Pass ==>
                  |setups| <= |run.trace| && run.trace[|run.trace| - |setups|..] == Writes(setups, run.outputs))
  {
    var outputs := ModifyAll(resolved, modifiers, h);
    var prefix := ResolvedEvents(|setups|) + ModifyEvents(resolved, modifiers, h);
    var configs := ConfigChecks(setups, outputs, h, 0);
    var sets := SetChecks(validators, outputs, h, 0);
    var run := Pipeline(setups, resolved, modifiers, validators, h);
    if configs.outcome.Fail? {
      assert run.outcome == configs.outcome && run.trace == prefix + configs.events;
      assert NoLaterThan(run.trace, 3) by {
        assert NoLaterThan(prefix, 2) by { ModifyEventsInPhase(resolved, modifiers, h); }
        assert InPhase(configs.events, 3) by { ConfigChecksEvents(setups, outputs, h, 0); }
      }
    } else if sets.outcome.Fail? {
      assert run.outcome == sets.outcome && run.trace == prefix + configs.events + sets.events;
      assert NoLaterThan(run.trace, 4) by {
        assert NoLaterThan(prefix, 2) by { ModifyEventsInPhase(resolved, modifiers, h); }
        assert InPhase(configs.events, 3) by { ConfigChecksEvents(setups, outputs, h, 0); }
        assert InPhase(sets.events, 4) by { SetChecksEvents(validators, outputs, h, 0); }
      }
      assert sets.outcome.error.SetCheckFailed? by { SetChecksFailure(validators, outputs, h, 0); }
    } else {
      var written := Writes(setups, outputs);
      assert run.trace == (prefix + configs.events + sets.events) + written;
      assert run.trace[|run.trace| - |setups|..] == written;
    }
  }

  /** Every validation call in `events` is given `outputs`, and every write a record of it. */
  predicate SeeOutputs(events: seq<Event>, outputs: seq<Template>) {
    forall i | 0 <= i < |events| ::
      && (events[i].Validated? ==> events[i].outputs == outputs)
      && (events[i].SetValidated? ==> events[i].outputs == outputs)
      && (events[i].Written? ==> events[i].config < |outputs| && events[i].data == outputs[events[i].config])
  }

  lemma SeeOutputsAppend(a: seq<Event>, b: seq<Event>, outputs: seq<Template>)
    requires SeeOutputs(a, outputs) && SeeOutputs(b, outputs)
    ensures SeeOutputs(a + b, outputs)
  {
    forall i | |a| <= i < |a + b| ensures (a + b)[i] == b[i - |a|] {}
  }

  /**
   * Every validator, of a configuration or of the configset, is given the
   * list after all the configset modifiers, and each configuration is
   * written with its record of that list.
   */
  lemma ValidatorsSeeModifiedOutputs(setups: seq<Setup>, modifiers: seq<nat>, validators: seq<nat>, h: Hooks)
    requires ValidSetups(setups)
    ensures var run := Materialization(setups, modifiers, validators, h);
            && run.outputs == ModifyAll(ResolveAll(setups, h), modifiers, h)
            && SeeOutputs(run.trace, run.outputs)
  {
    ValidatorsSeeModifiedOutputsOf(setups, ResolveAll(setups, h), modifiers, validators, h);
  }

  lemma ValidatorsSeeModifiedOutputsOf(setups: seq<Setup>, resolved: seq<Template>, modifiers: seq<nat>, validators: seq<nat>, h: Hooks)
    requires |resolved| == |setups|
    ensures var run := Pipeline(setups, resolved, modifiers, validators, h);
            && run.outputs == ModifyAll(resolved, modifiers, h)
            && SeeOutputs(run.trace, run.outputs)
  {
    var outputs := ModifyAll(resolved, modifiers, h);
    var prefix := ResolvedEvents(|setups|) + ModifyEvents(resolved, modifiers, h);
    var configs := ConfigChecks(setups, outputs, h, 0);
    var sets := SetChecks(validators, outputs, h, 0);
    var written := Writes(setups, outputs);
    assert SeeOutputs(prefix, outputs) by {
      ModifyEventsInPhase(resolved, modifiers, h);
      assert NoLaterThan(prefix, 2);
    }
    assert SeeOutputs(configs.events, outputs) by { ConfigChecksShape(setups, outputs, h, 0); }
    assert SeeOutputs(sets.events, outputs) by { SetChecksShape(validators, outputs, h, 0); }
    assert SeeOutputs(written, outputs);
    SeeOutputsAppend(prefix, configs.events, outputs);
    SeeOutputsAppend(prefix + configs.events, sets.events, outputs);
    SeeOutputsAppend(prefix + configs.events + sets.events, written, outputs);
  }

  /**
   * test_config.py:88-109: one configuration (whose own validation has
   * nothing to check), one configset modifier and one configset validator
   * answering `True`; the calls are resolve, modify, validate, validate the
   * set, write, in that order, and the later calls see the modified record.
   */
  lemma MaterializeScenario(s: Setup, m: nat, v: nat, h: Hooks, r: Template, o: Template)
    requires ValidSetup(s) && s.validators == []
    requires r == Resolution(s, h) && o == h.modifySet(m, 0, [r])
    requires h.checkSet(v, [o]) == Bool(true)
    ensures Materialization([s], [m], [v], h)
            == Run(Pass, [Resolved(0), SetModified(m, [r]), Validated(0, [o]), SetValidated(v, [o]), Written(0, s.writer, o)], [o])
  {
    var setups := [s];
    assert ResolveAll(setups, h) == [r];
    assert ModifyAll([r], [m], h) == [o] by {
      assert [m][..0] == [];
    }
    assert ModifyEvents([r], [m], h) == [SetModified(m, [r])] by {
      assert [m][..0] == [];
    }
    assert ResolvedEvents(1) == [Resolved(0)];
    assert ConfigChecks(setups, [o], h, 0) == Stage(Pass, [Validated(0, [o])]) by {
      assert ConfigChecks(setups, [o], h, 1) == Stage(Pass, []);
    }
    assert SetChecks([v], [o], h, 0) == Stage(Pass, [SetValidated(v, [o])]) by {
      AcceptedValues(Bool(true));
      assert SetChecks([v], [o], h, 1) == Stage(Pass, []);
    }
    assert Writes(setups, [o]) == [Written(0, s.writer, o)];
  }

  /**
   * test_config.py:67-71: two configurations and a configset validator
   * answering `False`; the materialisation fails with that validator and
   * nothing is written.
   */
  lemma InvalidConfigsetScenario(s1: Setup, s2: Setup, v: nat, h: Hooks, outputs: seq<Template>)
    requires ValidSetup(s1) && ValidSetup(s2) && s1.validators == [] && s2.validators == []
    requires outputs == [Resolution(s1, h), Resolution(s2, h)]
    requires h.checkSet(v, outputs) == Bool(false)
    ensures Materialization([s1, s2], [], [v], h)
            == Run(Fail(SetCheckFailed(v, outputs)),
                   [Resolved(0), Resolved(1), Validated(0, outputs), Validated(1, outputs), SetValidated(v, outputs)],
                   outputs)
  {
    var setups := [s1, s2];
    assert ResolveAll(setups, h) == outputs;
    assert ResolvedEvents(2) == [Resolved(0), Resolved(1)];
    assert ConfigChecks(setups, outputs, h, 0) == Stage(Pass, [Validated(0, outputs), Validated(1, outputs)]) by {
      assert ConfigChecks(setups, outputs, h, 2) == Stage(Pass, []);
      assert ConfigChecks(setups, outputs, h, 1) == Stage(Pass, [Validated(1, outputs)]);
    }
    assert SetChecks([v], outputs, h, 0) == Stage(Fail(SetCheckFailed(v, outputs)), [SetValidated(v, outputs)]) by {
      AcceptedValues(Bool(false));
    }
  }
}
