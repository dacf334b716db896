/**
 * One call of the agent's `experience` as a function of the agent's state:
 * store the transition, then, once the memory has warmed up, sample a batch,
 * compute its targets with the target network, copy the actor into the target,
 * set the actor's learning rate from the schedule, train the actor and record
 * the cost. The effects are also logged, in order, so that the order itself can
 * be stated.
 */
module Learning {
  import opened Model
  import opened Targets
  import opened Replay

  /** The options the learning step reads. */
  datatype Config = Config(replayCapacity: nat, batchSize: nat, startLearning: nat, discount: real)

  /** The observable effects of a learning step, in the words of the agent. */
  datatype Effect =
    | TransitionStored
    | MemorySizeLogged
    | BatchSampled
    | TargetsComputed
    | TargetSynced
    | LearningRateSet
    | ActorTrained
    | CostRecorded

  /** The effects of a step that trains, after the transition is stored. */
  const LearningEffects: seq<Effect> :=
    [BatchSampled, TargetsComputed, TargetSynced, LearningRateSet, ActorTrained, CostRecorded]

  /**
   * The agent's mutable state: the replay memory, the actor's and the target's
   * weights, the actor's learning-rate option, the recorded costs, and the
   * effects performed so far.
   */
  datatype AgentState = AgentState(
    memory: seq<Transition>,
    actor: Weights,
    target: Weights,
    learningRate: real,
    costs: seq<real>,
    trace: seq<Effect>)

  /** The state right after construction: the target starts as a copy of the actor. */
  function Init(actorParams: Params, initialLearningRate: real): (s: AgentState) {
    var actor := Weights(0, actorParams);
    AgentState([], actor, actor, initialLearningRate, [], [])
  }

  /** The effects of one call, given the memory length after the append. */
  function StepEffects(stored: nat, startLearning: nat): (effects: seq<Effect>) {
    [TransitionStored]
    + (if stored == 1 then [MemorySizeLogged] else [])
    + (if stored < startLearning then [] else LearningEffects)
  }

  /**
   * One call of `experience(state, action, reward, successor)` at global
   * timestep `timestep`; `draws` are the random picks of the sample and
   * `decay` is the learning-rate schedule.
   */
  function Learn(net: Network, cfg: Config, decay: nat -> real, s: AgentState,
                 t: Transition, timestep: nat, draws: seq<nat>): (s': AgentState)
    requires cfg.replayCapacity > 0 && |draws| == cfg.batchSize
  {
    var memory := Appended(s.memory, t, cfg.replayCapacity);
    var stored := s.(memory := memory, trace := s.trace + StepEffects(|memory|, cfg.startLearning));
    if |memory| < cfg.startLearning then stored else Train(net, cfg, decay, stored, timestep, draws)
  }

  /**
   * The warm part of the step, on a state whose memory already holds the new
   * transition: sample, targets from the current target weights, sync, set
   * the rate, train, record the cost (the log is already complete).
   */
  function Train(net: Network, cfg: Config, decay: nat -> real, s: AgentState,
                 timestep: nat, draws: seq<nat>): (s': AgentState)
    requires |s.memory| > 0 && |draws| == cfg.batchSize
  {
    var batch := Sample(s.memory, draws);
    var y := ComputeTarget(net, s.target, Rewards(batch), Successors(batch), cfg.discount);
    var synced := s.actor;
    var rate := decay(timestep);
    var trained := net.train(s.actor.params, rate, States(batch), Actions(batch), y);
    AgentState(s.memory, Weights(s.actor.version + 1, trained.0), synced, rate, s.costs + [trained.1], s.trace)
  }

  /**
   * Every call stores the transition first: the memory is the old memory with
   * the transition appended, and the first new effect is the store.
   */
  lemma StoresFirst(net: Network, cfg: Config, decay: nat -> real, s: AgentState,
                    t: Transition, timestep: nat, draws: seq<nat>)
    requires cfg.replayCapacity > 0 && |draws| == cfg.batchSize
    ensures var s' := Learn(net, cfg, decay, s, t, timestep, draws);
      && s'.memory == Appended(s.memory, t, cfg.replayCapacity)
      && |s'.trace| > |s.trace| && s'.trace[..|s.trace|] == s.trace
      && s'.trace[|s.trace|] == TransitionStored
  {
  }

  /**
   * During warm-up (memory shorter than `start_learning` after the append)
   * nothing but the memory and the log changes: no sample, no targets, no
   * sync, no learning-rate update, no training, no cost.
   */
  lemma WarmUpOnlyStores(net: Network, cfg: Config, decay: nat -> real, s: AgentState,
                         t: Transition, timestep: nat, draws: seq<nat>)
    requires cfg.replayCapacity > 0 && |draws| == cfg.batchSize
    requires |Appended(s.memory, t, cfg.replayCapacity)| < cfg.startLearning
    ensures var s' := Learn(net, cfg, decay, s, t, timestep, draws);
      && s'.actor == s.actor && s'.target == s.target
      && s'.learningRate == s.learningRate && s'.costs == s.costs
      && forall e :: e in s'.trace[|s.trace|..] ==> e == TransitionStored || e == MemorySizeLogged
  {
  }

  /**
   * Once warmed up, a call performs, after the store, exactly the sample, the
   * target computation, the sync, the learning-rate update, the training step
   * and the cost record, in that order; the targets come from the target
   * weights as they were before the sync, the target ends equal to the actor
   * as it was just before training, training runs at the scheduled rate and
   * the recorded cost is the one training reports.
   */
  lemma LearningStepInOrder(net: Network, cfg: Config, decay: nat -> real, s: AgentState,
                            t: Transition, timestep: nat, draws: seq<nat>)
    requires cfg.replayCapacity > 0 && |draws| == cfg.batchSize
    requires |Appended(s.memory, t, cfg.replayCapacity)| >= cfg.startLearning
    ensures var s' := Learn(net, cfg, decay, s, t, timestep, draws);
      var batch := Sample(s'.memory, draws);
      var y := ComputeTarget(net, s.target, Rewards(batch), Successors(batch), cfg.discount);
      var trained := net.train(s.actor.params, decay(timestep), States(batch), Actions(batch), y);
      && s'.trace[|s'.trace| - 6..] == [BatchSampled, TargetsComputed, TargetSynced, LearningRateSet, ActorTrained, CostRecorded]
      && |s'.trace| - |s.trace| == (if |s'.memory| == 1 then 8 else 7)
      && s'.target == s.actor
      && s'.learningRate == decay(timestep)
      && s'.actor == Weights(s.actor.version + 1, trained.0)
      && s'.costs == s.costs + [trained.1]
  {
  }

  /** The log of one call holds the memory-size diagnostic exactly when one transition is stored. */
  lemma MemorySizeLoggedWhenOne(stored: nat, startLearning: nat)
    ensures MemorySizeLogged in StepEffects(stored, startLearning) <==> stored == 1
  {
    var learning: seq<Effect> := if stored < startLearning then [] else LearningEffects;
    assert MemorySizeLogged !in learning;
    if stored != 1 {
      assert StepEffects(stored, startLearning) == [TransitionStored] + learning;
    }
  }

  /**
   * The memory-size diagnostic fires exactly when the memory holds one
   * transition after the append; with room for more than one transition that
   * is exactly the first call on an empty memory.
   */
  lemma MemorySizeLoggedOnFirstStore(net: Network, cfg: Config, decay: nat -> real, s: AgentState,
                                     t: Transition, timestep: nat, draws: seq<nat>)
    requires cfg.replayCapacity > 0 && |draws| == cfg.batchSize
    ensures var s' := Learn(net, cfg, decay, s, t, timestep, draws);
      (MemorySizeLogged in s'.trace[|s.trace|..] <==> |s'.memory| == 1)
    ensures cfg.replayCapacity > 1 && |s.memory| <= cfg.replayCapacity ==>
      (|Learn(net, cfg, decay, s, t, timestep, draws).memory| == 1 <==> s.memory == [])
  {
    var s' := Learn(net, cfg, decay, s, t, timestep, draws);
    var memory := Appended(s.memory, t, cfg.replayCapacity);
    assert s'.memory == memory;
    assert s'.trace == s.trace + StepEffects(|memory|, cfg.startLearning);
    assert s'.trace[|s.trace|..] == StepEffects(|memory|, cfg.startLearning);
    MemorySizeLoggedWhenOne(|memory|, cfg.startLearning);
    if cfg.replayCapacity > 1 && |s.memory| <= cfg.replayCapacity {
      FirstStoreOnEmptyMemory(s.memory, t, cfg.replayCapacity);
    }
  }

  /** With a replay capacity below `start_learning` the memory never fills enough to learn. */
  lemma NeverLearnsBelowThreshold(net: Network, cfg: Config, decay: nat -> real, s: AgentState,
                                  t: Transition, timestep: nat, draws: seq<nat>)
    requires cfg.replayCapacity > 0 && |draws| == cfg.batchSize
    requires cfg.replayCapacity < cfg.startLearning
    ensures Learn(net, cfg, decay, s, t, timestep, draws).actor == s.actor
  {
  }

  /** How often an effect appears in a log. */
  function Occurrences(trace: seq<Effect>, e: Effect): (n: nat) {
    if trace == [] then 0 else (if trace[0] == e then 1 else 0) + Occurrences(trace[1..], e)
  }

  lemma {:induction false} OccurrencesConcat(a: seq<Effect>, b: seq<Effect>, e: Effect)
    ensures Occurrences(a + b, e) == Occurrences(a, e) + Occurrences(b, e)
  {
    if a == [] {
      assert a + b == b;
    } else {
      assert (a + b)[1..] == a[1..] + b;
      OccurrencesConcat(a[1..], b, e);
    }
  }

  /** The effects of one call hold at most one training step, and one exactly when the memory is warm. */
  lemma {:induction false} StepEffectsTrainOnce(stored: nat, startLearning: nat)
    ensures Occurrences(StepEffects(stored, startLearning), ActorTrained) == if stored < startLearning then 0 else 1
  {
    var logged: seq<Effect> := if stored == 1 then [MemorySizeLogged] else [];
    var learning: seq<Effect> := if stored < startLearning then [] else LearningEffects;
    OccurrencesConcat([TransitionStored] + logged, learning, ActorTrained);
    OccurrencesConcat([TransitionStored], logged, ActorTrained);
    assert Occurrences([TransitionStored], ActorTrained) == 0;
    assert Occurrences(logged, ActorTrained) == 0;
    if stored >= startLearning {
      var tail := [ActorTrained, CostRecorded];
      OccurrencesConcat([BatchSampled, TargetsComputed, TargetSynced, LearningRateSet], tail, ActorTrained);
      assert LearningEffects == [BatchSampled, TargetsComputed, TargetSynced, LearningRateSet] + tail;
      assert Occurrences([CostRecorded], ActorTrained) == 0;
      assert Occurrences(tail, ActorTrained) == 1;
      assert Occurrences([BatchSampled, TargetsComputed, TargetSynced, LearningRateSet], ActorTrained) == 0;
    } else {
      assert learning == [];
    }
  }

  /**
   * The staleness invariant. The actor's version counts the training steps in
   * the log and the recorded costs; the target is the actor itself before the
   * first training step and afterwards exactly one training step behind it.
   */
  predicate Consistent(cfg: Config, s: AgentState) {
    && |s.memory| <= cfg.replayCapacity
    && s.actor.version == Occurrences(s.trace, ActorTrained)
    && |s.costs| == s.actor.version
    && if s.actor.version == 0 then s.target == s.actor else s.target.version == s.actor.version - 1
  }

  /** The target network is never more than one training step behind the actor. */
  lemma ConsistentBoundsStaleness(cfg: Config, s: AgentState)
    requires Consistent(cfg, s)
    ensures s.target.version <= s.actor.version <= s.target.version + 1
  {
  }

  /**
   * Once the actor has trained, a warm call computes its targets with weights
   * two training steps behind the actor it leaves: the target it reads is the
   * actor from before the previous training step.
   */
  lemma TargetsLagTwoSteps(net: Network, cfg: Config, decay: nat -> real, s: AgentState,
                           t: Transition, timestep: nat, draws: seq<nat>)
    requires cfg.replayCapacity > 0 && |draws| == cfg.batchSize
    requires Consistent(cfg, s) && s.actor.version >= 1
    requires |Appended(s.memory, t, cfg.replayCapacity)| >= cfg.startLearning
    ensures var s' := Learn(net, cfg, decay, s, t, timestep, draws);
      s.target.version + 2 == s'.actor.version && s'.target == s.actor
  {
  }

  lemma InitConsistent(cfg: Config, actorParams: Params, initialLearningRate: real)
    ensures Consistent(cfg, Init(actorParams, initialLearningRate))
  {
  }

  lemma {:induction false} LearnKeepsConsistent(net: Network, cfg: Config, decay: nat -> real, s: AgentState,
                                                t: Transition, timestep: nat, draws: seq<nat>)
    requires cfg.replayCapacity > 0 && |draws| == cfg.batchSize
    requires Consistent(cfg, s)
    ensures Consistent(cfg, Learn(net, cfg, decay, s, t, timestep, draws))
  {
    var memory := Appended(s.memory, t, cfg.replayCapacity);
    OccurrencesConcat(s.trace, StepEffects(|memory|, cfg.startLearning), ActorTrained);
    StepEffectsTrainOnce(|memory|, cfg.startLearning);
  }

  /** The inputs of one `experience` call. */
  datatype Input = Input(transition: Transition, timestep: nat, draws: seq<nat>)

  predicate WellFormedInputs(cfg: Config, inputs: seq<Input>) {
    forall i :: 0 <= i < |inputs| ==> |inputs[i].draws| == cfg.batchSize
  }

  /** The agent's state after a run of `experience` calls. */
  function Run(net: Network, cfg: Config, decay: nat -> real, s: AgentState, inputs: seq<Input>): (s': AgentState)
    requires cfg.replayCapacity > 0 && WellFormedInputs(cfg, inputs)
    decreases |inputs|
  {
    if inputs == [] then s
    else
      var s' := Learn(net, cfg, decay, s, inputs[0].transition, inputs[0].timestep, inputs[0].draws);
      Run(net, cfg, decay, s', inputs[1..])
  }

  /**
   * After construction and any run of `experience` calls, the invariant holds:
   * the target lags the actor by at most one training step.
   */
  lemma {:induction false} RunKeepsConsistent(net: Network, cfg: Config, decay: nat -> real,
                                              s: AgentState, inputs: seq<Input>)
    requires cfg.replayCapacity > 0 && WellFormedInputs(cfg, inputs)
    requires Consistent(cfg, s)
    ensures Consistent(cfg, Run(net, cfg, decay, s, inputs))
    ensures var r := Run(net, cfg, decay, s, inputs); r.actor.version - r.target.version in {0, 1}
    decreases |inputs|
  {
    if inputs != [] {
      LearnKeepsConsistent(net, cfg, decay, s, inputs[0].transition, inputs[0].timestep, inputs[0].draws);
      var s' := Learn(net, cfg, decay, s, inputs[0].transition, inputs[0].timestep, inputs[0].draws);
      RunKeepsConsistent(net, cfg, decay, s', inputs[1..]);
    }
  }

  /**
   * With `start_learning` 3, batch size 2 and capacity 5, the first two calls
   * on a fresh agent only store, and the third samples and trains exactly once.
   */
  lemma ThirdCallTrains(net: Network, decay: nat -> real, p: Params, rate: real, discount: real,
                        t1: Transition, t2: Transition, t3: Transition, d1: seq<nat>, d2: seq<nat>, d3: seq<nat>)
    requires |d1| == 2 && |d2| == 2 && |d3| == 2
    ensures var cfg := Config(5, 2, 3, discount);
      var s0 := Init(p, rate);
      var s1 := Learn(net, cfg, decay, s0, t1, 1, d1);
      var s2 := Learn(net, cfg, decay, s1, t2, 2, d2);
      var s3 := Learn(net, cfg, decay, s2, t3, 3, d3);
      && s1.actor == s0.actor && s2.actor == s0.actor && s2.costs == []
      && BatchSampled !in s2.trace
      && s3.actor.version == 1 && |s3.costs| == 1
      && s3.trace == [TransitionStored, MemorySizeLogged, TransitionStored, TransitionStored] + LearningEffects
  {
  }
}
