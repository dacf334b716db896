/**
 * The agent object. Its fields are the state that `experience` changes in
 * place: the replay memory, the actor's and the target's weights, the actor's
 * learning-rate option and the recorded costs. Each method is proved against
 * the functions of `Learning`, whose lemmas state what a step does.
 */
module DeepQ {
  import opened Outputs
  import opened Model
  import opened Targets
  import opened Replay
  import opened Learning

  class DQN {
    const config: Config
    const net: Network
    /** The learning-rate schedule, read at the trainer's global timestep. */
    const decay: nat -> real

    var memory: seq<Transition>
    var actor: Weights
    var target: Weights
    var learningRate: real
    var costs: seq<real>
    /** The effects performed so far, in order. */
    ghost var trace: seq<Effect>

    ghost function State(): AgentState
      reads this
    {
      AgentState(memory, actor, target, learningRate, costs, trace)
    }

    ghost predicate Valid()
      reads this
    {
      config.replayCapacity > 0 && Consistent(config, State())
    }

    /**
     * Builds the actor and the target from their own initial parameters, then
     * overwrites the target's weights with the actor's.
     */
    constructor (config: Config, net: Network, decay: nat -> real,
                 actorParams: Params, targetParams: Params, initialLearningRate: real)
      requires config.replayCapacity > 0
      ensures Valid()
      ensures this.config == config && this.net == net && this.decay == decay
      ensures State() == Init(actorParams, initialLearningRate)
    {
      this.config := config;
      this.net := net;
      this.decay := decay;
      actor := Weights(0, actorParams);
      target := Weights(0, targetParams);
      target := actor;
      learningRate := initialLearningRate;
      memory := [];
      costs := [];
      trace := [];
    }

    /** The action choice: the actor's `choice` output, a one-hot vector at a best action. */
    method Step(state: Row) returns (choice: seq<real>)
      ensures var q := net.qvalues(actor.params, state);
        |choice| == |q| && exists k :: 0 <= k < |q| && OneHotAt(choice, k) && q[k] == Value(q)
    {
      choice := Choice(net.qvalues(actor.params, state));
    }

    /**
     * Records one transition and, once the memory is warm, runs one learning
     * step; the staleness invariant survives the call.
     */
    method Experience(t: Transition, timestep: nat, draws: seq<nat>)
      requires Valid() && |draws| == config.batchSize
      modifies this
      ensures Valid()
      ensures State() == Learn(net, config, decay, old(State()), t, timestep, draws)
    {
      LearnKeepsConsistent(net, config, decay, State(), t, timestep, draws);
      ApplyExperience(t, timestep, draws);
    }

    /**
     * The body of `Experience`: its effects, in the order the agent performs
     * them. It holds on any state; `Experience` adds the invariant.
     */
    method ApplyExperience(t: Transition, timestep: nat, draws: seq<nat>)
      requires config.replayCapacity > 0 && |draws| == config.batchSize
      modifies this
      ensures State() == Learn(net, config, decay, old(State()), t, timestep, draws)
    {
      // The effects of this call, in the order they happen.
      ghost var effects := [TransitionStored];
      memory := Appended(memory, t, config.replayCapacity);
      if |memory| == 1 {
        effects := effects + [MemorySizeLogged];
      }
      if |memory| < config.startLearning {
        assert effects == StepEffects(|memory|, config.startLearning);
        trace := trace + effects;
        return;
      }
      var batch := Sample(memory, draws);
      effects := effects + [BatchSampled];
      var y := ComputeTarget(net, target, Rewards(batch), Successors(batch), config.discount);
      effects := effects + [TargetsComputed];
      target := actor;
      effects := effects + [TargetSynced];
      learningRate := decay(timestep);
      effects := effects + [LearningRateSet];
      var trained := net.train(actor.params, learningRate, States(batch), Actions(batch), y);
      actor := Weights(actor.version + 1, trained.0);
      effects := effects + [ActorTrained];
      costs := costs + [trained.1];
      effects := effects + [CostRecorded];
      assert effects == StepEffects(|memory|, config.startLearning);
      trace := trace + effects;
    }
  }
}
