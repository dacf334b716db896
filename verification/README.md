# DQN agent learning core, modelled in Dafny

This project models the decision and learning core of the `DQN` agent in
`vizbot/agent/dqn.py`: the greedy action choice, the network's `value`,
`choice` and `cost` outputs, the regression-target computation with its
terminal-state mask, and the `experience` learning step that chains replay
storage, sampling, target computation, target-network sync, learning-rate
update, training and cost recording.

Layout, one module per component:

- `outputs.dfy` (`Outputs`): the `value`, `choice` and `cost` definitions of
  `_create_network` as functions over one row of Q-values, with the lemmas
  that tie the greedy choice to the value output and to the cost.
- `model.dfy` (`Model`): observation rows of cells (`NaN | Num(real)`),
  transitions, versioned weight sets, and the network as two total functions:
  inference (`qvalues`) and one training step (`train`).
- `targets.dfy` (`Targets`): `_compute_target` as a pure batch map.
- `replay.dfy` (`Replay`): the replay memory as a bounded sequence, its append
  and its sampling.
- `learning.dfy` (`Learning`): one `experience` call as a function `Learn` of
  the agent's state, the staleness invariant `Consistent`, and runs of calls.
- `dqn.dfy` (`DeepQ`): the `DQN` class. Its fields are the state that
  `experience` changes in place. Its methods are proved against `Learn` and
  `Choice`.

Weights are values: `target := actor` copies the whole weight set, so later
training of the actor cannot change the target. Each weight set carries a
version, the number of training steps behind it. Every call appends its
effects, in order, to a ghost log (`trace`). That log is how the order of the
learning step is stated.

Two details of the code that the model follows:

- The targets of a learning step are computed with the target weights as they
  were before this step's sync (vizbot/agent/dqn.py:100-101). Once the actor
  has trained, those are the actor's weights from before its previous training
  step, two training steps behind the actor the call leaves
  (`Learning.TargetsLagTwoSteps`).
- A terminal successor is recognised only by a NaN cell (line 87). The
  diagnostic count on line 83 tests for `None` rows instead, and it does not
  affect the targets.

## Model

| member | source | states |
|---|---|---|
| `Outputs.Value` | vizbot/agent/dqn.py:68 | the value output is at least every Q-value of the row and equals one of them |
| `Outputs.ArgMax` | vizbot/agent/dqn.py:70 | the argmax is an index of the row whose Q-value no other entry exceeds |
| `Outputs.Choice` | vizbot/agent/dqn.py:69-70 | the choice output has one entry per action and is one-hot at an index whose Q-value equals the value output |
| `Outputs.DotSelects` | vizbot/agent/dqn.py:77 | `sum(a * b)` with `a` zero outside index `k` is `a[k] * b[k]` |
| `Outputs.ChoiceSelectsValue` | vizbot/agent/dqn.py:68-70 | weighting the Q-values by the choice gives exactly the value output, which bounds every Q-value |
| `Outputs.Cost` | vizbot/agent/dqn.py:76-77 | the cost is never negative and is zero when `sum(action * values)` equals the target |
| `Outputs.CostOfOneHot` | vizbot/agent/dqn.py:76-77 | with a one-hot action at `k` the cost is the squared error of the Q-value of action `k` alone |
| `Outputs.CostOfChoice` | vizbot/agent/dqn.py:68-77 | costing the greedy choice gives the squared error of the value output |
| `Targets.ComputeTarget` | vizbot/agent/dqn.py:86-89 | one target per batch entry; a terminal entry's target is its reward exactly; any other entry's target is reward plus discount times the target network's value of the successor |
| `Targets.TerminalTargetsIgnoreNetwork` | vizbot/agent/dqn.py:86-89 | at a terminal entry the target does not depend on the network or its weights |
| `Targets.MixedBatchExample` | vizbot/agent/dqn.py:86-89 | rewards 1, 2, 3, 4, discount 0.9, terminal rows 0 and 1 and a constant value 10 give targets 1, 2, 12, 13 |
| `Replay.Appended` | vizbot/agent/dqn.py:93 | the append grows the memory by one, or keeps it at capacity by dropping the oldest entry; the new transition is last |
| `Replay.AppendAllKeepsNewest` | vizbot/agent/dqn.py:93 | a run of appends leaves exactly the `capacity` most recent transitions |
| `Replay.FirstStoreOnEmptyMemory` | vizbot/agent/dqn.py:93-95 | with capacity above one, the memory holds exactly one transition after an append exactly when it was empty |
| `Replay.Sample` | vizbot/agent/dqn.py:98-99 | a sample holds one transition per draw, each one stored in the memory |
| `Replay.SampleCoversStored` | vizbot/agent/dqn.py:98-99 | every batch of stored transitions is produced by some draws |
| `Learning.StoresFirst` | vizbot/agent/dqn.py:93 | every call appends the transition to the memory, and the append is its first effect |
| `Learning.WarmUpOnlyStores` | vizbot/agent/dqn.py:96-97 | below `start_learning` a call changes neither network, nor the learning rate, nor the costs, and logs only the store and the diagnostic |
| `Learning.LearningStepInOrder` | vizbot/agent/dqn.py:98-106 | once warm, a call samples, computes targets with the pre-sync target weights, syncs the target to the actor, sets the rate to `decay(timestep)`, trains once and records the cost, in that order and once each |
| `Learning.MemorySizeLoggedWhenOne` | vizbot/agent/dqn.py:94-97 | a call's log holds the memory-size diagnostic exactly when the memory holds one transition |
| `Learning.MemorySizeLoggedOnFirstStore` | vizbot/agent/dqn.py:94-95 | the memory-size diagnostic fires exactly when the memory holds one transition after the append, which with capacity above one is the first call |
| `Learning.NeverLearnsBelowThreshold` | vizbot/agent/dqn.py:93-97 | with a replay capacity below `start_learning` a call never trains the actor |
| `Learning.StepEffectsTrainOnce` | vizbot/agent/dqn.py:96-104 | one call trains once when the memory is warm and never otherwise |
| `Learning.ConsistentBoundsStaleness` | vizbot/agent/dqn.py:101-104 | under the invariant the target is at most one training step behind the actor |
| `Learning.TargetsLagTwoSteps` | vizbot/agent/dqn.py:100-104 | once the actor has trained, a warm call computes its targets with weights two training steps behind the actor it leaves, and the new target is the old actor |
| `Learning.InitConsistent` | vizbot/agent/dqn.py:44-46 | the freshly built agent satisfies the staleness invariant, with target equal to actor |
| `Learning.LearnKeepsConsistent` | vizbot/agent/dqn.py:92-106 | one call preserves the invariant: the actor's version counts its training steps and costs, and the target is the actor before the first step and one step behind it afterwards |
| `Learning.RunKeepsConsistent` | vizbot/agent/dqn.py:46-106 | after any run of calls the actor's version minus the target's is 0 or 1 |
| `Learning.ThirdCallTrains` | vizbot/agent/dqn.py:92-106 | with `start_learning` 3, batch size 2 and capacity 5, the first two calls only store and the third samples and trains exactly once |
| `DeepQ.DQN.constructor` | vizbot/agent/dqn.py:43-73 | the agent starts with an empty memory, no costs, the initial learning rate and the target overwritten by the actor's weights |
| `DeepQ.DQN.Step` | vizbot/agent/dqn.py:79-80 | the action is the actor's one-hot choice at a best action, and nothing changes |
| `DeepQ.DQN.Experience` | vizbot/agent/dqn.py:92-106 | the new state is `Learn` of the old one and the staleness invariant is kept |
| `DeepQ.DQN.ApplyExperience` | vizbot/agent/dqn.py:92-106 | the fields are updated in the source's order, ending in `Learn` of the old state |

## Left out

- The network's layers, the optimizer and gradient descent are not part of this model. `Network.qvalues` stands for inference and `Network.train` for one optimiser step. Nothing is said about how training changes the weights, or whether the cost it reports comes from before or after the update.
- `Experience`, `Decay`, `Statistic`, `Every`, `Model` and `merge_dicts` (vizbot/utility, vizbot/model) are not part of this model. The replay append is assumed to keep the newest `capacity` transitions (first in, first out); the buffer's code is not modelled, so `Replay.AppendAllKeepsNewest` is a property of this stand-in. Sampling is driven by caller-supplied draws (taken modulo the memory length) in place of a random generator. The learning-rate schedule is a `nat -> real` parameter. The cost statistic is the sequence of recorded costs.
- The trainer's global timestep is a parameter of `Experience`.
- `__call__` (the trainer loop, the `running` flag, episodes, saving the model to a directory) is external control and I/O.
- The preprocessing registrations, the epsilon-greedy wrapper and the `defaults` bundle are configuration and outside the core.
- Printing is left out: the actor summary, the terminal-count message of lines 83-85 and the gigabyte figure of `_log_memory_size`. Only the memory-size diagnostic's trigger is modelled, as an effect in the log.
- Floating point is left out. Numbers are `real`, and NaN appears only as the terminal sentinel cell.
- `Outputs.Cost`: does not state that a non-zero error gives a strictly positive cost; only non-negativity and zero cost at an exact fit are proved.
- `Outputs.ArgMax`: TensorFlow's tie-break is not modelled. The contract promises only some index of a largest Q-value.
- The action set is assumed non-empty: Q-value rows have the subset type `QValues`.
- Shape errors (a stored state or action of the wrong width) are fatal in the source, whose inputs have fixed shapes (vizbot/agent/dqn.py:63, 66). The model does not check widths: `Model.Row`, `Transition.action`, `Network.qvalues` and `Network.train` accept rows of any width. Only the lengths of a batch's columns agree, by construction from one sequence of transitions.
