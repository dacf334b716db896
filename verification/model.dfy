/**
 * The values the agent works on: observation rows, transitions, the two
 * weight sets and the network that both of them parameterise.
 */
module Model {
  import opened Outputs

  /** One cell of a flattened observation; `NaN` is the sentinel cell of a terminal successor. */
  datatype Cell = NaN | Num(x: real)

  /** An observation (a state or a successor state), flattened to one row of cells. */
  type Row = seq<Cell>

  /** One observed step: the state, the one-hot action taken, the reward and the successor. */
  datatype Transition = Transition(state: Row, action: seq<real>, reward: real, successor: Row)

  /** The parameters of one network: named weight tensors, flattened. */
  type Params = map<string, seq<real>>

  /**
   * A weight set together with the number of training steps that produced it.
   * Assigning one `Weights` to another copies the whole value, so a later
   * training step on the source never changes the copy.
   */
  datatype Weights = Weights(version: nat, params: Params)

  /**
   * The network that both the actor and the target instantiate. Its layers are
   * not part of this model: `qvalues` stands for inference (one row of
   * Q-values for a state under given parameters) and `train` for one optimiser
   * step (new parameters and the reported cost, given the learning rate, the
   * states, the actions and the regression targets of a batch).
   */
  datatype Network = Network(
    qvalues: (Params, Row) -> QValues,
    train: (Params, real, seq<Row>, seq<seq<real>>, seq<real>) -> (Params, real))

  /** The `value` output of the network for a batch of states. */
  function ValueOutput(net: Network, w: Weights, states: seq<Row>): (v: seq<real>)
  {
    seq(|states|, i requires 0 <= i < |states| => Value(net.qvalues(w.params, states[i])))
  }
}
