/**
  The opaque collaborators of the training engine.

  Tensors, the network's forward pass, the cross-entropy criterion, interval
  bound propagation, the construction of worst-case logits from bounds and the
  accuracy computation are floating-point tensor code that the engine only
  calls. They are modelled as uninterpreted total functions that the caller
  supplies, so every property proved about the engine holds whatever they do.
 */
module Collaborators {

  /** A tensor of floating-point values; its contents are never inspected. */
  type Tensor

  /** The trainable state, equally opaque: the network's state dict
      (parameters and buffers such as batch-norm running statistics) together
      with the optimizer's per-parameter state (momentum buffers). */
  type Weights

  /** One (inputs, targets) pair drawn from a loader; `size` is inputs.size(0). */
  datatype Batch = Batch(inputs: Tensor, targets: seq<nat>, size: nat)

  /** The uninterpreted functions the engine calls. */
  datatype Collaborators = Collaborators(
    // net(inputs): the forward pass, which depends on the weights and on the train/eval mode
    forward: (Weights, bool, Tensor) -> Tensor,
    // criterion(output, targets): CrossEntropyLoss reduced to a scalar
    criterion: (Tensor, seq<nat>) -> real,
    // propagate_bounds(net, inputs, epsilon).offset
    propagateBounds: (Weights, bool, Tensor, real) -> Tensor,
    // bounds_logits(output, offset, targets): lower bound for the true class, upper for the rest
    boundsLogits: (Tensor, Tensor, seq<nat>) -> Tensor,
    // logits / (temperature * logits.abs().max(1))
    rescale: (Tensor, real) -> Tensor,
    // compute_accuracy(output, targets, top_k=(1, 5))
    accuracy: (Tensor, seq<nat>) -> (real, real)
  )

  /** The three scalars one_epoch receives besides its collaborators. */
  datatype LossConfig = LossConfig(epsilon: real, factor: real, temperature: real)
}
