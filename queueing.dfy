/**
  The interface of the queueing formula engine (`qsystems.ssqs` and `qsystems.msqs`).
  Its source is not part of this model, so the formulas appear only as function-typed
  parameters: nothing is assumed about their values.
 */
module Queueing {
  import opened Wrappers

  /** The two fields of an `ssqs` result that the network reads: mean time in system `w`
      and utilization `u`. */
  datatype QueueMetrics = QueueMetrics(w: real, u: real)

  /** `ssqs(qs="md1", ar, sr)`: arrival rate and service rate (Python `None` for a plain node)
      in, metrics out; `None` stands for the call raising (an unstable queue, say). */
  type Md1Model = (real, Option<real>) -> Option<QueueMetrics>

  /** `msqs(ar, sn, s1, qs)['w']`: queue notation, arrival rate, server count and mean service
      time in, mean waiting time out. */
  type MultiServerWait = (string, real, int, real) -> real
}
