/** src/payments/payment-gate.policy.ts: whether required payment still locks a
    job's assignment. */
module PaymentGate {
  import opened Common

  datatype PaymentStatus = Pending | Succeeded | Failed | Refunded | Canceled

  /** The fields of policySnapshot that the gate reads, each as the strict test the
      code applies to it; approvedAt and reason are None when not strings. */
  datatype Policy = Policy(
    depositRequired: bool,
    serviceFeeRequired: bool,
    manualOverride: bool,
    exceptionActive: bool,
    approvedAt: Option<string>,
    reason: Option<string>)

  datatype GateState = NotRequired | Locked | Unlocked

  function EvaluateGate(policy: Policy, payment: Option<PaymentStatus>): GateState {
    if !policy.depositRequired && !policy.serviceFeeRequired then NotRequired
    else if payment == Some(Succeeded) then Unlocked
    else if policy.manualOverride && policy.exceptionActive && policy.approvedAt.Some? && policy.reason.Some?
        then Unlocked
    else Locked
  }
}
