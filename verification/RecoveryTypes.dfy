/** The domain enumerations shared by every component (app/models/enums.py). */
module RecoveryTypes {

  datatype Option<+T> = None | Some(value: T)

  datatype PaymentLifecycleState =
    | Created
    | Processing
    | Succeeded
    | Failed
    | RecoveryPending
    | Recovering
    | Recovered
    | Escalated
    | Stopped
  {
    /** Payment states from which automated recovery cannot progress. */
    predicate IsTerminal() {
      Succeeded? || Recovered? || Stopped? || Escalated?
    }

    /** The money has been collected: the executor discards any further attempt. */
    predicate IsCompleted() {
      Succeeded? || Recovered?
    }

    /** Another transaction is still moving the payment. */
    predicate IsInFlight() {
      Processing? || Created?
    }
  }

  datatype RecoveryState =
    | Failed
    | Classified
    | RecoveryPlanned
    | GuardPending
    | Approved
    | Executing
    | RecoverySucceeded
    | RecoveryFailed
    | Escalated
    | Stopped
  {
    predicate IsTerminal() {
      RecoverySucceeded? || Stopped? || Escalated?
    }
  }

  datatype PaymentMethod = Upi | CreditCard | DebitCard | Netbanking | Wallet

  datatype AttemptStatus = Initiated | Pending | AttemptSucceeded | AttemptFailed

  datatype RecoveryStrategy =
    | NoStrategy
    | DeterministicRetryBackoff
    | RouteFailover
    | NotifyCustomerLink
    | ManualReview
    | TerminalAbandon
  {
    /** The strategies that lead to another debit of the customer. */
    predicate IsRetry() {
      DeterministicRetryBackoff? || RouteFailover?
    }
  }

  datatype RetryabilityClass = Retryable | NonRetryable | CustomerActionRequired | Unknown
}
