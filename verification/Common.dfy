/** Shared vocabulary: optional values, outcomes and the caller of a service. */
module Common {
  datatype Option<+T> = None | Some(value: T)

  /** A service call either answers or throws; `Err` carries the thrown error. */
  datatype Result<+T, +E> = Ok(value: T) | Err(error: E)

  /** An authenticated caller. `provider` is the provider profile, if there is one. */
  datatype User = User(id: nat, admin: bool, provider: Option<nat>)
}

/** The standing of an account, and whom a password login and a Google sign-in both refuse. */
module Accounts {
  import opened Common

  datatype Status = Active | PendingVerification | Suspended | Deactivated

  datatype Unusable = AccountSuspended | AccountDeactivated

  function WhyUnusable(status: Status): Option<Unusable> {
    match status
    case Suspended => Some(AccountSuspended)
    case Deactivated => Some(AccountDeactivated)
    case _ => None
  }
}
