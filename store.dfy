/** How one atomic findAndModify round trip to the store ends, as the caller sees it. */
module Store {
  import opened Wrappers

  /**
   * `Applied`: the update committed and its result was decoded.
   * `Rejected`: the store refused or was unreachable; nothing was written.
   * `AppliedThenFailed`: the update committed, but an error came back anyway
   * (the connection dropped before the reply, or the reply did not decode).
   */
  datatype Attempt = Applied | Rejected(error: Error) | AppliedThenFailed(error: Error) {
    /** Whether the update reached the store. */
    predicate Commits()
    {
      !Rejected?
    }
  }
}
