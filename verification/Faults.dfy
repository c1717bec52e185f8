/** How a call to another system can go, and what an activity attempt ends in. */
module Faults {
  /** A call can answer, fail before or after taking effect, or find its worker dead
      before or after taking effect. */
  datatype Fault = Fine | FailBefore | FailAfter | CrashBefore | CrashAfter {
    predicate Lands() { Fine? || FailAfter? || CrashAfter? }
    predicate Kills() { CrashBefore? || CrashAfter? }
  }

  /** What the environment decides for one attempt: the fate of its k-th call, which
      characters beyond ASCII count as letters and digits, and the values other systems
      choose. */
  datatype Plan = Plan(faults: seq<Fault>, letters: set<char>, orgId: string, email: string, keyId: string) {
    function At(k: nat): Fault {
      if k < |faults| then faults[k] else Fine
    }
  }

  /** How an attempt ends. A crashed attempt never reports back. */
  datatype Result<+T> = Done(value: T) | Erred | Crashed

  /** The end of an attempt whose call did not answer. */
  function Stop<T>(f: Fault): Result<T> {
    if f.Kills() then Crashed else Erred
  }

  /** What an activity answers with. */
  datatype Answer = Answer(orgId: string, email: string)
}
