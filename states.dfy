/** The phases a commit session goes through, and their textual labels.
    Go's `State` is an `int` (64 bits on the platforms the node targets), so
    values other than the four named phases exist and are labelled "unknown". */
module States {

  newtype State = x: int | -0x8000_0000_0000_0000 <= x < 0x8000_0000_0000_0000

  // The four phases, numbered as Go's `iota` numbers them.
  const Initialized: State := 0
  const PreparedToCommit: State := 1
  const Aborted: State := 2
  const Commited: State := 3

  /** One of the four named phases. */
  predicate IsPhase(s: State) {
    s == Initialized || s == PreparedToCommit || s == Aborted || s == Commited
  }

  /** A phase after which the session's worker has nothing more to do. */
  predicate IsTerminal(s: State) {
    s == Aborted || s == Commited
  }

  /** The label observers see for a phase (`State.String`). Each named phase
      has its own label, and "unknown" is reserved for every other value. */
  function Label(s: State): (r: string)
    ensures r == "Initialized" <==> s == Initialized
    ensures r == "prepared-to-commit" <==> s == PreparedToCommit
    ensures r == "aborted" <==> s == Aborted
    ensures r == "commited" <==> s == Commited
    ensures r == "unknown" <==> !IsPhase(s)
  {
    if s == Initialized then "Initialized"
    else if s == PreparedToCommit then "prepared-to-commit"
    else if s == Aborted then "aborted"
    else if s == Commited then "commited"
    else "unknown"
  }

  /** Labels tell the named phases apart: a label determines its phase. */
  lemma LabelInjective(a: State, b: State)
    requires IsPhase(a) || IsPhase(b)
    requires Label(a) == Label(b)
    ensures a == b
  {
  }
}
