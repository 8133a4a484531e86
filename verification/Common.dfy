/** Types shared by every component: options, outcomes, clock ticks and the state vocabulary. */
module Common {

  datatype Option<+T> = None | Some(value: T)

  datatype Result<+T, +E> = Success(value: T) | Failure(error: E)

  /** Steady-clock ticks, in nanoseconds. */
  type Time = int

  const SECOND: Time := 1_000_000_000

  /** The words shown as states: the five pet states, the presence state visible, and any other text
      a caller might put in the same field. */
  datatype State = Active | Resting | OutOfView | Offline | Unknown | Visible | Other(text: string)

  /** The states a pet can be recorded in. */
  const STATES: set<State> := {Active, Resting, OutOfView, Offline, Unknown}

  /** How a displayed pet state is justified. */
  datatype Evidence = NoEvidence | CameraOffline | Ambiguous | Observed | Held | Searching | Absent | Confirming

  datatype Category = Person | Cat | Pet

  /** A state transition, as stored and published. Wall-clock stamps are whole UTC seconds. */
  datatype Event = Event(source: string, category: Category, state: State, observedAt: int, confidence: real)

  /** A closed door. An invariant stated for every door of this kind stays out of the way of a proof
      that only hands it on; a proof that needs it asserts Door(0). */
  predicate Door(n: int) { true }

  function Min(a: int, b: int): int { if a <= b then a else b }

  function Max(a: int, b: int): int { if a >= b then a else b }

  function Last<T>(s: seq<T>): T
    requires |s| > 0
  {
    s[|s| - 1]
  }

  function Front<T>(s: seq<T>): seq<T>
    requires |s| > 0
  {
    s[..|s| - 1]
  }
}
