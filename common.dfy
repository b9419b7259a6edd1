/** Shared vocabulary of the storefront model: optional values, the outcome of a
    network or storage call made by a handler, and the "never below one"
    quantity counter used by both the catalog and the order screen. */
module Common {

  datatype Option<+T> = None | Some(value: T)

  /** How one `fetch` call ended, as seen by the handler that made it: the
      response was ok (carrying its decoded JSON body), the response was not
      ok, or the call (or decoding its body) threw. */
  datatype HttpOutcome<+T> = Ok(data: T) | NotOk | Threw

  /** How an awaited asynchronous function ended: it returned a value, or the
      promise was rejected and the error reached the caller. */
  datatype Completion<+T> = Returned(value: T) | Raised

  /** How a storage call that returns nothing (`setItem`, `removeItem`, or a
      `getItem` whose value is read separately) ended. */
  datatype IoOutcome = Completes | Throws

  /** `Math.max(prev + change, 1)`: the step of a quantity counter whose
      value may never fall below one. */
  function AtLeastOne(prev: int, change: int): (r: int)
    ensures r >= 1 && r >= prev + change
    ensures r == prev + change || r == 1
  {
    if prev + change > 1 then prev + change else 1
  }

  /** The counter's value after pressing its buttons `changes` in order. */
  function CounterAfter(start: int, changes: seq<int>): int
    decreases |changes|
  {
    if changes == [] then start else CounterAfter(AtLeastOne(start, changes[0]), changes[1..])
  }

  /** A counter that starts at one or more never shows less than one, however
      the buttons are pressed; and a counter at one that is decremented stays
      at one. */
  lemma {:induction false} CounterNeverBelowOne(start: int, changes: seq<int>)
    requires start >= 1
    decreases |changes|
    ensures CounterAfter(start, changes) >= 1
    ensures changes == [-1] ==> CounterAfter(start, changes) == if start == 1 then 1 else start - 1
  {
    if changes != [] {
      CounterNeverBelowOne(AtLeastOne(start, changes[0]), changes[1..]);
    }
  }
}
