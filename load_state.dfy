/**
 * `DataListState`, the loading state of a list screen. The world-cities and the music screens each
 * declare a copy with the same cases and predicates; only the world-cities copy has `startWorking()`.
 */
module LoadState {

  datatype DataListState<T, E> = FirstLoading | Working | Failure(error: E) | Success(value: T)

  /** `isFirstLoading()`. */
  predicate IsFirstLoading<T, E>(s: DataListState<T, E>) {
    s.FirstLoading?
  }

  /** `isWorking()`. */
  predicate IsWorking<T, E>(s: DataListState<T, E>) {
    s.Working?
  }

  /** `isSuccess()`. */
  predicate IsSuccess<T, E>(s: DataListState<T, E>) {
    s.Success?
  }

  /** Each predicate holds for its own case only, and none of them for a failure. */
  lemma PredicatesSeparateCases<T, E>(s: DataListState<T, E>)
    ensures (IsFirstLoading(s) ==> !IsWorking(s) && !IsSuccess(s)) && (IsWorking(s) ==> !IsSuccess(s))
    ensures s.Failure? <==> !IsFirstLoading(s) && !IsWorking(s) && !IsSuccess(s)
  {
  }

  /** `startWorking()`: a screen that already shows a result or an error goes back to working. */
  function StartWorking<T, E>(s: DataListState<T, E>): (r: DataListState<T, E>)
    ensures IsWorking(r) || IsFirstLoading(r)
    ensures r != s <==> s.Failure? || s.Success?
    ensures s.Failure? || s.Success? ==> r == Working
    ensures !(s.Failure? || s.Success?) ==> r == s
  {
    if !IsFirstLoading(s) && !IsWorking(s) then Working else s
  }

  lemma StartWorkingIdempotent<T, E>(s: DataListState<T, E>)
    ensures StartWorking(StartWorking(s)) == StartWorking(s)
  {
  }
}
