/** Future states and their transition table, and retry settings
    (sematic/abstract_future.py, sematic/retry_settings.py). */
module FutureStates {
  datatype Option<+T> = None | Some(value: T)

  datatype FutureState =
    | CREATED | RESOLVED | RAN | SCHEDULED | FAILED | NESTED_FAILED | RETRYING | CANCELED
  {
    predicate IsTerminal() {
      this in {NESTED_FAILED, FAILED, RESOLVED, CANCELED}
    }
  }

  /** The table of allowed transitions out of an existing state. */
  function AllowedTransitions(from: FutureState): set<FutureState> {
    match from
    case CREATED => {SCHEDULED, CANCELED, FAILED}
    case SCHEDULED => {RAN, RETRYING, CANCELED, RESOLVED, FAILED}
    case RAN => {NESTED_FAILED, RESOLVED, CANCELED}
    case RETRYING => {FAILED, SCHEDULED, CANCELED}
    case FAILED => {RETRYING}
    case NESTED_FAILED => {}
    case CANCELED => {}
    case RESOLVED => {}
  }

  predicate IsAllowedTransition(from: FutureState, to: FutureState) {
    to in AllowedTransitions(from)
  }

  /** An exception class, named the way `ExceptionMetadata` names it. */
  datatype ExceptionType = ExceptionType(modulePath: string, name: string) {
    function Classpath(): string {
      modulePath + "." + name
    }
  }

  datatype ExceptionMetadata = ExceptionMetadata(self: ExceptionType, ancestors: seq<string>) {
    predicate IsInstanceOf(t: ExceptionType) {
      self == t || t.Classpath() in ancestors
    }
  }

  /** The settings of a future. The number of retries granted so far is the future's own
      mutable field, so it is passed in. */
  datatype RetrySettings = RetrySettings(exceptions: seq<ExceptionType>, retries: int) {
    predicate MatchesExceptions(e: ExceptionMetadata) {
      exists t | t in exceptions :: e.IsInstanceOf(t)
    }

    predicate ShouldRetry(retryCount: nat, metadata: seq<Option<ExceptionMetadata>>) {
      && (exists m | m in metadata :: m.Some? && MatchesExceptions(m.value))
      && retryCount < retries
    }
  }
}
