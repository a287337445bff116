/**
 * The error handler (core/error_handler.py): the exception hierarchy's
 * error codes, the bounded error history with its queries, the specialised
 * handlers' severity and recovery policy, and the `safe_call`, `try_except`
 * and synchronous `with_retry` wrappers.
 */
module ErrorHandling {
  import opened Wrappers
  import opened PyStr
  import opened Tally

  /** A context or details dictionary, with its values kept as text or integers. */
  datatype ContextValue = Text(text: string) | Number(number: int)
  type Context = map<string, ContextValue>

  datatype ErrorSeverity = Info | Warning | Error | Critical | Fatal {
    function Value(): string {
      match this
      case Info => "INFO"
      case Warning => "WARNING"
      case Error => "ERROR"
      case Critical => "CRITICAL"
      case Fatal => "FATAL"
    }
  }

  datatype RecoveryStrategy = Retry | Fallback | Ignore | Abort | UserInput {
    function Value(): string {
      match this
      case Retry => "retry"
      case Fallback => "fallback"
      case Ignore => "ignore"
      case Abort => "abort"
      case UserInput => "user_input"
    }
  }

  // ------------------------------------------------------------------
  // Exceptions
  // ------------------------------------------------------------------

  /** How the wrappers treat an exception: `Caught` is an instance of
      `KeyError`, `ValueError` or `TypeError` (or a subclass); `Handy` a
      member of the HandyOsint hierarchy; `Uncaught` anything else. */
  datatype ExceptionFamily =
    | Caught
    | Handy(errorCode: string, timestamp: string, details: Context)
    | Uncaught

  /** An exception: `type(e).__name__`, `str(e)` and its family. */
  datatype PyException = PyException(typeName: string, text: string, family: ExceptionFamily) {
    /** `isinstance(e, (KeyError, ValueError, TypeError))`. */
    predicate IsCaught() { family.Caught? }
  }

  /** The subclasses of `HandyOsintException`. */
  datatype ErrorKind =
    | ValidationKind | DatabaseKind | NetworkKind | ScanKind
    | ConfigurationKind | TimeoutKind | RateLimitKind
  {
    function TypeName(): string {
      match this
      case ValidationKind => "ValidationError"
      case DatabaseKind => "DatabaseError"
      case NetworkKind => "NetworkError"
      case ScanKind => "ScanError"
      case ConfigurationKind => "ConfigurationError"
      case TimeoutKind => "TimeoutException"
      case RateLimitKind => "RateLimitError"
    }

    /** The error code each subclass passes to the base constructor. */
    function ErrorCode(): string {
      match this
      case ValidationKind => "VALIDATION_ERROR"
      case DatabaseKind => "DATABASE_ERROR"
      case NetworkKind => "NETWORK_ERROR"
      case ScanKind => "SCAN_ERROR"
      case ConfigurationKind => "CONFIG_ERROR"
      case TimeoutKind => "TIMEOUT_ERROR"
      case RateLimitKind => "RATE_LIMIT_ERROR"
    }
  }

  /** `HandyOsintException(message, error_code, details)` created at `now`. */
  function NewHandyOsintException(message: string, details: Option<Context>, now: string,
                                  errorCode: string := "UNKNOWN"): (e: PyException)
    ensures e.text == message && !e.IsCaught()
    ensures e.family == Handy(errorCode, now, details.GetOr(map[]))
  {
    PyException("HandyOsintException", message, Handy(errorCode, now, details.GetOr(map[])))
  }

  /** The constructor of one subclass: the base constructor with the
      subclass's fixed error code. */
  function NewKindException(kind: ErrorKind, message: string, details: Option<Context>,
                            now: string): (e: PyException)
    ensures e.typeName == kind.TypeName() && e.text == message && !e.IsCaught()
    ensures e.family == Handy(kind.ErrorCode(), now, details.GetOr(map[]))
  {
    PyException(kind.TypeName(), message, Handy(kind.ErrorCode(), now, details.GetOr(map[])))
  }

  /** Distinct subclasses carry distinct error codes and type names. */
  lemma ErrorCodesDistinct(a: ErrorKind, b: ErrorKind)
    requires a != b
    ensures a.ErrorCode() != b.ErrorCode() && a.TypeName() != b.TypeName()
  {
  }

  // ------------------------------------------------------------------
  // Log entries and the history bound
  // ------------------------------------------------------------------

  /** An error log entry; the traceback text is not modelled. */
  datatype ErrorLogEntry = ErrorLogEntry(
    timestamp: string,
    exceptionType: string,
    message: string,
    severity: string,
    context: Context,
    recovery: string)

  /** `ErrorLogEntry(exception, severity, context, recovery)` created at `now`. */
  function MakeEntry(e: PyException, severity: ErrorSeverity, context: Option<Context>,
                     recovery: RecoveryStrategy, now: string): (entry: ErrorLogEntry)
    ensures entry.exceptionType == e.typeName && entry.message == e.text
    ensures entry.severity == severity.Value() && entry.recovery == recovery.Value()
    ensures entry.context == (if context.Some? then context.value else map[])
  {
    ErrorLogEntry(now, e.typeName, e.text, severity.Value(), context.GetOr(map[]), recovery.Value())
  }

  const MaxHistory: nat := 1000

  /** `h[-max_history:]` when the history is too long: the most recent
      `MaxHistory` entries in order. */
  function Trimmed(h: seq<ErrorLogEntry>): (r: seq<ErrorLogEntry>)
    ensures |r| == (if |h| > MaxHistory then MaxHistory else |h|)
    ensures r == h[|h| - |r|..]
  {
    if |h| > MaxHistory then h[|h| - MaxHistory..] else h
  }

  /** After `handle_exception` the new entry is last, the bound holds, and the
      entries before it are the most recent old ones, in order. */
  lemma AppendTrimmed(h: seq<ErrorLogEntry>, e: ErrorLogEntry)
    requires |h| <= MaxHistory
    ensures var r := Trimmed(h + [e]);
      |r| <= MaxHistory && r[|r| - 1] == e &&
      r[..|r| - 1] == h[|h| - (|r| - 1)..] &&
      (|h| < MaxHistory ==> r == h + [e]) &&
      (|h| == MaxHistory ==> r == h[1..] + [e])
  {
    var r := Trimmed(h + [e]);
    if |h| == MaxHistory {
      assert r == (h + [e])[1..];
      assert (h + [e])[1..] == h[1..] + [e];
    }
  }

  /** The severities of the entries, in order. */
  function Severities(h: seq<ErrorLogEntry>): (r: seq<string>)
    ensures |r| == |h| && forall i :: 0 <= i < |h| ==> r[i] == h[i].severity
  {
    seq(|h|, i requires 0 <= i < |h| => h[i].severity)
  }

  /** The exception type names of the entries, in order. */
  function ExceptionTypes(h: seq<ErrorLogEntry>): (r: seq<string>)
    ensures |r| == |h| && forall i :: 0 <= i < |h| ==> r[i] == h[i].exceptionType
  {
    seq(|h|, i requires 0 <= i < |h| => h[i].exceptionType)
  }

  /** `sum(1 for entry in h if entry.severity == v)`. */
  function CountWithSeverity(h: seq<ErrorLogEntry>, v: string): (n: nat)
    ensures n <= |h|
  {
    if h == [] then 0
    else CountWithSeverity(h[..|h| - 1], v) + (if h[|h| - 1].severity == v then 1 else 0)
  }

  /** The per-severity count agrees with the summary's counting dictionary. */
  lemma {:induction false} CountWithSeverityIsOccurrences(h: seq<ErrorLogEntry>, v: string)
    ensures CountWithSeverity(h, v) == Occurrences(Severities(h), v)
  {
    if h != [] {
      var init := h[..|h| - 1];
      CountWithSeverityIsOccurrences(init, v);
      assert Severities(h)[..|h| - 1] == Severities(init);
    }
  }

  /** The `get_error_summary` dictionary, with the entries themselves in
      place of their `to_dict()` forms. */
  datatype ErrorSummary = ErrorSummary(
    totalErrors: nat,
    bySeverity: seq<(string, nat)>,
    byType: seq<(string, nat)>,
    recent: seq<ErrorLogEntry>)

  /** What a callable does when called: returns a value or raises. */
  datatype CallOutcome<T> = Returned(value: T) | Raised(exc: PyException)

  /** The `safe_call` triple, or an exception that passes through it. */
  datatype SafeCallResult<T> =
    | Completed(success: bool, result: Option<T>, message: Option<string>)
    | Propagated(exc: PyException)

  /** The specialised handlers. */
  datatype Handler =
    | ValidationHandler | DatabaseHandler | NetworkHandler
    | ScanHandler | TimeoutHandler | RateLimitHandler
  {
    function Kind(): ErrorKind {
      match this
      case ValidationHandler => ValidationKind
      case DatabaseHandler => DatabaseKind
      case NetworkHandler => NetworkKind
      case ScanHandler => ScanKind
      case TimeoutHandler => TimeoutKind
      case RateLimitHandler => RateLimitKind
    }

    function Severity(): ErrorSeverity {
      match this
      case DatabaseHandler => Error
      case _ => Warning
    }

    function Recovery(): RecoveryStrategy {
      match this
      case ValidationHandler => UserInput
      case DatabaseHandler => Retry
      case NetworkHandler => Retry
      case ScanHandler => Fallback
      case TimeoutHandler => Retry
      case RateLimitHandler => Retry
    }
  }

  /** The (error code, severity, recovery) triple of each handler. */
  lemma HandlerTable()
    ensures ValidationHandler.Kind().ErrorCode() == "VALIDATION_ERROR" &&
            ValidationHandler.Severity().Value() == "WARNING" &&
            ValidationHandler.Recovery().Value() == "user_input"
    ensures DatabaseHandler.Kind().ErrorCode() == "DATABASE_ERROR" &&
            DatabaseHandler.Severity().Value() == "ERROR" &&
            DatabaseHandler.Recovery().Value() == "retry"
    ensures NetworkHandler.Kind().ErrorCode() == "NETWORK_ERROR" &&
            NetworkHandler.Severity().Value() == "WARNING" &&
            NetworkHandler.Recovery().Value() == "retry"
    ensures ScanHandler.Kind().ErrorCode() == "SCAN_ERROR" &&
            ScanHandler.Severity().Value() == "WARNING" &&
            ScanHandler.Recovery().Value() == "fallback"
    ensures TimeoutHandler.Kind().ErrorCode() == "TIMEOUT_ERROR" &&
            TimeoutHandler.Severity().Value() == "WARNING" &&
            TimeoutHandler.Recovery().Value() == "retry"
    ensures RateLimitHandler.Kind().ErrorCode() == "RATE_LIMIT_ERROR" &&
            RateLimitHandler.Severity().Value() == "WARNING" &&
            RateLimitHandler.Recovery().Value() == "retry"
  {
  }

  // ------------------------------------------------------------------
  // The retry loop as a specification
  // ------------------------------------------------------------------

  /** The outcome of `with_retry`'s attempts `attempt .. n - 1`: the first
      return, the first exception that is not caught, or the caught
      exception of the final attempt; `None` when no attempt is left. */
  function RetryFrom<T>(f: nat -> CallOutcome<T>, n: int, attempt: nat): (r: Option<CallOutcome<T>>)
    decreases n - attempt
  {
    if attempt >= n then None
    else match f(attempt)
      case Returned(v) => Some(Returned(v))
      case Raised(e) =>
        if !e.IsCaught() || attempt >= n - 1 then Some(Raised(e))
        else RetryFrom(f, n, attempt + 1)
  }

  /** With at least one attempt allowed, the wrapper always returns a value
      or raises; it falls through to `None` only when `max_retries <= 0`. */
  lemma {:induction false} RetryNoneIffNoAttempts<T>(f: nat -> CallOutcome<T>, n: int, attempt: nat)
    ensures RetryFrom(f, n, attempt) == None <==> attempt >= n
    decreases n - attempt
  {
    if attempt < n && f(attempt).Raised? && f(attempt).exc.IsCaught() && attempt < n - 1 {
      RetryNoneIffNoAttempts(f, n, attempt + 1);
    }
  }

  /** Only the first `n` attempts matter: `func` is called at most
      `max_retries` times. */
  lemma {:induction false} RetryUsesOnlyFirstAttempts<T>(f: nat -> CallOutcome<T>,
                                                         g: nat -> CallOutcome<T>, n: int, attempt: nat)
    requires forall i: nat :: i < n ==> f(i) == g(i)
    ensures RetryFrom(f, n, attempt) == RetryFrom(g, n, attempt)
    decreases n - attempt
  {
    if attempt < n {
      RetryUsesOnlyFirstAttempts(f, g, n, attempt + 1);
    }
  }

  /** The first attempt that returns, raises an exception that is not
      caught, or is the last one, decides the outcome, provided every
      attempt before it raised a caught exception. */
  lemma {:induction false} RetryDecidedAt<T>(f: nat -> CallOutcome<T>, n: int, attempt: nat, k: nat)
    requires attempt <= k < n
    requires forall i: nat :: attempt <= i < k ==> f(i).Raised? && f(i).exc.IsCaught()
    requires f(k).Returned? || !f(k).exc.IsCaught() || k == n - 1
    ensures RetryFrom(f, n, attempt) == Some(f(k))
    decreases k - attempt
  {
    if attempt < k {
      RetryDecidedAt(f, n, attempt + 1, k);
    }
  }

  /** A result that is a caught exception comes from the final attempt, after
      every earlier attempt raised a caught exception too. */
  lemma {:induction false} RetryCaughtMeansExhausted<T>(f: nat -> CallOutcome<T>, n: int, attempt: nat)
    requires var r := RetryFrom(f, n, attempt); r.Some? && r.value.Raised? && r.value.exc.IsCaught()
    ensures attempt < n && f(n - 1) == RetryFrom(f, n, attempt).value
    ensures forall i: nat :: attempt <= i < n ==> f(i).Raised? && f(i).exc.IsCaught()
    decreases n - attempt
  {
    if attempt < n - 1 {
      RetryCaughtMeansExhausted(f, n, attempt + 1);
    }
  }

  /** `format_error_message`: `detailsJson` stands for `json.dumps` of the
      details, which is not modelled. The plain message is always the
      prefix; only a verbose message about a HandyOsint exception adds the
      error code and timestamp lines, and then a details line exactly when
      the details are non-empty. */
  function FormatErrorMessage(e: PyException, verbose: bool, detailsJson: Context -> string): (m: string)
    ensures StartsWith(m, "\U{274C} " + e.typeName + ": " + e.text)
    ensures !verbose || !e.family.Handy? ==> m == "\U{274C} " + e.typeName + ": " + e.text
    ensures verbose && e.family.Handy? ==>
      StartsWith(m, "\U{274C} " + e.typeName + ": " + e.text + "\n   Error Code: " +
                    e.family.errorCode + "\n   Timestamp: " + e.family.timestamp)
    ensures verbose && e.family.Handy? ==>
      var lines := "\U{274C} " + e.typeName + ": " + e.text + "\n   Error Code: " +
                   e.family.errorCode + "\n   Timestamp: " + e.family.timestamp;
      (e.family.details == map[] <==> m == lines) &&
      (e.family.details != map[] ==> m == lines + "\n   Details: " + detailsJson(e.family.details))
  {
    var head := "\U{274C} " + e.typeName + ": " + e.text;
    if verbose && e.family.Handy? then
      var lines := head + "\n   Error Code: " + e.family.errorCode + "\n   Timestamp: " + e.family.timestamp;
      var tail := if e.family.details != map[] then "\n   Details: " + detailsJson(e.family.details) else "";
      assert (lines + tail)[..|head|] == head;
      assert (lines + tail)[..|lines|] == lines;
      lines + tail
    else head
  }

  // ------------------------------------------------------------------
  // ErrorHandler
  // ------------------------------------------------------------------

  /** The error handler's history; log files and loggers are not modelled. */
  class ErrorHandler {
    var history: seq<ErrorLogEntry>

    ghost predicate Valid()
      reads this
    {
      |history| <= MaxHistory
    }

    constructor ()
      ensures Valid() && history == []
    {
      history := [];
    }

    /** `handle_exception`: records the entry, keeping the most recent
        `MaxHistory` entries. */
    method HandleException(e: PyException, context: Option<Context>, now: string,
                           severity: ErrorSeverity := Error, recovery: RecoveryStrategy := Abort)
      returns (entry: ErrorLogEntry)
      requires Valid()
      modifies this
      ensures Valid()
      ensures entry == MakeEntry(e, severity, context, recovery, now)
      ensures history == Trimmed(old(history) + [entry])
    {
      entry := MakeEntry(e, severity, context, recovery, now);
      history := history + [entry];
      if |history| > MaxHistory {
        history := history[|history| - MaxHistory..];
      }
    }

    /** The six `handle_*` methods: each raises nothing, builds its exception
        with the handler's error code and records it with the handler's
        severity and recovery. */
    method HandleWith(handler: Handler, message: string, context: Option<Context>, now: string)
      returns (entry: ErrorLogEntry)
      requires Valid()
      modifies this
      ensures Valid()
      ensures entry == MakeEntry(NewKindException(handler.Kind(), message, context, now),
                                 handler.Severity(), context, handler.Recovery(), now)
      ensures entry.exceptionType == handler.Kind().TypeName() && entry.message == message
      ensures history == Trimmed(old(history) + [entry])
    {
      var e := NewKindException(handler.Kind(), message, context, now);
      entry := HandleException(e, context, now, handler.Severity(), handler.Recovery());
    }

    /** `safe_call`: a return value is passed on and the history is left
        alone; a caught exception is recorded (ERROR, ABORT, with the
        function's name) and reported by its message; any other exception
        passes through. */
    method SafeCall<T>(outcome: CallOutcome<T>, funcName: string, now: string)
      returns (r: SafeCallResult<T>)
      requires Valid()
      modifies this
      ensures Valid()
      ensures outcome.Returned? ==>
        r == Completed(true, Some(outcome.value), None) && history == old(history)
      ensures outcome.Raised? && outcome.exc.IsCaught() ==>
        r == Completed(false, None, Some(outcome.exc.text)) &&
        history == Trimmed(old(history) + [MakeEntry(outcome.exc, Error,
                             Some(map["function" := Text(funcName)]), Abort, now)])
      ensures outcome.Raised? && !outcome.exc.IsCaught() ==>
        r == Propagated(outcome.exc) && history == old(history)
    {
      match outcome
      case Returned(v) =>
        r := Completed(true, Some(v), None);
      case Raised(e) =>
        if e.IsCaught() {
          var entry := HandleException(e, Some(map["function" := Text(funcName)]), now);
          r := Completed(false, None, Some(entry.message));
        } else {
          r := Propagated(e);
        }
    }

    /** The `try_except(default_return)` wrapper around one call. */
    method TryExcept<T>(outcome: CallOutcome<T>, defaultReturn: T, funcName: string, now: string)
      returns (r: CallOutcome<T>)
      requires Valid()
      modifies this
      ensures Valid()
      ensures outcome.Returned? ==> r == outcome && history == old(history)
      ensures outcome.Raised? && outcome.exc.IsCaught() ==>
        r == Returned(defaultReturn) &&
        history == Trimmed(old(history) + [MakeEntry(outcome.exc, Error,
                             Some(map["function" := Text(funcName)]), Fallback, now)])
      ensures outcome.Raised? && !outcome.exc.IsCaught() ==>
        r == outcome && history == old(history)
    {
      r := outcome;
      if outcome.Raised? && outcome.exc.IsCaught() {
        var _ := HandleException(outcome.exc, Some(map["function" := Text(funcName)]), now,
                                 Error, Fallback);
        r := Returned(defaultReturn);
      }
    }

    /** The synchronous `with_retry(max_retries)` wrapper: `f(i)` is what the
        `i`-th call does. A caught exception on the final attempt is recorded
        once and raised again; the delays between attempts are not modelled. */
    method WithRetry<T>(f: nat -> CallOutcome<T>, maxRetries: int, funcName: string, now: string)
      returns (r: Option<CallOutcome<T>>)
      requires Valid()
      modifies this
      ensures Valid()
      ensures r == RetryFrom(f, maxRetries, 0)
      ensures if r.Some? && r.value.Raised? && r.value.exc.IsCaught() then
          history == Trimmed(old(history) + [MakeEntry(r.value.exc, Error,
                      Some(map["function" := Text(funcName), "attempts" := Number(maxRetries)]),
                      Abort, now)])
        else history == old(history)
    {
      var attempt: nat := 0;
      while attempt < maxRetries
        invariant RetryFrom(f, maxRetries, attempt) == RetryFrom(f, maxRetries, 0)
        invariant history == old(history)
        decreases maxRetries - attempt
      {
        match f(attempt)
        case Returned(v) =>
          return Some(Returned(v));
        case Raised(e) =>
          if !e.IsCaught() {
            return Some(Raised(e));
          }
          if attempt >= maxRetries - 1 {
            var _ := HandleException(e, Some(map["function" := Text(funcName),
                                                 "attempts" := Number(maxRetries)]), now);
            return Some(Raised(e));
          }
        attempt := attempt + 1;
      }
      return None;
    }

    /** `get_error_history(limit)`: `history[-limit:]`. */
    function GetErrorHistory(limit: int := 50): (r: seq<ErrorLogEntry>)
      reads this
      ensures limit >= 1 ==> r == history[|history| - (if limit <= |history| then limit else |history|)..]
      ensures limit == 0 ==> r == history
      ensures limit < 0 ==> r == history[(if -limit <= |history| then -limit else |history|)..]
    {
      SliceFrom(history, -limit)
    }

    /** `get_error_summary`: the counting loop over the history. */
    method GetErrorSummary() returns (s: ErrorSummary)
      ensures s.totalErrors == |history|
      ensures s.bySeverity == TallyOf(Severities(history))
      ensures s.byType == TallyOf(ExceptionTypes(history))
      ensures s.recent == history[|history| - (if |history| < 5 then |history| else 5)..]
    {
      var bySeverity: seq<(string, nat)> := [];
      var byType: seq<(string, nat)> := [];
      var i := 0;
      while i < |history|
        invariant 0 <= i <= |history|
        invariant bySeverity == TallyOf(Severities(history[..i]))
        invariant byType == TallyOf(ExceptionTypes(history[..i]))
      {
        var entry := history[i];
        assert Severities(history[..i + 1])[..i] == Severities(history[..i]);
        assert ExceptionTypes(history[..i + 1])[..i] == ExceptionTypes(history[..i]);
        bySeverity := Bump(bySeverity, entry.severity);
        byType := Bump(byType, entry.exceptionType);
        i := i + 1;
      }
      assert history[..i] == history;
      s := ErrorSummary(|history|, bySeverity, byType, SliceFrom(history, -5));
    }

    method ClearHistory()
      modifies this
      ensures Valid() && history == []
    {
      history := [];
    }

    /** `get_last_error`. */
    function GetLastError(): (r: Option<ErrorLogEntry>)
      reads this
      ensures r.None? <==> history == []
      ensures r.Some? ==> r.value == history[|history| - 1]
    {
      if history != [] then Some(history[|history| - 1]) else None
    }

    /** `has_errors`. */
    predicate HasErrors()
      reads this
    {
      |history| > 0
    }

    /** `get_error_count(severity)`. */
    function GetErrorCount(severity: Option<ErrorSeverity>): (n: nat)
      reads this
      ensures n <= |history|
      ensures severity.None? ==> n == |history|
    {
      if severity.None? then |history| else CountWithSeverity(history, severity.value.Value())
    }
  }

  /** The summary agrees with the other queries: each counting dictionary
      adds up to the total, the per-severity count is `get_error_count`, and
      there are errors exactly when there is a last error. */
  lemma SummaryConsistent(h: ErrorHandler, s: ErrorSummary, sev: ErrorSeverity)
    requires s.totalErrors == |h.history|
    requires s.bySeverity == TallyOf(Severities(h.history))
    requires s.byType == TallyOf(ExceptionTypes(h.history))
    ensures Total(s.bySeverity) == s.totalErrors && Total(s.byType) == s.totalErrors
    ensures Lookup(s.bySeverity, sev.Value()) == h.GetErrorCount(Some(sev))
    ensures h.HasErrors() <==> h.GetLastError().Some?
    ensures h.HasErrors() <==> h.GetErrorCount(None) > 0
  {
    TallyTotal(Severities(h.history));
    TallyTotal(ExceptionTypes(h.history));
    TallyCounts(Severities(h.history), sev.Value());
    CountWithSeverityIsOccurrences(h.history, sev.Value());
  }
}
