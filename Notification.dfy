/** The notification record of App.js (`logs`) and the rule by which the
    snackbar's severity is derived from it. The rule itself is applied in
    place by `App.AppState.LogsEffect`; this module gives the reference
    definition it is proved against and the facts that follow from it. */
module Notification {
  import opened JsValues

  /** The four Alert severities. */
  datatype Severity = Info | Warning | Success | Error

  /** The `logs` record: each of the four messages may be absent. */
  datatype Logs = Logs(
    info: Option<string>,
    warning: Option<string>,
    success: Option<string>,
    error: Option<string>)

  /** The initial, empty record `{}`. */
  const NoLogs := Logs(None, None, None, None)

  /** `logs[severity]`: the message the Alert shows for a severity. */
  function Message(l: Logs, s: Severity): Option<string> {
    match s
    case Info => l.info
    case Warning => l.warning
    case Success => l.success
    case Error => l.error
  }

  /** The one-field record `{ [severity]: msg }` that every handler posts. */
  function Only(s: Severity, msg: Option<string>): (l: Logs)
    ensures Message(l, s) == msg
    ensures forall t :: t != s ==> Message(l, t) == None
  {
    match s
    case Info => NoLogs.(info := msg)
    case Warning => NoLogs.(warning := msg)
    case Success => NoLogs.(success := msg)
    case Error => NoLogs.(error := msg)
  }

  /** At least one of the four messages is truthy: the condition that opens
      the snackbar. */
  predicate AnySet(l: Logs) {
    Truthy(l.info) || Truthy(l.error) || Truthy(l.warning) || Truthy(l.success)
  }

  /** The severity after the effect has seen `l`, written as one priority
      list: success, then error, then info, then warning, else the previous
      severity. */
  function SeverityAfter(prev: Option<Severity>, l: Logs): (s: Option<Severity>)
    ensures AnySet(l) ==> s.Some? && Truthy(Message(l, s.value))
    ensures !AnySet(l) ==> s == prev
  {
    if Truthy(l.success) then Some(Success)
    else if Truthy(l.error) then Some(Error)
    else if Truthy(l.info) then Some(Info)
    else if Truthy(l.warning) then Some(Warning)
    else prev
  }

  /** A posted message selects its own severity, whatever came before, as
      long as it is not empty. */
  lemma OnlySelectsItsSeverity(prev: Option<Severity>, s: Severity, msg: string)
    requires msg != ""
    ensures SeverityAfter(prev, Only(s, Some(msg))) == Some(s)
    ensures AnySet(Only(s, Some(msg)))
  {
  }

  /** An empty message posts nothing: severity is kept and the snackbar is
      not opened. */
  lemma EmptyMessageIsIgnored(prev: Option<Severity>, s: Severity, msg: Option<string>)
    requires !Truthy(msg)
    ensures SeverityAfter(prev, Only(s, msg)) == prev
    ensures !AnySet(Only(s, msg))
  {
  }

  /** The second if/else chain overrides the first: `{success, error}`
      resolves to success, and either of them beats info and warning. */
  lemma SecondChainWins(prev: Option<Severity>, l: Logs)
    requires Truthy(l.success) || Truthy(l.error)
    ensures SeverityAfter(prev, l) == if Truthy(l.success) then Some(Success) else Some(Error)
  {
  }

  /** Severity is Error exactly when error is set and success is not, or when
      nothing is set and it already was Error. */
  lemma SeverityIsError(prev: Option<Severity>, l: Logs)
    ensures SeverityAfter(prev, l) == Some(Error)
        <==> (Truthy(l.error) && !Truthy(l.success)) || (!AnySet(l) && prev == Some(Error))
  {
  }

  /** Severity is Info exactly when info is set and neither success nor error
      is, or when nothing is set and it already was Info; so info beats
      warning but loses to both fields of the second chain. */
  lemma SeverityIsInfo(prev: Option<Severity>, l: Logs)
    ensures SeverityAfter(prev, l) == Some(Info)
        <==> (Truthy(l.info) && !Truthy(l.success) && !Truthy(l.error))
             || (!AnySet(l) && prev == Some(Info))
  {
  }
}
