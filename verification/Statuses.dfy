/** Transaction statuses, the graph every writer moves through, and the
    normalization of provider vocabularies onto it. */
module Statuses {
  import opened Wrappers
  import Text

  /** `Absent` is the empty text; `Other` is any text that names no status. */
  datatype Status =
    | Absent
    | Pending
    | Processing
    | Succeeded
    | Failed
    | Unknown
    | Cancelled
    | Expired
    | Other(text: string)

  function FromText(text: string): Status {
    if text == "" then Absent
    else if text == "pending" then Pending
    else if text == "processing" then Processing
    else if text == "succeeded" then Succeeded
    else if text == "failed" then Failed
    else if text == "unknown" then Unknown
    else if text == "cancelled" then Cancelled
    else if text == "expired" then Expired
    else Other(text)
  }

  function ToText(status: Status): string {
    match status
    case Absent => ""
    case Pending => "pending"
    case Processing => "processing"
    case Succeeded => "succeeded"
    case Failed => "failed"
    case Unknown => "unknown"
    case Cancelled => "cancelled"
    case Expired => "expired"
    case Other(text) => text
  }

  predicate Terminal(status: Status) {
    status.Succeeded? || status.Failed? || status.Expired? || status.Cancelled?
  }

  /** The statuses a provider answer is mapped onto. */
  predicate Normalized(status: Status) {
    Terminal(status) || status.Processing? || status.Unknown?
  }

  /** A row without a status counts as pending. */
  function Current(status: Status): Status {
    if status == Absent then Pending else status
  }

  /** An edge of the graph: the moves that change the status. */
  predicate Edge(current: Status, next: Status) {
    match current
    case Pending => next == Processing || Terminal(next) || next == Unknown
    case Processing => Terminal(next) || next == Unknown
    case Unknown => next == Processing || Terminal(next)
    case _ => false
  }

  /** The status after asking for `next`: none when the move is illegal, the old
      one when there is nothing to move. */
  function Transition(status: Status, next: Status): Option<Status> {
    if Current(status) == next then Some(status)
    else if Edge(Current(status), next) then Some(next)
    else None
  }

  /** A live status moves to every normalized status but itself; no other moves at all. */
  lemma EdgeExact(status: Status, next: Status)
    ensures Edge(status, next) <==>
            (status == Pending || status == Processing || status == Unknown)
            && (next == Processing || next == Succeeded || next == Failed || next == Cancelled || next == Expired
                || next == Unknown)
            && next != status
  {
  }

  /** Maps a provider's own word onto a status. */
  function PaymentStatus(value: string): (status: Status)
    ensures Normalized(status)
  {
    var word := Text.ToUpper(Text.TrimSpace(value));
    if word == "SUCCESS" || word == "SUCCESSFUL" || word == "SUCCEEDED" || word == "COMPLETED" || word == "200"
    then Succeeded
    else if word == "FAILED" || word == "FAILURE" || word == "DECLINED" then Failed
    else if word == "PENDING" || word == "IN_PROGRESS" || word == "PROCESSING" || word == "" then Processing
    else if word == "CANCELLED" || word == "CANCELED" then Cancelled
    else if word == "EXPIRED" || word == "TIMEOUT" || word == "TIMED_OUT" then Expired
    else Unknown
  }

  /** The words providers use, whatever the case and the space around them. */
  lemma PaymentStatusWords(value: string)
    ensures
      var word := Text.ToUpper(Text.TrimSpace(value));
      (PaymentStatus(value) == Succeeded <==> word in ["SUCCESS", "SUCCESSFUL", "SUCCEEDED", "COMPLETED", "200"])
      && (PaymentStatus(value) == Failed <==> word in ["FAILED", "FAILURE", "DECLINED"])
      && (PaymentStatus(value) == Processing <==> word in ["PENDING", "IN_PROGRESS", "PROCESSING", ""])
      && (PaymentStatus(value) == Cancelled <==> word in ["CANCELLED", "CANCELED"])
      && (PaymentStatus(value) == Expired <==> word in ["EXPIRED", "TIMEOUT", "TIMED_OUT"])
  {
    hide Text.ToUpper, Text.TrimSpace;
  }

  /** No status text is confused with another, and none is lost. */
  lemma TextRoundTrip(text: string)
    ensures ToText(FromText(text)) == text
  {
  }

  // ---- runs of transitions ----------------------------------------------

  /** The status after asking for each of `moves` in turn, a refused one
      changing nothing. */
  function StatusAfter(status: Status, moves: seq<Status>): Status
    decreases |moves|
  {
    if moves == [] then status
    else StatusAfter(match Transition(status, moves[0]) case Some(s) => s case None => status, moves[1..])
  }

  /** What any number of requests to move a status can and cannot do: a terminal
      status is final, and a status that has left pending does not return. */
  lemma {:induction false} MovesAreFinal(status: Status, moves: seq<Status>)
    ensures Terminal(status) ==> StatusAfter(status, moves) == status
    ensures Current(status) != Pending ==> Current(StatusAfter(status, moves)) != Pending
    decreases |moves|
  {
    if moves != [] {
      MovesAreFinal(match Transition(status, moves[0]) case Some(s) => s case None => status, moves[1..]);
    }
  }

  /** A live row can always take a normalized answer. */
  lemma LiveTakesNormalized(status: Status, next: Status)
    requires (status.Processing? || status.Unknown?) && Normalized(next)
    ensures Transition(status, next) == Some(next)
  {
  }

  lemma UpperOfNormalized(status: Status)
    requires Normalized(status)
    ensures Text.ToUpper(ToText(status)) == Word(status)
  {
  }

  /** A word providers use for a normalized status. */
  function Word(status: Status): string
    requires Normalized(status)
  {
    match status
    case Succeeded => "SUCCEEDED"
    case Failed => "FAILED"
    case Processing => "PROCESSING"
    case Cancelled => "CANCELLED"
    case Expired => "EXPIRED"
    case Unknown => "UNKNOWN"
  }

  lemma TrimmedText(status: Status)
    requires Normalized(status)
    ensures Text.TrimSpace(ToText(status)) == ToText(status)
  {
  }

  /** Mapping a mapped status again changes nothing. */
  lemma PaymentStatusIdempotent(value: string)
    ensures PaymentStatus(ToText(PaymentStatus(value))) == PaymentStatus(value)
  {
    var status := PaymentStatus(value);
    NormalizedIsFixed(status);
  }

  lemma NormalizedIsFixed(status: Status)
    requires Normalized(status)
    ensures PaymentStatus(ToText(status)) == status
  {
    TrimmedText(status);
    UpperOfNormalized(status);
    hide ToText;
  }
}
