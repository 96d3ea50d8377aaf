/**
 The zone-transfer checker: one TCP endpoint is asked for a zone and the framed responses are
 judged message by message (section 2.2 of RFC 5936).

 Everything outside the process is a trace: entry i is what the i-th wait on the stream returned.
 A request always has a deadline, so a wait past the end of the trace ends at that deadline.
 */
module Axfr {
  import opened Wrappers

  const MAX_MESSAGES: nat := 64
  const MAX_BYTES: nat := 2 * 1024 * 1024
  const MAX_RECORDS: nat := 4096

  type Name = string

  datatype Data = Soa(serial: nat) | OtherData(text: string)
  datatype Record = Record(name: Name, data: Data)

  datatype Opcode = Query | OtherOpcode(number: nat)
  datatype ResponseCode = NoError | RefusedCode | NotAuthCode | OtherCode(number: nat)
  datatype Question = Question(name: Name, recordType: nat, class_: nat)

  datatype Response = Response(
    id: nat,
    opcode: Opcode,
    code: ResponseCode,
    queries: seq<Question>,
    authoritative: bool,
    truncated: bool,
    answers: seq<Record>)

  /** What one wait on the stream yields; a frame that does not decode has no response. */
  datatype Event =
    | Cancelled
    | Deadline
    | FrameError
    | Closed
    | Frame(size: nat, response: Option<Response>)

  datatype Request = Request(id: nat, queries: seq<Question>, zone: Name)

  /** How the connection phase before the read loop went. */
  datatype Setup =
    | CancelledConnecting | ConnectFailed | ConnectTimedOut | NotEncodable | NotSendable | Sent

  datatype Outcome =
    | Allowed | Refused | NotAuthoritative | Unreachable | Timeout | Incomplete | LimitExceeded
    | OutcomeCancelled

  datatype Error =
    | WasCancelled | ConnectionFailed | ConnectionDeadline | EncodingFailed | SendingFailed
    | TimedOut | BadFraming | NoCompleteTransfer | MessageAfterSoa | RecordAfterSoa
    | UnexpectedId | UnexpectedOpcode | UnexpectedQuestion
    | TooManyMessages | TooManyBytes | TooManyRecords
    | CodeChanged | ErrorCode(code: ResponseCode)

  datatype Attempt = Attempt(
    outcome: Outcome,
    responseCode: Option<ResponseCode>,
    messages: nat,
    records: nat,
    bytes: nat,
    error: Option<Error>)

  function At(trace: seq<Event>, i: nat): Event {
    if i < |trace| then trace[i] else Deadline
  }

  // ----- What a transfer is, said of the whole trace -----

  predicate IsZoneSoa(record: Record, zone: Name, serial: nat) {
    record.name == zone && record.data == Soa(serial)
  }

  /** A response of the transfer proper: right header, allowed question section, usable flags. */
  predicate GoodResponse(request: Request, first: bool, response: Response) {
    && response.id == request.id
    && response.opcode == Query
    && response.code == NoError
    && (response.queries == request.queries || (!first && response.queries == []))
    && response.authoritative
    && !response.truncated
  }

  predicate Decoded(event: Event) {
    event.Frame? && event.response.Some?
  }

  /** The first n events are decodable frames. */
  predicate AllDecoded(trace: seq<Event>, n: nat) {
    n <= |trace| && forall i :: 0 <= i < n ==> Decoded(trace[i])
  }

  /** All answer records of the first n frames, in order. */
  function Answers(trace: seq<Event>, n: nat): seq<Record>
    requires AllDecoded(trace, n)
  {
    if n == 0 then [] else Answers(trace, n - 1) + trace[n - 1].response.value.answers
  }

  function TotalBytes(trace: seq<Event>, n: nat): nat
    requires AllDecoded(trace, n)
  {
    if n == 0 then 0 else TotalBytes(trace, n - 1) + trace[n - 1].size
  }

  predicate WithinLimits(trace: seq<Event>, n: nat)
    requires AllDecoded(trace, n)
  {
    n <= MAX_MESSAGES && TotalBytes(trace, n) <= MAX_BYTES && |Answers(trace, n)| <= MAX_RECORDS
  }

  /** SOA, records that are not that SOA, the same SOA again, and nothing more. */
  predicate SoaDelimited(records: seq<Record>, zone: Name) {
    && |records| >= 2
    && records[0].data.Soa?
    && IsZoneSoa(records[0], zone, records[0].data.serial)
    && IsZoneSoa(records[|records| - 1], zone, records[0].data.serial)
    && forall i :: 0 < i < |records| - 1 ==> !IsZoneSoa(records[i], zone, records[0].data.serial)
  }

  /** The first n events carry a whole zone, and the last of them its closing SOA. */
  predicate Delivered(request: Request, trace: seq<Event>, n: nat) {
    && n > 0
    && AllDecoded(trace, n)
    && (forall i :: 0 <= i < n ==> GoodResponse(request, i == 0, trace[i].response.value))
    && SoaDelimited(Answers(trace, n), request.zone)
    && trace[n - 1].response.value.answers != []
    && WithinLimits(trace, n)
  }

  /** The first n events are a complete transfer: the drain wait that follows the closing SOA sees
      neither a frame nor a framing error nor a cancellation. */
  predicate CompleteTransfer(request: Request, trace: seq<Event>, n: nat) {
    Delivered(request, trace, n) && (At(trace, n).Closed? || At(trace, n).Deadline?)
  }

  // ----- The state of the loop after n accepted messages, said of the trace -----

  /** The serial the opening record fixes, if it is the zone's SOA. */
  function OpeningSerial(records: seq<Record>, zone: Name): Option<nat> {
    if records != [] && records[0].name == zone && records[0].data.Soa?
    then Some(records[0].data.serial) else None
  }

  /** Record i repeats the zone SOA that opened the transfer. */
  predicate ClosesAt(records: seq<Record>, zone: Name, i: int) {
    && 0 < i < |records|
    && OpeningSerial(records, zone).Some?
    && IsZoneSoa(records[i], zone, OpeningSerial(records, zone).value)
  }

  predicate NotClosed(records: seq<Record>, zone: Name) {
    forall i :: 0 < i < |records| ==> !ClosesAt(records, zone, i)
  }

  function SoaCount(records: seq<Record>): nat {
    if records == [] then 0
    else SoaCount(records[..|records| - 1]) + (if records[|records| - 1].data.Soa? then 1 else 0)
  }

  predicate AllAuthoritative(trace: seq<Event>, n: nat)
    requires AllDecoded(trace, n)
  {
    forall i :: 0 <= i < n ==> trace[i].response.value.authoritative
  }

  predicate AnyTruncated(trace: seq<Event>, n: nat)
    requires AllDecoded(trace, n)
  {
    exists i :: 0 <= i < n && trace[i].response.value.truncated
  }

  /** The header checks a message must pass to be read at all. */
  predicate Readable(request: Request, first: bool, response: Response) {
    && response.id == request.id
    && response.opcode == Query
    && (response.queries == request.queries
        || (!first && response.code == NoError && response.queries == []))
  }

  /** The loop has taken n messages and is waiting for the next one. */
  predicate Reading(request: Request, trace: seq<Event>, n: nat) {
    && AllDecoded(trace, n)
    && WithinLimits(trace, n)
    && (forall i :: 0 <= i < n ==>
          Readable(request, i == 0, trace[i].response.value) && trace[i].response.value.code == NoError)
    && NotClosed(Answers(trace, n), request.zone)
  }

  /** The latches of the read loop. */
  datatype Flags = Flags(
    firstSoaSerial: Option<nat>,
    soaCount: nat,
    firstAnswerSeen: bool,
    closingSoaSeen: bool,
    authoritative: bool,
    truncated: bool)

  /** What the latches hold after n messages: at the loop head no closing SOA was seen. */
  predicate Tracks(request: Request, trace: seq<Event>, n: nat, flags: Flags)
    requires AllDecoded(trace, n)
  {
    && flags.firstSoaSerial == OpeningSerial(Answers(trace, n), request.zone)
    && flags.soaCount == SoaCount(Answers(trace, n))
    && flags.firstAnswerSeen == (Answers(trace, n) != [])
    && !flags.closingSoaSeen
    && flags.authoritative == AllAuthoritative(trace, n)
    && flags.truncated == AnyTruncated(trace, n)
  }

  /** What ends the loop at message n, with the totals the attempt then reports. */
  ghost predicate EndsAt(request: Request, trace: seq<Event>, n: nat, attempt: Attempt)
    requires Reading(request, trace, n)
  {
    match At(trace, n)
    case Cancelled => Reports(trace, n, attempt, OutcomeCancelled, Some(WasCancelled))
    case Deadline => Reports(trace, n, attempt, Timeout, Some(TimedOut))
    case FrameError => Reports(trace, n, attempt, Incomplete, Some(BadFraming))
    case Closed => Reports(trace, n, attempt, Incomplete, Some(NoCompleteTransfer))
    case Frame(_, None) => Reports(trace, n, attempt, Incomplete, Some(BadFraming))
    case Frame(_, Some(response)) =>
      if response.id != request.id then
        Reports(trace, n, attempt, Incomplete, Some(UnexpectedId))
      else if response.opcode != Query then
        Reports(trace, n, attempt, Incomplete, Some(UnexpectedOpcode))
      else if !Readable(request, n == 0, response) then
        Reports(trace, n, attempt, Incomplete, Some(UnexpectedQuestion))
      else if n + 1 > MAX_MESSAGES then
        Reports(trace, n, attempt, LimitExceeded, Some(TooManyMessages))
      else if TotalBytes(trace, n + 1) > MAX_BYTES then
        Reports(trace, n, attempt, LimitExceeded, Some(TooManyBytes))
      else if |Answers(trace, n + 1)| > MAX_RECORDS then
        Reports(trace, n, attempt, LimitExceeded, Some(TooManyRecords))
      else if response.code != NoError then
        // Only the very first message can report a refusal: later the code has changed.
        if n > 0 then Reports(trace, n + 1, attempt, Incomplete, Some(CodeChanged))
        else if response.code == RefusedCode then Reports(trace, 1, attempt, Refused, None)
        else if response.code == NotAuthCode then Reports(trace, 1, attempt, NotAuthoritative, None)
        else Reports(trace, 1, attempt, Incomplete, Some(ErrorCode(response.code)))
      else
        && !NotClosed(Answers(trace, n + 1), request.zone)
        && ClosingEnds(request, trace, n + 1, attempt)
  }

  /** Message n - 1 repeated the opening SOA: trailing records, then flags, then the drain wait. */
  ghost predicate ClosingEnds(request: Request, trace: seq<Event>, n: nat, attempt: Attempt)
    requires AllDecoded(trace, n)
  {
    var records := Answers(trace, n);
    if exists i :: 0 < i < |records| - 1 && ClosesAt(records, request.zone, i) then
      Reports(trace, n, attempt, Incomplete, Some(RecordAfterSoa))
    else if !AllAuthoritative(trace, n) || AnyTruncated(trace, n) then
      Reports(trace, n, attempt, Incomplete, Some(NoCompleteTransfer))
    else
      match At(trace, n)
      case Cancelled => Reports(trace, n, attempt, OutcomeCancelled, Some(WasCancelled))
      case Frame(_, _) => Reports(trace, n, attempt, Incomplete, Some(MessageAfterSoa))
      case FrameError => Reports(trace, n, attempt, Incomplete, Some(BadFraming))
      case _ => Reports(trace, n, attempt, Allowed, None)
  }

  predicate Reports(trace: seq<Event>, n: nat, attempt: Attempt, outcome: Outcome, error: Option<Error>)
  {
    && AllDecoded(trace, n)
    && attempt.outcome == outcome
    && attempt.error == error
    && attempt.messages == n
    && attempt.bytes == TotalBytes(trace, n)
    && attempt.records == |Answers(trace, n)|
    && attempt.responseCode == (if n == 0 then None else Some(trace[0].response.value.code))
  }

  function SetupAttempt(setup: Setup): Attempt
    requires setup != Sent
  {
    match setup
    case CancelledConnecting => Attempt(OutcomeCancelled, None, 0, 0, 0, Some(WasCancelled))
    case ConnectFailed => Attempt(Unreachable, None, 0, 0, 0, Some(ConnectionFailed))
    case ConnectTimedOut => Attempt(Timeout, None, 0, 0, 0, Some(ConnectionDeadline))
    case NotEncodable => Attempt(Incomplete, None, 0, 0, 0, Some(EncodingFailed))
    case NotSendable => Attempt(Unreachable, None, 0, 0, 0, Some(SendingFailed))
  }

  /** What an attempt reports tells how the connection phase went: two phases that fail differently
      report differently, and no end of the read loop looks like one of them, except that a
      cancellation is the same to the reader before the first message and while connecting. */
  lemma SetupShows(setup: Setup, other: Setup, request: Request, trace: seq<Event>, n: nat, attempt: Attempt)
    requires setup != Sent && other != Sent
    requires Reading(request, trace, n) && EndsAt(request, trace, n, attempt)
    ensures SetupAttempt(setup) == SetupAttempt(other) <==> setup == other
    ensures attempt == SetupAttempt(setup) <==> setup == CancelledConnecting && n == 0 && At(trace, 0) == Cancelled
  {
    hide Readable, WithinLimits, NotClosed, AllAuthoritative, AnyTruncated;
    if n == 0 {
      assert Answers(trace, 0) == [] && TotalBytes(trace, 0) == 0;
    }
  }

  // ----- The checker -----

  /** The records close the transfer at the last of them, or not at all. */
  predicate ClosesAtMostLast(records: seq<Record>, zone: Name, closing: bool) {
    && (closing <==> ClosesAt(records, zone, |records| - 1))
    && forall j :: 0 < j < |records| - 1 ==> !ClosesAt(records, zone, j)
  }

  lemma NothingClosed(records: seq<Record>, zone: Name)
    requires NotClosed(records, zone)
    ensures ClosesAtMostLast(records, zone, false)
  {
  }

  lemma CountExtends(seen: seq<Record>, record: Record)
    ensures SoaCount(seen + [record]) == SoaCount(seen) + if record.data.Soa? then 1 else 0
  {
    assert (seen + [record])[..|seen|] == seen;
  }

  /** An opening SOA is counted, so a later one is at least the second. */
  lemma {:induction false} OpeningCounts(records: seq<Record>, zone: Name)
    ensures OpeningSerial(records, zone).Some? ==> SoaCount(records) >= 1
  {
    if |records| > 1 {
      OpeningCounts(records[..|records| - 1], zone);
    }
  }

  /** Closing positions of a prefix are closing positions of the whole, and conversely. */
  lemma PrefixCloses(front: seq<Record>, back: seq<Record>, zone: Name)
    ensures forall i :: 0 < i < |front| ==> (ClosesAt(front, zone, i) <==> ClosesAt(front + back, zone, i))
  {
  }

  /** What one more record does to the loop's state. */
  lemma Extend(seen: seq<Record>, record: Record, zone: Name)
    requires NotClosed(seen, zone)
    ensures OpeningSerial(seen + [record], zone) ==
            if seen != [] then OpeningSerial(seen, zone)
            else if record.data.Soa? && record.name == zone then Some(record.data.serial) else None
    ensures SoaCount(seen + [record]) == SoaCount(seen) + if record.data.Soa? then 1 else 0
    ensures forall j :: 0 < j < |seen| ==> !ClosesAt(seen + [record], zone, j)
    ensures ClosesAt(seen + [record], zone, |seen|) <==>
            && record.data.Soa? && record.name == zone
            && SoaCount(seen) >= 1 && OpeningSerial(seen, zone) == Some(record.data.serial)
  {
    hide SoaCount;
    CountExtends(seen, record);
    PrefixCloses(seen, [record], zone);
    OpeningCounts(seen, zone);
    if seen != [] {
      assert (seen + [record])[0] == seen[0];
    }
  }

  /** One record more, and what the loop makes of it: all its latches at once. */
  lemma LatchesExtend(seen: seq<Record>, record: Record, zone: Name, serial: Option<nat>, soaCount: nat)
    requires ClosesAtMostLast(seen, zone, false)
    requires serial == OpeningSerial(seen, zone) && soaCount == SoaCount(seen)
    ensures NextSerial(seen == [], record, zone, serial) == OpeningSerial(seen + [record], zone)
    ensures NextCount(record, soaCount) == SoaCount(seen + [record])
    ensures ClosesAtMostLast(seen + [record], zone,
                             Closes(record, zone, NextSerial(seen == [], record, zone, serial),
                                    NextCount(record, soaCount)))
  {
    hide IsZoneSoa;
    Extend(seen, record, zone);
  }

  function NextSerial(first: bool, record: Record, zone: Name, serial: Option<nat>): Option<nat> {
    if first && record.data.Soa? && record.name == zone then Some(record.data.serial) else serial
  }

  function NextCount(record: Record, soaCount: nat): nat {
    if record.data.Soa? then soaCount + 1 else soaCount
  }

  /** The test of the loop for the closing record. */
  predicate Closes(record: Record, zone: Name, serial: Option<nat>, soaCount: nat) {
    record.data.Soa? && soaCount >= 2 && record.name == zone && serial == Some(record.data.serial)
  }

  lemma ClosesWithin(records: seq<Record>, zone: Name)
    ensures ClosesAt(records, zone, |records| - 1) ==> 0 < |records| - 1
  {
  }

  /** All records read: none trails the closing one. */
  lemma NoneTrails(records: seq<Record>, zone: Name, closing: bool)
    requires ClosesAtMostLast(records, zone, closing)
    ensures closing <==> !NotClosed(records, zone)
    ensures !exists i :: 0 < i < |records| - 1 && ClosesAt(records, zone, i)
  {
    hide ClosesAt;
    assert closing ==> 0 < |records| - 1 by { ClosesWithin(records, zone); }
  }

  lemma PrefixClosesAt(front: seq<Record>, back: seq<Record>, zone: Name)
    requires ClosesAt(front, zone, |front| - 1)
    ensures ClosesAt(front + back, zone, |front| - 1)
  {
    assert (front + back)[|front| - 1] == front[|front| - 1] && (front + back)[0] == front[0];
  }

  /** A record after the closing one trails it. */
  lemma SomeTrails(seen: seq<Record>, rest: seq<Record>, zone: Name)
    requires ClosesAtMostLast(seen, zone, true) && rest != []
    ensures !NotClosed(seen + rest, zone)
    ensures exists i :: 0 < i < |seen + rest| - 1 && ClosesAt(seen + rest, zone, i)
  {
    PrefixClosesAt(seen, rest, zone);
    assert ClosesAt(seen + rest, zone, |seen| - 1);
  }

  /** Reads the answers of one message: the inner loop over `response.answers`. */
  method ReadAnswers(zone: Name, ghost before: seq<Record>, answers: seq<Record>,
                     firstSeen0: bool, serial0: Option<nat>, soaCount0: nat)
    returns (firstSeen: bool, serial: Option<nat>, soaCount: nat, closing: bool, trailing: bool)
    requires NotClosed(before, zone)
    requires firstSeen0 == (before != [])
    requires serial0 == OpeningSerial(before, zone)
    requires soaCount0 == SoaCount(before)
    ensures closing <==> !NotClosed(before + answers, zone)
    ensures trailing <==> exists i :: 0 < i < |before + answers| - 1 && ClosesAt(before + answers, zone, i)
    ensures !trailing ==>
              && firstSeen == (before + answers != [])
              && serial == OpeningSerial(before + answers, zone)
              && soaCount == SoaCount(before + answers)
  {
    hide ClosesAt, ClosesAtMostLast, NotClosed, SoaCount, OpeningSerial;
    firstSeen, serial, soaCount, closing, trailing := firstSeen0, serial0, soaCount0, false, false;
    NothingClosed(before, zone);
    assert before + answers[..0] == before;
    var i := 0;
    while i < |answers|
      invariant 0 <= i <= |answers|
      invariant firstSeen == (before + answers[..i] != [])
      invariant serial == OpeningSerial(before + answers[..i], zone)
      invariant soaCount == SoaCount(before + answers[..i])
      invariant ClosesAtMostLast(before + answers[..i], zone, closing)
    {
      if closing {
        trailing := true;
        SomeTrails(before + answers[..i], answers[i..], zone);
        assert before + answers[..i] + answers[i..] == before + answers;
        return;
      }
      var record := answers[i];
      LatchesExtend(before + answers[..i], record, zone, serial, soaCount);
      assert before + answers[..i] + [record] == before + answers[..i + 1];
      if !firstSeen {
        firstSeen := true;
        if record.data.Soa? && record.name == zone {
          serial := Some(record.data.serial);
        }
      }
      if record.data.Soa? {
        soaCount := soaCount + 1;
        if soaCount >= 2 && record.name == zone && serial == Some(record.data.serial) {
          closing := true;
        }
      }
      i := i + 1;
    }
    assert answers[..i] == answers;
    NoneTrails(before + answers, zone, closing);
  }

  lemma ClosingReports(request: Request, trace: seq<Event>, n: nat, attempt: Attempt)
    requires AllDecoded(trace, n) && ClosingEnds(request, trace, n, attempt)
    ensures attempt.outcome != Unreachable
    ensures Reports(trace, n, attempt, attempt.outcome, attempt.error)
  {
    hide Answers, TotalBytes, AllAuthoritative, AnyTruncated, ClosesAt;
  }

  /** However the loop ends, the counters are the totals of the messages taken, within limits. */
  lemma EndTotals(request: Request, trace: seq<Event>, n: nat, attempt: Attempt)
    requires Reading(request, trace, n) && EndsAt(request, trace, n, attempt)
    ensures attempt.outcome != Unreachable
    ensures attempt.messages in {n, n + 1}
    ensures AllDecoded(trace, attempt.messages) && WithinLimits(trace, attempt.messages)
    ensures attempt.bytes == TotalBytes(trace, attempt.messages)
    ensures attempt.records == |Answers(trace, attempt.messages)|
  {
    hide Answers, TotalBytes, NotClosed, ClosingEnds, Readable;
    if AllDecoded(trace, n + 1) && ClosingEnds(request, trace, n + 1, attempt) {
      ClosingReports(request, trace, n + 1, attempt);
    }
  }

  /** The checks on one decoded message up to its response code, and the counters. */
  method Accept(request: Request, ghost trace: seq<Event>, ghost n: nat, attempt0: Attempt, size: nat,
                response: Response)
    returns (attempt: Attempt, stop: bool)
    requires Reading(request, trace, n)
    requires Reports(trace, n, attempt0, Unreachable, None)
    requires At(trace, n) == Frame(size, Some(response))
    ensures stop ==> EndsAt(request, trace, n, attempt)
    ensures !stop ==>
              && Reports(trace, n + 1, attempt, Unreachable, None)
              && WithinLimits(trace, n + 1)
              && Readable(request, n == 0, response)
              && response.code == NoError
  {
    attempt, stop := attempt0, true;
    if response.id != request.id {
      attempt := attempt.(outcome := Incomplete, error := Some(UnexpectedId));
      return;
    }
    if response.opcode != Query {
      attempt := attempt.(outcome := Incomplete, error := Some(UnexpectedOpcode));
      return;
    }
    if response.queries != request.queries
      && (attempt.messages == 0 || response.code != NoError || response.queries != [])
    {
      attempt := attempt.(outcome := Incomplete, error := Some(UnexpectedQuestion));
      return;
    }
    var nextMessages := attempt.messages + 1;
    var nextBytes := attempt.bytes + size;
    var nextRecords := attempt.records + |response.answers|;
    if nextMessages > MAX_MESSAGES {
      attempt := attempt.(outcome := LimitExceeded, error := Some(TooManyMessages));
      return;
    } else if nextBytes > MAX_BYTES {
      attempt := attempt.(outcome := LimitExceeded, error := Some(TooManyBytes));
      return;
    } else if nextRecords > MAX_RECORDS {
      attempt := attempt.(outcome := LimitExceeded, error := Some(TooManyRecords));
      return;
    }
    attempt := attempt.(messages := nextMessages, bytes := nextBytes, records := nextRecords);
    if attempt.responseCode.None? {
      attempt := attempt.(responseCode := Some(response.code));
    } else if attempt.responseCode != Some(response.code) {
      attempt := attempt.(outcome := Incomplete, error := Some(CodeChanged));
      return;
    }
    match response.code
    case NoError =>
      stop := false;
    case RefusedCode =>
      attempt := attempt.(outcome := Refused);
    case NotAuthCode =>
      attempt := attempt.(outcome := NotAuthoritative);
    case OtherCode(_) =>
      attempt := attempt.(outcome := Incomplete, error := Some(ErrorCode(response.code)));
  }

  /** After the closing SOA: the flags of the whole transfer, then the short drain wait. */
  method Finish(request: Request, ghost trace: seq<Event>, ghost n: nat, attempt0: Attempt,
                flags: Flags, drained: Event)
    returns (attempt: Attempt)
    requires Reports(trace, n, attempt0, Unreachable, None)
    requires forall i :: 0 < i < |Answers(trace, n)| - 1 ==> !ClosesAt(Answers(trace, n), request.zone, i)
    requires flags.authoritative == AllAuthoritative(trace, n)
    requires flags.truncated == AnyTruncated(trace, n)
    requires drained == At(trace, n)
    ensures ClosingEnds(request, trace, n, attempt)
  {
    if !flags.authoritative || flags.truncated {
      return attempt0.(outcome := Incomplete, error := Some(NoCompleteTransfer));
    }
    match drained
    case Cancelled =>
      attempt := attempt0.(outcome := OutcomeCancelled, error := Some(WasCancelled));
    case Frame(_, _) =>
      attempt := attempt0.(outcome := Incomplete, error := Some(MessageAfterSoa));
    case FrameError =>
      attempt := attempt0.(outcome := Incomplete, error := Some(BadFraming));
    case _ =>
      attempt := attempt0.(outcome := Allowed);
  }

  lemma FlagsExtend(trace: seq<Event>, n: nat)
    requires AllDecoded(trace, n + 1)
    ensures AllAuthoritative(trace, n + 1) <==>
            AllAuthoritative(trace, n) && trace[n].response.value.authoritative
    ensures AnyTruncated(trace, n + 1) <==>
            AnyTruncated(trace, n) || trace[n].response.value.truncated
  {
  }

  /** One frame, from its decoding to the drain wait its closing SOA may call for. */
  method TakeFrame(request: Request, ghost trace: seq<Event>, ghost n: nat, attempt0: Attempt, flags0: Flags,
                   event: Event, following: Event)
    returns (attempt: Attempt, flags: Flags, stop: bool)
    requires Reading(request, trace, n) && Tracks(request, trace, n, flags0)
    requires Reports(trace, n, attempt0, Unreachable, None)
    requires event.Frame? && event == At(trace, n) && following == At(trace, n + 1)
    ensures stop ==> EndsAt(request, trace, n, attempt)
    ensures !stop ==>
              && Reading(request, trace, n + 1) && Tracks(request, trace, n + 1, flags)
              && Reports(trace, n + 1, attempt, Unreachable, None)
  {
    hide Readable, SoaCount, OpeningSerial, AllAuthoritative, AnyTruncated;
    attempt, flags, stop := attempt0, flags0, true;
    if event.response.None? {
      attempt := attempt.(outcome := Incomplete, error := Some(BadFraming));
      return;
    }
    var response := event.response.value;
    attempt, stop := Accept(request, trace, n, attempt, event.size, response);
    if stop {
      return;
    }
    flags := flags.(authoritative := flags.authoritative && response.authoritative,
                    truncated := flags.truncated || response.truncated);
    var firstSeen, serial, soaCount, closing, trailing :=
      ReadAnswers(request.zone, Answers(trace, n), response.answers,
                  flags.firstAnswerSeen, flags.firstSoaSerial, flags.soaCount);
    flags := flags.(firstAnswerSeen := firstSeen, firstSoaSerial := serial,
                    soaCount := soaCount, closingSoaSeen := closing);
    if trailing {
      attempt := attempt.(outcome := Incomplete, error := Some(RecordAfterSoa));
      stop := true;
      return;
    }
    FlagsExtend(trace, n);
    if flags.closingSoaSeen {
      attempt := Finish(request, trace, n + 1, attempt, flags, following);
      stop := true;
    }
  }

  /** The read loop. The two branches that test a closing SOA at its head are never taken. */
  method ReadTransfer(request: Request, trace: seq<Event>) returns (attempt: Attempt)
    ensures exists n :: Reading(request, trace, n) && EndsAt(request, trace, n, attempt)
  {
    attempt := Attempt(Unreachable, None, 0, 0, 0, None);
    var flags := Flags(None, 0, false, false, true, false);
    var waits := 0;
    ghost var n := 0;
    while true
      invariant waits == n
      invariant Reading(request, trace, n) && Reports(trace, n, attempt, Unreachable, None)
      invariant Tracks(request, trace, n, flags)
      decreases MAX_MESSAGES - n
    {
      var event := At(trace, waits);
      waits := waits + 1;
      match event {
        case Cancelled =>
          attempt := attempt.(outcome := OutcomeCancelled, error := Some(WasCancelled));
          return;
        case Deadline =>
          attempt := attempt.(outcome := Timeout, error := Some(TimedOut));
          return;
        case FrameError =>
          attempt := attempt.(outcome := Incomplete, error := Some(BadFraming));
          return;
        case Closed =>
          if attempt.messages > 0 && flags.closingSoaSeen && flags.authoritative && !flags.truncated {
            assert false;
          } else {
            attempt := attempt.(outcome := Incomplete, error := Some(NoCompleteTransfer));
          }
          return;
        case Frame(_, _) =>
      }
      if flags.closingSoaSeen {
        assert false;
      }
      var stop;
      attempt, flags, stop := TakeFrame(request, trace, n, attempt, flags, event, At(trace, waits));
      if stop {
        return;
      }
      n := n + 1;
    }
  }

  /** The exits before anything could be read. */
  method Connect(setup: Setup) returns (attempt: Attempt)
    requires setup != Sent
    ensures attempt == SetupAttempt(setup)
  {
    attempt := Attempt(Unreachable, None, 0, 0, 0, None);
    match setup
    case CancelledConnecting =>
      attempt := attempt.(outcome := OutcomeCancelled, error := Some(WasCancelled));
    case ConnectFailed =>
      attempt := attempt.(error := Some(ConnectionFailed));
    case ConnectTimedOut =>
      attempt := attempt.(outcome := Timeout, error := Some(ConnectionDeadline));
    case NotEncodable =>
      attempt := attempt.(outcome := Incomplete, error := Some(EncodingFailed));
    case NotSendable =>
      attempt := attempt.(error := Some(SendingFailed));
  }

  // ----- What the verdict means -----

  lemma {:induction false} AnswersGrow(trace: seq<Event>, m: nat, n: nat)
    requires m <= n && AllDecoded(trace, n)
    ensures Answers(trace, m) <= Answers(trace, n)
    ensures TotalBytes(trace, m) <= TotalBytes(trace, n)
  {
    if m < n {
      AnswersGrow(trace, m, n - 1);
    }
  }

  /** A sequence whose only closing record is its last is delimited by its opening SOA. */
  lemma ClosedLast(records: seq<Record>, zone: Name, i: nat)
    requires 0 < i < |records| && ClosesAt(records, zone, i)
    requires forall j :: 0 < j < |records| - 1 ==> !ClosesAt(records, zone, j)
    ensures SoaDelimited(records, zone)
  {
    forall j | 0 < j < |records| - 1
      ensures !IsZoneSoa(records[j], zone, records[0].data.serial)
    {
      assert !ClosesAt(records, zone, j);
    }
  }

  /** An end of the loop that found nothing wrong is one after a closing record. */
  lemma SoundCloses(request: Request, trace: seq<Event>, n: nat, attempt: Attempt)
    requires Reading(request, trace, n) && EndsAt(request, trace, n, attempt)
    requires attempt.outcome == Allowed || (attempt.outcome == OutcomeCancelled && attempt.messages > n)
    ensures AllDecoded(trace, n + 1) && WithinLimits(trace, n + 1) && ClosingEnds(request, trace, n + 1, attempt)
    ensures Readable(request, n == 0, trace[n].response.value) && trace[n].response.value.code == NoError
    ensures !NotClosed(Answers(trace, n + 1), request.zone)
  {
    hide TotalBytes, Answers, NotClosed, ClosingEnds;
  }

  /** What it found nothing wrong with: every flag, and nothing after the closing record. */
  lemma SoundEnds(request: Request, trace: seq<Event>, n: nat, attempt: Attempt)
    requires AllDecoded(trace, n) && ClosingEnds(request, trace, n, attempt)
    requires attempt.outcome == Allowed || attempt.outcome == OutcomeCancelled
    ensures AllAuthoritative(trace, n) && !AnyTruncated(trace, n)
    ensures forall i :: 0 < i < |Answers(trace, n)| - 1 ==> !ClosesAt(Answers(trace, n), request.zone, i)
  {
    hide TotalBytes, Answers, ClosesAt, AllAuthoritative, AnyTruncated;
  }

  /** Such an end comes after a whole zone. */
  lemma SoundIsDelivered(request: Request, trace: seq<Event>, n: nat, attempt: Attempt)
    requires Reading(request, trace, n) && EndsAt(request, trace, n, attempt)
    requires attempt.outcome == Allowed || (attempt.outcome == OutcomeCancelled && attempt.messages > n)
    ensures Delivered(request, trace, n + 1) && ClosingEnds(request, trace, n + 1, attempt)
  {
    hide TotalBytes, EndsAt, ClosingEnds;
    SoundCloses(request, trace, n, attempt);
    SoundEnds(request, trace, n + 1, attempt);
    var records := Answers(trace, n + 1);
    assert Answers(trace, n) + [] == Answers(trace, n);
    var i :| 0 < i < |records| && ClosesAt(records, request.zone, i);
    ClosedLast(records, request.zone, i);
    forall j | 0 <= j < n + 1
      ensures GoodResponse(request, j == 0, trace[j].response.value)
    {
      assert Readable(request, j == 0, trace[j].response.value);
    }
  }

  /** The checks that follow the closing record of a whole zone find nothing wrong: the wait decides. */
  lemma WaitDecides(request: Request, trace: seq<Event>, m: nat, attempt: Attempt)
    requires Delivered(request, trace, m) && ClosingEnds(request, trace, m, attempt)
    ensures attempt.outcome == Allowed <==> At(trace, m).Closed? || At(trace, m).Deadline?
    ensures attempt.outcome == OutcomeCancelled <==> At(trace, m).Cancelled?
  {
    hide WithinLimits, Answers, TotalBytes;
    var records := Answers(trace, m);
    forall i | 0 < i < |records| - 1 ensures !ClosesAt(records, request.zone, i) {
      assert !IsZoneSoa(records[i], request.zone, records[0].data.serial);
    }
    forall i | 0 <= i < m ensures trace[i].response.value.authoritative && !trace[i].response.value.truncated {
      assert GoodResponse(request, i == 0, trace[i].response.value);
    }
  }

  lemma AllowedIsComplete(request: Request, trace: seq<Event>, n: nat, attempt: Attempt)
    requires Reading(request, trace, n) && EndsAt(request, trace, n, attempt)
    requires attempt.outcome == Allowed
    ensures CompleteTransfer(request, trace, n + 1)
  {
    hide Delivered, EndsAt;
    SoundIsDelivered(request, trace, n, attempt);
    WaitDecides(request, trace, n + 1, attempt);
  }

  /** After a complete transfer the answers hold its closing record. */
  lemma CompleteCloses(request: Request, trace: seq<Event>, m: nat, n: nat)
    requires Delivered(request, trace, m) && m <= n && AllDecoded(trace, n)
    ensures !NotClosed(Answers(trace, n), request.zone)
  {
    hide WithinLimits, GoodResponse;
    var last := |Answers(trace, m)| - 1;
    AnswersGrow(trace, m, n);
    assert Answers(trace, n)[last] == Answers(trace, m)[last] && Answers(trace, n)[0] == Answers(trace, m)[0];
    assert ClosesAt(Answers(trace, n), request.zone, last);
  }

  /** Before its last message a complete transfer is not closed. */
  lemma OpenBeforeLast(request: Request, trace: seq<Event>, m: nat, k: nat)
    requires Delivered(request, trace, m) && k < m
    ensures NotClosed(Answers(trace, k), request.zone)
  {
    hide WithinLimits, GoodResponse;
    var whole, part := Answers(trace, m), Answers(trace, k);
    AnswersGrow(trace, k, m - 1);
    assert |part| < |whole|;
    AnswersGrow(trace, k, m);
    forall i | 0 < i < |part| ensures !ClosesAt(part, request.zone, i) {
      assert part[i] == whole[i] && part[0] == whole[0];
    }
  }

  /** The loop ends at the last message of a whole zone. */
  lemma DeliveredEnds(request: Request, trace: seq<Event>, n: nat, attempt: Attempt, m: nat)
    requires Reading(request, trace, n) && EndsAt(request, trace, n, attempt)
    requires Delivered(request, trace, m)
    ensures m == n + 1 && ClosingEnds(request, trace, m, attempt)
  {
    hide NotClosed, ClosingEnds, SoaDelimited, Answers, TotalBytes;
    if m <= n {
      CompleteCloses(request, trace, m, n);
    }
    AnswersGrow(trace, n + 1, m);
    assert GoodResponse(request, n == 0, trace[n].response.value);
    if n + 1 < m {
      OpenBeforeLast(request, trace, m, n + 1);
    }
  }

  lemma CompleteIsAllowed(request: Request, trace: seq<Event>, n: nat, attempt: Attempt, m: nat)
    requires Reading(request, trace, n) && EndsAt(request, trace, n, attempt)
    requires CompleteTransfer(request, trace, m)
    ensures attempt.outcome == Allowed
  {
    hide Delivered;
    DeliveredEnds(request, trace, n, attempt, m);
    WaitDecides(request, trace, m, attempt);
  }

  /** The loop says Allowed at message n exactly when the trace holds a complete transfer. */
  lemma AllowedIffComplete(request: Request, trace: seq<Event>, n: nat, attempt: Attempt)
    requires Reading(request, trace, n) && EndsAt(request, trace, n, attempt)
    ensures attempt.outcome == Allowed <==> exists m :: CompleteTransfer(request, trace, m)
  {
    if attempt.outcome == Allowed {
      AllowedIsComplete(request, trace, n, attempt);
      assert CompleteTransfer(request, trace, n + 1);
    }
    forall m | CompleteTransfer(request, trace, m)
      ensures attempt.outcome == Allowed
    {
      CompleteIsAllowed(request, trace, n, attempt, m);
    }
  }

  // ----- What the other outcomes mean -----

  lemma StillOpen(request: Request, trace: seq<Event>, k: nat, m: nat)
    requires k <= m && Reading(request, trace, m)
    ensures NotClosed(Answers(trace, k), request.zone)
  {
    hide WithinLimits;
    AnswersGrow(trace, k, m);
    var part, whole := Answers(trace, k), Answers(trace, m);
    forall i | 0 < i < |part| ensures !ClosesAt(part, request.zone, i) {
      assert part[i] == whole[i] && part[0] == whole[0];
      assert !ClosesAt(whole, request.zone, i);
    }
  }

  /** The loop cannot read on past the message that ends it. */
  lemma EndsOnce(request: Request, trace: seq<Event>, n: nat, attempt: Attempt, m: nat)
    requires Reading(request, trace, n) && EndsAt(request, trace, n, attempt)
    requires Reading(request, trace, m)
    ensures m <= n
  {
    hide TotalBytes, Answers, ClosingEnds;
    if m > n {
      AnswersGrow(trace, n + 1, m);
      StillOpen(request, trace, n + 1, m);
    }
  }

  /** The very first message answers the question with this code, within the limits. */
  predicate FirstAnswers(request: Request, trace: seq<Event>, code: ResponseCode) {
    && trace != [] && Decoded(trace[0])
    && trace[0].response.value.id == request.id && trace[0].response.value.opcode == Query
    && trace[0].response.value.queries == request.queries && trace[0].response.value.code == code
    && trace[0].size <= MAX_BYTES && |trace[0].response.value.answers| <= MAX_RECORDS
  }

  /** Message m is one that is read, and one too many, too large or too long. */
  predicate Exceeds(request: Request, trace: seq<Event>, m: nat) {
    && AllDecoded(trace, m + 1) && Readable(request, m == 0, trace[m].response.value) && !WithinLimits(trace, m + 1)
  }

  lemma ClosingOutcome(request: Request, trace: seq<Event>, n: nat, attempt: Attempt)
    requires AllDecoded(trace, n) && ClosingEnds(request, trace, n, attempt)
    ensures attempt.outcome in {Allowed, Incomplete, OutcomeCancelled}
  {
    hide AllAuthoritative, AnyTruncated;
  }

  lemma OneMessage(trace: seq<Event>)
    requires AllDecoded(trace, 1)
    ensures Answers(trace, 1) == trace[0].response.value.answers && TotalBytes(trace, 1) == trace[0].size
  {
    assert Answers(trace, 0) == [] && TotalBytes(trace, 0) == 0;
    assert [] + trace[0].response.value.answers == trace[0].response.value.answers;
  }

  lemma FirstExactly(request: Request, trace: seq<Event>, n: nat, attempt: Attempt)
    requires Reading(request, trace, n) && EndsAt(request, trace, n, attempt)
    ensures attempt.outcome == Refused <==> FirstAnswers(request, trace, RefusedCode)
    ensures attempt.outcome == NotAuthoritative <==> FirstAnswers(request, trace, NotAuthCode)
  {
    hide NotClosed, ClosingEnds, TotalBytes, Answers;
    if AllDecoded(trace, n + 1) && ClosingEnds(request, trace, n + 1, attempt) {
      ClosingOutcome(request, trace, n + 1, attempt);
    }
    if AllDecoded(trace, 1) {
      OneMessage(trace);
    }
  }

  lemma DecodedBefore(request: Request, trace: seq<Event>, n: nat)
    requires Reading(request, trace, n)
    ensures forall m :: 0 <= m < n ==> At(trace, m).Frame? && WithinLimits(trace, m + 1)
  {
    hide NotClosed, Readable;
    forall m | 0 <= m < n ensures At(trace, m).Frame? && WithinLimits(trace, m + 1) {
      AnswersGrow(trace, m + 1, n);
    }
  }

  lemma TimeoutExactly(request: Request, trace: seq<Event>, n: nat, attempt: Attempt)
    requires Reading(request, trace, n) && EndsAt(request, trace, n, attempt)
    ensures attempt.outcome == Timeout <==> exists m :: Reading(request, trace, m) && At(trace, m).Deadline?
  {
    hide NotClosed, Readable, Answers, TotalBytes;
    if AllDecoded(trace, n + 1) && ClosingEnds(request, trace, n + 1, attempt) {
      ClosingOutcome(request, trace, n + 1, attempt);
    }
    forall m | Reading(request, trace, m) && At(trace, m).Deadline? ensures m == n {
      EndsOnce(request, trace, n, attempt, m);
      DecodedBefore(request, trace, n);
    }
  }

  /** At the message where the loop ends, the limits decide this outcome alone. */
  lemma ExceedsHere(request: Request, trace: seq<Event>, n: nat, attempt: Attempt)
    requires Reading(request, trace, n) && EndsAt(request, trace, n, attempt)
    ensures attempt.outcome == LimitExceeded <==> Exceeds(request, trace, n)
  {
    hide NotClosed, Answers, TotalBytes;
    if AllDecoded(trace, n + 1) {
      assert At(trace, n) == trace[n];
      if ClosingEnds(request, trace, n + 1, attempt) {
        ClosingOutcome(request, trace, n + 1, attempt);
      }
    }
  }

  lemma LimitExactly(request: Request, trace: seq<Event>, n: nat, attempt: Attempt)
    requires Reading(request, trace, n) && EndsAt(request, trace, n, attempt)
    ensures attempt.outcome == LimitExceeded <==> exists m :: Reading(request, trace, m) && Exceeds(request, trace, m)
  {
    hide EndsAt, Reading;
    ExceedsHere(request, trace, n, attempt);
    forall m: nat | Reading(request, trace, m) && Exceeds(request, trace, m) ensures m == n {
      EndsOnce(request, trace, n, attempt, m);
      DecodedBefore(request, trace, n);
      assert m < n ==> At(trace, m).Frame?;
    }
  }

  /** The transfer is cancelled while a message is awaited, or in the wait after a whole zone. */
  predicate CancelledAt(request: Request, trace: seq<Event>, m: nat) {
    At(trace, m).Cancelled? && (Reading(request, trace, m) || Delivered(request, trace, m))
  }

  lemma CancelledEnd(request: Request, trace: seq<Event>, n: nat, attempt: Attempt)
    requires Reading(request, trace, n) && EndsAt(request, trace, n, attempt)
    requires attempt.outcome == OutcomeCancelled
    ensures CancelledAt(request, trace, n) || CancelledAt(request, trace, n + 1)
  {
    hide Delivered, NotClosed, Readable;
    if attempt.messages > n {
      SoundIsDelivered(request, trace, n, attempt);
      WaitDecides(request, trace, n + 1, attempt);
    }
  }

  lemma AwaitingCancelled(request: Request, trace: seq<Event>, n: nat, attempt: Attempt)
    requires Reading(request, trace, n) && EndsAt(request, trace, n, attempt)
    ensures At(trace, n).Cancelled? ==> attempt.outcome == OutcomeCancelled
  {
  }

  lemma CancelledExactly(request: Request, trace: seq<Event>, n: nat, attempt: Attempt)
    requires Reading(request, trace, n) && EndsAt(request, trace, n, attempt)
    ensures attempt.outcome == OutcomeCancelled <==> exists m :: CancelledAt(request, trace, m)
  {
    hide Delivered, EndsAt, ClosingEnds, NotClosed, Readable, Answers, TotalBytes;
    if attempt.outcome == OutcomeCancelled {
      CancelledEnd(request, trace, n, attempt);
    }
    forall m: nat | CancelledAt(request, trace, m) ensures attempt.outcome == OutcomeCancelled {
      if Reading(request, trace, m) {
        EndsOnce(request, trace, n, attempt, m);
        DecodedBefore(request, trace, n);
        assert m < n ==> At(trace, m).Frame?;
        AwaitingCancelled(request, trace, n, attempt);
      } else {
        DeliveredEnds(request, trace, n, attempt, m);
        WaitDecides(request, trace, m, attempt);
      }
    }
  }

  // ----- The whole exchange -----

  /** The whole exchange with one endpoint. */
  method CheckEndpoint(setup: Setup, request: Request, trace: seq<Event>) returns (attempt: Attempt)
    ensures setup != Sent ==> attempt == SetupAttempt(setup)
    ensures setup == Sent ==>
              exists n :: Reading(request, trace, n) && EndsAt(request, trace, n, attempt)
    ensures attempt.outcome == Allowed <==>
              setup == Sent && exists n :: CompleteTransfer(request, trace, n)
    ensures attempt.outcome == Unreachable <==> setup.ConnectFailed? || setup.NotSendable?
    ensures attempt.outcome == Refused <==> setup == Sent && FirstAnswers(request, trace, RefusedCode)
    ensures attempt.outcome == NotAuthoritative <==> setup == Sent && FirstAnswers(request, trace, NotAuthCode)
    ensures attempt.outcome == Timeout <==>
            setup.ConnectTimedOut? || (setup == Sent && exists n :: Reading(request, trace, n) && At(trace, n).Deadline?)
    ensures attempt.outcome == LimitExceeded <==>
              setup == Sent && exists n :: Reading(request, trace, n) && Exceeds(request, trace, n)
    ensures attempt.outcome == OutcomeCancelled <==>
              setup.CancelledConnecting? || (setup == Sent && exists n :: CancelledAt(request, trace, n))
    ensures attempt.messages <= MAX_MESSAGES && attempt.bytes <= MAX_BYTES && attempt.records <= MAX_RECORDS
    ensures AllDecoded(trace, attempt.messages)
    ensures attempt.bytes == TotalBytes(trace, attempt.messages)
    ensures attempt.records == |Answers(trace, attempt.messages)|
  {
    if setup == Sent {
      attempt := ReadTransfer(request, trace);
      ghost var n :| Reading(request, trace, n) && EndsAt(request, trace, n, attempt);
      AllowedIffComplete(request, trace, n, attempt);
      EndTotals(request, trace, n, attempt);
      FirstExactly(request, trace, n, attempt);
      TimeoutExactly(request, trace, n, attempt);
      LimitExactly(request, trace, n, attempt);
      CancelledExactly(request, trace, n, attempt);
    } else {
      attempt := Connect(setup);
    }
  }

  // ----- How the answers are cut into messages -----

  /** Splitting message i of a trace in two, at answer k. */
  function Split(trace: seq<Event>, i: nat, k: nat, size: nat, second: Event): seq<Event>
    requires i < |trace| && Decoded(trace[i]) && k <= |trace[i].response.value.answers|
  {
    var response := trace[i].response.value;
    trace[..i] + [Frame(size, Some(response.(answers := response.answers[..k])))] + [second] + trace[i + 1..]
  }

  /** Where every message of the original is found after the split. */
  lemma SplitElements(trace: seq<Event>, i: nat, k: nat, size: nat, second: Event)
    requires i < |trace| && Decoded(trace[i]) && k <= |trace[i].response.value.answers|
    ensures var split := Split(trace, i, k, size, second);
      && |split| == |trace| + 1 && split[..i] == trace[..i] && split[i + 1] == second
      && Decoded(split[i]) && split[i].response.value.answers == trace[i].response.value.answers[..k]
      && (forall j :: 0 <= j < i ==> split[j] == trace[j])
      && (forall j :: i + 2 <= j < |split| ==> split[j] == trace[j - 1])
  {
  }

  lemma {:induction false} SamePrefix(a: seq<Event>, b: seq<Event>, n: nat)
    requires AllDecoded(a, n) && AllDecoded(b, n) && a[..n] == b[..n]
    ensures Answers(a, n) == Answers(b, n)
  {
    if n > 0 {
      assert a[..n][n - 1] == b[..n][n - 1];
      assert a[..n - 1] == a[..n][..n - 1] && b[..n - 1] == b[..n][..n - 1];
      SamePrefix(a, b, n - 1);
    }
  }

  lemma TwoMessages(trace: seq<Event>, n: nat, before: seq<Record>, answers: seq<Record>, k: nat)
    requires n >= 2 && AllDecoded(trace, n) && k <= |answers| && Answers(trace, n - 2) == before
    requires trace[n - 2].response.value.answers == answers[..k] && trace[n - 1].response.value.answers == answers[k..]
    ensures Answers(trace, n) == before + answers
  {
    assert answers[..k] + answers[k..] == answers;
    assert (before + answers[..k]) + answers[k..] == before + (answers[..k] + answers[k..]);
  }

  lemma {:induction false} SplitKeepsAnswers(trace: seq<Event>, i: nat, k: nat, size: nat, second: Event, n: nat)
    requires i < n && AllDecoded(trace, n) && k <= |trace[i].response.value.answers|
    requires Decoded(second) && second.response.value.answers == trace[i].response.value.answers[k..]
    ensures AllDecoded(Split(trace, i, k, size, second), n + 1)
    ensures Answers(Split(trace, i, k, size, second), n + 1) == Answers(trace, n)
  {
    hide Split;
    var split := Split(trace, i, k, size, second);
    SplitElements(trace, i, k, size, second);
    assert Decoded(trace[i]);
    if n == i + 1 {
      SamePrefix(trace, split, i);
      TwoMessages(split, i + 2, Answers(split, i), trace[i].response.value.answers, k);
    } else {
      SplitKeepsAnswers(trace, i, k, size, second, n - 1);
      assert split[n] == trace[n - 1];
    }
  }

  /** Message boundaries do not matter: moving part of any message into a follow-up message of the
      same transfer leaves the verdict alone, as long as the limits still hold and the closing SOA
      stays in the last message. */
  lemma BoundariesDoNotMatter(request: Request, trace: seq<Event>, n: nat, i: nat, k: nat, size: nat, second: Event)
    requires i < n && AllDecoded(trace, n) && k <= |trace[i].response.value.answers|
    requires Decoded(second) && second.response.value.answers == trace[i].response.value.answers[k..]
    requires GoodResponse(request, false, second.response.value)
    requires i == n - 1 ==> second.response.value.answers != []
    requires WithinLimits(trace, n)
    requires AllDecoded(Split(trace, i, k, size, second), n + 1)
    requires WithinLimits(Split(trace, i, k, size, second), n + 1)
    ensures CompleteTransfer(request, trace, n) <==>
            CompleteTransfer(request, Split(trace, i, k, size, second), n + 1)
  {
    var split := Split(trace, i, k, size, second);
    SplitKeepsAnswers(trace, i, k, size, second, n);
    assert At(split, n + 1) == At(trace, n);
    assert forall j :: 0 <= j < i ==> split[j] == trace[j];
    assert forall j :: i < j < n ==> split[j + 1] == trace[j];
    assert split[i].response.value == trace[i].response.value.(answers := trace[i].response.value.answers[..k]);
    if CompleteTransfer(request, split, n + 1) {
      forall j | 0 <= j < n ensures GoodResponse(request, j == 0, trace[j].response.value) {
        assert GoodResponse(request, j == 0, split[j].response.value);
        assert GoodResponse(request, false, split[j + 1].response.value);
      }
    }
  }

  /** Nothing but good messages, within the limits, and then something that is not a message. */
  predicate OnlyGoodMessages(request: Request, trace: seq<Event>, n: nat) {
    && n > 0 && AllDecoded(trace, n) && !At(trace, n).Frame?
    && (forall i :: 0 <= i < n ==> GoodResponse(request, i == 0, trace[i].response.value))
    && WithinLimits(trace, n)
  }

  /** A complete transfer takes all the messages there are. */
  lemma CompleteIsWhole(request: Request, trace: seq<Event>, n: nat, m: nat)
    requires OnlyGoodMessages(request, trace, n) && CompleteTransfer(request, trace, m)
    ensures m == n
  {
    hide GoodResponse, SoaDelimited, WithinLimits;
    assert forall k :: 0 <= k < n || 0 <= k < m ==> At(trace, k).Frame?;
  }

  /** Of good messages only the answer stream, an answer in the last of them and silence afterwards
      decide the verdict. */
  lemma VerdictOfGoodMessages(request: Request, trace: seq<Event>, n: nat, i: nat, attempt: Attempt)
    requires OnlyGoodMessages(request, trace, n)
    requires Reading(request, trace, i) && EndsAt(request, trace, i, attempt)
    ensures attempt.outcome == Allowed <==>
            && SoaDelimited(Answers(trace, n), request.zone)
            && trace[n - 1].response.value.answers != []
            && (At(trace, n).Closed? || At(trace, n).Deadline?)
  {
    hide GoodResponse, SoaDelimited, EndsAt, Reading, WithinLimits;
    AllowedIffComplete(request, trace, i, attempt);
    if exists m :: CompleteTransfer(request, trace, m) {
      var m: nat :| CompleteTransfer(request, trace, m);
      CompleteIsWhole(request, trace, n, m);
    }
    if
      && SoaDelimited(Answers(trace, n), request.zone)
      && trace[n - 1].response.value.answers != []
      && (At(trace, n).Closed? || At(trace, n).Deadline?)
    {
      assert CompleteTransfer(request, trace, n);
    }
  }

  /** Two servers that send the same answers get the same verdict, however they cut them into
      messages, as long as neither ends with an empty message. */
  lemma MessagesDoNotMatter(request: Request, a: seq<Event>, m: nat, i: nat, one: Attempt,
                            b: seq<Event>, n: nat, j: nat, other: Attempt)
    requires OnlyGoodMessages(request, a, m) && OnlyGoodMessages(request, b, n)
    requires Reading(request, a, i) && EndsAt(request, a, i, one)
    requires Reading(request, b, j) && EndsAt(request, b, j, other)
    requires Answers(a, m) == Answers(b, n) && At(a, m) == At(b, n)
    requires a[m - 1].response.value.answers != [] && b[n - 1].response.value.answers != []
    ensures one.outcome == Allowed <==> other.outcome == Allowed
  {
    hide OnlyGoodMessages, EndsAt, Reading, SoaDelimited;
    VerdictOfGoodMessages(request, a, m, i, one);
    VerdictOfGoodMessages(request, b, n, j, other);
  }
}
