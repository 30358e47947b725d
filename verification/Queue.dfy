/**
 RabbitMQ as the worker sees it (queue.go): a main, a retry and a dead queue, the
 messages handed out but not yet acknowledged, and the hand-off of a failed job.

 A publish is confirmed, refused, or ambiguous: an error is reported although the
 broker stored the message. An acknowledgement may get lost, in which case the
 broker redelivers. Durable queues lose nothing.
 */
module Queue {
  import opened Common
  import opened Strings
  import opened SyncDatabase

  type ConsumerId = nat

  /** The header types that headerAttempt switches over; Text carries what strconv.Atoi returns. */
  datatype HeaderValue = Int32(number: int) | Int64(number: int) | Int(number: int) | Text(number: int) | Other

  datatype Headers = Headers(attempt: Option<HeaderValue>, preserveAttempt: Option<bool>, lastError: Option<string>)

  datatype Message = Message(envelope: Envelope, headers: Headers)

  /** Why a delivery failed, after classification: what IsRetryable and PreserveQueueAttempt answer. */
  datatype Cause = Cause(retryable: bool, preserveAttempt: bool, text: string)

  datatype PublishOutcome = Confirmed | Refused | Ambiguous

  datatype QueueName = MainQueue | RetryQueue | DeadQueue

  datatype Queues = Queues(
    main: multiset<Message>, retry: multiset<Message>, dead: multiset<Message>, unacked: map<ConsumerId, Message>)

  function HeaderAttempt(headers: Headers): (attempt: nat)
    ensures attempt >= 1
  {
    match headers.attempt
    case None => 1
    case Some(Other) => 1
    case Some(value) => if value.number > 1 then value.number else 1
  }

  function SafeCause(text: string): string {
    var value := Trim(text);
    if |value| > 256 then value[..256] else value
  }

  function FreshMessage(envelope: Envelope): Message {
    Message(envelope, Headers(Some(Int32(1)), None, None))
  }

  function DeadCopy(raw: Message, cause: Cause): Message {
    raw.(headers := raw.headers.(attempt := Some(Int32(HeaderAttempt(raw.headers))),
                                 lastError := Some(SafeCause(cause.text))))
  }

  function RetryCopy(raw: Message, cause: Cause): Message {
    var attempt := HeaderAttempt(raw.headers);
    raw.(headers := Headers(
           Some(Int32(if cause.preserveAttempt then attempt else attempt + 1)),
           if cause.preserveAttempt then Some(true) else None,
           Some(SafeCause(cause.text))))
  }

  /** Where Retry sends a message. */
  function RetryTarget(raw: Message, cause: Cause, maxAttempts: nat): QueueName {
    if HeaderAttempt(raw.headers) >= maxAttempts && !cause.preserveAttempt then DeadQueue else RetryQueue
  }

  /** Where a failed job goes, as processDelivery and Retry decide together. */
  function HandOffTarget(raw: Message, cause: Cause, maxAttempts: nat): QueueName {
    if cause.retryable then RetryTarget(raw, cause, maxAttempts) else DeadQueue
  }

  function HandOffCopy(raw: Message, cause: Cause, maxAttempts: nat): Message {
    if HandOffTarget(raw, cause, maxAttempts) == RetryQueue then RetryCopy(raw, cause) else DeadCopy(raw, cause)
  }

  function Enqueue(q: Queues, name: QueueName, m: Message): Queues {
    match name
    case MainQueue => q.(main := q.main + multiset{m})
    case RetryQueue => q.(retry := q.retry + multiset{m})
    case DeadQueue => q.(dead := q.dead + multiset{m})
  }

  function Published(q: Queues, name: QueueName, m: Message, outcome: PublishOutcome): Queues {
    if outcome == Refused then q else Enqueue(q, name, m)
  }

  function Acked(q: Queues, consumer: ConsumerId): Queues {
    q.(unacked := q.unacked - {consumer})
  }

  /** Nack with requeue, a lost acknowledgement, or a closed connection. */
  function Requeued(q: Queues, consumer: ConsumerId): Queues {
    if consumer in q.unacked
    then q.(main := q.main + multiset{q.unacked[consumer]}, unacked := q.unacked - {consumer})
    else q
  }

  function Settled(q: Queues, consumer: ConsumerId, ackArrives: bool): Queues {
    if ackArrives then Acked(q, consumer) else Requeued(q, consumer)
  }

  /** Delivery.Retry and Delivery.DeadLetter: publish the copy, then acknowledge or requeue the original. */
  function HandedOff(q: Queues, consumer: ConsumerId, name: QueueName, copy: Message,
                     outcome: PublishOutcome, ackArrives: bool): Queues
  {
    var published := Published(q, name, copy, outcome);
    if outcome == Confirmed then Settled(published, consumer, ackArrives) else Requeued(published, consumer)
  }

  /** A channel pair to the broker. */
  class Client {
    var main: multiset<Message>
    var retry: multiset<Message>
    var dead: multiset<Message>
    var unacked: map<ConsumerId, Message>
    const maxAttempts: nat

    function State(): Queues
      reads this
    {
      Queues(main, retry, dead, unacked)
    }

    constructor (maxAttempts: nat)
      requires maxAttempts > 0
      ensures this.maxAttempts == maxAttempts
      ensures State() == Queues(multiset{}, multiset{}, multiset{}, map[])
    {
      this.maxAttempts := maxAttempts;
      main, retry, dead, unacked := multiset{}, multiset{}, multiset{}, map[];
    }

    method Publish(name: QueueName, message: Message, outcome: PublishOutcome) returns (ok: bool)
      modifies this
      ensures State() == Published(old(State()), name, message, outcome)
      ensures ok <==> outcome == Confirmed
    {
      if outcome != Refused {
        match name
        case MainQueue => main := main + multiset{message};
        case RetryQueue => retry := retry + multiset{message};
        case DeadQueue => dead := dead + multiset{message};
      }
      ok := outcome == Confirmed;
    }

    method Requeue(consumer: ConsumerId)
      modifies this
      ensures State() == Requeued(old(State()), consumer)
    {
      if consumer in unacked {
        main := main + multiset{unacked[consumer]};
        unacked := unacked - {consumer};
      }
    }

    method Ack(consumer: ConsumerId, arrives: bool) returns (ok: bool)
      modifies this
      ensures State() == Settled(old(State()), consumer, arrives)
      ensures ok <==> arrives
    {
      if arrives {
        unacked := unacked - {consumer};
      } else {
        Requeue(consumer);
      }
      ok := arrives;
    }
  }

  /** A message in a consumer's hands. */
  class Delivery {
    const raw: Message
    const consumer: ConsumerId
    const client: Client

    constructor (raw: Message, consumer: ConsumerId, client: Client)
      ensures this.raw == raw && this.consumer == consumer && this.client == client
    {
      this.raw, this.consumer, this.client := raw, consumer, client;
    }

    method Retry(cause: Cause, outcome: PublishOutcome, ackArrives: bool) returns (ok: bool)
      modifies client
      ensures var name := RetryTarget(raw, cause, client.maxAttempts);
              client.State() == HandedOff(old(client.State()), consumer, name,
                if name == RetryQueue then RetryCopy(raw, cause) else DeadCopy(raw, cause), outcome, ackArrives)
      ensures ok <==> outcome == Confirmed && ackArrives
    {
      var attempt := HeaderAttempt(raw.headers);
      if attempt >= client.maxAttempts && !cause.preserveAttempt {
        ok := DeadLetter(cause, outcome, ackArrives);
        return;
      }
      var headers := raw.headers;
      if cause.preserveAttempt {
        headers := headers.(attempt := Some(Int32(attempt)), preserveAttempt := Some(true));
      } else {
        headers := headers.(attempt := Some(Int32(attempt + 1)), preserveAttempt := None);
      }
      headers := headers.(lastError := Some(SafeCause(cause.text)));
      ok := client.Publish(RetryQueue, raw.(headers := headers), outcome);
      if !ok {
        client.Requeue(consumer);
        return;
      }
      ok := client.Ack(consumer, ackArrives);
    }

    method DeadLetter(cause: Cause, outcome: PublishOutcome, ackArrives: bool) returns (ok: bool)
      modifies client
      ensures client.State() == HandedOff(old(client.State()), consumer, DeadQueue, DeadCopy(raw, cause), outcome,
                                          ackArrives)
      ensures ok <==> outcome == Confirmed && ackArrives
    {
      var headers := raw.headers.(attempt := Some(Int32(HeaderAttempt(raw.headers))));
      headers := headers.(lastError := Some(SafeCause(cause.text)));
      ok := client.Publish(DeadQueue, raw.(headers := headers), outcome);
      if !ok {
        client.Requeue(consumer);
        return;
      }
      ok := client.Ack(consumer, ackArrives);
    }
  }

  // ---- Attempt accounting ------------------------------------------------------------------

  /** The failures that consume an attempt. */
  function Consuming(causes: seq<Cause>): nat {
    if causes == [] then 0
    else Consuming(causes[..|causes|-1]) + (if causes[|causes|-1].preserveAttempt then 0 else 1)
  }

  /** The queue and the message after each failure of a job that was first published with `first`. */
  datatype Chain = Alive(message: Message) | Buried(message: Message)

  function Handled(first: Message, causes: seq<Cause>, maxAttempts: nat): Chain {
    if causes == [] then Alive(first)
    else
      match Handled(first, causes[..|causes|-1], maxAttempts)
      case Buried(m) => Buried(m)
      case Alive(m) =>
        var cause := causes[|causes|-1];
        if HandOffTarget(m, cause, maxAttempts) == RetryQueue
        then Alive(HandOffCopy(m, cause, maxAttempts)) else Buried(HandOffCopy(m, cause, maxAttempts))
  }

  ghost predicate AllRetryable(causes: seq<Cause>) {
    forall i :: 0 <= i < |causes| ==> causes[i].retryable
  }

  /**
   A job of retryable failures is buried exactly when its maxAttempts-th consuming failure has
   happened; until then its header is one more than the consuming failures so far.
   */
  lemma {:induction false} AttemptsAreCounted(envelope: Envelope, causes: seq<Cause>, maxAttempts: nat)
    requires maxAttempts > 0 && AllRetryable(causes)
    ensures Handled(FreshMessage(envelope), causes, maxAttempts).Buried? <==> Consuming(causes) >= maxAttempts
    ensures var chain := Handled(FreshMessage(envelope), causes, maxAttempts);
            && chain.message.envelope == envelope
            && chain.message.headers.attempt == Some(Int32(HeaderAttempt(chain.message.headers)))
            && HeaderAttempt(chain.message.headers) == (if chain.Alive? then 1 + Consuming(causes) else maxAttempts)
  {
    if causes != [] {
      AttemptsAreCounted(envelope, causes[..|causes|-1], maxAttempts);
    }
  }

  /** A failure because another run is active never buries a job, whatever its header says. */
  lemma {:induction false} BusyStoresNeverBury(first: Message, causes: seq<Cause>, maxAttempts: nat)
    requires forall i :: 0 <= i < |causes| ==> causes[i].retryable && causes[i].preserveAttempt
    ensures var chain := Handled(first, causes, maxAttempts);
            chain.Alive? && HeaderAttempt(chain.message.headers) == HeaderAttempt(first.headers)
  {
    if causes != [] {
      BusyStoresNeverBury(first, causes[..|causes|-1], maxAttempts);
    }
  }

  // ---- Headers and copies --------------------------------------------------------------------

  /** Of whatever type, a header that is a number above one is the attempt; anything else counts as the first. */
  lemma AttemptColumns(headers: Headers, n: int)
    ensures headers.attempt in {Some(Int32(n)), Some(Int64(n)), Some(Int(n)), Some(Text(n))} ==>
              HeaderAttempt(headers) == if n > 1 then n else 1
    ensures headers.attempt in {None, Some(Other)} ==> HeaderAttempt(headers) == 1
  {
  }

  /** A copy is the message with its attempt counted or kept, and the trimmed cause cut at 256. */
  lemma CopyColumns(raw: Message, cause: Cause)
    ensures var again, dead, attempt := RetryCopy(raw, cause), DeadCopy(raw, cause), HeaderAttempt(raw.headers);
            && again.envelope == raw.envelope && dead.envelope == raw.envelope
            && again.headers.attempt == Some(Int32(if cause.preserveAttempt then attempt else attempt + 1))
            && again.headers.preserveAttempt == (if cause.preserveAttempt then Some(true) else None)
            && dead.headers.attempt == Some(Int32(attempt))
            && dead.headers.preserveAttempt == raw.headers.preserveAttempt
            && again.headers.lastError == dead.headers.lastError
            && again.headers.lastError.Some?
            && var text := again.headers.lastError.value;
            && text <= Trim(cause.text) && |text| <= 256 && (|Trim(cause.text)| <= 256 ==> text == Trim(cause.text))
            && (|Trim(cause.text)| > 256 ==> |text| == 256)
  {
  }

  /** What the broker holds once the copy is stored. */
  function WithCopy(q: Queues, name: QueueName, copy: Message): Queues
    requires name != MainQueue
  {
    if name == RetryQueue then q.(retry := q.retry + multiset{copy}) else q.(dead := q.dead + multiset{copy})
  }

  /** The consumer no longer has the message, which is back in the main queue. */
  function WithOriginal(q: Queues, consumer: ConsumerId): Queues
    requires consumer in q.unacked
  {
    q.(main := q.main + multiset{q.unacked[consumer]}, unacked := q.unacked - {consumer})
  }

  /**
   A confirmed and acknowledged hand-off replaces the message by its copy; a lost acknowledgement, or
   an ambiguous publish, leaves both; a refused publish leaves the message alone, back in the main queue.
   */
  lemma HandOffMoves(q: Queues, consumer: ConsumerId, name: QueueName, copy: Message, outcome: PublishOutcome,
                     ackArrives: bool)
    requires consumer in q.unacked && name != MainQueue
    ensures HandedOff(q, consumer, name, copy, outcome, ackArrives) ==
            match outcome
            case Refused => WithOriginal(q, consumer)
            case Ambiguous => WithOriginal(WithCopy(q, name, copy), consumer)
            case Confirmed =>
              if ackArrives then WithCopy(q, name, copy).(unacked := q.unacked - {consumer})
              else WithOriginal(WithCopy(q, name, copy), consumer)
  {
  }
}
