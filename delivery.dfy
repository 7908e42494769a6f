/** The values a subscription hands out and its delivery loop (the
    goroutine started by `Subscribe` in broker/kafka/kafka.go): each
    incoming record is decoded, records that fail to decode are skipped, and
    the handler is called once per decoded record, in arrival order. */
module Delivery {
  import opened Wrappers
  import opened Clients
  import opened Config

  /** A record read from the consumer: its topic and its raw value. */
  datatype ConsumerMessage = ConsumerMessage(topic: string, value: seq<byte>)

  /** The outcome of `json.Unmarshal` into a `*broker.Message`: an error, or
      a message pointer, which is nil (`None`) for a JSON `null`. */
  type Decoder = seq<byte> -> Result<Option<Message>, Error>

  /** `publication`: what one handler call receives. */
  datatype Publication = Publication(t: string, m: Option<Message>)
  {
    function Topic(): string { t }

    function Message(): Option<Message> { m }

    /** Acknowledging does nothing and always succeeds, whatever the
        subscription's `AutoAck` setting. */
    function Ack(): (err: Option<Error>)
      ensures err.None?
    {
      None
    }
  }

  /** `subscriber`: the consumer, a topic field and the options. */
  datatype Subscriber = Subscriber(s: Consumer, t: string, opts: SubscribeOptions)
  {
    function Topic(): string { t }

    function Options(): SubscribeOptions { opts }
  }

  /** The handler call a record leads to, if any. */
  function Dispatch(sm: ConsumerMessage, decode: Decoder): Option<Publication>
  {
    match decode(sm.value)
    case Failure(_) => None
    case Success(m) => Some(Publication(sm.topic, m))
  }

  /** The handler calls made for `records`, in order. */
  function Delivered(records: seq<ConsumerMessage>, decode: Decoder): (r: seq<Publication>)
    ensures |r| <= |records|
  {
    if records == [] then []
    else match Dispatch(records[0], decode)
      case None => Delivered(records[1..], decode)
      case Some(pub) => [pub] + Delivered(records[1..], decode)
  }

  /** The position of the handler call for `records[i]`: the number of
      decodable records before it. */
  function Rank(records: seq<ConsumerMessage>, decode: Decoder, i: nat): nat
    requires i <= |records|
  {
    |Delivered(records[..i], decode)|
  }

  lemma {:induction false} DeliveredAppend(a: seq<ConsumerMessage>, b: seq<ConsumerMessage>, decode: Decoder)
    ensures Delivered(a + b, decode) == Delivered(a, decode) + Delivered(b, decode)
  {
    if a == [] {
      assert a + b == b;
    } else {
      assert (a + b)[0] == a[0];
      assert (a + b)[1..] == a[1..] + b;
      DeliveredAppend(a[1..], b, decode);
    }
  }

  /** A decodable record gives exactly one handler call, at its rank, with
      the record's topic and the decoded message; as ranks grow with the
      index, calls follow arrival order. */
  lemma DeliveredAt(records: seq<ConsumerMessage>, decode: Decoder, i: nat)
    requires i < |records| && decode(records[i].value).Success?
    ensures Rank(records, decode, i) < |Delivered(records, decode)|
    ensures Delivered(records, decode)[Rank(records, decode, i)] ==
            Publication(records[i].topic, decode(records[i].value).value)
    ensures Rank(records, decode, i + 1) == Rank(records, decode, i) + 1
  {
    assert records == records[..i] + ([records[i]] + records[i + 1..]);
    DeliveredAppend(records[..i], [records[i]] + records[i + 1..], decode);
    assert ([records[i]] + records[i + 1..])[1..] == records[i + 1..];
    assert records[..i + 1] == records[..i] + [records[i]];
    DeliveredAppend(records[..i], [records[i]], decode);
  }

  /** A record that fails to decode gives no handler call. */
  lemma SkippedAt(records: seq<ConsumerMessage>, decode: Decoder, i: nat)
    requires i < |records| && decode(records[i].value).Failure?
    ensures Rank(records, decode, i + 1) == Rank(records, decode, i)
  {
    assert records[..i + 1] == records[..i] + [records[i]];
    DeliveredAppend(records[..i], [records[i]], decode);
  }

  /** `records[i]` is the decodable record behind handler call number `k`. */
  predicate CallFrom(records: seq<ConsumerMessage>, decode: Decoder, k: nat, i: nat)
    requires k < |Delivered(records, decode)|
  {
    && i < |records|
    && decode(records[i].value).Success?
    && Rank(records, decode, i) == k
    && Delivered(records, decode)[k] == Publication(records[i].topic, decode(records[i].value).value)
  }

  /** Every handler call comes from a decodable record at that rank. */
  lemma {:induction false} DeliveredFrom(records: seq<ConsumerMessage>, decode: Decoder, k: nat)
    requires k < |Delivered(records, decode)|
    ensures exists i :: CallFrom(records, decode, k, i)
  {
    var head := if decode(records[0].value).Success? then 1 else 0;
    if head == 1 && k == 0 {
      assert records[..0] == [];
      assert CallFrom(records, decode, k, 0);
    } else {
      DeliveredFrom(records[1..], decode, k - head);
      var j: nat :| CallFrom(records[1..], decode, k - head, j);
      CallFromTail(records, decode, k - head, j);
    }
  }

  /** A handler call of the tail's stream is a call of the whole stream, one
      position later when the head record is delivered. */
  lemma CallFromTail(records: seq<ConsumerMessage>, decode: Decoder, k: nat, j: nat)
    requires records != []
    requires k < |Delivered(records[1..], decode)| && CallFrom(records[1..], decode, k, j)
    ensures var k' := k + (if decode(records[0].value).Success? then 1 else 0);
      k' < |Delivered(records, decode)| && CallFrom(records, decode, k', j + 1)
  {
    RankStep(records, decode, j + 1);
  }

  lemma RankStep(records: seq<ConsumerMessage>, decode: Decoder, i: nat)
    requires 1 <= i <= |records|
    ensures Rank(records, decode, i) ==
            Rank(records[1..], decode, i - 1) + (if decode(records[0].value).Success? then 1 else 0)
  {
    assert records[..i] == [records[0]] + records[1..][..i - 1];
    DeliveredAppend([records[0]], records[1..][..i - 1], decode);
  }

  /** When every record decodes, the handler sees every record, in order. */
  lemma {:induction false} AllDecodedAllDelivered(records: seq<ConsumerMessage>, decode: Decoder)
    requires forall i :: 0 <= i < |records| ==> decode(records[i].value).Success?
    ensures |Delivered(records, decode)| == |records|
    ensures forall i :: 0 <= i < |records| ==>
      Delivered(records, decode)[i] == Publication(records[i].topic, decode(records[i].value).value)
  {
    if records != [] {
      AllDecodedAllDelivered(records[1..], decode);
    }
  }

  /** The body of the delivery loop over a finite stream of records: the
      handler log it produces. */
  method Deliver(records: seq<ConsumerMessage>, decode: Decoder) returns (handled: seq<Publication>)
    ensures handled == Delivered(records, decode)
  {
    handled := [];
    var i := 0;
    while i < |records|
      invariant 0 <= i <= |records|
      invariant handled == Delivered(records[..i], decode)
    {
      var sm := records[i];
      assert records[..i + 1] == records[..i] + [sm];
      DeliveredAppend(records[..i], [sm], decode);
      i := i + 1;
      var m := decode(sm.value);
      if m.Failure? {
        continue;
      }
      handled := handled + [Publication(sm.topic, m.value)];
    }
    assert records[..i] == records;
  }
}
