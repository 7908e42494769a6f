/** The Kafka broker adapter `kBroker` of broker/kafka/kafka.go as a class
    whose methods update its fields in place. Each method is proved against
    the functions of `Addresses`, `Config`, `Lifecycle` and `Delivery`; the
    ghost `trace` lists the calls made into the client libraries. */
module Kafka {
  import opened Wrappers
  import opened Clients
  import opened Addresses
  import opened Config
  import Lifecycle
  import opened Delivery

  /** The outcome of `json.Marshal` of a `*broker.Message`; a nil pointer
      (`None`) is marshalled like any other value. */
  type Encoder = Option<Message> -> Result<seq<byte>, Error>

  class KBroker {
    var addrs: seq<string>
    var c: Option<Client>
    var p: Option<Producer>
    var sc: Option<ClusterClient>
    var opts: BrokerOptions

    /** Calls made into the client libraries, oldest first. */
    ghost var trace: seq<Call>

    function Handles(): Lifecycle.Handles
      reads this
    {
      Lifecycle.Handles(c, p, sc)
    }

    /** The stored addresses are never empty and contain no empty string;
        handles exist only in creation order. */
    ghost predicate Valid()
      reads this
    {
      && addrs != []
      && (forall k :: 0 <= k < |addrs| ==> addrs[k] != "")
      && Lifecycle.Ordered(Handles())
    }

    /** `NewBroker`: the options are folded over a zero record and then
        dropped; the broker keeps the normalised addresses, zero-valued
        options and no handles. */
    constructor (addresses: seq<string>, options: seq<BrokerOptions -> BrokerOptions>)
      ensures Valid()
      ensures addrs == Normalized(addresses)
      ensures Handles() == Lifecycle.NoHandles
      ensures opts == ZeroOptions
      ensures trace == []
    {
      var folded := Fold(ZeroOptions, options);
      var cAddrs := NormalizeAddresses(addresses);
      addrs := cAddrs;
      c, p, sc := None, None, None;
      opts := ZeroOptions;
      trace := [];
    }

    /** `Address()`; on a valid broker the default branch is never taken. */
    function Address(): (r: string)
      reads this
      ensures Valid() ==> r == addrs[0] && r != ""
    {
      FirstAddress(addrs)
    }

    function Options(): BrokerOptions
      reads this
    {
      opts
    }

    function String(): string
    {
      "kafka"
    }

    method Connect(env: Lifecycle.ConnectEnv) returns (err: Option<Error>)
      requires Valid()
      modifies this`c, this`p, this`sc, this`trace
      ensures Valid()
      ensures var s := Lifecycle.Connect(old(Handles()), addrs, env);
        Handles() == s.handles && err == s.err && trace == old(trace) + s.calls
    {
      if c.Some? {
        return None;
      }
      trace := trace + [NewClient(addrs)];
      if env.newClient.Failure? {
        return Some(env.newClient.error);
      }
      var client := env.newClient.value;
      c := Some(client);
      trace := trace + [NewSyncProducerFromClient(client)];
      if env.newProducer.Failure? {
        return Some(env.newProducer.error);
      }
      p := Some(env.newProducer.value);
      trace := trace + [NewClusterClient(addrs)];
      if env.newCluster.Failure? {
        return Some(env.newCluster.error);
      }
      sc := Some(env.newCluster.value);
      return None;
    }

    method Disconnect(closes: Lifecycle.CloseEnv) returns (err: Option<Error>)
      requires Valid() && Lifecycle.AllPresent(Handles())
      modifies this`trace
      ensures Valid()
      ensures var s := Lifecycle.Disconnect(old(Handles()), closes);
        Handles() == s.handles && err == s.err && trace == old(trace) + s.calls
    {
      trace := trace + [CloseClusterClient(sc.value)];
      trace := trace + [CloseProducer(p.value)];
      trace := trace + [CloseClient(c.value)];
      err := closes.client;
    }

    /** `Init`: apply the options to the stored record in order. */
    method Init(options: seq<BrokerOptions -> BrokerOptions>) returns (err: Option<Error>)
      modifies this`opts
      ensures opts == ApplyAll(old(opts), options)
      ensures err.None?
    {
      ghost var init := opts;
      for i := 0 to |options|
        invariant opts == ApplyAll(init, options[..i])
      {
        ApplyAllSnoc(init, options[..i], options[i]);
        assert options[..i + 1] == options[..i] + [options[i]];
        opts := options[i](opts);
      }
      assert options[..|options|] == options;
      return None;
    }

    /** `Publish` of a possibly nil message pointer `msg`. */
    method Publish(topic: string, msg: Option<Message>, encode: Encoder, sent: Option<Error>)
      returns (err: Option<Error>)
      requires Valid()
      requires encode(msg).Success? ==> p.Some?
      modifies this`trace
      ensures Valid()
      ensures var s := Lifecycle.Publish(old(Handles()), topic, encode(msg), sent);
        Handles() == s.handles && err == s.err && trace == old(trace) + s.calls
    {
      var b := encode(msg);
      if b.Failure? {
        return Some(b.error);
      }
      trace := trace + [SendMessage(p.value, topic, b.value)];
      return sent;
    }

    /** `Subscribe`: fold the options over `AutoAck: true`, create a group
        consumer for the topic, and on success hand every decodable incoming
        record to the handler. The handler calls are returned in `handled`. */
    method Subscribe(topic: string, options: seq<SubscribeOptions -> SubscribeOptions>,
                     newConsumer: Result<Consumer, Error>, incoming: seq<ConsumerMessage>, decode: Decoder)
      returns (r: Result<Subscriber, Error>, handled: seq<Publication>)
      requires Valid()
      modifies this`trace
      ensures Valid()
      ensures var opt := ApplyAll(DefaultSubscribeOptions, options);
        trace == old(trace) + [NewConsumerFromClient(sc, opt.queue, [topic])]
        && (newConsumer.Failure? ==> r == Failure(newConsumer.error) && handled == [])
        && (newConsumer.Success? ==>
              r == Success(Subscriber(newConsumer.value, "", opt)) && handled == Delivered(incoming, decode))
      ensures r.Success? ==> r.value.Topic() == ""
    {
      var opt := Fold(DefaultSubscribeOptions, options);
      trace := trace + [NewConsumerFromClient(sc, opt.queue, [topic])];
      if newConsumer.Failure? {
        return Failure(newConsumer.error), [];
      }
      handled := Deliver(incoming, decode);
      r := Success(Subscriber(newConsumer.value, "", opt));
    }
  }

  /** A broker whose producer could not be created keeps its client, and the
      next `Connect` reports success without creating a producer. */
  method PartialConnectScenario(addresses: seq<string>, client: Client, producer: Producer,
                                cluster: ClusterClient, e: Error)
  {
    var k := new KBroker(addresses, []);
    var err := k.Connect(Lifecycle.ConnectEnv(Success(client), Failure(e), Success(cluster)));
    assert err == Some(e) && k.c == Some(client) && k.p.None? && k.sc.None?;
    err := k.Connect(Lifecycle.ConnectEnv(Success(client), Success(producer), Success(cluster)));
    assert err.None? && k.p.None? && k.sc.None?;
    assert k.trace == [NewClient(k.addrs), NewSyncProducerFromClient(client)];
  }

  /** A record that carries what `Publish` sent, read back from the topic it
      was sent to, reaches the handler as the published message (nil
      included) when the codec restores it, at the record's rank in the
      stream. */
  lemma PublishedIsDelivered(h: Lifecycle.Handles, topic: string, msg: Option<Message>, encode: Encoder,
                             sent: Option<Error>, records: seq<ConsumerMessage>, decode: Decoder, i: nat)
    requires h.p.Some? && encode(msg).Success?
    requires decode(encode(msg).value) == Success(msg)
    requires i < |records|
    requires var send := Lifecycle.Publish(h, topic, encode(msg), sent).calls[0];
      records[i] == ConsumerMessage(send.topic, send.value)
    ensures Delivery.Rank(records, decode, i) < |Delivered(records, decode)|
    ensures Delivered(records, decode)[Delivery.Rank(records, decode, i)] == Publication(topic, msg)
  {
    DeliveredAt(records, decode, i);
  }
}
