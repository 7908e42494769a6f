/** The connection lifecycle of the Kafka broker adapter
    (broker/kafka/kafka.go, `Connect`, `Disconnect`, `Publish`) stated as
    functions on the three optional client handles. Every call into the
    sarama and sarama-cluster clients is an abstract token: its outcome is an
    input, and the call itself is recorded so that its order is observable. */
module Lifecycle {
  import opened Wrappers
  import opened Clients

  /** The fields `c`, `p` and `sc` of a broker. */
  datatype Handles = Handles(c: Option<Client>, p: Option<Producer>, sc: Option<ClusterClient>)

  const NoHandles := Handles(None, None, None)

  /** Handles are only ever created in the order `c`, `p`, `sc`, so the ones
      present form a prefix of that order. */
  predicate Ordered(h: Handles)
  {
    (h.p.Some? ==> h.c.Some?) && (h.sc.Some? ==> h.p.Some?)
  }

  predicate AllPresent(h: Handles)
  {
    h.c.Some? && h.p.Some? && h.sc.Some?
  }

  /** What the three constructors called by `Connect` would return. */
  datatype ConnectEnv = ConnectEnv(
    newClient: Result<Client, Error>,
    newProducer: Result<Producer, Error>,
    newCluster: Result<ClusterClient, Error>)

  /** What the three `Close` calls made by `Disconnect` would return. */
  datatype CloseEnv = CloseEnv(cluster: Option<Error>, producer: Option<Error>, client: Option<Error>)

  /** The outcome of an operation: the handles afterwards, the error it
      returns (`None` for nil) and the calls it made, in order. */
  datatype Step = Step(handles: Handles, err: Option<Error>, calls: seq<Call>)

  /** The number of constructors, counted from the first, that succeed. */
  function Successes(env: ConnectEnv): nat
  {
    if env.newClient.Failure? then 0
    else if env.newProducer.Failure? then 1
    else if env.newCluster.Failure? then 2
    else 3
  }

  /** `Connect`: nothing when `c` is already set; otherwise create `c`, `p`
      and `sc` in turn, storing each as soon as it exists and returning the
      first error without releasing what was stored before it. */
  function Connect(h: Handles, addrs: seq<string>, env: ConnectEnv): (r: Step)
    ensures h.c.Some? ==> r == Step(h, None, [])
    ensures h.c.None? ==> |r.calls| == if Successes(env) == 3 then 3 else Successes(env) + 1
    ensures h.c.None? ==> (r.err.None? <==> Successes(env) == 3)
    ensures h.c.None? ==> (r.handles.c.Some? <==> Successes(env) >= 1)
    ensures h.c.None? && Ordered(h) ==> (r.handles.p.Some? <==> Successes(env) >= 2)
    ensures h.c.None? && Ordered(h) ==> (r.handles.sc.Some? <==> Successes(env) == 3)
  {
    if h.c.Some? then Step(h, None, [])
    else
      var call1 := NewClient(addrs);
      match env.newClient
      case Failure(e) => Step(h, Some(e), [call1])
      case Success(c) =>
        var h1 := h.(c := Some(c));
        var call2 := NewSyncProducerFromClient(c);
        match env.newProducer
        case Failure(e) => Step(h1, Some(e), [call1, call2])
        case Success(p) =>
          var h2 := h1.(p := Some(p));
          var call3 := NewClusterClient(addrs);
          match env.newCluster
          case Failure(e) => Step(h2, Some(e), [call1, call2, call3])
          case Success(sc) => Step(h2.(sc := Some(sc)), None, [call1, call2, call3])
  }

  /** `Disconnect`: close `sc`, `p`, then `c`, keep all three fields, and
      return only the client's close result. */
  function Disconnect(h: Handles, env: CloseEnv): (r: Step)
    requires AllPresent(h)
    ensures r.handles == h
    ensures r.err == env.client
    ensures r.calls == [CloseClusterClient(h.sc.value), CloseProducer(h.p.value), CloseClient(h.c.value)]
  {
    Step(h, env.client, [CloseClusterClient(h.sc.value), CloseProducer(h.p.value), CloseClient(h.c.value)])
  }

  /** `Publish` after the message has been marshalled to `encoded`: a
      marshalling error is returned without sending; otherwise one
      synchronous send is made and its error is returned as is. */
  function Publish(h: Handles, topic: string, encoded: Result<seq<byte>, Error>, sent: Option<Error>): (r: Step)
    requires encoded.Success? ==> h.p.Some?
    ensures r.handles == h
    ensures encoded.Failure? ==> r.err == Some(encoded.error) && r.calls == []
    ensures encoded.Success? ==> r.err == sent && r.calls == [SendMessage(h.p.value, topic, encoded.value)]
  {
    match encoded
    case Failure(e) => Step(h, Some(e), [])
    case Success(b) => Step(h, sent, [SendMessage(h.p.value, topic, b)])
  }

  /** Connecting keeps the handles in creation order. */
  lemma ConnectKeepsOrder(h: Handles, addrs: seq<string>, env: ConnectEnv)
    requires Ordered(h)
    ensures Ordered(Connect(h, addrs, env).handles)
  {
  }

  /** From a fresh broker, `Connect` stores exactly the handles whose
      constructors succeeded before the first failure, each one the value its
      constructor returned, and leaves the later fields unset. */
  lemma ConnectFromFresh(addrs: seq<string>, env: ConnectEnv)
    ensures var r := Connect(NoHandles, addrs, env);
      && (r.handles.c == if Successes(env) >= 1 then Some(env.newClient.value) else None)
      && (r.handles.p == if Successes(env) >= 2 then Some(env.newProducer.value) else None)
      && (r.handles.sc == if Successes(env) == 3 then Some(env.newCluster.value) else None)
      && r.calls[0] == NewClient(addrs)
      && (Successes(env) >= 1 ==> r.calls[1] == NewSyncProducerFromClient(env.newClient.value))
      && (Successes(env) >= 2 ==> r.calls[2] == NewClusterClient(addrs))
  {
  }

  /** A failed `Connect` returns the error of the constructor that failed. */
  lemma ConnectFailureError(h: Handles, addrs: seq<string>, env: ConnectEnv)
    requires h.c.None? && Successes(env) < 3
    ensures Connect(h, addrs, env).err == Some(
      if Successes(env) == 0 then env.newClient.error
      else if Successes(env) == 1 then env.newProducer.error
      else env.newCluster.error)
  {
  }

  /** Once the client was stored, even by a `Connect` that then failed, a
      later `Connect` succeeds without creating the missing handles. */
  lemma ConnectAfterPartialFailure(addrs: seq<string>, env: ConnectEnv, env': ConnectEnv)
    requires Successes(env) >= 1
    ensures var r := Connect(NoHandles, addrs, env);
      Connect(r.handles, addrs, env') == Step(r.handles, None, [])
  {
  }

  /** A `Connect` that fails at the client constructor stores nothing, so the
      next `Connect` starts over. */
  lemma ConnectRetriesAfterClientFailure(addrs: seq<string>, env: ConnectEnv, env': ConnectEnv)
    requires Successes(env) == 0
    ensures Connect(NoHandles, addrs, env).handles == NoHandles
    ensures Connect(Connect(NoHandles, addrs, env).handles, addrs, env') == Connect(NoHandles, addrs, env')
  {
  }

  /** A failed `Connect` may leave a handle behind: the "all three or none"
      shape does not survive a producer failure. */
  lemma PartialStateIsRetained(addrs: seq<string>, c: Client, e: Error)
    ensures var r := Connect(NoHandles, addrs,
                             ConnectEnv(Success(c), Failure(e), Failure(e)));
      r.err == Some(e) && r.handles == Handles(Some(c), None, None)
  {
  }

  /** `Disconnect` does not reset the handles, so a `Connect` after it is a
      no-op that reports success and reopens nothing. */
  lemma ConnectAfterDisconnect(h: Handles, closes: CloseEnv, addrs: seq<string>, env: ConnectEnv)
    requires AllPresent(h)
    ensures var d := Disconnect(h, closes);
      Connect(d.handles, addrs, env) == Step(h, None, [])
  {
  }

  /** A close failure of the cluster client or the producer is discarded. */
  lemma DisconnectIgnoresEarlierCloses(h: Handles, closes: CloseEnv)
    requires AllPresent(h) && closes.client.None?
    ensures Disconnect(h, closes).err.None?
  {
  }
}
