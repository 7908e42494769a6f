/** The option records of go-micro's broker package and the way the adapter
    folds option mutators over them (`NewBroker`, `Init`, `Subscribe` in
    broker/kafka/kafka.go). A mutator `func(*Options)` is modelled as a
    function from the old record to the new one. */
module Config {

  /** The fields of `broker.Options` this model keeps: the address list and
      the `Secure` flag; TLS settings and the context are left out. */
  datatype BrokerOptions = BrokerOptions(addrs: seq<string>, secure: bool)

  /** The zero value of `broker.Options`. */
  const ZeroOptions := BrokerOptions([], false)

  /** `broker.SubscribeOptions`: the acknowledgement mode and the queue,
      which the adapter uses as the consumer-group name. */
  datatype SubscribeOptions = SubscribeOptions(autoAck: bool, queue: string)

  /** The record `Subscribe` starts from before applying its options. */
  const DefaultSubscribeOptions := SubscribeOptions(true, "")

  /** The record obtained by applying `fs` to `init`, first to last. */
  function ApplyAll<T>(init: T, fs: seq<T -> T>): T
  {
    if fs == [] then init else ApplyAll(fs[0](init), fs[1..])
  }

  /** Applying one more mutator after a list of them. */
  lemma {:induction false} ApplyAllSnoc<T>(init: T, fs: seq<T -> T>, f: T -> T)
    ensures ApplyAll(init, fs + [f]) == f(ApplyAll(init, fs))
  {
    if fs != [] {
      assert (fs + [f])[1..] == fs[1..] + [f];
      ApplyAllSnoc(fs[0](init), fs[1..], f);
    }
  }

  /** Applying two lists in turn is applying their concatenation. */
  lemma {:induction false} ApplyAllAppend<T>(init: T, fs: seq<T -> T>, gs: seq<T -> T>)
    ensures ApplyAll(init, fs + gs) == ApplyAll(ApplyAll(init, fs), gs)
  {
    if fs == [] {
      assert fs + gs == gs;
    } else {
      assert (fs + gs)[1..] == fs[1..] + gs;
      ApplyAllAppend(fs[0](init), fs[1..], gs);
    }
  }

  /** A property of the starting record that every mutator preserves holds
      of the folded record. */
  lemma {:induction false} ApplyAllPreserves<T>(init: T, fs: seq<T -> T>, P: T -> bool)
    requires P(init)
    requires forall i, x :: 0 <= i < |fs| && P(x) ==> P(fs[i](x))
    ensures P(ApplyAll(init, fs))
  {
    if fs != [] {
      assert P(fs[0](init));
      ApplyAllPreserves(fs[0](init), fs[1..], P);
    }
  }

  /** The `AutoAck` option of a subscription is true unless one of its
      options changes it; the adapter itself never acts on the flag. */
  lemma AutoAckByDefault(fs: seq<SubscribeOptions -> SubscribeOptions>)
    requires forall i, o :: 0 <= i < |fs| ==> fs[i](o).autoAck == o.autoAck
    ensures ApplyAll(DefaultSubscribeOptions, fs).autoAck
  {
    ApplyAllPreserves(DefaultSubscribeOptions, fs, (o: SubscribeOptions) => o.autoAck);
  }

  /** The `for _, o := range opts { o(&x) }` loop on a local record. */
  method Fold<T>(init: T, fs: seq<T -> T>) returns (r: T)
    ensures r == ApplyAll(init, fs)
  {
    r := init;
    for i := 0 to |fs|
      invariant r == ApplyAll(init, fs[..i])
    {
      ApplyAllSnoc(init, fs[..i], fs[i]);
      assert fs[..i + 1] == fs[..i] + [fs[i]];
      r := fs[i](r);
    }
    assert fs[..|fs|] == fs;
  }
}
