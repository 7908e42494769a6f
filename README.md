# Kafka broker adapter — a Dafny model

This project models the Kafka adapter of the go-micro broker plugins
(`broker/kafka/kafka.go`): the `kBroker` type that connects to a Kafka
cluster through three client handles, publishes messages through a
synchronous producer and subscribes through a consumer group.

Modules, one per component of the file:

- `Wrappers` — `Option` (Go's nil; `None` is a nil `error`) and `Result`
  (a `(value, err)` pair).
- `Clients` — the foreign side: `Error`, bytes, `broker.Message`, the opaque
  handles `Client`, `Producer`, `ClusterClient`, `Consumer`, and `Call`, one
  call into sarama or sarama-cluster with its arguments.
- `Addresses` — the address filtering of `NewBroker` and the lookup of
  `Address()`, with the default `127.0.0.1:9092`.
- `Config` — `broker.Options`, `broker.SubscribeOptions` and the in-order
  fold of option mutators used by `NewBroker`, `Init` and `Subscribe`.
- `Lifecycle` — `Connect`, `Disconnect` and `Publish` as functions on the
  three optional handles `c`, `p`, `sc`. Each returns the new handles, the
  returned error and the calls made. The outcome of every foreign call is an
  input (`ConnectEnv`, `CloseEnv`, the send result).
- `Delivery` — `publication`, `subscriber` and the per-record behaviour of
  the subscription loop: records that fail to decode are skipped, and every
  other record produces one handler call with its topic, in arrival order.
- `Kafka` — class `KBroker` with the fields of `kBroker`. Its methods update
  those fields in place and are proved against the functions above. A ghost
  `trace` records the calls made into the client libraries.

Behaviour the model keeps from the code:

- A `Connect` that fails part-way keeps the handles it already stored. A
  later `Connect` then sees `c` set and returns success without creating the
  missing handles.
- `Disconnect` returns only the client's close error and clears no field.
- `NewBroker` applies its options to a local record and then discards it, so
  a new broker's options are the zero value.
- `Subscribe` never sets the subscriber's topic, so `Topic()` is `""`.
- `Ack()` always succeeds and does nothing.
- A JSON `null` payload decodes without error to a nil message. The model lets
  the decoder return `Success(None)`, and such a record is delivered.
- `Publish` accepts a nil message pointer, which `json.Marshal` turns into
  `null`; the model's message argument and encoder take `Option<Message>`.

Three consequences of the code are worth stating plainly. A failed `Connect`
keeps every handle it stored before the failure
(`Lifecycle.PartialStateIsRetained`). `Disconnect` returns only the client's
close error, never the producer's or the cluster client's. `NewBroker` drops
the options it is given.

## Model

| member | source | states |
|---|---|---|
| `Addresses.NonEmpty` | broker/kafka/kafka.go:178-184 | the kept list contains no empty string and is no longer than the input |
| `Addresses.NonEmptyAppend` | broker/kafka/kafka.go:179-184 | filtering the input piece by piece, as the loop does, gives the filter of the whole input |
| `Addresses.KeptAt` | broker/kafka/kafka.go:179-184 | every non-empty input address is kept, at the position given by the number of non-empty addresses before it (its rank) |
| `Addresses.RankNext` | broker/kafka/kafka.go:179-184 | each input address moves the rank on by one exactly when it is non-empty, i.e. appended |
| `Addresses.RankMonotone` | broker/kafka/kafka.go:179-184 | ranks never decrease along the input |
| `Addresses.KeptInOrder` | broker/kafka/kafka.go:179-184 | of two non-empty input addresses, the earlier one is stored at an earlier position: relative order is preserved |
| `Addresses.KeptFrom` | broker/kafka/kafka.go:179-184 | every kept address is a non-empty input address at that rank: nothing else is kept |
| `Addresses.NonEmptyMembers` | broker/kafka/kafka.go:179-184 | an address is kept exactly when it occurs in the input and is non-empty |
| `Addresses.Normalized` | broker/kafka/kafka.go:185-191 | the stored address list is never empty and contains no empty string |
| `Addresses.AllEmptyGivesDefault` | broker/kafka/kafka.go:185-187 | when every input address is empty, or none is given, the stored list is exactly `["127.0.0.1:9092"]` and `Address()` is the default |
| `Addresses.SomeNonEmptyIsKept` | broker/kafka/kafka.go:185-187 | when some input address is non-empty, no default is added: the stored list is exactly the kept addresses |
| `Addresses.AddressIsFirstNonEmpty` | broker/kafka/kafka.go:62-67 | `Address()` of a constructed broker is the first non-empty configured address |
| `Addresses.NormalizeAddresses` | broker/kafka/kafka.go:178-187 | the `append` loop of `NewBroker` plus the default computes `Normalized` of the input |
| `Config.ApplyAllSnoc` | broker/kafka/kafka.go:114-116 | one more mutator applies after all earlier ones |
| `Config.ApplyAllAppend` | broker/kafka/kafka.go:113-118 | applying two option lists in turn equals applying their concatenation |
| `Config.ApplyAllPreserves` | broker/kafka/kafka.go:141-143 | a property of the start record that every mutator preserves holds after the fold |
| `Config.AutoAckByDefault` | broker/kafka/kafka.go:137-143 | the subscriber's `AutoAck` option is true unless one of its options changes it; the adapter never acts on the flag |
| `Config.Fold` | broker/kafka/kafka.go:174-176 | the options loop on a local record applies the mutators first to last |
| `Lifecycle.Connect` | broker/kafka/kafka.go:69-105 | with `c` set: no calls, no change, success; otherwise one call per constructor up to and including the first failure, success exactly when all three succeed, and `c`, `p`, `sc` set exactly for the constructors that succeeded |
| `Lifecycle.ConnectKeepsOrder` | broker/kafka/kafka.go:79-93 | handles exist only in creation order (`p` only with `c`, `sc` only with `p`) |
| `Lifecycle.ConnectFromFresh` | broker/kafka/kafka.go:74-93 | from a fresh broker each handle is the value its constructor returned, or unset from the first failure on; the calls are `NewClient(addrs)`, `NewSyncProducerFromClient(c)`, `NewClusterClient(addrs)`, in that order |
| `Lifecycle.ConnectFailureError` | broker/kafka/kafka.go:74-91 | a failed `Connect` returns the error of the constructor that failed |
| `Lifecycle.ConnectAfterPartialFailure` | broker/kafka/kafka.go:70-86 | once the client was stored, even by a failed `Connect`, the next `Connect` succeeds and creates nothing |
| `Lifecycle.ConnectRetriesAfterClientFailure` | broker/kafka/kafka.go:74-77 | a `Connect` whose client constructor fails stores nothing, so the next `Connect` starts over |
| `Lifecycle.PartialStateIsRetained` | broker/kafka/kafka.go:79-84 | a producer failure returns its error while the client stays stored |
| `Lifecycle.Disconnect` | broker/kafka/kafka.go:107-111 | closes the cluster client, the producer, then the client, returns the client's close result and leaves all handles unchanged |
| `Lifecycle.DisconnectIgnoresEarlierCloses` | broker/kafka/kafka.go:108-110 | close errors of the cluster client and the producer never reach the caller |
| `Lifecycle.ConnectAfterDisconnect` | broker/kafka/kafka.go:107-111 | since `Disconnect` clears nothing, a following `Connect` is a no-op success |
| `Lifecycle.Publish` | broker/kafka/kafka.go:124-134 | a marshalling error is returned without any send; otherwise exactly one send of the encoded bytes to the topic is made and its error is returned as is |
| `Delivery.Publication.Ack` | broker/kafka/kafka.go:46-48 | acknowledging always succeeds |
| `Delivery.Delivered` | broker/kafka/kafka.go:150-162 | there are never more handler calls than records |
| `Delivery.DeliveredAppend` | broker/kafka/kafka.go:151-160 | handling the records one after another gives the calls of the whole stream |
| `Delivery.DeliveredAt` | broker/kafka/kafka.go:153-159 | a decodable record gives exactly one handler call, at its rank, with the record's topic and the decoded message, in arrival order |
| `Delivery.SkippedAt` | broker/kafka/kafka.go:155-157 | a record that fails to decode gives no handler call |
| `Delivery.DeliveredFrom` | broker/kafka/kafka.go:153-159 | every handler call comes from a decodable record at that rank |
| `Delivery.AllDecodedAllDelivered` | broker/kafka/kafka.go:153-159 | when every record decodes, the handler sees every record in order with its topic |
| `Delivery.Deliver` | broker/kafka/kafka.go:150-162 | the loop's handler log over a finite stream equals `Delivered` |
| `Kafka.KBroker.constructor` | broker/kafka/kafka.go:171-192 | a new broker stores the normalised addresses, zero-valued options (its own options are dropped) and no handles |
| `Kafka.KBroker.Address` | broker/kafka/kafka.go:62-67 | on a constructed broker the answer is the first stored address, which is non-empty |
| `Kafka.KBroker.Connect` | broker/kafka/kafka.go:69-105 | updates `c`, `p`, `sc` and the call trace exactly as `Lifecycle.Connect` says and keeps the broker invariant |
| `Kafka.KBroker.Disconnect` | broker/kafka/kafka.go:107-111 | on a fully connected broker, makes the three close calls and returns as `Lifecycle.Disconnect` says, changing no field |
| `Kafka.KBroker.Init` | broker/kafka/kafka.go:113-118 | applies the options in order to the stored options and returns nil |
| `Kafka.KBroker.Publish` | broker/kafka/kafka.go:124-134 | marshals the possibly nil message, then behaves as `Lifecycle.Publish`; needs a producer only when marshalling succeeds |
| `Kafka.PublishedIsDelivered` | broker/kafka/kafka.go:129-132 | a record in any stream that carries the topic and bytes of the send `Publish` recorded is delivered, at its rank, as the published message (nil included) when the codec restores it |
| `Kafka.KBroker.Subscribe` | broker/kafka/kafka.go:136-165 | folds options over `AutoAck: true`, calls the consumer constructor with the queue as group and the one topic, returns its error unchanged, else a subscriber with empty topic whose handler calls are `Delivered` of the incoming records |

## Left out

- The sarama and sarama-cluster clients (`NewClient`, `NewSyncProducerFromClient`, `NewConsumerFromClient`, `SendMessage`, `Close`, `Messages()`) are foreign network code. They appear only as recorded calls whose outcomes are inputs.
- `json.Marshal` and `json.Unmarshal` are a library codec. They are opaque function parameters, and no round trip is proved for them.
- The goroutine and `select` of `Subscribe` run forever and concurrently. The model runs the loop over a finite list of records and returns the handler calls from `Subscribe`, instead of making them after it returns.
- The handler's returned error is ignored by the loop. The model records only the call.
- `Unsubscribe` only forwards the foreign consumer's `Close` result, so it has no behaviour of its own to state.
- `init()` registers the constructor in go-micro's global broker table. This is a process-wide framework side effect.
- The TLS settings are commented out in the source, so they are dead code.
- The bodies of `broker.Option` and `broker.SubscribeOption` are framework closures. They are functions from record to record, and only the TLS and context fields of the records are left out.
- `PublishOption` arguments are accepted and ignored by `Publish`, so the model takes none.
- `Disconnect` on a broker without all three handles dereferences nil and panics, so all three handles are a precondition.
- `Publish` with no producer panics once marshalling succeeds, so a producer is a precondition in that case only.
- `Subscribe` passes a possibly nil cluster client on. What the foreign constructor does with it is part of its outcome input.
- `Options()`, `String()`, `Publication.Topic()`, `Publication.Message()`, `Subscriber.Topic()` and `Subscriber.Options()` are plain field reads (or the constant `"kafka"`). They have no contract of their own; `Kafka.KBroker.Subscribe` states the subscriber's topic.
