/** The values exchanged with code outside the adapter: errors, bytes, the
    opaque handles of the sarama and sarama-cluster clients, and a record of
    each call made into those clients. */
module Clients {
  import opened Wrappers

  /** An error value returned by a foreign call. */
  datatype Error = Error(text: string)

  newtype byte = x: int | 0 <= x < 256

  /** go-micro's `broker.Message`: headers and an opaque body. */
  datatype Message = Message(header: map<string, string>, body: seq<byte>)

  /** Opaque handles created by the client libraries. */
  datatype Client = Client(id: nat)                // sarama.Client
  datatype Producer = Producer(id: nat)            // sarama.SyncProducer
  datatype ClusterClient = ClusterClient(id: nat)  // *sc.Client
  datatype Consumer = Consumer(id: nat)            // *sc.Consumer

  /** One call into the client libraries, with the arguments it receives. */
  datatype Call =
    | NewClient(addrs: seq<string>)
    | NewSyncProducerFromClient(client: Client)
    | NewClusterClient(addrs: seq<string>)
    | CloseClusterClient(cluster: ClusterClient)
    | CloseProducer(producer: Producer)
    | CloseClient(client: Client)
    | SendMessage(producer: Producer, topic: string, value: seq<byte>)
    | NewConsumerFromClient(from: Option<ClusterClient>, group: string, topics: seq<string>)
}
