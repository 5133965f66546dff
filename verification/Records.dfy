/** The records that come from and go to topics. */
module Records {
  import opened Wrappers
  import opened Machine
  import opened ByteCodec

  /** A header value that is absent differs from an empty one. */
  datatype Header = Header(key: Bytes, value: Option<Bytes>)

  datatype Record = Record(
    key: Option<Bytes>,
    value: Bytes,
    timestamp: Int64,
    partition: int,
    offset: int,
    headers: seq<Header>)

  datatype Outgoing = Outgoing(key: Option<Bytes>, value: Bytes, timestamp: Int64, headers: seq<Header>)

  datatype Produced = Produced(topic: Bytes, record: Outgoing)

  /** The records of each topic. */
  type Input = map<Bytes, seq<Record>>

  datatype TopicPartition = TopicPartition(topic: Bytes, partition: int)
}
