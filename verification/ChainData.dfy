/** Transactions, logs and correlated items as the pipeline sees them. */
module ChainData {
  import opened Prelude
  import opened MatchIds

  type Address = int
  type Topic = int

  datatype Log = Log(
    address: Address, topics: seq<Topic>, data: string,
    txHash: Option<Hash>, logIndex: Option<nat>, blockNumber: Option<nat>)

  /** `body` stands for every field that is only looked at by scripts and decoders. */
  datatype Transaction = Transaction(hash: Hash, to: Option<Address>, blockNumber: Option<nat>, body: string)

  type Receipt = string

  datatype Item = Item(tx: Transaction, logs: seq<Log>, receipt: Option<Receipt>)
}
