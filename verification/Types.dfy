/**
  Values shared by every component of the rollup node: block references
  (op-node/eth/id.go), the rollup configuration (op-node/rollup/types.go) and the
  execution payload and payload attributes (op-node/l2/api.go).
 */
module Types {

  const TWO_32: int := 0x1_0000_0000
  const TWO_64: int := 0x1_0000_0000_0000_0000
  const TWO_160: int := 0x1_00000000_00000000_00000000_00000000_00000000
  const TWO_256: int := 0x1_00000000_00000000_00000000_00000000_00000000_00000000_00000000_00000000

  type byte = b: int | 0 <= b < 256
  type uint32 = x: int | 0 <= x < TWO_32
  type uint64 = x: int | 0 <= x < TWO_64
  type uint256 = x: int | 0 <= x < TWO_256
  type Bytes = seq<byte>

  /** A 32-byte hash, read as a big-endian number; the zero hash is 0. */
  type Hash = uint256

  /** A 20-byte address, read as a big-endian number. */
  type Address = a: int | 0 <= a < TWO_160

  datatype Option<+T> = None | Some(value: T)

  datatype Result<+T, +E> = Ok(value: T) | Err(error: E)

  datatype BlockID = BlockID(hash: Hash, number: nat)

  /** types.DepositTxType: the first byte of every deposit transaction. */
  const DEPOSIT_TX_TYPE: byte := 0x7E

  predicate IsDeposit(tx: Bytes) {
    tx != [] && tx[0] == DEPOSIT_TX_TYPE
  }

  /** A transaction that a sequencer may put in a batch. */
  predicate IsSequenced(tx: Bytes) {
    tx != [] && tx[0] != DEPOSIT_TX_TYPE
  }

  datatype Genesis = Genesis(l1: BlockID, l2: BlockID, l2Time: nat)

  datatype Config = Config(
    genesis: Genesis,
    blockTime: nat,
    maxSequencerDrift: nat,
    seqWindowSize: nat,
    feeRecipient: Address,
    batchInbox: Address,
    batchSender: Address,
    depositContract: Address)
  {
    /** The checks of rollup.Config.Check that the protocol relies on. */
    predicate Check() {
      && blockTime != 0
      && seqWindowSize >= 2
      && genesis.l1.hash != 0
      && genesis.l2.hash != 0
    }
  }

  /** A deposit event body after ABI decoding; None when the log data is malformed. */
  datatype DepositBody = DepositBody(from: Address, to: Option<Address>, mint: uint256, value: uint256, gas: uint64,
    data: Bytes)

  datatype Log = Log(
    address: Address,
    isDepositEvent: bool,
    body: Option<DepositBody>,
    index: nat,
    txIndex: nat,
    blockHash: Hash,
    blockNumber: nat,
    txHash: Hash,
    removed: bool)

  datatype Receipt = Receipt(successful: bool, txIndex: nat, blockNumber: nat, blockHash: Hash, logs: seq<Log>)

  /** An L1 transaction: receiver, sender recovered from the signature (None when it is bad), calldata. */
  datatype L1Tx = L1Tx(hash: Hash, to: Option<Address>, sender: Option<Address>, data: Bytes)

  datatype L1Block = L1Block(
    hash: Hash,
    parentHash: Hash,
    number: uint64,
    time: uint64,
    mixDigest: Hash,
    baseFee: uint256,
    txs: seq<L1Tx>,
    receipts: seq<Receipt>)
  {
    function ID(): BlockID {
      BlockID(hash, number)
    }
  }

  /** eth.L2BlockRef */
  datatype L2Ref = L2Ref(hash: Hash, number: nat, parentHash: Hash, time: nat, l1Origin: BlockID, sequenceNumber: nat)
  {
    function ID(): BlockID {
      BlockID(hash, number)
    }
  }

  /** The value an L2BlockRef has in Go before it is assigned. */
  const ZERO_REF: L2Ref := L2Ref(0, 0, 0, 0, BlockID(0, 0), 0)

  /** The fields of l2.ExecutionPayload that derivation reads. */
  datatype Payload = Payload(
    hash: Hash,
    parentHash: Hash,
    number: nat,
    timestamp: nat,
    prevRandao: Hash,
    feeRecipient: Address,
    txs: seq<Bytes>)

  datatype Attributes = Attributes(
    timestamp: nat,
    prevRandao: Hash,
    feeRecipient: Address,
    txs: seq<Bytes>,
    noTxPool: bool)

  /** derive.BatchData */
  datatype Batch = Batch(epoch: nat, timestamp: nat, txs: seq<Bytes>)
}
