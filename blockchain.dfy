/**
 * The forensic ledger: fraud logs queue up as pending and are sealed, ten at
 * a time or on demand, into blocks that each carry the hash of the block
 * before them.
 */
module Blockchain {

  const BatchSize: nat := 10

  /** A fraud log as the security controller builds it */
  datatype FraudLog = FraudLog(txId: string, accountId: string, amount: real, confirmed: bool)

  datatype Block = Block(index: nat, logs: seq<FraudLog>, previousHash: string, hash: string)

  /** How a block computes its own hash from its index, its logs and the previous hash */
  type HashFunction = (nat, seq<FraudLog>, string) -> string

  function NewBlock(h: HashFunction, index: nat, logs: seq<FraudLog>, previousHash: string): Block {
    Block(index, logs, previousHash, h(index, logs, previousHash))
  }

  function Genesis(h: HashFunction): Block {
    NewBlock(h, 0, [], "0")
  }

  /** The logs of all blocks, block by block, each block's in arrival order */
  function AllLogs(chain: seq<Block>): seq<FraudLog>
  {
    if chain == [] then [] else AllLogs(chain[..|chain| - 1]) + chain[|chain| - 1].logs
  }

  /** Sum of the blocks' log counts */
  function LogCount(chain: seq<Block>): nat
  {
    if chain == [] then 0 else |chain[0].logs| + LogCount(chain[1..])
  }

  /**
   * The genesis block first; block i at position i, hashed over its own
   * contents and linked to block i - 1; every later block holds between 1
   * and BatchSize logs.
   */
  ghost predicate WellFormed(chain: seq<Block>, h: HashFunction) {
    && |chain| >= 1
    && chain[0] == Genesis(h)
    && (forall i :: 0 <= i < |chain| ==>
          chain[i].index == i && chain[i].hash == h(i, chain[i].logs, chain[i].previousHash))
    && (forall i :: 0 < i < |chain| ==>
          chain[i].previousHash == chain[i - 1].hash && 1 <= |chain[i].logs| <= BatchSize)
  }

  /** createBlock on values: a new block at index |chain| over the logs, linked to the last block */
  function Seal(chain: seq<Block>, logs: seq<FraudLog>, h: HashFunction): seq<Block>
    requires chain != []
  {
    chain + [NewBlock(h, |chain|, logs, chain[|chain| - 1].hash)]
  }

  /**
   * Sealing keeps the chain well formed, leaves every existing block as it
   * was, and appends exactly the sealed logs to the chain's log sequence.
   */
  lemma SealPreserves(chain: seq<Block>, logs: seq<FraudLog>, h: HashFunction)
    requires WellFormed(chain, h)
    requires 1 <= |logs| <= BatchSize
    ensures WellFormed(Seal(chain, logs, h), h)
    ensures |Seal(chain, logs, h)| == |chain| + 1
    ensures Seal(chain, logs, h)[..|chain|] == chain
    ensures AllLogs(Seal(chain, logs, h)) == AllLogs(chain) + logs
    ensures var b := Seal(chain, logs, h)[|chain|];
      b.index == |chain| && b.logs == logs && b.previousHash == chain[|chain| - 1].hash
  {
    var c := Seal(chain, logs, h);
    assert c[..|c| - 1] == chain;
  }

  /** The per-block count the security controller reports sums to the length of all logs */
  lemma {:induction false} LogCountIsAllLogs(chain: seq<Block>)
    ensures LogCount(chain) == |AllLogs(chain)|
  {
    if chain != [] {
      LogCountIsAllLogs(chain[1..]);
      AllLogsCons(chain);
    }
  }

  lemma {:induction false} AllLogsCons(chain: seq<Block>)
    requires chain != []
    ensures AllLogs(chain) == chain[0].logs + AllLogs(chain[1..])
  {
    if |chain| > 1 {
      var init := chain[..|chain| - 1];
      AllLogsCons(init);
      assert init[1..] == chain[1..][..|chain[1..]| - 1];
    } else {
      assert chain[..0] == [];
    }
  }

  class Blockchain {
    var chain: seq<Block>
    var pendingLogs: seq<FraudLog>
    const hash: HashFunction
    /** Every log ever passed to AddLog, in arrival order */
    ghost var added: seq<FraudLog>

    /**
     * The chain is well formed, fewer than BatchSize logs are pending, and
     * no log is lost or duplicated: the sealed logs followed by the pending
     * ones are exactly the logs added.
     */
    ghost predicate Valid()
      reads this
    {
      && WellFormed(chain, hash)
      && |pendingLogs| < BatchSize
      && AllLogs(chain) + pendingLogs == added
    }

    /** A chain holding only the genesis block: index 0, no logs, previous hash "0" */
    constructor (hash: HashFunction)
      ensures Valid()
      ensures this.hash == hash
      ensures chain == [Genesis(hash)] && pendingLogs == [] && added == []
    {
      this.hash := hash;
      chain := [Genesis(hash)];
      pendingLogs := [];
      added := [];
      new;
      assert AllLogs(chain) == AllLogs([]) + Genesis(hash).logs;
    }

    /**
     * Queues the log; the tenth pending log seals all ten into a new block
     * and empties the queue.
     */
    method AddLog(log: FraudLog)
      requires Valid()
      modifies this
      ensures Valid()
      ensures added == old(added) + [log]
      ensures |old(pendingLogs)| + 1 == BatchSize ==>
        chain == Seal(old(chain), old(pendingLogs) + [log], hash) && pendingLogs == []
      ensures |old(pendingLogs)| + 1 < BatchSize ==>
        chain == old(chain) && pendingLogs == old(pendingLogs) + [log]
      ensures old(chain) <= chain
    {
      pendingLogs := pendingLogs + [log];
      added := added + [log];
      if |pendingLogs| >= BatchSize {
        CreateBlock();
      }
    }

    /** Seals a copy of the pending logs into a block linked to the last one and clears pending */
    method CreateBlock()
      requires WellFormed(chain, hash)
      requires 1 <= |pendingLogs| <= BatchSize
      requires AllLogs(chain) + pendingLogs == added
      modifies this`chain, this`pendingLogs
      ensures Valid()
      ensures chain == Seal(old(chain), old(pendingLogs), hash)
      ensures pendingLogs == []
    {
      SealPreserves(chain, pendingLogs, hash);
      var prev := chain[|chain| - 1];
      var newBlock := NewBlock(hash, |chain|, pendingLogs, prev.hash);
      chain := chain + [newBlock];
      pendingLogs := [];
    }

    /** With nothing pending nothing changes; otherwise all pending logs are sealed into one block */
    method ForceBlock()
      requires Valid()
      modifies this
      ensures Valid()
      ensures added == old(added)
      ensures old(pendingLogs) == [] ==> chain == old(chain) && pendingLogs == []
      ensures old(pendingLogs) != [] ==>
        chain == Seal(old(chain), old(pendingLogs), hash) && pendingLogs == []
    {
      if |pendingLogs| > 0 {
        CreateBlock();
      }
    }

    method GetPendingCount() returns (n: nat)
      requires Valid()
      ensures n == |pendingLogs| && n < BatchSize
    {
      n := |pendingLogs|;
    }
  }

  /** Conservation as counts: logs over all blocks plus pending logs equal logs ever added */
  lemma Conservation(b: Blockchain)
    requires b.Valid()
    ensures LogCount(b.chain) + |b.pendingLogs| == |b.added|
  {
    LogCountIsAllLogs(b.chain);
  }
}
