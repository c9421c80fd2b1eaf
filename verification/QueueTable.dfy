/** The driver's flat queue array: three queues per CPU, grouped by purpose
    (code/drivers/fastswap_rdma.c). */
module QueueTable {

  datatype QpType = ReadSync | ReadAsync | WriteSync

  /** sswap_rdma_get_queue: the index handed to a CPU for one purpose. */
  function QueueIndex(numcpus: nat, cpu: nat, kind: QpType): nat
  {
    match kind
    case ReadSync => cpu
    case ReadAsync => cpu + numcpus
    case WriteSync => cpu + numcpus * 2
  }

  /** get_queue_type: recovers the purpose from an index below 3 * numcpus (BUG() otherwise). */
  function QueueType(numcpus: nat, idx: nat): QpType
    requires idx < 3 * numcpus
  {
    if idx < numcpus then ReadSync
    else if idx < numcpus * 2 then ReadAsync
    else WriteSync
  }

  /** The CPU that owns an index: what is left once the purpose's block is taken off. */
  function QueueCpu(numcpus: nat, idx: nat): int
    requires idx < 3 * numcpus
  {
    match QueueType(numcpus, idx)
    case ReadSync => idx
    case ReadAsync => idx - numcpus
    case WriteSync => idx - numcpus * 2
  }

  /** (cpu, type) -> index is a bijection onto 0..3*numcpus, inverted by QueueType and QueueCpu.
      The sync reads have the first third of the table, the async reads the second, the writes the
      last, each in the order of the CPUs. */
  lemma QueueIndexIsBijection(numcpus: nat)
    ensures forall cpu | 0 <= cpu < numcpus ::
      && QueueIndex(numcpus, cpu, ReadSync) == cpu
      && QueueIndex(numcpus, cpu, ReadAsync) == numcpus + cpu
      && QueueIndex(numcpus, cpu, WriteSync) == 2 * numcpus + cpu
    ensures forall cpu, kind | 0 <= cpu < numcpus ::
      && QueueIndex(numcpus, cpu, kind) < 3 * numcpus
      && QueueType(numcpus, QueueIndex(numcpus, cpu, kind)) == kind
      && QueueCpu(numcpus, QueueIndex(numcpus, cpu, kind)) == cpu
    ensures forall idx | 0 <= idx < 3 * numcpus ::
      && 0 <= QueueCpu(numcpus, idx) < numcpus
      && QueueIndex(numcpus, QueueCpu(numcpus, idx), QueueType(numcpus, idx)) == idx
  {
    forall cpu, kind | 0 <= cpu < numcpus
      ensures QueueIndex(numcpus, cpu, kind) < 3 * numcpus
      ensures QueueType(numcpus, QueueIndex(numcpus, cpu, kind)) == kind
      ensures QueueCpu(numcpus, QueueIndex(numcpus, cpu, kind)) == cpu
    {
      match kind
      case ReadSync =>
      case ReadAsync =>
      case WriteSync =>
    }
  }
}
