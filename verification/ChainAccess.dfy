/** An abstract chain reader: every call may be answered differently, fail, or be the process's last.
    Answers are arbitrary functions of the moment of the call. */
module ChainAccess {
  import opened Wrappers
  import opened Domain
  import opened CommitLedger
  import opened JournalDatabase
  import opened RangeBatch
  import opened SteadyChain

  /** Killed stands for process death during the call; nobody handles it. */
  datatype ReadError = TransportUnavailable | BlockNotFound | RangeLimit | OtherRead(message: string) | Killed

  type Read<T> = Result<T, ReadError>

  class ChainReader {
    var clock: nat
    const blockAt: (nat, nat) -> Read<BlockHeader>
    const headAt: nat -> Read<BlockHeader>
    const finalizedAt: nat -> Read<BlockHeader>
    const logsAt: (nat, seq<BlockHeader>) -> Read<seq<OrderedEvent>>

    constructor (blockAt: (nat, nat) -> Read<BlockHeader>, headAt: nat -> Read<BlockHeader>,
                 finalizedAt: nat -> Read<BlockHeader>, logsAt: (nat, seq<BlockHeader>) -> Read<seq<OrderedEvent>>)
      ensures this.blockAt == blockAt && this.headAt == headAt && this.finalizedAt == finalizedAt && this.logsAt == logsAt
    {
      clock := 0;
      this.blockAt, this.headAt, this.finalizedAt, this.logsAt := blockAt, headAt, finalizedAt, logsAt;
    }

    /** getBlock(n) returns a block numbered n, a hash stands for one header, and fetched logs have distinct keys. */
    ghost predicate Sane(headerOf: Hash -> BlockHeader) {
      && (forall t, n :: blockAt(t, n).Success? ==>
            blockAt(t, n).value.number == n && headerOf(blockAt(t, n).value.hash) == blockAt(t, n).value)
      && (forall t, hs :: logsAt(t, hs).Success? ==> DistinctKeys(logsAt(t, hs).value))
    }

    /** Some answer between two moments was this header. */
    ghost predicate Reported(header: BlockHeader, lo: nat, hi: nat) {
      exists t :: lo <= t < hi && blockAt(t, header.number) == Success(header)
    }

    /** How a call at this moment is answered while the chain is steady and within reach. */
    ghost predicate AnswersAt(f: Chain, t: nat) {
      && headAt(t) == Success(f.block(f.head)) && finalizedAt(t) == Success(f.block(f.finalized))
      && (forall n: nat :: n <= f.head ==> blockAt(t, n) == Success(f.block(n)))
      && (forall headers: seq<BlockHeader> :: (forall h <- headers :: h.number <= f.head && f.block(h.number) == h) ==>
            logsAt(t, headers).Success? && LogsMatch(headers, logsAt(t, headers).value))
    }

    /** From a moment on every read is answered, and from one chain. */
    ghost predicate ResponsiveFrom(f: Chain, since: nat) {
      && f.finalized <= f.head && (forall n: nat :: LinkedAt(f, n))
      && (forall t :: t >= since ==> AnswersAt(f, t))
    }

    ghost predicate Responsive(f: Chain)
      reads this`clock
    {
      ResponsiveFrom(f, clock)
    }

    lemma StaysResponsive(f: Chain, lo: nat, hi: nat)
      requires lo <= hi
      ensures ResponsiveFrom(f, lo) ==> ResponsiveFrom(f, hi)
    {
      hide AnswersAt;
    }

    lemma SteadyAnswers(f: Chain, since: nat, t: nat, n: nat)
      requires t >= since
      ensures ResponsiveFrom(f, since) ==>
                && headAt(t) == Success(f.block(f.head)) && f.block(f.head).number == f.head
                && finalizedAt(t) == Success(f.block(f.finalized)) && f.block(f.finalized).number == f.finalized <= f.head
                && (n <= f.head ==> blockAt(t, n) == Success(f.block(n)) && f.block(n).number == n)
    {
      if ResponsiveFrom(f, since) {
        assert AnswersAt(f, t);
        hide AnswersAt, LogsMatch;
        assert LinkedAt(f, f.head) && LinkedAt(f, f.finalized) && LinkedAt(f, n);
      }
    }

    /** Reads may fail at any time, but what they answer is of one chain, up to its head. */
    ghost predicate Faithful(f: Chain) {
      && (forall n: nat :: LinkedAt(f, n))
      && (forall t: nat, n: nat :: blockAt(t, n).Success? ==> blockAt(t, n).value == f.block(n))
      && (forall t: nat :: headAt(t).Success? ==> headAt(t).value.number <= f.head)
      && (forall t: nat :: finalizedAt(t).Success? ==> finalizedAt(t).value.number <= f.finalized)
    }

    method GetBlock(n: nat) returns (r: Read<BlockHeader>)
      modifies this`clock
      ensures r == blockAt(old(clock), n) && clock == old(clock) + 1
    {
      r := blockAt(clock, n);
      clock := clock + 1;
    }

    method GetHead() returns (r: Read<BlockHeader>)
      modifies this`clock
      ensures r == headAt(old(clock)) && clock == old(clock) + 1
    {
      r := headAt(clock);
      clock := clock + 1;
    }

    method GetFinalizedHead() returns (r: Read<BlockHeader>)
      modifies this`clock
      ensures r == finalizedAt(old(clock)) && clock == old(clock) + 1
    {
      r := finalizedAt(clock);
      clock := clock + 1;
    }

    method GetEvents(headers: seq<BlockHeader>) returns (r: Read<seq<OrderedEvent>>)
      modifies this`clock
      ensures r == logsAt(old(clock), headers) && clock == old(clock) + 1
    {
      r := logsAt(clock, headers);
      clock := clock + 1;
    }
  }

  /** A block's logs are the same whenever they are fetched. */
  ghost predicate LogsFixed(chain: ChainReader, eventsOf: Hash -> seq<OrderedEvent>) {
    forall t: nat, headers: seq<BlockHeader>, h: BlockHeader :: chain.logsAt(t, headers).Success? && h in headers ==>
      AtHeight(SortEvents(chain.logsAt(t, headers).value), h.number) == eventsOf(h.hash)
  }
}
