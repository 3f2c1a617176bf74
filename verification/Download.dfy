/** The copier of a download (backend/dfs/client/master_client.go): reads of any size from the storage
    connection, each written on, counted and hashed, up to the announced size. */
module Download {
  import opened Basics
  import opened Uuids
  import opened StreamFrames

  const BUFFER_SIZE := 4 * 1024 * 1024

  datatype ReadEnd = More | Eof | ReadError

  /** How the network answers a read: it has at most `n` bytes ready, and may report its end with them. */
  datatype ReadStep = ReadStep(n: nat, end: ReadEnd)

  /** How the destination takes a write: all of it, or at most `n` bytes, with or without an error. */
  datatype WriteStep = All | Short(n: nat) | Failed(n: nat)

  function Taken(data: seq<byte>, w: WriteStep): seq<byte> {
    if w.All? then data else data[..Min(w.n, |data|)]
  }

  predicate TakesAll(n: nat, w: WriteStep) {
    w.All? || (w.Short? && n <= w.n)
  }

  // ----- what the answers amount to -----

  /** All that answers a copy: `network` to the reads, `sink` to the writes, for `total` announced bytes of a
      stream of `avail`. */
  datatype Feed = Feed(network: seq<ReadStep>, sink: nat -> WriteStep, total: int, avail: nat)
  {
    /** What an answer brings once `sofar` bytes are in. */
    function Brings(step: ReadStep, sofar: nat): nat {
      Min(Min(step.n, Min(BUFFER_SIZE, Max(total - sofar, 0))), Max(avail - sofar, 0))
    }

    /** The bytes that the first `k` answers bring. */
    function Progress(k: nat): nat
      requires k <= |network|
    {
      if k == 0 then 0 else Progress(k - 1) + Brings(network[k - 1], Progress(k - 1))
    }

    /** Bytes are missing before answer `k`, which is no error, and what it brings is written whole. */
    predicate Smooth(k: nat)
      requires k < |network|
    {
      && Progress(k) < total && network[k].end != ReadError
      && (Brings(network[k], Progress(k)) > 0 ==> TakesAll(Brings(network[k], Progress(k)), sink(k)))
    }

    /** After answer `k` the next one is asked for, if bytes are missing. */
    predicate Continues(k: nat)
      requires k < |network|
    {
      Smooth(k) && network[k].end == More
    }

    ghost predicate AskedFor(k: nat) {
      k <= |network| && forall j: nat | j < k :: Continues(j)
    }

    /** The announced bytes are in with the first `k` answers, all smooth, and none but the last of them may
        report the end of the stream. */
    ghost predicate AllIn(k: nat) {
      k <= |network| && Progress(k) == total && (k > 0 ==> AskedFor(k - 1) && Smooth(k - 1))
    }

    /** Once an answer is missing, not smooth, or the end too early, the bytes never come. */
    lemma Never(k: nat)
      requires AskedFor(k) && Progress(k) < total
      requires k < |network| && Smooth(k) ==> network[k].end == Eof && Progress(k + 1) != total
      ensures forall m :: !AllIn(m)
    {
      forall m
        ensures !AllIn(m)
      {
        NotAllIn(k, m);
      }
    }

    lemma NotAllIn(k: nat, m: nat)
      requires AskedFor(k) && Progress(k) < total
      requires k < |network| && Smooth(k) ==> network[k].end == Eof && Progress(k + 1) != total
      ensures !AllIn(m)
    {
      assert m < k ==> Continues(m);
      assert k < m - 1 && m <= |network| && AskedFor(m - 1) ==> Continues(k);
    }
  }

  datatype CopyResult = Done | WriteFault | ReadFault | Incomplete | HashMismatch

  class StreamCopier {
    const totalSize: int
    const expectedHash: string
    var written: nat
    /** What the hasher has been given. */
    var hashed: seq<byte>
    /** What the destination has taken. */
    var output: seq<byte>

    constructor (totalSize: int, expectedHash: string)
      ensures this.totalSize == totalSize && this.expectedHash == expectedHash
      ensures written == 0 && hashed == [] && output == []
    {
      this.totalSize, this.expectedHash := totalSize, expectedHash;
      written, hashed, output := 0, [], [];
    }

    /** `incoming` is the whole stream after the header. */
    ghost predicate Valid(incoming: seq<byte>)
      reads this
    {
      written <= |incoming| && written <= Max(totalSize, 0) && output == hashed == incoming[..written]
    }

    method ProcessChunk(data: seq<byte>, w: WriteStep) returns (ok: bool)
      modifies this
      ensures ok <==> !w.Failed? && Taken(data, w) == data
      ensures output == old(output) + Taken(data, w)
      ensures ok ==> written == old(written) + |data| && hashed == old(hashed) + data
      ensures !ok ==> written == old(written) && hashed == old(hashed)
    {
      output := output + Taken(data, w);
      if w.Failed? {
        return false;
      }
      if |Taken(data, w)| != |data| {
        return false;
      }
      hashed := hashed + data;
      written := written + |data|;
      return true;
    }

    /** One read, and what it brought written on. */
    method ReadOn(incoming: seq<byte>, step: ReadStep, w: WriteStep) returns (ok: bool, ghost n: nat)
      requires Valid(incoming) && written < totalSize
      modifies this
      ensures n == Min(Min(step.n, Min(BUFFER_SIZE, totalSize - old(written))), |incoming| - old(written))
      ensures ok <==> (n > 0 ==> TakesAll(n, w))
      ensures ok ==> Valid(incoming) && written == old(written) + n
      ensures output <= incoming && |output| <= totalSize
    {
      var toRead := Min(BUFFER_SIZE, totalSize - written);
      var data := incoming[written..written + Min(Min(step.n, toRead), |incoming| - written)];
      ok, n := true, |data|;
      if |data| > 0 {
        ReadMore(incoming, written, data);
        TakenAll(data, w);
        ok := ProcessChunk(data, w);
      }
    }

    /** `network` and `sink` are the answers to the reads and writes; a connection that never answers runs
        into its read deadline when `network` is used up. `steps` counts the answers taken. */
    method Copy(incoming: seq<byte>, network: seq<ReadStep>, sink: nat -> WriteStep,
                sha256: seq<byte> -> string, lower: string -> string) returns (r: CopyResult, ghost steps: nat)
      requires written == 0 && hashed == [] && output == []
      modifies this
      ensures output <= incoming && |output| <= Max(totalSize, 0)
      ensures r == Done || r == HashMismatch <==> exists k :: Feed(network, sink, totalSize, |incoming|).AllIn(k)
      ensures r == Done || r == HashMismatch ==>
                && 0 <= totalSize <= |incoming| && output == incoming[..totalSize]
                && (r == Done <==> lower(sha256(incoming[..totalSize])) == lower(expectedHash))
      ensures r == WriteFault ==> sink(steps) != All
      ensures r == ReadFault ==> steps < |network| ==> network[steps].end == ReadError
      ensures r == Incomplete && totalSize >= 0 ==> steps < |network| && network[steps].end == Eof
    {
      steps := 0;
      var k: nat := 0;
      ghost var f := Feed(network, sink, totalSize, |incoming|);
      while written < totalSize
        invariant Valid(incoming) && k == steps && f.AskedFor(k) && written == f.Progress(k)
        invariant written == totalSize ==> f.AllIn(k)
        decreases |network| - k
      {
        if k == |network| {
          f.Never(k);
          return ReadFault, steps;
        }
        var step := network[k];
        var ok; ghost var n;
        ok, n := ReadOn(incoming, step, sink(k));
        assert n == f.Brings(step, f.Progress(k));
        if !ok {
          f.Never(k);
          return WriteFault, steps;
        }
        if step.end == ReadError {
          f.Never(k);
          return ReadFault, steps;
        }
        assert f.Smooth(k) && written == f.Progress(k + 1);
        if step.end == Eof {
          if written == totalSize {
            assert f.AllIn(k + 1);
          } else {
            f.Never(k);
          }
          break;
        }
        assert f.Continues(k);
        k, steps := k + 1, steps + 1;
      }
      assert written == totalSize <==> exists m :: f.AllIn(m);
      if written != totalSize {
        return Incomplete, steps;
      }
      if lower(sha256(hashed)) != lower(expectedHash) {
        return HashMismatch, steps;
      }
      return Done, steps;
    }
  }

  lemma TakenAll(data: seq<byte>, w: WriteStep)
    ensures !w.Failed? && Taken(data, w) == data <==> TakesAll(|data|, w)
  {
  }

  /** What comes next on the stream, whole or in part, continues what was copied. */
  lemma ReadMore(incoming: seq<byte>, n: nat, data: seq<byte>)
    requires n + |data| <= |incoming| && data == incoming[n..n + |data|]
    ensures incoming[..n] + data == incoming[..n + |data|]
    ensures forall k | 0 <= k <= |data| :: incoming[..n] + data[..k] <= incoming
  {
  }
}
