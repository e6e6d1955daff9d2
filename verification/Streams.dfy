/** Forwarding of bytes: command output, stored artifacts, and artifacts read while they are written. */
module Streams {
  import opened Common

  type Bytes = seq<bv8>

  const BUF_SIZE := 1024 * 1024

  ghost predicate IsPrefix(a: Bytes, b: Bytes) {
    |a| <= |b| && a == b[..|a|]
  }

  lemma PrefixExtends(a: Bytes, b: Bytes, c: Bytes)
    requires IsPrefix(a, b)
    ensures IsPrefix(a, b + c)
  {
  }

  /** Something to read: what is left of it comes in pieces of any size, or not at all. */
  class Source {
    var rest: Bytes

    constructor (bytes: Bytes)
      ensures rest == bytes
    {
      rest := bytes;
    }

    /** Zero bytes are read only at the end. */
    method Read(limit: nat) returns (res: Result<Bytes>)
      requires limit > 0
      modifies this
      ensures res.Ok? ==> |res.value| <= limit && old(rest) == res.value + rest && (res.value == [] ==> rest == [])
      ensures res.Err? ==> rest == old(rest)
    {
      var fails: bool := *;
      if fails {
        return Err("read");
      }
      if rest == [] {
        return Ok([]);
      }
      var n: nat :| 0 < n <= limit && n <= |rest|;
      res := Ok(rest[..n]);
      rest := rest[n..];
    }
  }

  /**
   Something to write to.  Most take as much of a buffer as they like, and once broken stay broken; a
   steady one, as `VecSink` is, takes all it is given and does not break.
   */
  class Sink {
    const steady: bool
    var body: Bytes
    var broken: bool

    constructor (steady: bool)
      ensures body == [] && !broken && this.steady == steady
    {
      this.steady := steady;
      body, broken := [], false;
    }

    method Write(buf: Bytes) returns (res: Result<nat>)
      modifies this
      ensures old(broken) ==> res.Err?
      ensures res.Err? ==> broken && body == old(body)
      ensures res.Ok? ==> !broken && res.value <= |buf| && body == old(body) + buf[..res.value]
      ensures res.Ok? && buf != [] ==> res.value > 0
      ensures steady && !old(broken) ==> res == Ok(|buf|)
    {
      var fails: bool := *;
      if broken || (fails && !steady) {
        broken := true;
        return Err("write");
      }
      if buf == [] || steady {
        body := body + buf;
        return Ok(|buf|);
      }
      var n: nat :| 0 < n <= |buf|;
      body := body + buf[..n];
      return Ok(n);
    }

    /** Err leaves part of the buffer written, but not all of it. */
    method WriteAll(buf: Bytes) returns (res: Result<()>)
      modifies this
      ensures res.Ok? ==> body == old(body) + buf && broken == old(broken)
      ensures res.Err? ==> broken && exists n :: 0 <= n < |buf| && body == old(body) + buf[..n]
      ensures old(broken) && buf != [] ==> res.Err? && body == old(body)
      ensures steady && !old(broken) ==> res.Ok?
    {
      var n := 0;
      while n < |buf|
        invariant n <= |buf| && body == old(body) + buf[..n]
        invariant broken == old(broken) && (n > 0 ==> !broken)
      {
        var wrote := Write(buf[n..]);
        if wrote.Err? {
          return Err(wrote.reason);
        }
        assert buf[..n] + buf[n..][..wrote.value] == buf[..n + wrote.value];
        n := n + wrote.value;
      }
      return Ok(());
    }

    /** `take_buf`: all that was written since it was last taken. */
    method TakeBuf() returns (buf: Bytes)
      modifies this
      ensures buf == old(body) && body == [] && broken == old(broken)
    {
      buf := body;
      body := [];
    }
  }

  /**
   `forward_data`: Ok means that every byte got across; an error, that some of the first ones did.  Into a
   steady sink nothing that was read is lost.
   */
  method ForwardData(source: Source, dest: Sink) returns (res: Result<()>)
    modifies source, dest
    ensures res.Ok? ==> source.rest == [] && dest.body == old(dest.body) + old(source.rest) && dest.broken == old(dest.broken)
    ensures IsPrefix(dest.body, old(dest.body) + old(source.rest)) && IsPrefix(old(dest.body), dest.body)
    ensures old(dest.broken) ==> dest.body == old(dest.body)
    ensures dest.steady && !old(dest.broken) ==> dest.body + source.rest == old(dest.body) + old(source.rest)
  {
    ghost var moved: Bytes := [];
    while true
      invariant old(source.rest) == moved + source.rest && dest.body == old(dest.body) + moved
      invariant dest.broken == old(dest.broken) && (moved != [] ==> !dest.broken)
      decreases |source.rest|
    {
      var read := source.Read(BUF_SIZE);
      if read.Err? {
        Reassociate(old(dest.body), moved, source.rest);
        return Err("failed to read: " + read.reason);
      }
      if read.value == [] {
        assert moved + [] == moved;
        return Ok(());
      }
      ghost var before := dest.body;
      var wrote := dest.WriteAll(read.value);
      Reassociate(moved, read.value, source.rest);
      if wrote.Err? {
        ghost var n :| 0 <= n < |read.value| && dest.body == before + read.value[..n];
        Partial(old(dest.body), moved, read.value, source.rest, n);
        return Err("failed to write: " + wrote.reason);
      }
      Reassociate(old(dest.body), moved, read.value);
      moved := moved + read.value;
    }
  }

  lemma Partial(body: Bytes, moved: Bytes, read: Bytes, rest: Bytes, n: nat)
    requires n <= |read|
    ensures IsPrefix((body + moved) + read[..n], body + (moved + (read + rest)))
    ensures IsPrefix(body, (body + moved) + read[..n])
  {
    assert body + (moved + (read + rest)) == ((body + moved) + read[..n]) + (read[n..] + rest);
  }

  /** All the bytes of the chunks before the first that failed to arrive. */
  function Arrived(chunks: seq<Result<Bytes>>): Bytes {
    if chunks == [] || chunks[0].Err? then [] else chunks[0].value + Arrived(chunks[1..])
  }

  lemma {:induction false} ArrivedUpTo(chunks: seq<Result<Bytes>>, i: nat)
    requires i < |chunks| && forall k :: 0 <= k <= i ==> chunks[k].Ok?
    ensures Arrived(chunks[..i + 1]) == Arrived(chunks[..i]) + chunks[i].value
  {
    if i == 0 {
      assert chunks[..1] == [chunks[0]];
      assert Arrived(chunks[..1]) == chunks[0].value + Arrived([]);
    } else {
      assert chunks[..i + 1][1..] == chunks[1..][..i] && chunks[..i][1..] == chunks[1..][..i - 1];
      ArrivedUpTo(chunks[1..], i - 1);
      Reassociate(chunks[0].value, Arrived(chunks[1..][..i - 1]), chunks[i].value);
    }
  }

  /** Later chunks only add. */
  lemma {:induction false} ArrivedPrefix(chunks: seq<Result<Bytes>>, i: nat)
    requires i <= |chunks| && forall k :: 0 <= k < i ==> chunks[k].Ok?
    ensures Arrived(chunks) == Arrived(chunks[..i]) + Arrived(chunks[i..])
  {
    if i == 0 {
      assert chunks[0..] == chunks;
    } else {
      assert chunks[..i][1..] == chunks[1..][..i - 1] && chunks[1..][i - 1..] == chunks[i..];
      ArrivedPrefix(chunks[1..], i - 1);
      Reassociate(chunks[0].value, Arrived(chunks[1..][..i - 1]), Arrived(chunks[i..]));
    }
  }

  /** `ArtifactDescriptor::store_all`: Ok means that the whole body arrived and is in the file. */
  method StoreAll(chunks: seq<Result<Bytes>>, file: Sink) returns (res: Result<()>)
    modifies file
    ensures res.Ok? ==> (forall k :: 0 <= k < |chunks| ==> chunks[k].Ok?) && file.body == old(file.body) + Arrived(chunks)
    ensures IsPrefix(file.body, old(file.body) + Arrived(chunks)) && IsPrefix(old(file.body), file.body)
    ensures !file.broken && res.Err? ==> (exists k :: 0 <= k < |chunks| && chunks[k].Err?) && file.body == old(file.body) + Arrived(chunks)
  {
    for i := 0 to |chunks|
      invariant forall k :: 0 <= k < i ==> chunks[k].Ok?
      invariant file.body == old(file.body) + Arrived(chunks[..i])
    {
      ArrivedPrefix(chunks, i);
      if chunks[i].Err? {
        assert Arrived(chunks[i..]) == [];
        return Err("error reading: " + chunks[i].reason);
      }
      assert Arrived(chunks[i..]) == chunks[i].value + Arrived(chunks[i..][1..]);
      ghost var before := file.body;
      var wrote := file.WriteAll(chunks[i].value);
      if wrote.Err? {
        ghost var n :| 0 <= n < |chunks[i].value| && file.body == before + chunks[i].value[..n];
        Partial(old(file.body), Arrived(chunks[..i]), chunks[i].value, Arrived(chunks[i..][1..]), n);
        return Err("failed to write: " + wrote.reason);
      }
      ArrivedUpTo(chunks, i);
      Reassociate(old(file.body), Arrived(chunks[..i]), chunks[i].value);
    }
    assert chunks[..|chunks|] == chunks;
    return Ok(());
  }

  /**
   A command's output collected in memory and then taken: whatever the sizes of the pieces, what was taken
   and what was not yet read are all there was, so that a reading that succeeds has captured it all.
   */
  method CaptureOutput(output: Source) returns (res: Result<()>, captured: Bytes)
    modifies output
    ensures captured + output.rest == old(output.rest)
    ensures res.Ok? ==> captured == old(output.rest)
  {
    var collector := new Sink(true);
    res := ForwardData(output, collector);
    captured := collector.TakeBuf();
  }
}
