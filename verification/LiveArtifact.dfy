/**
 An artifact sent to a browser while the driver still stores it.  The reader forwards the file up to its
 current end, naps, and looks whether the artifact is complete; the writer appends at any time until it
 marks it so.
 */
module LiveArtifact {
  import opened Streams

  datatype At = Forwarding | Holding(chunk: Bytes) | Napping | Done

  /**
   `pos` is the reader's offset in the file, `sent` what the browser's pipe took, and `seen` how long the
   file was when the reader last found its end.
   */
  datatype State = State(file: Bytes, complete: bool, at: At, pos: nat, sent: Bytes, broken: bool, seen: nat)

  datatype Step =
    | Append(bytes: Bytes)
    | Finalize
    | ReadFails
    | Read(n: nat)
    | Write(n: nat)
    | WriteFails
    | LookUp

  /** The reader is only started for an artifact that is not complete. */
  ghost predicate Init(s: State) {
    !s.complete && s.at == Forwarding && s.pos == 0 && s.sent == [] && !s.broken && s.seen == 0
  }

  predicate Enabled(s: State, st: Step) {
    match st
    case Append(_) => !s.complete
    case Finalize => !s.complete
    case ReadFails => s.at == Forwarding
    case Read(n) => s.at == Forwarding && s.pos + n <= |s.file| && (n == 0 ==> s.pos == |s.file|)
    case Write(n) => s.at.Holding? && !s.broken && 0 < n <= |s.at.chunk|
    case WriteFails => s.at.Holding?
    case LookUp => s.at == Napping
  }

  function Apply(s: State, st: Step): State
    requires Enabled(s, st)
  {
    match st
    case Append(bytes) => s.(file := s.file + bytes)
    case Finalize => s.(complete := true)
    // an error is printed and the loop begins again at once
    case ReadFails => s
    case Read(n) =>
      if n == 0 then s.(at := Napping, seen := |s.file|)
      else s.(at := Holding(s.file[s.pos..s.pos + n]), pos := s.pos + n)
    case Write(n) =>
      s.(sent := s.sent + s.at.chunk[..n], at := if n == |s.at.chunk| then Forwarding else Holding(s.at.chunk[n..]))
    // what was read and not written is lost
    case WriteFails => s.(broken := true, at := Forwarding)
    case LookUp => s.(at := if s.complete then Done else Forwarding)
  }

  ghost predicate Behaviour(trace: seq<State>, steps: seq<Step>) {
    && |trace| == |steps| + 1 && Init(trace[0])
    && forall i :: 0 <= i < |steps| ==> StepAt(trace, steps, i)
  }

  ghost predicate StepAt(trace: seq<State>, steps: seq<Step>, i: nat)
    requires i < |steps| && |trace| == |steps| + 1
  {
    Enabled(trace[i], steps[i]) && trace[i + 1] == Apply(trace[i], steps[i])
  }

  /** What is read and not yet written. */
  function Held(at: At): Bytes {
    if at.Holding? then at.chunk else []
  }

  /** The file up to the reader's offset is what was sent and what is held; a broken pipe lost something. */
  ghost predicate Inv(s: State) {
    && s.seen <= s.pos <= |s.file|
    && (s.at.Holding? ==> s.at.chunk != [])
    && IsPrefix(s.sent, s.file)
    && (if s.broken then |s.sent| < s.pos else s.sent + Held(s.at) == s.file[..s.pos])
    && (s.at.Napping? || s.at.Done? ==> s.pos == s.seen)
    && (s.at.Done? ==> s.complete)
  }

  lemma StepKeepsInv(s: State, st: Step)
    requires Inv(s) && Enabled(s, st)
    ensures Inv(Apply(s, st))
  {
    match st
    case Append(bytes) =>
      PrefixExtends(s.sent, s.file, bytes);
      assert (s.file + bytes)[..s.pos] == s.file[..s.pos];
    case Read(n) =>
      if n > 0 && !s.broken {
        assert s.sent == s.file[..s.pos];
        assert s.file[..s.pos + n] == s.file[..s.pos] + s.file[s.pos..s.pos + n];
      }
    case Write(n) => WritePart(s.file, s.pos, s.sent, s.at.chunk, n);
    case WriteFails =>
      if !s.broken {
        assert |s.sent| + |s.at.chunk| == s.pos;
      }
    case _ =>
  }

  lemma WritePart(file: Bytes, pos: nat, sent: Bytes, chunk: Bytes, n: nat)
    requires pos <= |file| && sent + chunk == file[..pos] && n <= |chunk|
    ensures (sent + chunk[..n]) + chunk[n..] == file[..pos]
    ensures n == |chunk| ==> (sent + chunk[..n]) + [] == file[..pos]
    ensures IsPrefix(sent + chunk[..n], file)
  {
    assert (sent + chunk[..n]) + chunk[n..] == sent + chunk;
    assert sent + chunk[..n] == file[..pos][..|sent| + n];
  }

  lemma {:induction false} InvAlways(trace: seq<State>, steps: seq<Step>, i: nat)
    requires Behaviour(trace, steps) && i <= |steps|
    ensures Inv(trace[i])
  {
    if i > 0 {
      InvAlways(trace, steps, i - 1);
      assert StepAt(trace, steps, i - 1);
      StepKeepsInv(trace[i - 1], steps[i - 1]);
    }
  }

  /** Does step `i` find the end of the file? */
  predicate FindsEnd(steps: seq<Step>, i: nat)
    requires i < |steps|
  {
    steps[i] == Read(0)
  }

  /** Whatever happens, the browser has the first bytes of the file, in order and without gaps. */
  lemma OutputIsAPrefix(trace: seq<State>, steps: seq<Step>, i: nat)
    requires Behaviour(trace, steps) && i <= |steps|
    ensures IsPrefix(trace[i].sent, trace[i].file)
  {
    InvAlways(trace, steps, i);
  }

  /** Was anything appended from the last time that the reader found the end of the file? */
  ghost predicate AppendedAfterEnd(steps: seq<Step>, n: nat)
    requires n <= |steps|
  {
    exists i :: 0 <= i < n && AppendsAt(steps, i) && forall k :: i < k < n ==> !FindsEnd(steps, k)
  }

  predicate AppendsAt(steps: seq<Step>, i: nat)
    requires i < |steps|
  {
    steps[i].Append? && steps[i].bytes != []
  }

  lemma {:induction false} SeenIsTheEnd(trace: seq<State>, steps: seq<Step>, n: nat)
    requires Behaviour(trace, steps) && n <= |steps|
    requires exists k :: 0 <= k < n && FindsEnd(steps, k)
    ensures trace[n].seen <= |trace[n].file| && (|trace[n].file| > trace[n].seen <==> AppendedAfterEnd(steps, n))
  {
    var last := n - 1;
    assert StepAt(trace, steps, last);
    InvAlways(trace, steps, n);
    if FindsEnd(steps, last) {
      assert trace[n].seen == |trace[n].file|;
    } else {
      SeenIsTheEnd(trace, steps, last);
      if AppendedAfterEnd(steps, last) {
        var i :| 0 <= i < last && AppendsAt(steps, i) && forall k :: i < k < last ==> !FindsEnd(steps, k);
        assert forall k :: i < k < n ==> !FindsEnd(steps, k);
      }
      if AppendsAt(steps, last) {
        assert AppendedAfterEnd(steps, n);
      }
    }
  }

  /** Until the end is found for the first time the reader has not napped. */
  lemma {:induction false} NapsOnlyAtTheEnd(trace: seq<State>, steps: seq<Step>, n: nat)
    requires Behaviour(trace, steps) && n <= |steps| && (trace[n].at.Napping? || trace[n].at.Done?)
    ensures exists k :: 0 <= k < n && FindsEnd(steps, k)
  {
    assert StepAt(trace, steps, n - 1);
    if !FindsEnd(steps, n - 1) {
      NapsOnlyAtTheEnd(trace, steps, n - 1);
    }
  }

  /**
   When the reader stops, the browser has the whole file exactly if its pipe held and nothing was appended
   after the reader last found the end.
   */
  lemma CompleteExactly(trace: seq<State>, steps: seq<Step>, n: nat)
    requires Behaviour(trace, steps) && n <= |steps| && trace[n].at.Done?
    ensures trace[n].complete
    ensures trace[n].sent == trace[n].file <==> !trace[n].broken && !AppendedAfterEnd(steps, n)
  {
    InvAlways(trace, steps, n);
    NapsOnlyAtTheEnd(trace, steps, n);
    SeenIsTheEnd(trace, steps, n);
    var s := trace[n];
    if !s.broken {
      assert s.sent + [] == s.sent;
      assert |s.sent| == s.seen;
    }
  }

  /** How much the reader still has to do once nothing more is appended. */
  function Remaining(s: State): int {
    2 * (|s.file| - s.pos) + |Held(s.at)| + (match s.at case Done => 0 case Napping => 1 case _ => 2)
  }

  /** Once the artifact is complete the reader goes on to its end: it has a step, and each but a failed read brings it closer. */
  lemma ReaderFinishes(s: State, st: Step)
    requires Inv(s) && s.complete && !s.at.Done?
    ensures Enabled(s, match s.at case Forwarding => Read(if s.pos < |s.file| then 1 else 0) case Holding(_) => WriteFails case _ => LookUp)
    ensures Remaining(s) > 0
    ensures Enabled(s, st) && !st.ReadFails? ==>
              Apply(s, st).complete && Remaining(Apply(s, st)) < Remaining(s) && (Remaining(Apply(s, st)) == 0 ==> Apply(s, st).at.Done?)
  {
  }

  /** A last append during the nap is missed, although the pipe held. */
  lemma LastAppendCanBeMissed(bytes: Bytes) returns (trace: seq<State>, steps: seq<Step>)
    requires bytes != []
    ensures Behaviour(trace, steps)
    ensures var s := trace[|steps|]; s.at.Done? && !s.broken && s.sent == [] && s.file == bytes
  {
    steps := [Read(0), Append(bytes), Finalize, LookUp];
    var s0 := State([], false, Forwarding, 0, [], false, 0);
    var s1 := Apply(s0, steps[0]);
    var s2 := Apply(s1, steps[1]);
    var s3 := Apply(s2, steps[2]);
    var s4 := Apply(s3, steps[3]);
    trace := [s0, s1, s2, s3, s4];
    assert s2.file == bytes;
  }
}
