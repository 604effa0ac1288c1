/**
 Writing a whole frame through a writer that may take only part of it.
 */
module StreamWriter {
  import opened Bytes

  /** How the stream answers one write: how much it takes at most, and its error, if any. */
  datatype Answer = Answer(takes: nat, err: Maybe<nat>)

  datatype WriteError = Fine | NoProgress | Broken(code: nat)

  /** The stream's writing side: what it took so far, and how it will answer the coming writes. */
  class Sink {
    var taken: ByteString
    var answers: nat -> Answer
    var calls: nat

    constructor (answers: nat -> Answer)
      ensures taken == [] && calls == 0 && this.answers == answers
    {
      taken, calls := [], 0;
      this.answers := answers;
    }

    method Write(p: ByteString) returns (n: nat, err: Maybe<nat>)
      modifies this
      ensures calls == old(calls) + 1 && answers == old(answers)
      ensures n == (if answers(old(calls)).takes < |p| then answers(old(calls)).takes else |p|)
      ensures err == answers(old(calls)).err && taken == old(taken) + p[..n]
    {
      var a := answers(calls);
      n := if a.takes < |p| then a.takes else |p|;
      err := a.err;
      taken := taken + p[..n];
      calls := calls + 1;
    }
  }

  /**
   The sink has a prefix of the frame, and every write but the last was taken without an error. Without an
   error at the last one either it has all of the frame, or the last write took nothing.
   */
  method WriteAll(w: Sink, frame: ByteString) returns (err: WriteError, written: nat)
    modifies w
    ensures written <= |frame| && w.taken == old(w.taken) + frame[..written] && w.answers == old(w.answers)
    ensures old(w.calls) <= w.calls && (w.calls == old(w.calls) <==> frame == [])
    ensures forall k :: old(w.calls) <= k < w.calls - 1 ==> w.answers(k).err.None? && w.answers(k).takes > 0
    ensures err == Fine ==> written == |frame| && (frame != [] ==> w.answers(w.calls - 1).err.None?)
    ensures err.Broken? <==> frame != [] && w.answers(w.calls - 1).err.Some?
    ensures err.Broken? ==> w.answers(w.calls - 1).err == Some(err.code)
    ensures err == NoProgress ==> written < |frame| && w.answers(w.calls - 1) == Answer(0, None)
  {
    written := 0;
    while written < |frame|
      invariant written <= |frame| && w.taken == old(w.taken) + frame[..written] && w.answers == old(w.answers)
      invariant old(w.calls) <= w.calls && (w.calls == old(w.calls) <==> written == 0)
      invariant forall k :: old(w.calls) <= k < w.calls ==> w.answers(k).err.None? && w.answers(k).takes > 0
    {
      var n, e := w.Write(frame[written..]);
      assert frame[..written] + frame[written..][..n] == frame[..written + n];
      written := written + n;
      if e.Some? {
        return Broken(e.value), written;
      }
      if n == 0 {
        return NoProgress, written;
      }
    }
    err := Fine;
  }
}
