/**
 * How a duplex stream ends: its reader and its writer end each other, whichever ends first, and the stream's
 * own end hook runs once, after the final signal (packages/streams/src/BaseDuplexStream.ts, BaseStream.ts).
 */
module StreamEnds {
  import opened Prelude

  datatype Signal<V> = Value(v: V) | Done | Error(e: nat)

  datatype Written = Pending | Finished | DispatchFailed

  datatype Status = Unsynchronized | Complete | Failed(e: nat)

  function Final<V>(error: Option<nat>): Signal<V> {
    if error.Some? then Error(error.value) else Done
  }

  /** Values come first; a final signal is dispatched when the stream ends, and nothing after it. */
  predicate FinalLast<V>(dispatched: seq<Signal<V>>, ended: bool) {
    && (forall i | 0 <= i < |dispatched| - 1 :: dispatched[i].Value?)
    && (ended <==> dispatched != [] && !dispatched[|dispatched| - 1].Value?)
  }

  class DuplexEnds<V> {
    /** Whether the transport refuses the n-th dispatch. */
    const refuses: nat -> bool
    const dispatchError: nat
    var status: Status
    var readerDone: bool
    var readerHook: bool
    var writerDone: bool
    var writerHook: bool
    /** Everything the transport was given, refused or not. */
    var dispatched: seq<Signal<V>>
    /** What the stream's end hook was called with, each time. */
    var endings: seq<Option<nat>>

    /** A hook is there until its half has ended. */
    predicate HooksKept()
      reads this
    {
      readerHook == !readerDone && writerHook == !writerDone
    }

    /** Between calls the two halves have ended together or not at all. */
    predicate Valid()
      reads this
    {
      && HooksKept() && readerDone == writerDone
      && |endings| == (if writerDone then 1 else 0)
      && FinalLast(dispatched, writerDone)
    }

    constructor (refuses: nat -> bool, dispatchError: nat)
      ensures Valid() && !writerDone && status == Unsynchronized && dispatched == []
      ensures this.refuses == refuses && this.dispatchError == dispatchError
    {
      this.refuses, this.dispatchError, status := refuses, dispatchError, Unsynchronized;
      readerDone, readerHook, writerDone, writerHook, dispatched, endings := false, true, false, true, [], [];
    }

    /** End the writer: the final signal, then the reader, then the stream's own hook, even if the signal is refused. */
    method EndWriter(error: Option<nat>) returns (threw: bool)
      requires HooksKept()
      modifies this
      ensures HooksKept() && writerDone && status == old(status)
      ensures old(writerDone) ==> !threw && dispatched == old(dispatched) && endings == old(endings) && readerDone == old(readerDone)
      ensures !old(writerDone) ==>
                && readerDone && threw == refuses(|old(dispatched)|)
                && dispatched == old(dispatched) + [if error.Some? then Error(error.value) else Done] && endings == old(endings) + [error]
      decreases (if writerHook then 1 else 0) + (if readerHook then 1 else 0), 1
    {
      if writerDone { return false; }
      writerDone := true;
      var hook := writerHook;
      writerHook := false;
      threw := refuses(|dispatched|);
      dispatched := dispatched + [Final(error)];
      if hook {
        var ignored := EndReader();
        endings := endings + [error];
      }
    }

    /** End the reader, whatever ended it, and through its hook the writer. */
    method EndReader() returns (threw: bool)
      requires HooksKept()
      modifies this
      ensures HooksKept() && readerDone && status == old(status)
      ensures old(readerDone) || old(writerDone) ==> !threw && dispatched == old(dispatched) && endings == old(endings) && writerDone == old(writerDone)
      ensures !old(readerDone) && !old(writerDone) ==>
                && writerDone && threw == refuses(|old(dispatched)|)
                && dispatched == old(dispatched) + [Done] && endings == old(endings) + [None]
      decreases (if writerHook then 1 else 0) + (if readerHook then 1 else 0), 0
    {
      threw := false;
      readerDone := true;
      var hook := readerHook;
      readerHook := false;
      if hook { threw := EndWriter(None); }
    }

    /** Write a value; one the transport refuses ends the stream with the refusal, told to the other side if it can be. */
    method Write(v: V) returns (written: Written)
      requires Valid()
      modifies this
      ensures Valid() && status == old(status)
      ensures written.Finished? <==> old(writerDone)
      ensures old(writerDone) ==> dispatched == old(dispatched) && endings == old(endings)
      ensures written.Pending? ==> !writerDone && dispatched == old(dispatched) + [Value(v)] && endings == old(endings)
      ensures written.DispatchFailed? <==> !old(writerDone) && refuses(|old(dispatched)|)
      ensures written.DispatchFailed? ==>
                writerDone && dispatched == old(dispatched) + [Value(v), Error(dispatchError)] && endings == [Some(dispatchError)]
    {
      if writerDone { return Finished; }
      var refused := refuses(|dispatched|);
      dispatched := dispatched + [Value(v)];
      if refused {
        var ignored := EndWriter(Some(dispatchError));
        written := DispatchFailed;
      } else {
        written := Pending;
      }
    }

    /** The transport or the validator ends the reader, with or without an error: the other side is told the stream is done. */
    method ReaderEnded() returns (threw: bool)
      requires Valid()
      modifies this
      ensures Valid() && writerDone && status == old(status)
      ensures dispatched == (if old(writerDone) then old(dispatched) else old(dispatched) + [Done])
      ensures endings == (if old(writerDone) then old(endings) else [None])
    {
      threw := EndReader();
    }

    /** Close the stream: with an error both sides learn of it, and whoever waits for it to synchronize does too. */
    method End(error: Option<nat>) returns (threw: bool)
      requires Valid()
      modifies this
      ensures Valid() && writerDone
      ensures dispatched == (if old(writerDone) then old(dispatched) else old(dispatched) + [if error.Some? then Error(error.value) else Done])
      ensures endings == (if old(writerDone) then old(endings) else [error])
      ensures status == (if !old(status).Unsynchronized? then old(status) else if error.Some? then Failed(error.value) else Complete)
    {
      if status.Unsynchronized? { status := if error.Some? then Failed(error.value) else Complete; }
      threw := EndWriter(error);
      var also := EndReader();
      threw := threw || also;
    }
  }
}
