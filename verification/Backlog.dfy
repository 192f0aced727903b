/**
 Backpressure-aware writes, shared by the managed client and the low-level client:
 what a socket does not accept waits in a backlog until the drain callback.
 A write result is the number of bytes accepted, negative for an error.
 */
module Backlog {
  import opened Bytes

  /** The bytes handed to the socket by a call, and the backlog it leaves. */
  datatype Written = Written(wrote: bytes, backlog: seq<bytes>)

  /** writeOrQueue; None is the thrown "socket.write failed". */
  function WriteOrQueue(backlog: seq<bytes>, data: bytes, w: int): Option<Written>
    requires w <= |data|
  {
    if backlog != [] then Some(Written([], backlog + [data]))
    else if w < 0 then None
    else if w < |data| then Some(Written(data[..w], [data[w..]]))
    else Some(Written(data, []))
  }

  /** ws lists exactly the results the writes of one flushBacklog call return. */
  predicate FlushResults(backlog: seq<bytes>, ws: seq<int>)
  {
    if backlog == [] then ws == []
    else
      && ws != []
      && ws[0] <= |backlog[0]|
      && (if 0 <= ws[0] < |backlog[0]| then |ws| == 1 else FlushResults(backlog[1..], ws[1..]))
  }

  /** flushBacklog: front to back, stopping at a partial write; a failed write drops its chunk. */
  function Flush(backlog: seq<bytes>, ws: seq<int>): Written
    requires FlushResults(backlog, ws)
  {
    if backlog == [] then Written([], [])
    else if ws[0] < 0 then Flush(backlog[1..], ws[1..])
    else if ws[0] < |backlog[0]| then Written(backlog[0][..ws[0]], [backlog[0][ws[0]..]] + backlog[1..])
    else
      var rest := Flush(backlog[1..], ws[1..]);
      Written(backlog[0] + rest.wrote, rest.backlog)
  }

  predicate NoFailure(ws: seq<int>) { forall i :: 0 <= i < |ws| ==> ws[i] >= 0 }

  predicate NoEmptyChunk(backlog: seq<bytes>) { forall i :: 0 <= i < |backlog| ==> backlog[i] != [] }

  /**
   A send either appends its bytes to the outgoing stream or, when it throws, leaves
   the stream as it was: then there was no backlog and nothing was handed over.
   */
  lemma {:induction false} SendConserves(backlog: seq<bytes>, data: bytes, w: int)
    requires w <= |data|
    ensures match WriteOrQueue(backlog, data, w)
            case Some(x) => x.wrote + Concat(x.backlog) == Concat(backlog) + data
            case None => backlog == [] && w < 0
    ensures NoEmptyChunk(backlog) && data != [] && WriteOrQueue(backlog, data, w).Some? ==>
              NoEmptyChunk(WriteOrQueue(backlog, data, w).value.backlog)
  {
    if backlog != [] {
      ConcatAppend(backlog, [data]);
      assert Concat([data]) == data + Concat([]) == data;
    } else if 0 <= w < |data| {
      assert Concat([data[w..]]) == data[w..] + Concat([]) == data[w..];
    }
  }

  lemma {:induction false} FlushConserves(backlog: seq<bytes>, ws: seq<int>)
    requires FlushResults(backlog, ws) && NoFailure(ws)
    ensures Flush(backlog, ws).wrote + Concat(Flush(backlog, ws).backlog) == Concat(backlog)
  {
    if backlog != [] {
      var c, rest := backlog[0], backlog[1..];
      if ws[0] < |c| {
        var left := [c[ws[0]..]] + rest;
        assert left[1..] == rest;
        assert Concat(left) == c[ws[0]..] + Concat(rest);
      } else {
        FlushConserves(rest, ws[1..]);
      }
    }
  }

  lemma {:induction false} FlushNeverGrows(backlog: seq<bytes>, ws: seq<int>)
    requires FlushResults(backlog, ws) && NoEmptyChunk(backlog)
    ensures var f := Flush(backlog, ws);
            && |f.wrote| + |Concat(f.backlog)| <= |Concat(backlog)|
            && (!NoFailure(ws) ==> |f.wrote| + |Concat(f.backlog)| < |Concat(backlog)|)
            && NoEmptyChunk(f.backlog)
  {
    if backlog != [] {
      var c, rest := backlog[0], backlog[1..];
      assert |Concat(backlog)| == |c| + |Concat(rest)| && |c| > 0;
      if 0 <= ws[0] < |c| {
        var left := [c[ws[0]..]] + rest;
        assert left[1..] == rest;
        assert |Concat(left)| == |c| - ws[0] + |Concat(rest)|;
      } else {
        FlushNeverGrows(rest, ws[1..]);
        assert !NoFailure(ws) && ws[0] >= 0 ==> !NoFailure(ws[1..]);
      }
    }
  }

  /** A drain keeps every byte exactly when none of its writes failed. */
  lemma {:induction false} FlushConservesIff(backlog: seq<bytes>, ws: seq<int>)
    requires FlushResults(backlog, ws) && NoEmptyChunk(backlog)
    ensures Flush(backlog, ws).wrote + Concat(Flush(backlog, ws).backlog) == Concat(backlog) <==> NoFailure(ws)
  {
    if NoFailure(ws) {
      FlushConserves(backlog, ws);
    } else {
      FlushNeverGrows(backlog, ws);
    }
  }
}
