/** Batching of a row sequence into blocks of a fixed size.

    The reader loop in optim_main.py appends each row to an accumulator and
    flushes it as soon as it holds `chunk` rows (the in-loop flushes, here
    `Flushed`); what is left at the end (`Pending`) is flushed once more if it
    is not empty.  `Batches` is the whole list of flushed blocks.  For a
    positive block size the writer loop produces the same blocks; for 0 it
    produces none (see OptimMain.WriteChunked). */
module Batching {

  /** Concatenation of a sequence of blocks, in order. */
  function Flatten<T>(blocks: seq<seq<T>>): seq<T>
  {
    if blocks == [] then [] else Flatten(blocks[..|blocks| - 1]) + blocks[|blocks| - 1]
  }

  /** The blocks the reader flushes inside its loop: one per `chunk` rows.
      With `chunk == 0` the accumulator (which holds at least one row after
      each append) never has length 0, so nothing is flushed in the loop. */
  function Flushed<T>(rows: seq<T>, chunk: nat): (blocks: seq<seq<T>>)
    ensures forall i :: 0 <= i < |blocks| ==> |blocks[i]| == chunk
    ensures chunk == 0 ==> blocks == []
    decreases |rows|
  {
    if chunk == 0 || |rows| < chunk then [] else [rows[..chunk]] + Flushed(rows[chunk..], chunk)
  }

  /** What the accumulator holds after the loop. */
  function Pending<T>(rows: seq<T>, chunk: nat): (rest: seq<T>)
    ensures |rest| <= |rows|
    ensures chunk > 0 ==> |rest| < chunk
    decreases |rows|
  {
    if chunk == 0 || |rows| < chunk then rows else Pending(rows[chunk..], chunk)
  }

  /** All flushed blocks: the in-loop flushes, then the remainder if it is not empty. */
  function Batches<T>(rows: seq<T>, chunk: nat): (blocks: seq<seq<T>>)
    ensures forall i :: 0 <= i < |blocks| ==> blocks[i] != []
    ensures chunk > 0 ==> forall i :: 0 <= i < |blocks| ==> |blocks[i]| <= chunk
  {
    Flushed(rows, chunk) + (if Pending(rows, chunk) == [] then [] else [Pending(rows, chunk)])
  }

  lemma {:induction false} FlattenAppend<T>(a: seq<seq<T>>, b: seq<seq<T>>)
    ensures Flatten(a + b) == Flatten(a) + Flatten(b)
    decreases |b|
  {
    if b == [] {
      assert a + b == a;
    } else {
      var b', last := b[..|b| - 1], b[|b| - 1];
      assert (a + b)[..|a + b| - 1] == a + b';
      assert Flatten(a + b) == Flatten(a + b') + last;
      FlattenAppend(a, b');
      assert Flatten(b) == Flatten(b') + last;
    }
  }

  lemma FlattenSingle<T>(x: seq<T>)
    ensures Flatten([x]) == x
  {
    assert [x][..0] == [];
  }

  /** The in-loop flushes and the remainder put back together give the rows. */
  lemma {:induction false} FlushedPendingSplit<T>(rows: seq<T>, chunk: nat)
    ensures Flatten(Flushed(rows, chunk)) + Pending(rows, chunk) == rows
    decreases |rows|
  {
    if chunk > 0 && |rows| >= chunk {
      var rest := rows[chunk..];
      FlushedPendingSplit(rest, chunk);
      FlattenAppend([rows[..chunk]], Flushed(rest, chunk));
      FlattenSingle(rows[..chunk]);
      assert rows == rows[..chunk] + rest;
    }
  }

  /** The rows are counted by the in-loop flushes of `chunk` rows each and
      the remainder. */
  lemma {:induction false} FlushedCount<T>(rows: seq<T>, chunk: nat)
    ensures |Flushed(rows, chunk)| * chunk + |Pending(rows, chunk)| == |rows|
    decreases |rows|
  {
    if chunk > 0 && |rows| >= chunk {
      var rest := rows[chunk..];
      FlushedCount(rest, chunk);
      var k := |Flushed(rest, chunk)|;
      assert |Flushed(rows, chunk)| == k + 1;
      assert (k + 1) * chunk == k * chunk + chunk;
    }
  }

  /** Processing `a` and then `b` is processing `a`, then the remainder of
      `a` followed by `b`: the accumulator carries over. */
  lemma {:induction false} FlushedConcat<T>(a: seq<T>, b: seq<T>, chunk: nat)
    ensures Flushed(a + b, chunk) == Flushed(a, chunk) + Flushed(Pending(a, chunk) + b, chunk)
    ensures Pending(a + b, chunk) == Pending(Pending(a, chunk) + b, chunk)
    decreases |a|
  {
    if chunk == 0 || |a| < chunk {
    } else {
      var rest := a[chunk..];
      assert (a + b)[..chunk] == a[..chunk];
      assert (a + b)[chunk..] == rest + b;
      FlushedConcat(rest, b, chunk);
    }
  }

  /** One step of the reader loop: append a row to the accumulator and flush
      it exactly when it reaches `chunk` rows. */
  lemma FlushedSnoc<T>(rows: seq<T>, x: T, chunk: nat)
    ensures var p := Pending(rows, chunk);
      && Flushed(rows + [x], chunk) == Flushed(rows, chunk) + (if |p| + 1 == chunk then [p + [x]] else [])
      && Pending(rows + [x], chunk) == (if |p| + 1 == chunk then [] else p + [x])
  {
    var p := Pending(rows, chunk);
    FlushedConcat(rows, [x], chunk);
    FlushedPendingSplit(rows, chunk);
    if chunk > 0 && |p| + 1 == chunk {
      assert (p + [x])[..chunk] == p + [x];
      assert (p + [x])[chunk..] == [];
    }
  }

  /** One step of the writer loop: after a whole number of full blocks, a
      block of 1 to `chunk` rows is one more batch. */
  lemma AppendBlock<T>(rows: seq<T>, block: seq<T>, chunk: nat)
    requires chunk > 0 && Pending(rows, chunk) == []
    requires 0 < |block| <= chunk
    ensures Batches(rows + block, chunk) == Batches(rows, chunk) + [block]
    ensures Pending(rows + block, chunk) == [] <==> |block| == chunk
  {
    FlushedConcat(rows, block, chunk);
    assert Pending(rows, chunk) + block == block;
    if |block| == chunk {
      assert block[..chunk] == block;
      assert block[chunk..] == [];
    }
  }

  /** The shape of the batches for a positive chunk size: none is empty, none
      holds more than `chunk` rows, all but the last hold exactly `chunk`,
      and together they are the rows, in order. */
  lemma BatchesShape<T>(rows: seq<T>, chunk: nat)
    requires chunk > 0
    ensures var bs := Batches(rows, chunk);
      && Flatten(bs) == rows
      && (forall i :: 0 <= i < |bs| ==> 0 < |bs[i]| <= chunk)
      && (forall i :: 0 <= i < |bs| - 1 ==> |bs[i]| == chunk)
  {
    var fl, p := Flushed(rows, chunk), Pending(rows, chunk);
    var bs := Batches(rows, chunk);
    FlushedPendingSplit(rows, chunk);
    if p == [] {
      assert bs == fl;
    } else {
      FlattenAppend(fl, [p]);
      FlattenSingle(p);
      assert forall i :: 0 <= i < |fl| ==> bs[i] == fl[i];
    }
  }

  /** With a chunk size of zero the reader flushes all rows at once, after the
      loop: the single call of the unbatched program. */
  lemma BatchesZero<T>(rows: seq<T>)
    ensures Batches(rows, 0) == if rows == [] then [] else [rows]
  {
  }

  /** Whatever the chunk size, the batches put together are the rows. */
  lemma {:induction false} BatchSizeInvariance<T>(rows: seq<T>, chunk: nat)
    ensures Flatten(Batches(rows, chunk)) == rows
  {
    if chunk == 0 {
      if rows != [] { FlattenSingle(rows); }
    } else {
      BatchesShape(rows, chunk);
    }
  }

  lemma MulNonneg(a: nat, b: nat)
    ensures a * b >= 0
  {
  }

  lemma DivUnique(n: int, d: int, q: int, r: int)
    requires d > 0 && 0 <= r < d && n == q * d + r
    ensures n / d == q
  {
    var q', r' := n / d, n % d;
    assert n == q' * d + r';
    if q > q' {
      MulNonneg(q - q' - 1, d);
      assert false;
    } else if q < q' {
      MulNonneg(q' - q - 1, d);
      assert false;
    }
  }

  /** The number of batches is the number of rows divided by the chunk size,
      rounded up. */
  lemma BatchCount<T>(rows: seq<T>, chunk: nat)
    requires chunk > 0
    ensures |Batches(rows, chunk)| == (|rows| + chunk - 1) / chunk
  {
    FlushedPendingSplit(rows, chunk);
    FlushedCount(rows, chunk);
    var q, r := |Flushed(rows, chunk)|, |Pending(rows, chunk)|;
    if r == 0 {
      DivUnique(|rows| + chunk - 1, chunk, q, chunk - 1);
    } else {
      assert |rows| + chunk - 1 == (q + 1) * chunk + (r - 1);
      DivUnique(|rows| + chunk - 1, chunk, q + 1, r - 1);
    }
  }
}
