/** A byte buffer seen as a sequence of 8-byte double slots and a cursor (the position,
    counted in slots). Writing past the end overflows; reading past the end underflows. */
module ByteBuffer {
  import opened Wrappers

  /** Bytes in one double, the unit every struct size is counted in. */
  const SizeDouble: nat := 8

  datatype RawBuffer = Buffer(slots: seq<real>, cursor: nat)

  /** The position never passes the limit. */
  type Buffer = b: RawBuffer | b.cursor <= |b.slots| witness Buffer([], 0)

  /** A value read from a buffer, with the buffer after the read. */
  datatype Unpacked<+T> = Unpacked(value: T, buffer: Buffer)

  /** There is room for `n` more slots after the cursor. */
  predicate Room(b: Buffer, n: nat) {
    b.cursor + n <= |b.slots|
  }

  /** `r` is `b` with `vals` written at the cursor and the cursor moved past them. */
  predicate Wrote(b: Buffer, vals: seq<real>, r: Buffer) {
    && |r.slots| == |b.slots|
    && r.cursor == b.cursor + |vals|
    && (forall i :: 0 <= i < |vals| ==> r.slots[b.cursor + i] == vals[i])
    && (forall i :: 0 <= i < |b.slots| && !(b.cursor <= i < b.cursor + |vals|) ==> r.slots[i] == b.slots[i])
  }

  function PutDouble(b: Buffer, v: real): (r: Result<Buffer>)
    ensures r.Ok? <==> Room(b, 1)
    ensures r.Err? ==> r.error == BufferOverflow
    ensures r.Ok? ==> Wrote(b, [v], r.value)
  {
    if b.cursor < |b.slots| then Ok(Buffer(b.slots[b.cursor := v], b.cursor + 1))
    else Err(BufferOverflow)
  }

  function GetDouble(b: Buffer): (r: Result<Unpacked<real>>)
    ensures r.Ok? <==> Room(b, 1)
    ensures r.Err? ==> r.error == BufferUnderflow
    ensures r.Ok? ==> r.value.value == b.slots[b.cursor] && r.value.buffer == b.(cursor := b.cursor + 1)
  {
    if b.cursor < |b.slots| then Ok(Unpacked(b.slots[b.cursor], b.(cursor := b.cursor + 1)))
    else Err(BufferUnderflow)
  }

  /** Writes the values one double at a time, in order. */
  function PutAll(b: Buffer, vals: seq<real>): (r: Result<Buffer>)
    ensures r.Ok? <==> Room(b, |vals|)
    ensures r.Err? ==> r.error == BufferOverflow
    ensures r.Ok? ==> Wrote(b, vals, r.value)
    decreases |vals|
  {
    if |vals| == 0 then
      Ok(b)
    else
      var b1 :- PutDouble(b, vals[0]);
      PutAll(b1, vals[1..])
  }

  /** The buffer a sequence of single writes leaves behind, including when it overflows
      partway: every value that fits is written and the cursor stops at the limit. A failed
      PutAll returns only the error; this is the state the buffer is left in. */
  function PutPartial(b: Buffer, vals: seq<real>): (r: Buffer)
    ensures var n := if Room(b, |vals|) then |vals| else |b.slots| - b.cursor;
            Wrote(b, vals[..n], r)
    ensures !Room(b, |vals|) ==> r.cursor == |b.slots|
    ensures PutAll(b, vals).Ok? ==> PutAll(b, vals).value == r
    decreases |vals|
  {
    if |vals| == 0 || b.cursor == |b.slots| then b
    else
      var b1 := PutDouble(b, vals[0]).value;
      var r := PutPartial(b1, vals[1..]);
      var n := if Room(b, |vals|) then |vals| else |b.slots| - b.cursor;
      assert vals[..n] == [vals[0]] + vals[1..][..n - 1];
      WroteOneThenMore(b, b1, r, vals[0], vals[1..][..n - 1]);
      r
  }

  /** One write followed by a block of writes is a single block write. */
  lemma WroteOneThenMore(b: Buffer, u: Buffer, w: Buffer, v: real, rest: seq<real>)
    requires Wrote(b, [v], u) && Wrote(u, rest, w)
    ensures Wrote(b, [v] + rest, w)
  {
    forall i | 0 <= i < |[v] + rest|
      ensures w.slots[b.cursor + i] == ([v] + rest)[i]
    {
      if i > 0 {
        assert w.slots[u.cursor + (i - 1)] == rest[i - 1];
      }
    }
  }

  /** Reads `n` doubles in order. */
  function GetMany(b: Buffer, n: nat): (r: Result<Unpacked<seq<real>>>)
    ensures r.Ok? <==> Room(b, n)
    ensures r.Err? ==> r.error == BufferUnderflow
    ensures r.Ok? ==> && r.value.value == b.slots[b.cursor..b.cursor + n]
                      && r.value.buffer == b.(cursor := b.cursor + n)
    decreases n
  {
    if n == 0 then Ok(Unpacked([], b))
    else
      var first :- GetDouble(b);
      var rest :- GetMany(first.buffer, n - 1);
      Ok(Unpacked([first.value] + rest.value, rest.buffer))
  }

  /** Reading back from where a write started gives the values written and ends where the
      write ended. */
  lemma ReadBack(b: Buffer, w: Buffer, vals: seq<real>)
    requires Room(b, |vals|) && Wrote(b, vals, w)
    ensures GetMany(w.(cursor := b.cursor), |vals|) == Ok(Unpacked(vals, w))
  {
    var start: Buffer := w.(cursor := b.cursor);
    var read := GetMany(start, |vals|);
    assert read.Ok?;
    forall i | 0 <= i < |vals|
      ensures read.value.value[i] == vals[i]
    {
      assert read.value.value[i] == w.slots[b.cursor + i];
    }
    assert read.value.value == vals;
    assert read.value.buffer == w;
    assert read == Ok(Unpacked(vals, w));
  }

  /** Writing values and then reading as many from the starting position gives them back. */
  lemma PutThenGet(b: Buffer, vals: seq<real>)
    requires Room(b, |vals|)
    ensures PutAll(b, vals).Ok?
    ensures var w := PutAll(b, vals).value;
            GetMany(w.(cursor := b.cursor), |vals|) == Ok(Unpacked(vals, w))
  {
    ReadBack(b, PutAll(b, vals).value, vals);
  }
}
