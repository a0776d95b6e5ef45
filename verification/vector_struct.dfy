/** The struct serialiser of fixed-length vectors: the row count is fixed when the
    serialiser is built and appears in its type name and schema. */
module VectorStruct {
  import opened Wrappers
  import opened ByteBuffer

  datatype VectorStruct = VectorStruct(rows: nat)

  datatype Vector = Vector(data: seq<real>)

  // ---------------------------------------------------------------------------------------
  // Decimal text of a row count

  predicate IsDigit(c: char) {
    '0' <= c <= '9'
  }

  function DigitChar(d: nat): (c: char)
    requires d < 10
    ensures IsDigit(c) && (c as int) - ('0' as int) == d
  {
    (('0' as int) + d) as char
  }

  /** Java's decimal rendering of a non-negative int, without leading zeros. */
  function NatToString(n: nat): (s: string)
    ensures |s| > 0 && forall i :: 0 <= i < |s| ==> IsDigit(s[i])
    ensures |s| > 1 ==> s[0] != '0'
    decreases n
  {
    if n < 10 then [DigitChar(n)] else NatToString(n / 10) + [DigitChar(n % 10)]
  }

  /** The value of a string of decimal digits. */
  function ParseNat(s: string): nat
    requires forall i :: 0 <= i < |s| ==> IsDigit(s[i])
    decreases |s|
  {
    if |s| == 0 then 0
    else
      assert IsDigit(s[|s| - 1]);
      ParseNat(s[..|s| - 1]) * 10 + ((s[|s| - 1] as int) - ('0' as int))
  }

  lemma {:induction false} ParseNatToString(n: nat)
    ensures ParseNat(NatToString(n)) == n
    decreases n
  {
    var s := NatToString(n);
    if n < 10 {
      assert s[..0] == [];
    } else {
      assert s[..|s| - 1] == NatToString(n / 10);
      ParseNatToString(n / 10);
    }
  }

  // ---------------------------------------------------------------------------------------
  // The serialiser

  const TypeNamePrefix: string := "Vector__"

  /** getTypeName: "Vector__" followed by the row count, which can be read back from it. */
  function TypeName(st: VectorStruct): (r: string)
    ensures RowsOfTypeName(r) == Some(st.rows)
  {
    TypeNameParses(st.rows);
    TypeNamePrefix + NatToString(st.rows)
  }

  /** getSize, in bytes. */
  function Size(st: VectorStruct): (r: nat)
    ensures r % SizeDouble == 0 && r / SizeDouble == st.rows
  {
    SizeDouble * st.rows
  }

  const SchemaPrefix: string := "double data["

  /** getSchema: one double array field whose length is the row count. */
  function Schema(st: VectorStruct): (r: string)
    ensures RowsOfSchema(r) == Some(st.rows)
  {
    SchemaParses(st.rows);
    SchemaPrefix + NatToString(st.rows) + "]"
  }

  /** The row count read back from a type name; None when it is not a vector type name. */
  function RowsOfTypeName(name: string): (r: Option<nat>)
    ensures r.Some? ==> |name| > |TypeNamePrefix| && name[..|TypeNamePrefix|] == TypeNamePrefix
  {
    if |name| > |TypeNamePrefix| && name[..|TypeNamePrefix|] == TypeNamePrefix
       && forall i :: |TypeNamePrefix| <= i < |name| ==> IsDigit(name[i])
    then Some(ParseNat(name[|TypeNamePrefix|..]))
    else None
  }

  /** The row count read back from a schema; None when it is not a vector schema. */
  function RowsOfSchema(schema: string): (r: Option<nat>)
    ensures r.Some? ==> |schema| > |SchemaPrefix| + 1 && schema[|schema| - 1] == ']'
  {
    if |schema| > |SchemaPrefix| + 1 && schema[..|SchemaPrefix|] == SchemaPrefix && schema[|schema| - 1] == ']'
       && forall i :: |SchemaPrefix| <= i < |schema| - 1 ==> IsDigit(schema[i])
    then Some(ParseNat(schema[|SchemaPrefix|..|schema| - 1]))
    else None
  }

  lemma TypeNameParses(n: nat)
    ensures RowsOfTypeName(TypeNamePrefix + NatToString(n)) == Some(n)
  {
    var digits := NatToString(n);
    var name := TypeNamePrefix + digits;
    assert name[..|TypeNamePrefix|] == TypeNamePrefix;
    assert name[|TypeNamePrefix|..] == digits;
    ParseNatToString(n);
  }

  lemma SchemaParses(n: nat)
    ensures RowsOfSchema(SchemaPrefix + NatToString(n) + "]") == Some(n)
  {
    var digits := NatToString(n);
    var schema := SchemaPrefix + digits + "]";
    assert schema[..|SchemaPrefix|] == SchemaPrefix;
    assert schema[|SchemaPrefix|..|schema| - 1] == digits;
    ParseNatToString(n);
  }

  /** unpack reads exactly `rows` doubles. */
  function Unpack(st: VectorStruct, b: Buffer): (r: Result<Unpacked<Vector>>)
    ensures r.Ok? <==> Room(b, st.rows)
    ensures r.Err? ==> r.error == BufferUnderflow
    ensures r.Ok? ==> && r.value.value.data == b.slots[b.cursor..b.cursor + st.rows]
                      && r.value.buffer == b.(cursor := b.cursor + st.rows)
  {
    var d :- GetMany(b, st.rows);
    Ok(Unpacked(Vector(d.value), d.buffer))
  }

  /** pack writes the vector's whole data array, whatever the row count. */
  function Pack(st: VectorStruct, b: Buffer, v: Vector): (r: Result<Buffer>)
    ensures r.Ok? <==> Room(b, |v.data|)
    ensures r.Err? ==> r.error == BufferOverflow
    ensures r.Ok? ==> Wrote(b, v.data, r.value)
  {
    PutAll(b, v.data)
  }

  /** A vector with as many entries as the serialiser's rows survives pack then unpack. */
  lemma RoundTrip(st: VectorStruct, b: Buffer, v: Vector)
    requires |v.data| == st.rows && Room(b, st.rows)
    ensures Pack(st, b, v).Ok?
    ensures var w := Pack(st, b, v).value;
            Unpack(st, w.(cursor := b.cursor)) == Ok(Unpacked(v, w))
  {
    PutThenGet(b, v.data);
  }
}
