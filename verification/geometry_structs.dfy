/** The struct serialisers of the 3D geometry types and Rotation2d: type name, size in
    bytes, schema, nested structs, and pack/unpack over a slot buffer. Composite structs
    delegate to their parts' serialisers in schema order. */
module GeometryStructs {
  import opened Wrappers
  import opened ByteBuffer
  import opened Geometry

  datatype Kind =
    | Translation3dStruct
    | QuaternionStruct
    | Rotation2dStruct
    | Rotation3dStruct
    | Pose3dStruct
    | Transform3dStruct

  /** The struct a schema's type name refers to; None for "double" and unknown names. */
  function KindNamed(name: string): Option<Kind> {
    if name == "Translation3d" then Some(Translation3dStruct)
    else if name == "Quaternion" then Some(QuaternionStruct)
    else if name == "Rotation2d" then Some(Rotation2dStruct)
    else if name == "Rotation3d" then Some(Rotation3dStruct)
    else if name == "Pose3d" then Some(Pose3dStruct)
    else if name == "Transform3d" then Some(Transform3dStruct)
    else None
  }

  /** getTypeName: the name other schemas use to refer to this struct. */
  function TypeName(k: Kind): (r: string)
    ensures KindNamed(r) == Some(k)
  {
    match k
    case Translation3dStruct => "Translation3d"
    case QuaternionStruct => "Quaternion"
    case Rotation2dStruct => "Rotation2d"
    case Rotation3dStruct => "Rotation3d"
    case Pose3dStruct => "Pose3d"
    case Transform3dStruct => "Transform3d"
  }

  /** No two structs share a type name, so a name identifies its serialiser. */
  lemma TypeNameIdentifiesStruct(k: Kind, k': Kind)
    ensures TypeName(k) == TypeName(k') ==> k == k'
  {
    if TypeName(k) == TypeName(k') {
      assert TypeName(k)[|TypeName(k)| - 1] == TypeName(k')[|TypeName(k')| - 1];
      assert TypeName(k)[0] == TypeName(k')[0];
    }
  }

  /** getSchema: the struct's fields, declared in order. */
  function Schema(k: Kind): (r: string)
    ensures r == Render(Fields(k))
  {
    match k
    case Translation3dStruct => Translation3dSchema(); "double x;double y;double z"
    case QuaternionStruct => QuaternionSchema(); "double w;double x;double y;double z"
    case Rotation2dStruct => "double value"
    case Rotation3dStruct => "Quaternion q"
    case Pose3dStruct => PairSchema(Fields(k)); "Translation3d translation;Rotation3d rotation"
    case Transform3dStruct => PairSchema(Fields(k)); "Translation3d translation;Rotation3d rotation"
  }

  /** getNested: the structs of the schema's struct-typed fields, in schema order; none for
      the structs made only of doubles. Each is strictly simpler, so nesting never cycles. */
  function Nested(k: Kind): (r: seq<Kind>)
    ensures |r| > 0 ==> |r| == |Fields(k)|
    ensures forall i :: 0 <= i < |r| ==> KindNamed(Fields(k)[i].typeName) == Some(r[i]) && Rank(r[i]) < Rank(k)
    ensures |r| == 0 ==> forall i :: 0 <= i < |Fields(k)| ==> KindNamed(Fields(k)[i].typeName).None?
  {
    match k
    case Rotation3dStruct => [QuaternionStruct]
    case Pose3dStruct => [Translation3dStruct, Rotation3dStruct]
    case Transform3dStruct => [Translation3dStruct, Rotation3dStruct]
    case _ => []
  }

  function IsImmutable(k: Kind): (r: bool)
    ensures r
  {
    true
  }

  function Rank(k: Kind): nat {
    match k
    case Pose3dStruct => 2
    case Transform3dStruct => 2
    case Rotation3dStruct => 1
    case _ => 0
  }

  /** getSize, in bytes: a multiple of the double size, or the sum of the nested sizes. */
  function Size(k: Kind): (r: nat)
    ensures r % SizeDouble == 0
    decreases Rank(k)
  {
    match k
    case Translation3dStruct => SizeDouble * 3
    case QuaternionStruct => SizeDouble * 4
    case Rotation2dStruct => SizeDouble
    case Rotation3dStruct => Size(QuaternionStruct)
    case Pose3dStruct => Size(Translation3dStruct) + Size(Rotation3dStruct)
    case Transform3dStruct => Size(Translation3dStruct) + Size(Rotation3dStruct)
  }

  // ---------------------------------------------------------------------------------------
  // Schemas as field lists

  datatype Field = Field(typeName: string, name: string)

  /** The fields each struct declares, in declaration order. */
  function Fields(k: Kind): seq<Field> {
    match k
    case Translation3dStruct => [Field("double", "x"), Field("double", "y"), Field("double", "z")]
    case QuaternionStruct => [Field("double", "w"), Field("double", "x"), Field("double", "y"), Field("double", "z")]
    case Rotation2dStruct => [Field("double", "value")]
    case Rotation3dStruct => [Field("Quaternion", "q")]
    case Pose3dStruct => [Field("Translation3d", "translation"), Field("Rotation3d", "rotation")]
    case Transform3dStruct => [Field("Translation3d", "translation"), Field("Rotation3d", "rotation")]
  }

  /** A schema string: "type name" declarations joined by ';'. */
  function Render(fields: seq<Field>): string
    decreases |fields|
  {
    if |fields| == 0 then ""
    else if |fields| == 1 then fields[0].typeName + " " + fields[0].name
    else fields[0].typeName + " " + fields[0].name + ";" + Render(fields[1..])
  }

  lemma Translation3dSchema()
    ensures Render(Fields(Translation3dStruct)) == "double x;double y;double z"
  {
    var f := Fields(Translation3dStruct);
    assert f[2..] == [Field("double", "z")];
    assert Render(f[2..]) == "double z";
    assert Render(f[1..]) == "double y" + ";" + "double z";
    assert Render(f) == "double x" + ";" + "double y;double z";
  }

  lemma QuaternionSchema()
    ensures Render(Fields(QuaternionStruct)) == "double w;double x;double y;double z"
  {
    var f := Fields(QuaternionStruct);
    assert f[1..] == Fields(Translation3dStruct);
    Translation3dSchema();
    assert Render(f[1..]) == "double x;double y;double z";
    assert Render(f) == "double" + " " + "w" + ";" + Render(f[1..]);
    QuaternionSchemaText();
  }

  lemma QuaternionSchemaText()
    ensures "double" + " " + "w" + ";" + "double x;double y;double z" == "double w;double x;double y;double z"
  {
    var a := "double" + " " + "w" + ";";
    assert a == "double w;";
  }

  lemma PairSchema(f: seq<Field>)
    requires f == [Field("Translation3d", "translation"), Field("Rotation3d", "rotation")]
    ensures Render(f) == "Translation3d translation;Rotation3d rotation"
  {
    assert f[1..] == [Field("Rotation3d", "rotation")];
    assert Render(f[1..]) == "Rotation3d rotation";
    PairSchemaText();
  }

  lemma PairSchemaText()
    ensures "Translation3d" + " " + "translation" + ";" + "Rotation3d rotation"
            == "Translation3d translation;Rotation3d rotation"
  {
    var a := "Translation3d" + " " + "translation";
    assert a == "Translation3d translation";
    var b := a + ";";
    assert b == "Translation3d translation;";
    assert b + "Rotation3d rotation" == "Translation3d translation;Rotation3d rotation";
  }

  /** The bytes one field takes. */
  function FieldSize(f: Field): nat {
    if f.typeName == "double" then SizeDouble
    else match KindNamed(f.typeName)
      case Some(k) => Size(k)
      case None => 0
  }

  function FieldsSize(fields: seq<Field>): nat
    decreases |fields|
  {
    if |fields| == 0 then 0 else FieldSize(fields[0]) + FieldsSize(fields[1..])
  }

  /** The nested structs are exactly the schema's struct-typed fields, in schema order, and
      the size is the sum of the schema's field sizes. */
  lemma NestedAgreesWithSchema(k: Kind)
    ensures Size(k) == FieldsSize(Fields(k))
    ensures |Nested(k)| > 0 ==>
              |Nested(k)| == |Fields(k)| &&
              forall i :: 0 <= i < |Nested(k)| ==> TypeName(Nested(k)[i]) == Fields(k)[i].typeName
    ensures |Nested(k)| == 0 ==> forall i :: 0 <= i < |Fields(k)| ==> Fields(k)[i].typeName == "double"
  {
    var f := Fields(k);
    match k
    case Translation3dStruct => assert f[1..][1..][1..] == [];
    case QuaternionStruct =>
      assert FieldsSize(f[3..]) == SizeDouble;
      assert FieldsSize(f[2..]) == 2 * SizeDouble;
      assert FieldsSize(f[1..]) == 3 * SizeDouble;
    case Rotation2dStruct => assert f[1..] == [];
    case Rotation3dStruct => assert f[1..] == [];
    case Pose3dStruct =>
      assert FieldsSize(f[1..]) == Size(Rotation3dStruct) by { assert f[1..][1..] == []; }
    case Transform3dStruct =>
      assert FieldsSize(f[1..]) == Size(Rotation3dStruct) by { assert f[1..][1..] == []; }
  }

  // ---------------------------------------------------------------------------------------
  // The slots each value occupies, in pack order

  function Translation3dSlots(t: Translation3d): seq<real> { [t.x, t.y, t.z] }

  function QuaternionSlots(q: Quaternion): seq<real> { [q.w, q.x, q.y, q.z] }

  function Rotation2dSlots(r: Rotation2d): seq<real> { [r.radians] }

  function Rotation3dSlots(r: Rotation3d): seq<real> { QuaternionSlots(r.q) }

  function Pose3dSlots(p: Pose3d): seq<real> {
    Translation3dSlots(p.translation) + Rotation3dSlots(p.rotation)
  }

  function Transform3dSlots(t: Transform3d): seq<real> {
    Translation3dSlots(t.translation) + Rotation3dSlots(t.rotation)
  }

  /** Writing one block of values and then another writes their concatenation. */
  lemma WroteInSequence(b: Buffer, u: Buffer, w: Buffer, xs: seq<real>, ys: seq<real>)
    requires Wrote(b, xs, u) && Wrote(u, ys, w)
    ensures Wrote(b, xs + ys, w)
  {
    forall i | 0 <= i < |xs + ys|
      ensures w.slots[b.cursor + i] == (xs + ys)[i]
    {
      if i >= |xs| {
        assert w.slots[u.cursor + (i - |xs|)] == ys[i - |xs|];
      }
    }
  }

  // ---------------------------------------------------------------------------------------
  // pack / unpack

  function PackTranslation3d(b: Buffer, t: Translation3d): (r: Result<Buffer>)
    ensures r.Ok? <==> Room(b, 3)
    ensures r.Err? ==> r.error == BufferOverflow
    ensures r.Ok? ==> Wrote(b, Translation3dSlots(t), r.value)
    ensures SizeDouble * |Translation3dSlots(t)| == Size(Translation3dStruct)
  {
    var b1 :- PutDouble(b, t.x);
    var b2 :- PutDouble(b1, t.y);
    var b3 :- PutDouble(b2, t.z);
    WroteInSequence(b, b1, b2, [t.x], [t.y]);
    WroteInSequence(b, b2, b3, [t.x, t.y], [t.z]);
    Ok(b3)
  }

  function UnpackTranslation3d(b: Buffer): (r: Result<Unpacked<Translation3d>>)
    ensures r.Ok? <==> Room(b, 3)
    ensures r.Err? ==> r.error == BufferUnderflow
    ensures r.Ok? ==> && Translation3dSlots(r.value.value) == b.slots[b.cursor..b.cursor + 3]
                      && r.value.buffer == b.(cursor := b.cursor + 3)
  {
    var x :- GetDouble(b);
    var y :- GetDouble(x.buffer);
    var z :- GetDouble(y.buffer);
    Ok(Unpacked(Translation3d(x.value, y.value, z.value), z.buffer))
  }

  function PackQuaternion(b: Buffer, q: Quaternion): (r: Result<Buffer>)
    ensures r.Ok? <==> Room(b, 4)
    ensures r.Err? ==> r.error == BufferOverflow
    ensures r.Ok? ==> Wrote(b, QuaternionSlots(q), r.value)
    ensures SizeDouble * |QuaternionSlots(q)| == Size(QuaternionStruct)
  {
    var b1 :- PutDouble(b, q.w);
    var b2 :- PutDouble(b1, q.x);
    var b3 :- PutDouble(b2, q.y);
    var b4 :- PutDouble(b3, q.z);
    WroteInSequence(b, b1, b2, [q.w], [q.x]);
    WroteInSequence(b, b2, b3, [q.w, q.x], [q.y]);
    WroteInSequence(b, b3, b4, [q.w, q.x, q.y], [q.z]);
    Ok(b4)
  }

  /** Builds the quaternion from the four components as read, with no normalisation. */
  function UnpackQuaternion(b: Buffer): (r: Result<Unpacked<Quaternion>>)
    ensures r.Ok? <==> Room(b, 4)
    ensures r.Err? ==> r.error == BufferUnderflow
    ensures r.Ok? ==> && QuaternionSlots(r.value.value) == b.slots[b.cursor..b.cursor + 4]
                      && r.value.buffer == b.(cursor := b.cursor + 4)
  {
    var w :- GetDouble(b);
    var x :- GetDouble(w.buffer);
    var y :- GetDouble(x.buffer);
    var z :- GetDouble(y.buffer);
    Ok(Unpacked(Quaternion(w.value, x.value, y.value, z.value), z.buffer))
  }

  function PackRotation2d(b: Buffer, rotation: Rotation2d): (r: Result<Buffer>)
    ensures r.Ok? <==> Room(b, 1)
    ensures r.Err? ==> r.error == BufferOverflow
    ensures r.Ok? ==> Wrote(b, Rotation2dSlots(rotation), r.value)
    ensures SizeDouble * |Rotation2dSlots(rotation)| == Size(Rotation2dStruct)
  {
    PutDouble(b, rotation.radians)
  }

  function UnpackRotation2d(b: Buffer): (r: Result<Unpacked<Rotation2d>>)
    ensures r.Ok? <==> Room(b, 1)
    ensures r.Err? ==> r.error == BufferUnderflow
    ensures r.Ok? ==> && Rotation2dSlots(r.value.value) == b.slots[b.cursor..b.cursor + 1]
                      && r.value.buffer == b.(cursor := b.cursor + 1)
  {
    var v :- GetDouble(b);
    Ok(Unpacked(Rotation2d(v.value), v.buffer))
  }

  /** Writes only the rotation's quaternion, through the quaternion serialiser. */
  function PackRotation3d(b: Buffer, rotation: Rotation3d): (r: Result<Buffer>)
    ensures r.Ok? <==> Room(b, 4)
    ensures r.Err? ==> r.error == BufferOverflow
    ensures r.Ok? ==> Wrote(b, Rotation3dSlots(rotation), r.value)
    ensures SizeDouble * |Rotation3dSlots(rotation)| == Size(Rotation3dStruct)
  {
    PackQuaternion(b, rotation.q)
  }

  function UnpackRotation3d(b: Buffer): (r: Result<Unpacked<Rotation3d>>)
    ensures r.Ok? <==> Room(b, 4)
    ensures r.Err? ==> r.error == BufferUnderflow
    ensures r.Ok? ==> && Rotation3dSlots(r.value.value) == b.slots[b.cursor..b.cursor + 4]
                      && r.value.buffer == b.(cursor := b.cursor + 4)
  {
    var q :- UnpackQuaternion(b);
    Ok(Unpacked(Rotation3d(q.value), q.buffer))
  }

  /** Translation first, then rotation. */
  function PackPose3d(b: Buffer, pose: Pose3d): (r: Result<Buffer>)
    ensures r.Ok? <==> Room(b, 7)
    ensures r.Err? ==> r.error == BufferOverflow
    ensures r.Ok? ==> Wrote(b, Pose3dSlots(pose), r.value)
    ensures SizeDouble * |Pose3dSlots(pose)| == Size(Pose3dStruct)
  {
    var b1 :- PackTranslation3d(b, pose.translation);
    var b2 :- PackRotation3d(b1, pose.rotation);
    WroteInSequence(b, b1, b2, Translation3dSlots(pose.translation), Rotation3dSlots(pose.rotation));
    Ok(b2)
  }

  function UnpackPose3d(b: Buffer): (r: Result<Unpacked<Pose3d>>)
    ensures r.Ok? <==> Room(b, 7)
    ensures r.Err? ==> r.error == BufferUnderflow
    ensures r.Ok? ==> && Pose3dSlots(r.value.value) == b.slots[b.cursor..b.cursor + 7]
                      && r.value.buffer == b.(cursor := b.cursor + 7)
  {
    var t :- UnpackTranslation3d(b);
    var rot :- UnpackRotation3d(t.buffer);
    assert b.slots[b.cursor..b.cursor + 7] == b.slots[b.cursor..b.cursor + 3] + b.slots[b.cursor + 3..b.cursor + 7];
    Ok(Unpacked(Pose3d(t.value, rot.value), rot.buffer))
  }

  /** Translation first, then rotation, exactly as for a pose. */
  function PackTransform3d(b: Buffer, transform: Transform3d): (r: Result<Buffer>)
    ensures r.Ok? <==> Room(b, 7)
    ensures r.Err? ==> r.error == BufferOverflow
    ensures r.Ok? ==> Wrote(b, Transform3dSlots(transform), r.value)
    ensures SizeDouble * |Transform3dSlots(transform)| == Size(Transform3dStruct)
  {
    var b1 :- PackTranslation3d(b, transform.translation);
    var b2 :- PackRotation3d(b1, transform.rotation);
    WroteInSequence(b, b1, b2, Translation3dSlots(transform.translation), Rotation3dSlots(transform.rotation));
    Ok(b2)
  }

  function UnpackTransform3d(b: Buffer): (r: Result<Unpacked<Transform3d>>)
    ensures r.Ok? <==> Room(b, 7)
    ensures r.Err? ==> r.error == BufferUnderflow
    ensures r.Ok? ==> && Transform3dSlots(r.value.value) == b.slots[b.cursor..b.cursor + 7]
                      && r.value.buffer == b.(cursor := b.cursor + 7)
  {
    var t :- UnpackTranslation3d(b);
    var rot :- UnpackRotation3d(t.buffer);
    assert b.slots[b.cursor..b.cursor + 7] == b.slots[b.cursor..b.cursor + 3] + b.slots[b.cursor + 3..b.cursor + 7];
    Ok(Unpacked(Transform3d(t.value, rot.value), rot.buffer))
  }

  // ---------------------------------------------------------------------------------------
  // Round trips: unpacking from where packing started gives the value back and leaves the
  // cursor where packing left it.

  lemma WrittenSlice(b: Buffer, vals: seq<real>, w: Buffer)
    requires Room(b, |vals|) && Wrote(b, vals, w)
    ensures w.slots[b.cursor..b.cursor + |vals|] == vals
  {
    forall i | 0 <= i < |vals|
      ensures w.slots[b.cursor..b.cursor + |vals|][i] == vals[i]
    {
      assert w.slots[b.cursor..b.cursor + |vals|][i] == w.slots[b.cursor + i];
    }
  }

  lemma Translation3dRoundTrip(b: Buffer, t: Translation3d)
    requires Room(b, 3)
    ensures PackTranslation3d(b, t).Ok?
    ensures var w := PackTranslation3d(b, t).value;
            UnpackTranslation3d(w.(cursor := b.cursor)) == Ok(Unpacked(t, w))
  {
    var w := PackTranslation3d(b, t).value;
    WrittenSlice(b, Translation3dSlots(t), w);
    var u := UnpackTranslation3d(w.(cursor := b.cursor)).value.value;
    assert Translation3dSlots(u) == Translation3dSlots(t);
    assert u.x == Translation3dSlots(u)[0] && u.y == Translation3dSlots(u)[1] && u.z == Translation3dSlots(u)[2];
  }

  lemma QuaternionRoundTrip(b: Buffer, q: Quaternion)
    requires Room(b, 4)
    ensures PackQuaternion(b, q).Ok?
    ensures var w := PackQuaternion(b, q).value;
            UnpackQuaternion(w.(cursor := b.cursor)) == Ok(Unpacked(q, w))
  {
    var w := PackQuaternion(b, q).value;
    WrittenSlice(b, QuaternionSlots(q), w);
    var u := UnpackQuaternion(w.(cursor := b.cursor)).value.value;
    assert QuaternionSlots(u) == QuaternionSlots(q);
    assert u.w == QuaternionSlots(u)[0] && u.x == QuaternionSlots(u)[1];
    assert u.y == QuaternionSlots(u)[2] && u.z == QuaternionSlots(u)[3];
  }

  lemma Rotation2dRoundTrip(b: Buffer, rotation: Rotation2d)
    requires Room(b, 1)
    ensures PackRotation2d(b, rotation).Ok?
    ensures var w := PackRotation2d(b, rotation).value;
            UnpackRotation2d(w.(cursor := b.cursor)) == Ok(Unpacked(rotation, w))
  {
    var w := PackRotation2d(b, rotation).value;
    WrittenSlice(b, Rotation2dSlots(rotation), w);
    var u := UnpackRotation2d(w.(cursor := b.cursor)).value.value;
    assert u.radians == Rotation2dSlots(u)[0];
  }

  lemma Rotation3dRoundTrip(b: Buffer, rotation: Rotation3d)
    requires Room(b, 4)
    ensures PackRotation3d(b, rotation).Ok?
    ensures var w := PackRotation3d(b, rotation).value;
            UnpackRotation3d(w.(cursor := b.cursor)) == Ok(Unpacked(rotation, w))
  {
    QuaternionRoundTrip(b, rotation.q);
  }

  /** The pose's slots determine the pose. */
  lemma Pose3dSlotsInjective(p: Pose3d, p': Pose3d)
    requires Pose3dSlots(p) == Pose3dSlots(p')
    ensures p == p'
  {
    var s, s' := Pose3dSlots(p), Pose3dSlots(p');
    assert p.translation.x == s[0] && p'.translation.x == s'[0];
    assert p.translation.y == s[1] && p'.translation.y == s'[1];
    assert p.translation.z == s[2] && p'.translation.z == s'[2];
    assert p.rotation.q.w == s[3] && p'.rotation.q.w == s'[3];
    assert p.rotation.q.x == s[4] && p'.rotation.q.x == s'[4];
    assert p.rotation.q.y == s[5] && p'.rotation.q.y == s'[5];
    assert p.rotation.q.z == s[6] && p'.rotation.q.z == s'[6];
  }

  lemma Pose3dRoundTrip(b: Buffer, pose: Pose3d)
    requires Room(b, 7)
    ensures PackPose3d(b, pose).Ok?
    ensures var w := PackPose3d(b, pose).value;
            UnpackPose3d(w.(cursor := b.cursor)) == Ok(Unpacked(pose, w))
  {
    var w := PackPose3d(b, pose).value;
    WrittenSlice(b, Pose3dSlots(pose), w);
    Pose3dSlotsInjective(UnpackPose3d(w.(cursor := b.cursor)).value.value, pose);
  }

  /** A transform's slots determine the transform. */
  lemma Transform3dSlotsInjective(t: Transform3d, t': Transform3d)
    requires Transform3dSlots(t) == Transform3dSlots(t')
    ensures t == t'
  {
    Pose3dSlotsInjective(Pose3d(t.translation, t.rotation), Pose3d(t'.translation, t'.rotation));
  }

  lemma Transform3dRoundTrip(b: Buffer, transform: Transform3d)
    requires Room(b, 7)
    ensures PackTransform3d(b, transform).Ok?
    ensures var w := PackTransform3d(b, transform).value;
            UnpackTransform3d(w.(cursor := b.cursor)) == Ok(Unpacked(transform, w))
  {
    var w := PackTransform3d(b, transform).value;
    WrittenSlice(b, Transform3dSlots(transform), w);
    Transform3dSlotsInjective(UnpackTransform3d(w.(cursor := b.cursor)).value.value, transform);
  }
}
