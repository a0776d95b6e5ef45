/** Telemetry: a driver-station log that may be absent, and a dashboard packet that
    geometry values are flattened into under slash-separated keys. */
module Telemetry {
  import opened Wrappers
  import opened Geometry

  /** The values the robot code hands to telemetry. `Other` stands for any object the
      flattening does not recognise; `id` identifies it. */
  datatype Value =
    | Rot(rotation: Rotation2d)
    | Trans(translation: Translation2d)
    | Pose(pose: Pose2d)
    | Speeds(speeds: ChassisSpeeds)
    | Text(text: string)
    | Number(number: real)
    | Other(id: nat)

  /** A dashboard packet: its key/value data and whether the default field is drawn. */
  datatype Packet = Packet(data: map<string, Value>, drawDefaultField: bool)

  /** A new packet draws the default field unless asked not to. */
  function NewPacket(drawDefaultField: bool): (r: Packet)
    ensures r.data == map[] && r.drawDefaultField == drawDefaultField
  {
    Packet(map[], drawDefaultField)
  }

  function Put(p: Packet, key: string, v: Value): (r: Packet)
    ensures r.drawDefaultField == p.drawDefaultField
    ensures r.data == p.data[key := v]
  {
    p.(data := p.data[key := v])
  }

  datatype DsEntry = Line(line: string) | Data(name: string, value: Value)

  /** `ds` is the driver-station telemetry (None while none has been set), `packet` the
      packet being filled, `sent` the packets handed to the dashboard so far. */
  datatype State = State(ds: Option<seq<DsEntry>>, packet: Packet, sent: seq<Packet>)

  /** The class's initial state: no driver-station telemetry, and a packet that does not
      draw the default field. */
  const Initial: State := State(None, NewPacket(false), [])

  function SetTelemetry(s: State, ds: Option<seq<DsEntry>>): (r: State)
    ensures r.ds == ds && r.packet == s.packet && r.sent == s.sent
  {
    s.(ds := ds)
  }

  /** sendDashboardTelemetry: hand the current packet over, then start a fresh one that
      draws the default field. */
  function SendDashboardTelemetry(s: State): (r: State)
    ensures r.sent == s.sent + [s.packet]
    ensures r.packet.data == map[] && r.packet.drawDefaultField
    ensures r.ds == s.ds
  {
    s.(sent := s.sent + [s.packet], packet := NewPacket(true))
  }

  /** addDSLine: ignored while no driver-station telemetry is set. */
  function AddDSLine(s: State, line: string): (r: State)
    ensures s.ds.None? ==> r == s
    ensures s.ds.Some? ==> r.ds == Some(s.ds.value + [Line(line)])
    ensures r.packet == s.packet && r.sent == s.sent
  {
    if s.ds.None? then s else s.(ds := Some(s.ds.value + [Line(line)]))
  }

  const DsPrefix: string := "DS/"

  /** addDSData: ignored while no driver-station telemetry is set; otherwise also mirrored
      into the packet under "DS/" followed by the name. */
  function AddDSData(s: State, name: string, v: Value): (r: State)
    ensures s.ds.None? ==> r == s
    ensures s.ds.Some? ==> && r.ds == Some(s.ds.value + [Data(name, v)])
                           && r.packet == Put(s.packet, DsPrefix + name, v)
    ensures r.sent == s.sent
  {
    if s.ds.None? then s
    else s.(ds := Some(s.ds.value + [Data(name, v)]), packet := Put(s.packet, DsPrefix + name, v))
  }

  function Depth(v: Value): nat {
    if v.Pose? then 1 else 0
  }

  /** addDashboardData: put a value into the packet under `path`, flattening the geometry
      types into one key per field and a ".type" key naming the type. */
  function AddDashboardData(p: Packet, path: string, v: Value): (r: Packet)
    ensures r.drawDefaultField == p.drawDefaultField
    ensures p.data.Keys <= r.data.Keys
    decreases Depth(v)
  {
    match v
    case Rot(rotation) =>
      Put(Put(p, path + "/.type", Text("Rotation2d")), path + "/value", Number(rotation.radians))
    case Trans(t) =>
      Put(Put(Put(p, path + "/.type", Text("Translation2d")), path + "/x", Number(t.x)), path + "/y", Number(t.y))
    case Pose(pose) =>
      var typed := Put(p, path + "/.type", Text("Pose2d"));
      AddDashboardData(AddDashboardData(typed, path + "/translation", Trans(pose.translation)),
                       path + "/rotation", Rot(pose.rotation))
    case Speeds(c) =>
      Put(Put(Put(Put(p, path + "/.type", Text("ChassisSpeeds")), path + "/vx", Number(c.vx)),
              path + "/vy", Number(c.vy)), path + "/omega", Number(c.omega))
    case _ => Put(p, path, v)
  }

  /** The keys and values a value flattens to, written out in full for each type. */
  function Flatten(path: string, v: Value): map<string, Value> {
    match v
    case Rot(rotation) =>
      map[path + "/.type" := Text("Rotation2d"), path + "/value" := Number(rotation.radians)]
    case Trans(t) =>
      map[path + "/.type" := Text("Translation2d"), path + "/x" := Number(t.x), path + "/y" := Number(t.y)]
    case Pose(pose) =>
      map[path + "/.type" := Text("Pose2d"),
          path + "/translation/.type" := Text("Translation2d"),
          path + "/translation/x" := Number(pose.translation.x),
          path + "/translation/y" := Number(pose.translation.y),
          path + "/rotation/.type" := Text("Rotation2d"),
          path + "/rotation/value" := Number(pose.rotation.radians)]
    case Speeds(c) =>
      map[path + "/.type" := Text("ChassisSpeeds"), path + "/vx" := Number(c.vx),
          path + "/vy" := Number(c.vy), path + "/omega" := Number(c.omega)]
    case _ => map[path := v]
  }

  /** Flattening adds exactly the reference keys with their values; every other key keeps
      its value. */
  lemma AddIsFlatten(p: Packet, path: string, v: Value)
    ensures AddDashboardData(p, path, v).data == p.data + Flatten(path, v)
  {
    match v
    case Rot(rotation) => RotIsFlatten(p, path, rotation);
    case Trans(t) => TransIsFlatten(p, path, t);
    case Pose(pose) => PoseIsFlatten(p, path, pose);
    case Speeds(c) => SpeedsIsFlatten(p, path, c);
    case _ =>
  }

  lemma PoseIsFlatten(p: Packet, path: string, pose: Pose2d)
    ensures AddDashboardData(p, path, Pose(pose)).data == p.data + Flatten(path, Pose(pose))
  {
    PoseUnfold(p, path, pose);
    PoseAssoc(p.data, path, pose);
  }

  lemma PoseAssoc(d: map<string, Value>, path: string, pose: Pose2d)
    ensures d + map[path + "/.type" := Text("Pose2d")]
              + Flatten(path + "/translation", Trans(pose.translation))
              + Flatten(path + "/rotation", Rot(pose.rotation))
            == d + Flatten(path, Pose(pose))
  {
    var m0 := map[path + "/.type" := Text("Pose2d")];
    var f1 := Flatten(path + "/translation", Trans(pose.translation));
    var f2 := Flatten(path + "/rotation", Rot(pose.rotation));
    UnionAssociative(d, m0, f1);
    UnionAssociative(d, m0 + f1, f2);
    PoseKeys(path, pose);
  }

  lemma PoseUnfold(p: Packet, path: string, pose: Pose2d)
    ensures AddDashboardData(p, path, Pose(pose)).data
            == p.data + map[path + "/.type" := Text("Pose2d")]
              + Flatten(path + "/translation", Trans(pose.translation))
              + Flatten(path + "/rotation", Rot(pose.rotation))
  {
    var typed := Put(p, path + "/.type", Text("Pose2d"));
    var withTranslation := AddDashboardData(typed, path + "/translation", Trans(pose.translation));
    assert AddDashboardData(p, path, Pose(pose)) == AddDashboardData(withTranslation, path + "/rotation", Rot(pose.rotation));
    TransIsFlatten(typed, path + "/translation", pose.translation);
    RotIsFlatten(withTranslation, path + "/rotation", pose.rotation);
  }

  lemma UnionAssociative<K, V>(a: map<K, V>, b: map<K, V>, c: map<K, V>)
    ensures a + b + c == a + (b + c)
  {
  }

  lemma RotIsFlatten(p: Packet, path: string, rotation: Rotation2d)
    ensures AddDashboardData(p, path, Rot(rotation)).data == p.data + Flatten(path, Rot(rotation))
  {
  }

  lemma TransIsFlatten(p: Packet, path: string, t: Translation2d)
    ensures AddDashboardData(p, path, Trans(t)).data == p.data + Flatten(path, Trans(t))
  {
  }

  lemma SpeedsIsFlatten(p: Packet, path: string, c: ChassisSpeeds)
    ensures AddDashboardData(p, path, Speeds(c)).data == p.data + Flatten(path, Speeds(c))
  {
    var d := p.data;
    var a0, a1, a2, a3 := path + "/.type", path + "/vx", path + "/vy", path + "/omega";
    var v0, v1, v2, v3 := Text("ChassisSpeeds"), Number(c.vx), Number(c.vy), Number(c.omega);
    UpdateUnion(d, map[], a0, v0);
    UpdateUnion(d, map[a0 := v0], a1, v1);
    UpdateUnion(d, map[a0 := v0, a1 := v1], a2, v2);
    UpdateUnion(d, map[a0 := v0, a1 := v1, a2 := v2], a3, v3);
    assert d + map[] == d;
  }

  lemma UpdateUnion<K, V>(d: map<K, V>, f: map<K, V>, k: K, v: V)
    ensures d + f[k := v] == (d + f)[k := v]
  {
  }

  /** The nested flattenings of a pose's parts, put after its ".type" key, give the pose's
      reference keys. */
  lemma PoseKeys(path: string, pose: Pose2d)
    ensures map[path + "/.type" := Text("Pose2d")]
            + Flatten(path + "/translation", Trans(pose.translation))
            + Flatten(path + "/rotation", Rot(pose.rotation))
            == Flatten(path, Pose(pose))
  {
    assert (path + "/translation") + "/.type" == path + "/translation/.type";
    assert (path + "/translation") + "/x" == path + "/translation/x";
    assert (path + "/translation") + "/y" == path + "/translation/y";
    assert (path + "/rotation") + "/.type" == path + "/rotation/.type";
    assert (path + "/rotation") + "/value" == path + "/rotation/value";
  }

  /** Every key written starts with the path. */
  lemma FlattenKeysUnderPath(path: string, v: Value)
    ensures forall k :: k in Flatten(path, v) ==> |path| <= |k| && k[..|path|] == path
  {
    forall k | k in Flatten(path, v)
      ensures |path| <= |k| && k[..|path|] == path
    {
      var suffix :| suffix in {"", "/.type", "/value", "/x", "/y", "/vx", "/vy", "/omega",
                               "/translation/.type", "/translation/x", "/translation/y",
                               "/rotation/.type", "/rotation/value"} && k == path + suffix;
      assert (path + suffix)[..|path|] == path;
    }
  }

  lemma DistinctSuffixes(path: string, a: string, b: string)
    requires a != b
    ensures path + a != path + b
  {
    assert (path + a)[|path|..] == a;
    assert (path + b)[|path|..] == b;
  }

  /** A Pose2d flattens to six distinct keys. */
  lemma PoseHasSixKeys(path: string, pose: Pose2d)
    ensures |Flatten(path, Pose(pose)).Keys| == 6
  {
    var s := ["/.type", "/translation/.type", "/translation/x", "/translation/y", "/rotation/.type", "/rotation/value"];
    forall i, j | 0 <= i < j < |s|
      ensures path + s[i] != path + s[j]
    {
      DistinctSuffixes(path, s[i], s[j]);
    }
    var keys := Flatten(path, Pose(pose)).Keys;
    assert keys == {path + s[0], path + s[1], path + s[2], path + s[3], path + s[4], path + s[5]};
  }

  /** A value of no recognised type is stored under the path itself and nothing else. */
  lemma OtherStoredUnderPath(p: Packet, path: string, v: Value)
    requires !(v.Rot? || v.Trans? || v.Pose? || v.Speeds?)
    ensures AddDashboardData(p, path, v).data == p.data[path := v]
  {
  }

  /** addDashboardData works on the packet whether or not driver-station telemetry is set. */
  function AddDashboardDataTo(s: State, path: string, v: Value): (r: State)
    ensures r.ds == s.ds && r.sent == s.sent
    ensures r.packet.data == s.packet.data + Flatten(path, v)
  {
    AddIsFlatten(s.packet, path, v);
    s.(packet := AddDashboardData(s.packet, path, v))
  }
}
