/** The asset definition records and their two constructors each, one per
    reader (`AssetManager.cpp` lines 11-175).  The JSON constructors can throw
    (a `Failure`: the loader then skips the file); the XML ones never fail and
    fall back to a default for every missing field.  The numeric defaults are
    the named constants below, shared by both readers. */
module AssetRecords {
  import opened Wrappers
  import opened Documents

  datatype WeaponData = WeaponData(munition: string, damage: real, lifetime: real, cooldown: real, radius: real)

  datatype EngineData = EngineData(texture: string, thrust: real, rotation: real)

  /** A weapon or engine slot of a ship: `ShipWeaponData` / `ShipEngineData`. */
  datatype Mount = Mount(kind: string, x: real, y: real)

  datatype ShipData = ShipData(texture: string, maxSpeed: real, radius: real, weapons: seq<Mount>, engines: seq<Mount>)

  datatype BackgroundData = BackgroundData(image: string, layer: int)

  datatype MapShip = MapShip(shipType: string, x: real, y: real, affiliation: string)

  datatype MapObject = MapObject(texture: string, x: real, y: real, layer: int)

  datatype MapData = MapData(name: string, backgrounds: seq<BackgroundData>, ships: seq<MapShip>, objects: seq<MapObject>)

  datatype PlayerStart = PlayerStart(shipType: string, x: real, y: real)

  datatype StartData = StartData(name: string, initialMap: string, player: PlayerStart)

  datatype Relation = Relation(faction: string, relation: int)

  datatype AffiliationData = AffiliationData(name: string, relations: seq<Relation>)

  /** A texture handle: a file loaded from `path`, or the shared placeholder. */
  datatype Texture = Loaded(path: string) | Placeholder

  const DefaultThrust: real := 20.0
  const DefaultEngineRotation: real := 180.0
  const DefaultMaxSpeed: real := 400.0

  // ---------------- JSON constructors ----------------

  function WeaponFromJson(d: Doc): Result<WeaponData, string>
  {
    var munition :- JsonStringOr(d, "munition", "");
    var damage :- JsonNumberOr(d, "damage", 0.0);
    var lifetime :- JsonNumberOr(d, "lifetime", 0.0);
    var cooldown :- JsonNumberOr(d, "cooldown", 0.0);
    var radius :- JsonNumberOr(d, "radius", 0.0);
    Success(WeaponData(munition, damage, lifetime, cooldown, radius))
  }

  function EngineFromJson(d: Doc): Result<EngineData, string>
  {
    var texture :- JsonStringOr(d, "texture", "");
    var thrust :- JsonNumberOr(d, "thrust", DefaultThrust);
    var rotation :- JsonNumberOr(d, "rotation", DefaultEngineRotation);
    Success(EngineData(texture, thrust, rotation))
  }

  /** One `{type, x, y}` entry: all three are required (`at`). */
  function MountFromJson(e: Doc): Result<Mount, string>
  {
    var kind :- JsonString(e, "type");
    var x :- JsonNumber(e, "x");
    var y :- JsonNumber(e, "y");
    Success(Mount(kind, x, y))
  }

  function MountsFromJson(es: seq<Doc>): (r: Result<seq<Mount>, string>)
    ensures r.Success? <==> forall i :: 0 <= i < |es| ==> MountFromJson(es[i]).Success?
    ensures r.Success? ==> |r.value| == |es| && forall i :: 0 <= i < |es| ==> MountFromJson(es[i]) == Success(r.value[i])
  {
    if es == [] then Success([])
    else
      var m :- MountFromJson(es[0]);
      var rest :- MountsFromJson(es[1..]);
      Success([m] + rest)
  }

  function ShipFromJson(d: Doc): Result<ShipData, string>
  {
    var texture :- JsonStringOr(d, "texture", "");
    var maxSpeed :- JsonNumberOr(d, "max_speed", DefaultMaxSpeed);
    var radius :- JsonNumberOr(d, "radius", 0.0);
    var weaponEntries :- JsonEntries(d, "weapons");
    var weapons :- MountsFromJson(weaponEntries);
    var engineEntries :- JsonEntries(d, "engines");
    var engines :- MountsFromJson(engineEntries);
    Success(ShipData(texture, maxSpeed, radius, weapons, engines))
  }

  function BackgroundsFromJson(es: seq<Doc>): Result<seq<BackgroundData>, string>
  {
    if es == [] then Success([])
    else
      var image :- JsonString(es[0], "image");
      var layer :- JsonInt(es[0], "layer");
      var rest :- BackgroundsFromJson(es[1..]);
      Success([BackgroundData(image, layer)] + rest)
  }

  function MapShipsFromJson(es: seq<Doc>): Result<seq<MapShip>, string>
  {
    if es == [] then Success([])
    else
      var shipType :- JsonString(es[0], "type");
      var x :- JsonNumber(es[0], "x");
      var y :- JsonNumber(es[0], "y");
      var affiliation :- JsonString(es[0], "affiliation");
      var rest :- MapShipsFromJson(es[1..]);
      Success([MapShip(shipType, x, y, affiliation)] + rest)
  }

  function ObjectsFromJson(es: seq<Doc>): Result<seq<MapObject>, string>
  {
    if es == [] then Success([])
    else
      var texture :- JsonString(es[0], "texture");
      var x :- JsonNumber(es[0], "x");
      var y :- JsonNumber(es[0], "y");
      var layer :- JsonInt(es[0], "layer");
      var rest :- ObjectsFromJson(es[1..]);
      Success([MapObject(texture, x, y, layer)] + rest)
  }

  /** The map key that the loader reads before constructing: `meta.name`. */
  function MapKeyFromJson(d: Doc): Result<string, string>
  {
    var meta :- JsonObject(d, "meta");
    JsonString(meta, "name")
  }

  function MapFromJson(d: Doc): Result<MapData, string>
  {
    var name :- MapKeyFromJson(d);
    var bgEntries :- JsonEntries(d, "backgrounds");
    var backgrounds :- BackgroundsFromJson(bgEntries);
    var shipEntries :- JsonEntries(d, "ships");
    var ships :- MapShipsFromJson(shipEntries);
    var objectEntries :- JsonEntries(d, "objects");
    var objects :- ObjectsFromJson(objectEntries);
    Success(MapData(name, backgrounds, ships, objects))
  }

  function StartFromJson(d: Doc): Result<StartData, string>
  {
    var name :- JsonString(d, "name");
    var initialMap :- JsonString(d, "initial map");
    var player :- JsonObject(d, "player");
    var shipType :- JsonString(player, "ship_type");
    var x :- JsonNumber(player, "x");
    var y :- JsonNumber(player, "y");
    Success(StartData(name, initialMap, PlayerStart(shipType, x, y)))
  }

  function RelationsFromJson(es: seq<Doc>): Result<seq<Relation>, string>
  {
    if es == [] then Success([])
    else
      var faction :- JsonString(es[0], "relation_name");
      var relation :- JsonInt(es[0], "relation");
      var rest :- RelationsFromJson(es[1..]);
      Success([Relation(faction, relation)] + rest)
  }

  function AffiliationFromJson(d: Doc): Result<AffiliationData, string>
  {
    var name :- JsonString(d, "name");
    var entries :- JsonEntries(d, "relations");
    var relations :- RelationsFromJson(entries);
    Success(AffiliationData(name, relations))
  }

  // ---------------- XML constructors (the document is the root element) ----------------

  function WeaponFromXml(d: Doc): WeaponData
  {
    WeaponData(XmlString(d, "munition", ""), XmlNumber(d, "damage", 0.0), XmlNumber(d, "lifetime", 0.0),
               XmlNumber(d, "cooldown", 0.0), XmlNumber(d, "radius", 0.0))
  }

  function EngineFromXml(d: Doc): EngineData
  {
    EngineData(XmlString(d, "texture", ""), XmlNumber(d, "thrust", DefaultThrust),
               XmlNumber(d, "rotation", DefaultEngineRotation))
  }

  /** One `<weapons>`/`<engines>` child: missing parts read as "" and 0. */
  function MountFromXml(e: Doc): Mount
  {
    Mount(XmlString(e, "type", ""), XmlNumber(e, "x", 0.0), XmlNumber(e, "y", 0.0))
  }

  function MountsFromXml(es: seq<Doc>): (r: seq<Mount>)
    ensures |r| == |es|
    ensures forall i :: 0 <= i < |es| ==> r[i] == MountFromXml(es[i])
  {
    if es == [] then [] else [MountFromXml(es[0])] + MountsFromXml(es[1..])
  }

  function ShipFromXml(d: Doc): ShipData
  {
    ShipData(XmlString(d, "texture", ""), XmlNumber(d, "max_speed", DefaultMaxSpeed), XmlNumber(d, "radius", 0.0),
             MountsFromXml(XmlEntries(d, "weapons")), MountsFromXml(XmlEntries(d, "engines")))
  }

  function MapKeyFromXml(d: Doc): string
  {
    XmlString(XmlChild(d, "meta"), "name", "")
  }

  function MapFromXml(d: Doc): MapData
  {
    MapData(
      MapKeyFromXml(d),
      seq(|XmlEntries(d, "backgrounds")|, i requires 0 <= i < |XmlEntries(d, "backgrounds")| =>
        var e := XmlEntries(d, "backgrounds")[i];
        BackgroundData(XmlString(e, "image", ""), XmlInt(e, "layer", 0))),
      seq(|XmlEntries(d, "ships")|, i requires 0 <= i < |XmlEntries(d, "ships")| =>
        var e := XmlEntries(d, "ships")[i];
        MapShip(XmlString(e, "type", ""), XmlNumber(e, "x", 0.0), XmlNumber(e, "y", 0.0), XmlString(e, "affiliation", ""))),
      seq(|XmlEntries(d, "objects")|, i requires 0 <= i < |XmlEntries(d, "objects")| =>
        var e := XmlEntries(d, "objects")[i];
        MapObject(XmlString(e, "texture", ""), XmlNumber(e, "x", 0.0), XmlNumber(e, "y", 0.0), XmlInt(e, "layer", 0))))
  }

  function StartFromXml(d: Doc): StartData
  {
    var player := XmlChild(d, "player");
    StartData(XmlString(d, "name", ""), XmlString(d, "initial map", ""),
              PlayerStart(XmlString(player, "ship_type", ""), XmlNumber(player, "x", 0.0), XmlNumber(player, "y", 0.0)))
  }

  function AffiliationFromXml(d: Doc): AffiliationData
  {
    AffiliationData(
      XmlString(d, "name", ""),
      seq(|XmlEntries(d, "relations")|, i requires 0 <= i < |XmlEntries(d, "relations")| =>
        var e := XmlEntries(d, "relations")[i];
        Relation(XmlString(e, "relation_name", ""), XmlInt(e, "relation", 0))))
  }

  // ---------------- Properties of the readers ----------------

  /** A field that is absent gets the same default from both readers:
      engine thrust 20 and rotation 180, ship max speed 400 and radius 0,
      weapon munition "" and every numeric weapon field 0. */
  lemma MissingFieldsDefault(d: Doc)
    ensures "thrust" !in d ==> (EngineFromXml(d).thrust == DefaultThrust == 20.0 &&
      (EngineFromJson(d).Success? ==> EngineFromJson(d).value.thrust == 20.0))
    ensures "rotation" !in d ==> (EngineFromXml(d).rotation == DefaultEngineRotation == 180.0 &&
      (EngineFromJson(d).Success? ==> EngineFromJson(d).value.rotation == 180.0))
    ensures "max_speed" !in d ==> (ShipFromXml(d).maxSpeed == DefaultMaxSpeed == 400.0 &&
      (ShipFromJson(d).Success? ==> ShipFromJson(d).value.maxSpeed == 400.0))
    ensures "radius" !in d ==> (ShipFromXml(d).radius == 0.0 && WeaponFromXml(d).radius == 0.0 &&
      (ShipFromJson(d).Success? ==> ShipFromJson(d).value.radius == 0.0) &&
      (WeaponFromJson(d).Success? ==> WeaponFromJson(d).value.radius == 0.0))
    ensures "munition" !in d ==> (WeaponFromXml(d).munition == "" &&
      (WeaponFromJson(d).Success? ==> WeaponFromJson(d).value.munition == ""))
    ensures "damage" !in d && "lifetime" !in d && "cooldown" !in d ==>
      (WeaponFromXml(d).damage == WeaponFromXml(d).lifetime == WeaponFromXml(d).cooldown == 0.0 &&
      (WeaponFromJson(d).Success? ==>
        WeaponFromJson(d).value.damage == WeaponFromJson(d).value.lifetime == WeaponFromJson(d).value.cooldown == 0.0))
  {
  }

  /** An empty document: the JSON readers succeed, and with the XML readers
      they give exactly the all-defaults records. */
  lemma EmptyDocumentDefaults()
    ensures WeaponFromJson(map[]) == Success(WeaponFromXml(map[])) == Success(WeaponData("", 0.0, 0.0, 0.0, 0.0))
    ensures EngineFromJson(map[]) == Success(EngineFromXml(map[])) == Success(EngineData("", 20.0, 180.0))
    ensures ShipFromJson(map[]) == Success(ShipFromXml(map[])) == Success(ShipData("", 400.0, 0.0, [], []))
  {
  }

  predicate IsNumber(n: Node)
  {
    n.Int? || n.Real?
  }

  /** Every field that is present has the kind its reader expects. */
  predicate TypedOptional(d: Doc, strings: set<string>, numbers: set<string>)
  {
    (forall k :: k in strings && k in d ==> d[k].Text?) &&
    (forall k :: k in numbers && k in d ==> IsNumber(d[k]))
  }

  /** A complete `{type, x, y}` entry. */
  predicate CompleteMount(n: Node)
  {
    n.Tree? && "type" in n.fields && n.fields["type"].Text? &&
    "x" in n.fields && IsNumber(n.fields["x"]) && "y" in n.fields && IsNumber(n.fields["y"])
  }

  predicate CompleteMountList(d: Doc, k: string)
  {
    k in d ==> d[k].List? && forall i :: 0 <= i < |d[k].items| ==> CompleteMount(d[k].items[i])
  }

  lemma {:induction false} MountReadersAgree(items: seq<Node>, k: string)
    requires forall i :: 0 <= i < |items| ==> CompleteMount(items[i])
    ensures EntriesOf(items, k).Success?
    ensures MountsFromJson(EntriesOf(items, k).value) == Success(MountsFromXml(XmlEntriesOf(items)))
  {
    if items != [] {
      MountReadersAgree(items[1..], k);
    }
  }

  /** The two ship readers agree field for field on every well-formed document:
      optional fields may be missing, but every weapon/engine entry is complete. */
  lemma ShipReadersAgree(d: Doc)
    requires TypedOptional(d, {"texture"}, {"max_speed", "radius"})
    requires CompleteMountList(d, "weapons") && CompleteMountList(d, "engines")
    ensures ShipFromJson(d) == Success(ShipFromXml(d))
  {
    if "weapons" in d {
      MountReadersAgree(d["weapons"].items, "weapons");
    }
    if "engines" in d {
      MountReadersAgree(d["engines"].items, "engines");
    }
  }

  /** The two weapon readers agree on every document whose present fields
      have the expected kinds. */
  lemma WeaponReadersAgree(d: Doc)
    requires TypedOptional(d, {"munition"}, {"damage", "lifetime", "cooldown", "radius"})
    ensures WeaponFromJson(d) == Success(WeaponFromXml(d))
  {
    assert "munition" in d ==> d["munition"].Text?;
    assert "damage" in d ==> IsNumber(d["damage"]);
    assert "lifetime" in d ==> IsNumber(d["lifetime"]);
    assert "cooldown" in d ==> IsNumber(d["cooldown"]);
    assert "radius" in d ==> IsNumber(d["radius"]);
  }

  /** The two engine readers agree on every document whose present fields
      have the expected kinds. */
  lemma EngineReadersAgree(d: Doc)
    requires TypedOptional(d, {"texture"}, {"thrust", "rotation"})
    ensures EngineFromJson(d) == Success(EngineFromXml(d))
  {
    assert "texture" in d ==> d["texture"].Text?;
    assert "thrust" in d ==> IsNumber(d["thrust"]);
    assert "rotation" in d ==> IsNumber(d["rotation"]);
  }

  /** An entry of `k` that is an object without `type`, `x` or `y`. */
  predicate IncompleteMountAt(d: Doc, k: string, i: nat)
  {
    k in d && d[k].List? && i < |d[k].items| && d[k].items[i].Tree? &&
    ("type" !in d[k].items[i].fields || "x" !in d[k].items[i].fields || "y" !in d[k].items[i].fields)
  }

  /** The JSON ship reader reads every weapon and engine entry with `at`: one
      entry missing any of `type`, `x` and `y` makes the whole file fail. */
  lemma IncompleteMountFails(d: Doc, k: string, i: nat)
    requires k == "weapons" || k == "engines"
    requires IncompleteMountAt(d, k, i)
    ensures ShipFromJson(d).Failure?
  {
    var items := d[k].items;
    var entries := EntriesOf(items, k);
    if entries.Success? {
      assert entries.value[i] == items[i].fields;
      assert MountFromJson(entries.value[i]).Failure?;
      assert MountsFromJson(entries.value).Failure?;
    }
    assert JsonEntries(d, k) == entries;
  }

  /** Where the readers part ways: an object entry of `weapons` without `x`
      makes the JSON ship reader fail (the file is skipped), while the XML
      reader keeps the mount and reads its x as 0. */
  lemma ReadersDisagreeOnIncompleteMount(d: Doc, i: nat)
    requires IncompleteMountAt(d, "weapons", i) && "x" !in d["weapons"].items[i].fields
    ensures ShipFromJson(d).Failure?
    ensures i < |ShipFromXml(d).weapons| && ShipFromXml(d).weapons[i].x == 0.0
  {
    IncompleteMountFails(d, "weapons", i);
    var es := XmlEntries(d, "weapons");
    assert es[i] == d["weapons"].items[i].fields;
  }
}
