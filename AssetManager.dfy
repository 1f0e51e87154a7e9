/** The asset and faction store of `AssetManager.cpp`: typed definition maps
    filled by one scan of the asset directory, a texture table, and the faction
    tables built after the scan.  The directory walk and the two parsers are
    outside the model: `load_assets` receives the walked entries, each with its
    parsed document (`None` when the parser rejected the file). */
module AssetStore {
  import opened Wrappers
  import opened Documents
  import opened AssetRecords
  import opened Paths

  datatype DirEntry = DirEntry(path: string, regular: bool, doc: Option<Doc>)

  datatype Kind = StartFile | MapFile | EngineFile | WeaponFile | ShipFile | AffiliationFile | TextureFile | OtherFile

  /** The `else if` chain of the scan loop. */
  function KindOf(e: DirEntry): Kind
  {
    if IsOfAssetType(e.path, e.regular, "start") then StartFile
    else if IsOfAssetType(e.path, e.regular, "map") then MapFile
    else if IsOfAssetType(e.path, e.regular, "engine") then EngineFile
    else if IsOfAssetType(e.path, e.regular, "weapon") then WeaponFile
    else if IsOfAssetType(e.path, e.regular, "ship") then ShipFile
    else if IsOfAssetType(e.path, e.regular, "affiliation") then AffiliationFile
    else if IsTextureFile(e.path, e.regular) then TextureFile
    else OtherFile
  }

  // ---- What one entry adds: a keyed record, or nothing (skipped) ----

  /** The record one directory entry yields in the scan loop. */
  datatype Entry =
    | StartRecord(key: string, start: StartData)
    | MapRecord(key: string, mapData: MapData)
    | EngineRecord(key: string, engine: EngineData)
    | WeaponRecord(key: string, weapon: WeaponData)
    | ShipRecord(key: string, ship: ShipData)
    | AffiliationRecord(affiliation: AffiliationData)
    | TextureRecord(key: string, texturePath: string)
    | Skipped

  /** One pass of the scan loop's `else if` chain: start and map files are
      keyed by a field of their content, engine, weapon and ship files by their
      file name; a document the parser rejected, or a JSON document missing a
      required field, is skipped.  Image files are not parsed. */
  function Classify(e: DirEntry): (r: Entry)
    ensures r.StartRecord? ==> KindOf(e) == StartFile && e.doc.Some? && r.key == r.start.name
    ensures r.MapRecord? ==> KindOf(e) == MapFile && e.doc.Some? && r.key == r.mapData.name
    ensures r.EngineRecord? ==> KindOf(e) == EngineFile && e.doc.Some? && r.key == AssetNameFromFilename(e.path)
    ensures r.WeaponRecord? ==> KindOf(e) == WeaponFile && e.doc.Some? && r.key == AssetNameFromFilename(e.path)
    ensures r.ShipRecord? ==> KindOf(e) == ShipFile && e.doc.Some? && r.key == AssetNameFromFilename(e.path)
    ensures r.AffiliationRecord? ==> KindOf(e) == AffiliationFile && e.doc.Some?
    ensures r.TextureRecord? <==> KindOf(e) == TextureFile
    ensures r.TextureRecord? ==> r.key == TextureName(e.path) && r.texturePath == e.path
    ensures KindOf(e) == OtherFile ==> r.Skipped?
  {
    match KindOf(e)
    case TextureFile => TextureRecord(TextureName(e.path), e.path)
    case OtherFile => Skipped
    case _ =>
      if e.doc.None? then Skipped
      else
        var d := e.doc.value;
        var xml := IsXml(e.path);
        var name := AssetNameFromFilename(e.path);
        match KindOf(e)
        case StartFile =>
          if xml then StartRecord(StartFromXml(d).name, StartFromXml(d))
          else (match StartFromJson(d) case Success(s) => StartRecord(s.name, s) case Failure(_) => Skipped)
        case MapFile =>
          if xml then MapRecord(MapKeyFromXml(d), MapFromXml(d))
          else (match MapFromJson(d) case Success(m) => MapRecord(m.name, m) case Failure(_) => Skipped)
        case EngineFile =>
          if xml then EngineRecord(name, EngineFromXml(d))
          else (match EngineFromJson(d) case Success(x) => EngineRecord(name, x) case Failure(_) => Skipped)
        case WeaponFile =>
          if xml then WeaponRecord(name, WeaponFromXml(d))
          else (match WeaponFromJson(d) case Success(x) => WeaponRecord(name, x) case Failure(_) => Skipped)
        case ShipFile =>
          if xml then ShipRecord(name, ShipFromXml(d))
          else (match ShipFromJson(d) case Success(x) => ShipRecord(name, x) case Failure(_) => Skipped)
        case AffiliationFile =>
          if xml then AffiliationRecord(AffiliationFromXml(d))
          else (match AffiliationFromJson(d) case Success(a) => AffiliationRecord(a) case Failure(_) => Skipped)
        case _ => Skipped
  }

  function StartEntry(e: DirEntry): Option<(string, StartData)>
  {
    match Classify(e) case StartRecord(k, s) => Some((k, s)) case _ => None
  }

  function MapEntry(e: DirEntry): Option<(string, MapData)>
  {
    match Classify(e) case MapRecord(k, m) => Some((k, m)) case _ => None
  }

  function EngineEntry(e: DirEntry): Option<(string, EngineData)>
  {
    match Classify(e) case EngineRecord(k, x) => Some((k, x)) case _ => None
  }

  function WeaponEntry(e: DirEntry): Option<(string, WeaponData)>
  {
    match Classify(e) case WeaponRecord(k, x) => Some((k, x)) case _ => None
  }

  function ShipEntry(e: DirEntry): Option<(string, ShipData)>
  {
    match Classify(e) case ShipRecord(k, x) => Some((k, x)) case _ => None
  }

  function AffiliationEntry(e: DirEntry): Option<AffiliationData>
  {
    match Classify(e) case AffiliationRecord(a) => Some(a) case _ => None
  }

  function TextureEntry(e: DirEntry): Option<(string, string)>
  {
    match Classify(e) case TextureRecord(k, p) => Some((k, p)) case _ => None
  }

  // ---- Folds over the scan ----

  /** The contributions of the entries, in scan order. */
  function Collect<T>(es: seq<DirEntry>, f: DirEntry -> Option<T>): seq<T>
  {
    if es == [] then []
    else Collect(es[..|es| - 1], f) + (match f(es[|es| - 1]) case Some(x) => [x] case None => [])
  }

  /** `std::unordered_map::emplace`: an existing key is kept. */
  function Emplace<V>(m: map<string, V>, kv: (string, V)): map<string, V>
  {
    if kv.0 in m then m else m[kv.0 := kv.1]
  }

  function EmplaceAll<V>(m: map<string, V>, kvs: seq<(string, V)>): map<string, V>
  {
    if kvs == [] then m else Emplace(EmplaceAll(m, kvs[..|kvs| - 1]), kvs[|kvs| - 1])
  }

  /** `m_texture_map[name] = index`: a later texture of the same name wins. */
  function TextureIndex(ts: seq<(string, string)>): map<string, nat>
  {
    if ts == [] then map[] else TextureIndex(ts[..|ts| - 1])[ts[|ts| - 1].0 := |ts| - 1]
  }

  /** The texture table: one loaded texture per image file, in scan order. */
  function LoadedTextures(ts: seq<(string, string)>): (r: seq<Texture>)
    ensures |r| == |ts|
    ensures forall i :: 0 <= i < |ts| ==> r[i] == Loaded(ts[i].1)
  {
    if ts == [] then [] else LoadedTextures(ts[..|ts| - 1]) + [Loaded(ts[|ts| - 1].1)]
  }

  /** The (name, id) pairs handed to `m_faction_name_to_id.emplace`. */
  function FactionIds(raw: seq<AffiliationData>): (r: seq<(string, nat)>)
    ensures |r| == |raw| && forall i :: 0 <= i < |raw| ==> r[i] == (raw[i].name, i)
  {
    seq(|raw|, i requires 0 <= i < |raw| => (raw[i].name, i as nat))
  }

  function FactionNames(raw: seq<AffiliationData>): (r: seq<string>)
    ensures |r| == |raw| && forall i :: 0 <= i < |raw| ==> r[i] == raw[i].name
  {
    seq(|raw|, i requires 0 <= i < |raw| => raw[i].name)
  }

  /** One row of the relation table: starting from `row`, each listed relation
      toward a known faction overwrites its cell, in list order. */
  function ApplyRelations(row: seq<int>, rels: seq<Relation>, ids: map<string, nat>): (r: seq<int>)
    ensures |r| == |row|
  {
    if rels == [] then row
    else
      var r := ApplyRelations(row, rels[..|rels| - 1], ids);
      var last := rels[|rels| - 1];
      if last.faction in ids && ids[last.faction] < |r| then r[ids[last.faction] := last.relation] else r
  }

  /** The value of the last relation in `rels` toward faction id `t`, else 0. */
  function LastRelation(rels: seq<Relation>, ids: map<string, nat>, t: nat): int
  {
    if rels == [] then 0
    else
      var last := rels[|rels| - 1];
      if last.faction in ids && ids[last.faction] == t then last.relation
      else LastRelation(rels[..|rels| - 1], ids, t)
  }

  predicate KnownTargets(rels: seq<Relation>, ids: map<string, nat>)
  {
    forall j :: 0 <= j < |rels| ==> rels[j].faction in ids
  }

  function Zeros(n: nat): (r: seq<int>)
    ensures |r| == n && forall i :: 0 <= i < n ==> r[i] == 0
  {
    seq(n, i => 0)
  }

  function RelationTable(raw: seq<AffiliationData>, ids: map<string, nat>): (t: seq<seq<int>>)
    ensures |t| == |raw| && forall s :: 0 <= s < |raw| ==> |t[s]| == |raw|
  {
    seq(|raw|, s requires 0 <= s < |raw| => ApplyRelations(Zeros(|raw|), raw[s].relations, ids))
  }

  /** The load stops at relation `j` of faction `s`: every faction before
      `s` and every relation of `s` before `j` names a known faction, and
      relation `j` does not. */
  ghost predicate FirstUnknownAt(raw: seq<AffiliationData>, ids: map<string, nat>, s: int, j: int)
  {
    0 <= s < |raw| && 0 <= j < |raw[s].relations| &&
    (forall p :: 0 <= p < s ==> KnownTargets(raw[p].relations, ids)) &&
    (forall q :: 0 <= q < j ==> raw[s].relations[q].faction in ids) &&
    raw[s].relations[j].faction !in ids
  }

  /** The table a load that stopped at relation `j` of faction `s` leaves:
      the rows before `s` complete, row `s` written up to `j`, the rest zero. */
  function PartialTable(raw: seq<AffiliationData>, ids: map<string, nat>, s: nat, j: nat): (t: seq<seq<int>>)
    requires s < |raw| && j <= |raw[s].relations|
    ensures |t| == |raw|
  {
    seq(|raw|, k requires 0 <= k < |raw| =>
      if k < s then ApplyRelations(Zeros(|raw|), raw[k].relations, ids)
      else if k == s then ApplyRelations(Zeros(|raw|), raw[s].relations[..j], ids)
      else Zeros(|raw|))
  }

  /** There is only one place where a load can stop. */
  lemma FirstUnknownUnique(raw: seq<AffiliationData>, ids: map<string, nat>, s: int, j: int, s': int, j': int)
    requires FirstUnknownAt(raw, ids, s, j) && FirstUnknownAt(raw, ids, s', j')
    ensures s == s' && j == j'
  {
  }

  /** A load stops somewhere exactly when some relation names an unknown
      faction. */
  lemma {:induction false} FirstUnknownExists(raw: seq<AffiliationData>, ids: map<string, nat>)
    ensures (exists s, j :: FirstUnknownAt(raw, ids, s, j)) <==>
      !(forall s :: 0 <= s < |raw| ==> KnownTargets(raw[s].relations, ids))
  {
    if !(forall s :: 0 <= s < |raw| ==> KnownTargets(raw[s].relations, ids)) {
      var s := FirstUnknownSource(raw, ids, 0);
      var j := FirstUnknownRelation(raw[s].relations, ids, 0);
      assert FirstUnknownAt(raw, ids, s, j);
    }
  }

  lemma {:induction false} FirstUnknownSource(raw: seq<AffiliationData>, ids: map<string, nat>, from: nat) returns (s: nat)
    requires from <= |raw| && exists s :: from <= s < |raw| && !KnownTargets(raw[s].relations, ids)
    ensures from <= s < |raw| && !KnownTargets(raw[s].relations, ids)
    ensures forall p :: from <= p < s ==> KnownTargets(raw[p].relations, ids)
    decreases |raw| - from
  {
    if KnownTargets(raw[from].relations, ids) {
      s := FirstUnknownSource(raw, ids, from + 1);
    } else {
      s := from;
    }
  }

  lemma {:induction false} FirstUnknownRelation(rels: seq<Relation>, ids: map<string, nat>, from: nat) returns (j: nat)
    requires from <= |rels| && !KnownTargets(rels, ids)
    requires forall q :: 0 <= q < from ==> rels[q].faction in ids
    ensures from <= j < |rels| && rels[j].faction !in ids && forall q :: 0 <= q < j ==> rels[q].faction in ids
    decreases |rels| - from
  {
    if rels[from].faction in ids {
      j := FirstUnknownRelation(rels, ids, from + 1);
    } else {
      j := from;
    }
  }

  function Digit(d: nat): char
    requires d < 10
  {
    "0123456789"[d]
  }

  function NatToString(n: nat): string
  {
    if n < 10 then [Digit(n)] else NatToString(n / 10) + [Digit(n % 10)]
  }

  function UnknownFactionMessage(source: string, target: string): string
  {
    "Faction '" + source + "' has relation toward unknown faction '" + target + "'"
  }

  // ---- Lemmas about the folds ----

  lemma {:induction false} CollectAppend<T>(a: seq<DirEntry>, b: seq<DirEntry>, f: DirEntry -> Option<T>)
    ensures Collect(a + b, f) == Collect(a, f) + Collect(b, f)
    decreases |b|
  {
    if b == [] {
      assert a + b == a;
    } else {
      assert (a + b)[..|a + b| - 1] == a + b[..|b| - 1];
      CollectAppend(a, b[..|b| - 1], f);
    }
  }

  lemma CollectSingle<T>(e: DirEntry, f: DirEntry -> Option<T>)
    ensures Collect([e], f) == (match f(e) case Some(x) => [x] case None => [])
  {
    assert [e][..0] == [];
  }

  /** A file that contributes nothing (a parse failure, a file of no kind) can
      be removed from the scan without changing what any other file adds. */
  lemma CollectSkipsInert<T>(a: seq<DirEntry>, e: DirEntry, b: seq<DirEntry>, f: DirEntry -> Option<T>)
    requires f(e).None?
    ensures Collect(a + [e] + b, f) == Collect(a + b, f)
  {
    CollectAppend(a + [e], b, f);
    CollectAppend(a, [e], f);
    CollectSingle(e, f);
    CollectAppend(a, b, f);
  }

  /** A file the parser rejected is skipped, and only that file. */
  lemma ParseFailureSkipsOnlyThatFile(a: seq<DirEntry>, e: DirEntry, b: seq<DirEntry>)
    requires e.doc.None? && KindOf(e) != TextureFile
    ensures Collect(a + [e] + b, StartEntry) == Collect(a + b, StartEntry)
    ensures Collect(a + [e] + b, MapEntry) == Collect(a + b, MapEntry)
    ensures Collect(a + [e] + b, EngineEntry) == Collect(a + b, EngineEntry)
    ensures Collect(a + [e] + b, WeaponEntry) == Collect(a + b, WeaponEntry)
    ensures Collect(a + [e] + b, ShipEntry) == Collect(a + b, ShipEntry)
    ensures Collect(a + [e] + b, AffiliationEntry) == Collect(a + b, AffiliationEntry)
    ensures Collect(a + [e] + b, TextureEntry) == Collect(a + b, TextureEntry)
  {
    CollectSkipsInert(a, e, b, StartEntry);
    CollectSkipsInert(a, e, b, MapEntry);
    CollectSkipsInert(a, e, b, EngineEntry);
    CollectSkipsInert(a, e, b, WeaponEntry);
    CollectSkipsInert(a, e, b, ShipEntry);
    CollectSkipsInert(a, e, b, AffiliationEntry);
    CollectSkipsInert(a, e, b, TextureEntry);
  }

  /** The keys after a run of emplaces: the old ones and every key offered. */
  lemma {:induction false} EmplaceAllKeys<V>(m: map<string, V>, kvs: seq<(string, V)>, k: string)
    ensures k in EmplaceAll(m, kvs) <==> k in m || exists j :: 0 <= j < |kvs| && kvs[j].0 == k
    decreases |kvs|
  {
    if kvs != [] {
      var init := kvs[..|kvs| - 1];
      EmplaceAllKeys(m, init, k);
      if exists j :: 0 <= j < |init| && init[j].0 == k {
        var j :| 0 <= j < |init| && init[j].0 == k;
        assert kvs[j].0 == k;
      }
      if exists j :: 0 <= j < |kvs| && kvs[j].0 == k {
        var j :| 0 <= j < |kvs| && kvs[j].0 == k;
        if j < |init| {
          assert init[j].0 == k;
        }
      }
    }
  }

  /** Emplace never overwrites: a key already present keeps its value. */
  lemma {:induction false} EmplaceAllKeepsExisting<V>(m: map<string, V>, kvs: seq<(string, V)>, k: string)
    requires k in m
    ensures k in EmplaceAll(m, kvs) && EmplaceAll(m, kvs)[k] == m[k]
    decreases |kvs|
  {
    if kvs != [] {
      EmplaceAllKeepsExisting(m, kvs[..|kvs| - 1], k);
    }
  }

  /** First wins: a key offered for the first time at position i keeps the
      value offered there, whatever comes later. */
  lemma {:induction false} EmplaceAllFirstWins<V>(m: map<string, V>, kvs: seq<(string, V)>, i: nat)
    requires i < |kvs| && kvs[i].0 !in m
    requires forall j :: 0 <= j < i ==> kvs[j].0 != kvs[i].0
    ensures kvs[i].0 in EmplaceAll(m, kvs) && EmplaceAll(m, kvs)[kvs[i].0] == kvs[i].1
    decreases |kvs|
  {
    var init := kvs[..|kvs| - 1];
    if i == |kvs| - 1 {
      EmplaceAllKeys(m, init, kvs[i].0);
    } else {
      EmplaceAllFirstWins(m, init, i);
    }
  }

  /** Last wins for textures: the name maps to the last index loaded under it,
      and to nothing when no texture of that name was loaded. */
  lemma {:induction false} TextureIndexLastWins(ts: seq<(string, string)>, name: string)
    ensures name in TextureIndex(ts) <==> exists j :: 0 <= j < |ts| && ts[j].0 == name
    ensures name in TextureIndex(ts) ==> var i := TextureIndex(ts)[name];
      i < |ts| && ts[i].0 == name && forall j :: i < j < |ts| ==> ts[j].0 != name
    decreases |ts|
  {
    if ts != [] {
      var init := ts[..|ts| - 1];
      TextureIndexLastWins(init, name);
      if exists j :: 0 <= j < |init| && init[j].0 == name {
        var j :| 0 <= j < |init| && init[j].0 == name;
        assert ts[j].0 == name;
      }
      if exists j :: 0 <= j < |ts| && ts[j].0 == name {
        var j :| 0 <= j < |ts| && ts[j].0 == name;
        if j < |init| {
          assert init[j].0 == name;
        }
      }
    }
  }

  /** Each cell of a row is the last listed relation toward that faction, or 0. */
  lemma {:induction false} ApplyRelationsCell(n: nat, rels: seq<Relation>, ids: map<string, nat>, t: nat)
    requires t < n
    requires forall k :: k in ids ==> ids[k] < n
    ensures ApplyRelations(Zeros(n), rels, ids)[t] == LastRelation(rels, ids, t)
    decreases |rels|
  {
    if rels != [] {
      ApplyRelationsCell(n, rels[..|rels| - 1], ids, t);
    }
  }

  /** After a successful load: each cell `[s][t]` holds the last relation that
      faction s lists toward faction t, and 0 when it lists none. */
  lemma RelationTableCell(raw: seq<AffiliationData>, ids: map<string, nat>, s: nat, t: nat)
    requires s < |raw| && t < |raw|
    requires forall k :: k in ids ==> ids[k] < |raw|
    ensures RelationTable(raw, ids)[s][t] == LastRelation(raw[s].relations, ids, t)
    ensures (forall j :: 0 <= j < |raw[s].relations| ==>
      raw[s].relations[j].faction !in ids || ids[raw[s].relations[j].faction] != t) ==> RelationTable(raw, ids)[s][t] == 0
  {
    ApplyRelationsCell(|raw|, raw[s].relations, ids, t);
    NoRelationIsZero(raw[s].relations, ids, t);
  }

  lemma {:induction false} NoRelationIsZero(rels: seq<Relation>, ids: map<string, nat>, t: nat)
    ensures (forall j :: 0 <= j < |rels| ==> rels[j].faction !in ids || ids[rels[j].faction] != t) ==>
      LastRelation(rels, ids, t) == 0
    decreases |rels|
  {
    if rels != [] {
      NoRelationIsZero(rels[..|rels| - 1], ids, t);
    }
  }

  /** Faction ids on a fresh store: a name gets the position of its first
      affiliation record, even when later records repeat the name. */
  lemma FirstFactionIdWins(raw: seq<AffiliationData>, j: nat)
    requires j < |raw|
    requires forall k :: 0 <= k < j ==> raw[k].name != raw[j].name
    ensures raw[j].name in EmplaceAll(map[], FactionIds(raw))
    ensures EmplaceAll(map[], FactionIds(raw))[raw[j].name] == j
  {
    EmplaceAllFirstWins(map[], FactionIds(raw), j);
  }

  // ---- The store ----

  class AssetManager {
    var starts: map<string, StartData>
    var maps: map<string, MapData>
    var engines: map<string, EngineData>
    var weapons: map<string, WeaponData>
    var ships: map<string, ShipData>
    var textures: seq<Texture>
    var textureMap: map<string, nat>
    var rawAffiliations: seq<AffiliationData>
    var factionIdToName: seq<string>
    var factionNameToId: map<string, nat>
    var relationTable: seq<seq<int>>

    /** Texture indices are in range, and so are faction ids. */
    ghost predicate Valid()
      reads this
    {
      View().Valid()
    }

    constructor ()
      ensures Valid()
      ensures starts == map[] && maps == map[] && engines == map[] && weapons == map[] && ships == map[]
      ensures textures == [] && textureMap == map[]
      ensures rawAffiliations == [] && factionIdToName == [] && factionNameToId == map[] && relationTable == []
    {
      starts, maps, engines, weapons, ships := map[], map[], map[], map[], map[];
      textures, textureMap := [], map[];
      rawAffiliations, factionIdToName, factionNameToId, relationTable := [], [], map[], [];
    }

    /** `unload_all`: the textures and the five definition maps are emptied;
        the faction state is left as it is. */
    method UnloadAll()
      requires Valid()
      modifies this
      ensures Valid()
      ensures starts == map[] && maps == map[] && engines == map[] && weapons == map[] && ships == map[]
      ensures textures == [] && textureMap == map[]
      ensures rawAffiliations == old(rawAffiliations) && factionIdToName == old(factionIdToName)
      ensures factionNameToId == old(factionNameToId) && relationTable == old(relationTable)
    {
      textures, textureMap := [], map[];
      ships, weapons, engines, maps, starts := map[], map[], map[], map[], map[];
      assert View().textureMap == map[] && View().factionNameToId == old(View().factionNameToId);
    }

    /** `load_assets`.  `root` is the walked asset directory, `None` when it
        does not exist (the source then throws after unloading). */
    method LoadAssets(root: Option<seq<DirEntry>>) returns (outcome: Outcome<string>)
      requires Valid()
      modifies this
      ensures Valid()
      ensures root.None? ==> outcome == Fail("Assets directory not found!")
      ensures root.None? ==> (starts == map[] && maps == map[] && engines == map[] && weapons == map[] && ships == map[] &&
        textures == [] && textureMap == map[] && rawAffiliations == old(rawAffiliations) &&
        factionIdToName == old(factionIdToName) && factionNameToId == old(factionNameToId) &&
        relationTable == old(relationTable))
      ensures root.Some? ==> var es := root.value;
        starts == EmplaceAll(map[], Collect(es, StartEntry)) &&
        maps == EmplaceAll(map[], Collect(es, MapEntry)) &&
        engines == EmplaceAll(map[], Collect(es, EngineEntry)) &&
        weapons == EmplaceAll(map[], Collect(es, WeaponEntry)) &&
        ships == EmplaceAll(map[], Collect(es, ShipEntry)) &&
        textures == LoadedTextures(Collect(es, TextureEntry)) &&
        textureMap == TextureIndex(Collect(es, TextureEntry)) &&
        rawAffiliations == old(rawAffiliations) + Collect(es, AffiliationEntry) &&
        factionIdToName == old(factionIdToName) + FactionNames(rawAffiliations) &&
        factionNameToId == EmplaceAll(old(factionNameToId), FactionIds(rawAffiliations))
      ensures root.Some? ==> (outcome.Pass? <==>
        forall s :: 0 <= s < |rawAffiliations| ==> KnownTargets(rawAffiliations[s].relations, factionNameToId))
      ensures root.Some? && outcome.Pass? ==> relationTable == RelationTable(rawAffiliations, factionNameToId)
      ensures root.Some? && outcome.Fail? ==> exists s, j ::
        FirstUnknownAt(rawAffiliations, factionNameToId, s, j) &&
        outcome.error == UnknownFactionMessage(rawAffiliations[s].name, rawAffiliations[s].relations[j].faction) &&
        relationTable == PartialTable(rawAffiliations, factionNameToId, s, j)
    {
      UnloadAll();
      if root.None? {
        return Fail("Assets directory not found!");
      }
      ScanDirectory(root.value);
      AssignFactionIds();
      outcome := BuildRelationTable();
    }

    /** The scan loop: every entry is classified and its record stored. */
    method ScanDirectory(es: seq<DirEntry>)
      requires Contents() == EmptyCatalogue(rawAffiliations)
      modifies this
      ensures Contents() == Scanned(es, old(rawAffiliations))
      ensures factionIdToName == old(factionIdToName) && factionNameToId == old(factionNameToId)
      ensures relationTable == old(relationTable)
      ensures forall n :: n in textureMap ==> textureMap[n] < |textures|
    {
      ghost var start := Contents();
      var i := 0;
      while i < |es|
        invariant 0 <= i <= |es|
        invariant Contents() == ScanFrom(start, es[..i])
        invariant factionIdToName == old(factionIdToName) && factionNameToId == old(factionNameToId)
        invariant relationTable == old(relationTable)
      {
        assert es[..i + 1][..i] == es[..i];
        ScanEntry(es[i]);
        i := i + 1;
      }
      assert es[..|es|] == es;
      ScanMeaning(es, old(rawAffiliations));
      forall n | n in textureMap
        ensures textureMap[n] < |textures|
      {
        TextureIndexLastWins(Collect(es, TextureEntry), n);
      }
    }

    /** The part of the store the scan fills. */
    function Contents(): Catalogue
      reads this
    {
      Catalogue(starts, maps, engines, weapons, ships, textures, textureMap, rawAffiliations)
    }

    /** One pass of the scan loop's `else if` chain. */
    method ScanEntry(e: DirEntry)
      modifies this
      ensures Contents() == ScanStep(old(Contents()), e)
      ensures factionIdToName == old(factionIdToName) && factionNameToId == old(factionNameToId)
      ensures relationTable == old(relationTable)
    {
      var record := Classify(e);
      StoreRecord(record);
    }

    method StoreRecord(record: Entry)
      modifies this
      ensures Contents() == Store(old(Contents()), record)
      ensures factionIdToName == old(factionIdToName) && factionNameToId == old(factionNameToId)
      ensures relationTable == old(relationTable)
    {
      match record
      case StartRecord(key, start) =>
        starts := if key in starts then starts else starts[key := start];
      case MapRecord(key, mapData) =>
        maps := if key in maps then maps else maps[key := mapData];
      case EngineRecord(key, engine) =>
        engines := if key in engines then engines else engines[key := engine];
      case WeaponRecord(key, weapon) =>
        weapons := if key in weapons then weapons else weapons[key := weapon];
      case ShipRecord(key, ship) =>
        ships := if key in ships then ships else ships[key := ship];
      case AffiliationRecord(affiliation) =>
        rawAffiliations := rawAffiliations + [affiliation];
      case TextureRecord(key, path) =>
        textures := textures + [Loaded(path)];
        textureMap := textureMap[key := |textures| - 1];
      case Skipped =>
    }

    /** Faction ids are the positions in the raw affiliation list; the
        name-to-id map keeps the first id a name received. */
    method AssignFactionIds()
      requires forall n :: n in factionNameToId ==> factionNameToId[n] < |rawAffiliations|
      modifies this
      ensures factionIdToName == old(factionIdToName) + FactionNames(rawAffiliations)
      ensures factionNameToId == EmplaceAll(old(factionNameToId), FactionIds(rawAffiliations))
      ensures forall n :: n in factionNameToId ==> factionNameToId[n] < |rawAffiliations|
      ensures starts == old(starts) && maps == old(maps) && engines == old(engines)
      ensures weapons == old(weapons) && ships == old(ships)
      ensures textures == old(textures) && textureMap == old(textureMap)
      ensures rawAffiliations == old(rawAffiliations) && relationTable == old(relationTable)
    {
      var count := |rawAffiliations|;
      var id := 0;
      while id < count
        invariant 0 <= id <= count
        invariant starts == old(starts) && maps == old(maps) && engines == old(engines)
        invariant weapons == old(weapons) && ships == old(ships)
        invariant textures == old(textures) && textureMap == old(textureMap)
        invariant rawAffiliations == old(rawAffiliations) && relationTable == old(relationTable)
        invariant factionIdToName == old(factionIdToName) + FactionNames(rawAffiliations[..id])
        invariant factionNameToId == EmplaceAll(old(factionNameToId), FactionIds(rawAffiliations[..id]))
      {
        var affiliation := rawAffiliations[id];
        factionIdToName := factionIdToName + [affiliation.name];
        factionNameToId := if affiliation.name in factionNameToId then factionNameToId
                           else factionNameToId[affiliation.name := id];
        assert FactionIds(rawAffiliations[..id + 1])[..id] == FactionIds(rawAffiliations[..id]);
        assert FactionNames(rawAffiliations[..id + 1]) == FactionNames(rawAffiliations[..id]) + [affiliation.name];
        id := id + 1;
      }
      assert rawAffiliations[..count] == rawAffiliations;
      IdsInRange(old(factionNameToId), rawAffiliations);
    }

    /** The N x N relation table, zero-filled and then written in source
        order; a relation toward an unknown faction aborts the load. */
    method BuildRelationTable() returns (outcome: Outcome<string>)
      requires forall n :: n in factionNameToId ==> factionNameToId[n] < |rawAffiliations|
      modifies this
      ensures outcome.Pass? <==>
        forall s :: 0 <= s < |rawAffiliations| ==> KnownTargets(rawAffiliations[s].relations, factionNameToId)
      ensures outcome.Pass? ==> relationTable == RelationTable(rawAffiliations, factionNameToId)
      ensures outcome.Fail? ==> exists s, j ::
        FirstUnknownAt(rawAffiliations, factionNameToId, s, j) &&
        outcome.error == UnknownFactionMessage(rawAffiliations[s].name, rawAffiliations[s].relations[j].faction) &&
        relationTable == PartialTable(rawAffiliations, factionNameToId, s, j)
      ensures Contents() == old(Contents())
      ensures factionIdToName == old(factionIdToName) && factionNameToId == old(factionNameToId)
    {
      var count := |rawAffiliations|;
      var ids := factionNameToId;
      var table := seq(count, s => Zeros(count));
      var source := 0;
      while source < count
        invariant 0 <= source <= count
        invariant Contents() == old(Contents())
        invariant factionIdToName == old(factionIdToName) && factionNameToId == old(factionNameToId)
        invariant |table| == count
        invariant forall s :: 0 <= s < count ==> |table[s]| == count
        invariant forall s :: 0 <= s < source ==>
          table[s] == ApplyRelations(Zeros(count), rawAffiliations[s].relations, ids)
        invariant forall s :: source <= s < count ==> table[s] == Zeros(count)
        invariant forall s :: 0 <= s < source ==> KnownTargets(rawAffiliations[s].relations, ids)
      {
        var row, missing := FillRow(count, rawAffiliations[source].relations, ids);
        table := table[source := row];
        if missing.Some? {
          relationTable := table;
          ghost var j :| 0 <= j < |rawAffiliations[source].relations| &&
            KnownTargets(rawAffiliations[source].relations[..j], ids) &&
            rawAffiliations[source].relations[j].faction !in ids &&
            missing.value == rawAffiliations[source].relations[j].faction &&
            row == ApplyRelations(Zeros(count), rawAffiliations[source].relations[..j], ids);
          assert forall q :: 0 <= q < j ==> rawAffiliations[source].relations[..j][q] == rawAffiliations[source].relations[q];
          assert FirstUnknownAt(rawAffiliations, ids, source, j);
          assert table == PartialTable(rawAffiliations, ids, source, j);
          return Fail(UnknownFactionMessage(rawAffiliations[source].name, missing.value));
        }
        source := source + 1;
      }
      relationTable := table;
      return Pass;
    }

    /** The manager's state as one value, which is what the lookups read. */
    function View(): Assets
      reads this
    {
      Assets(starts, maps, engines, weapons, ships, textures, textureMap,
             rawAffiliations, factionIdToName, factionNameToId, relationTable)
    }
  }

  /** The inner loop of the relation table: the relations of one faction
      written in order into a zero row of length `count`, stopping at the
      first relation toward a faction `ids` does not know. */
  method FillRow(count: nat, relations: seq<Relation>, ids: map<string, nat>)
      returns (row: seq<int>, missing: Option<string>)
    requires forall n :: n in ids ==> ids[n] < count
    ensures |row| == count
    ensures missing.None? <==> KnownTargets(relations, ids)
    ensures missing.None? ==> row == ApplyRelations(Zeros(count), relations, ids)
    ensures missing.Some? ==> exists j ::
      0 <= j < |relations| && KnownTargets(relations[..j], ids) && relations[j].faction !in ids &&
      missing.value == relations[j].faction && row == ApplyRelations(Zeros(count), relations[..j], ids)
  {
    row := Zeros(count);
    var j := 0;
    while j < |relations|
      invariant 0 <= j <= |relations|
      invariant row == ApplyRelations(Zeros(count), relations[..j], ids)
      invariant KnownTargets(relations[..j], ids)
    {
      var target := relations[j].faction;
      if target !in ids {
        return row, Some(target);
      }
      assert relations[..j + 1][..j] == relations[..j];
      row := row[ids[target] := relations[j].relation];
      j := j + 1;
    }
    assert relations[..|relations|] == relations;
    missing := None;
  }

  /** Everything an `AssetManager` holds.  The lookups are functions of it:
      they only read the manager. */
  datatype Assets = Assets(
    starts: map<string, StartData>, maps: map<string, MapData>, engines: map<string, EngineData>,
    weapons: map<string, WeaponData>, ships: map<string, ShipData>,
    textures: seq<Texture>, textureMap: map<string, nat>,
    rawAffiliations: seq<AffiliationData>, factionIdToName: seq<string>, factionNameToId: map<string, nat>,
    relationTable: seq<seq<int>>)
  {
    /** Texture indices are in range, and so are faction ids. */
    ghost predicate Valid()
    {
      (forall n :: n in textureMap ==> textureMap[n] < |textures|) &&
      (forall n :: n in factionNameToId ==> factionNameToId[n] < |rawAffiliations|)
    }

    function GetStart(name: string): (r: Result<StartData, string>)
      ensures r.Success? <==> name in starts
      ensures r.Success? ==> r.value == starts[name]
      ensures r.Failure? ==> r.error == "Start '" + name + "' not found"
    {
      if name in starts then Success(starts[name]) else Failure("Start '" + name + "' not found")
    }

    function GetMap(name: string): (r: Result<MapData, string>)
      ensures r.Success? <==> name in maps
      ensures r.Success? ==> r.value == maps[name]
      ensures r.Failure? ==> r.error == "Map '" + name + "' not found"
    {
      if name in maps then Success(maps[name]) else Failure("Map '" + name + "' not found")
    }

    function GetEngine(name: string): (r: Result<EngineData, string>)
      ensures r.Success? <==> name in engines
      ensures r.Success? ==> r.value == engines[name]
      ensures r.Failure? ==> r.error == "Engine '" + name + "' not found"
    {
      if name in engines then Success(engines[name]) else Failure("Engine '" + name + "' not found")
    }

    function GetWeapon(name: string): (r: Result<WeaponData, string>)
      ensures r.Success? <==> name in weapons
      ensures r.Success? ==> r.value == weapons[name]
      ensures r.Failure? ==> r.error == "Weapon '" + name + "' not found"
    {
      if name in weapons then Success(weapons[name]) else Failure("Weapon '" + name + "' not found")
    }

    function GetShip(name: string): (r: Result<ShipData, string>)
      ensures r.Success? <==> name in ships
      ensures r.Success? ==> r.value == ships[name]
      ensures r.Failure? ==> r.error == "Ship '" + name + "' not found"
    {
      if name in ships then Success(ships[name]) else Failure("Ship '" + name + "' not found")
    }

    function GetFactionId(name: string): (r: Result<nat, string>)
      ensures r.Success? <==> name in factionNameToId
      ensures r.Success? ==> r.value == factionNameToId[name]
      ensures r.Failure? ==> r.error == "Affiliation '" + name + "' not assigned an id"
    {
      if name in factionNameToId then Success(factionNameToId[name])
      else Failure("Affiliation '" + name + "' not assigned an id")
    }

    /** `get_texture`: the indexed texture, or the shared placeholder. */
    function GetTexture(name: string): (t: Texture)
      requires Valid()
      ensures name in textureMap ==> t == textures[textureMap[name]]
      ensures name !in textureMap ==> t == Placeholder
    {
      if name in textureMap then textures[textureMap[name]] else Placeholder
    }

    /** `get_relation`: both indices bounds-checked before the table is read. */
    function GetRelation(base: nat, sub: nat): (r: Result<int, string>)
      ensures r.Success? <==> base < |relationTable| && sub < |relationTable[base]|
      ensures r.Success? ==> r.value == relationTable[base][sub]
      ensures base >= |relationTable| ==>
        r == Failure("Base Faction Index " + NatToString(base) + " is out of bounds (" + NatToString(|relationTable|) + ")")
      ensures base < |relationTable| && sub >= |relationTable[base]| ==>
        r == Failure("Sub Faction Index " + NatToString(sub) + " is out of bounds for Base " + NatToString(base) +
                     " (" + NatToString(|relationTable[base]|) + ")")
    {
      if base >= |relationTable| then
        Failure("Base Faction Index " + NatToString(base) + " is out of bounds (" + NatToString(|relationTable|) + ")")
      else if sub >= |relationTable[base]| then
        Failure("Sub Faction Index " + NatToString(sub) + " is out of bounds for Base " + NatToString(base) +
                " (" + NatToString(|relationTable[base]|) + ")")
      else Success(relationTable[base][sub])
    }
  }

  lemma {:induction false} EmplaceAllRange(m: map<string, nat>, kvs: seq<(string, nat)>, k: string, bound: nat)
    requires forall n :: n in m ==> m[n] < bound
    requires forall j :: 0 <= j < |kvs| ==> kvs[j].1 < bound
    ensures var r := EmplaceAll<nat>(m, kvs); k in r ==> r[k] < bound
    decreases |kvs|
  {
    if kvs != [] {
      EmplaceAllRange(m, kvs[..|kvs| - 1], k, bound);
    }
  }
  lemma IdsInRange(ids: map<string, nat>, raw: seq<AffiliationData>)
    requires forall n :: n in ids ==> ids[n] < |raw|
    ensures var r := EmplaceAll<nat>(ids, FactionIds(raw)); forall n :: n in r ==> r[n] < |raw|
  {
    var r := EmplaceAll<nat>(ids, FactionIds(raw));
    forall n | n in r
      ensures r[n] < |raw|
    {
      EmplaceAllRange(ids, FactionIds(raw), n, |raw|);
    }
  }

  function AddEntry<V>(m: map<string, V>, c: Option<(string, V)>): map<string, V>
  {
    match c
    case None => m
    case Some(kv) => Emplace(m, kv)
  }

  function OptionList<T>(c: Option<T>): seq<T>
  {
    match c
    case None => []
    case Some(x) => [x]
  }

  lemma CollectStep<T>(es: seq<DirEntry>, i: nat, f: DirEntry -> Option<T>)
    requires i < |es|
    ensures Collect(es[..i + 1], f) == Collect(es[..i], f) + OptionList(f(es[i]))
  {
    assert es[..i + 1][..i] == es[..i];
  }

  lemma EmplaceStep<V>(es: seq<DirEntry>, i: nat, f: DirEntry -> Option<(string, V)>)
    requires i < |es|
    ensures EmplaceAll(map[], Collect(es[..i + 1], f)) == AddEntry(EmplaceAll(map[], Collect(es[..i], f)), f(es[i]))
  {
    CollectStep(es, i, f);
    var before := Collect(es[..i], f);
    if f(es[i]).Some? {
      assert (before + [f(es[i]).value])[..|before|] == before;
    } else {
      assert before + [] == before;
    }
  }

  lemma TextureAppend(ts: seq<(string, string)>, x: (string, string))
    ensures LoadedTextures(ts + [x]) == LoadedTextures(ts) + [Loaded(x.1)]
    ensures TextureIndex(ts + [x]) == TextureIndex(ts)[x.0 := |ts|]
  {
    assert (ts + [x])[..|ts|] == ts;
  }

  lemma TextureStep(es: seq<DirEntry>, i: nat)
    requires i < |es|
    ensures LoadedTextures(Collect(es[..i + 1], TextureEntry)) ==
      LoadedTextures(Collect(es[..i], TextureEntry)) + (if TextureEntry(es[i]).Some? then [Loaded(es[i].path)] else [])
    ensures TextureIndex(Collect(es[..i + 1], TextureEntry)) ==
      if TextureEntry(es[i]).Some?
      then TextureIndex(Collect(es[..i], TextureEntry))[TextureName(es[i].path) := |Collect(es[..i], TextureEntry)|]
      else TextureIndex(Collect(es[..i], TextureEntry))
  {
    CollectStep(es, i, TextureEntry);
    var before := Collect(es[..i], TextureEntry);
    var t := TextureEntry(es[i]);
    if t.Some? {
      assert t.value == (TextureName(es[i].path), es[i].path);
      assert Collect(es[..i + 1], TextureEntry) == before + [t.value];
      TextureAppend(before, t.value);
    } else {
      assert Collect(es[..i + 1], TextureEntry) == before;
    }
  }

  /** What the scan has stored so far. */
  datatype Catalogue = Catalogue(
    starts: map<string, StartData>, maps: map<string, MapData>, engines: map<string, EngineData>,
    weapons: map<string, WeaponData>, ships: map<string, ShipData>,
    textures: seq<Texture>, textureMap: map<string, nat>, rawAffiliations: seq<AffiliationData>)

  function ScanStep(c: Catalogue, e: DirEntry): Catalogue
  {
    Store(c, Classify(e))
  }

  /** Storing one scanned record: `emplace` for the definition maps,
      append-then-index for textures, append for raw affiliations. */
  function Store(c: Catalogue, r: Entry): Catalogue
  {
    match r
    case StartRecord(k, x) => c.(starts := Emplace(c.starts, (k, x)))
    case MapRecord(k, x) => c.(maps := Emplace(c.maps, (k, x)))
    case EngineRecord(k, x) => c.(engines := Emplace(c.engines, (k, x)))
    case WeaponRecord(k, x) => c.(weapons := Emplace(c.weapons, (k, x)))
    case ShipRecord(k, x) => c.(ships := Emplace(c.ships, (k, x)))
    case AffiliationRecord(a) => c.(rawAffiliations := c.rawAffiliations + [a])
    case TextureRecord(k, path) => c.(textures := c.textures + [Loaded(path)], textureMap := c.textureMap[k := |c.textures|])
    case Skipped => c
  }

  /** The step, field by field, in terms of the per-kind readers. */
  lemma ScanStepFields(c: Catalogue, e: DirEntry)
    ensures ScanStep(c, e) ==
      Catalogue(AddEntry(c.starts, StartEntry(e)), AddEntry(c.maps, MapEntry(e)), AddEntry(c.engines, EngineEntry(e)),
        AddEntry(c.weapons, WeaponEntry(e)), AddEntry(c.ships, ShipEntry(e)),
        c.textures + (if TextureEntry(e).Some? then [Loaded(e.path)] else []),
        (if TextureEntry(e).Some? then c.textureMap[TextureName(e.path) := |c.textures|] else c.textureMap),
        c.rawAffiliations + OptionList(AffiliationEntry(e)))
  {
    assert c.textures + [] == c.textures && c.rawAffiliations + [] == c.rawAffiliations;
  }

  function ScanFrom(c: Catalogue, es: seq<DirEntry>): Catalogue
  {
    if es == [] then c else ScanStep(ScanFrom(c, es[..|es| - 1]), es[|es| - 1])
  }

  /** The store a full scan leaves, written as one fold per field. */
  function Scanned(es: seq<DirEntry>, raw: seq<AffiliationData>): Catalogue
  {
    Catalogue(EmplaceAll(map[], Collect(es, StartEntry)), EmplaceAll(map[], Collect(es, MapEntry)),
      EmplaceAll(map[], Collect(es, EngineEntry)), EmplaceAll(map[], Collect(es, WeaponEntry)),
      EmplaceAll(map[], Collect(es, ShipEntry)),
      LoadedTextures(Collect(es, TextureEntry)), TextureIndex(Collect(es, TextureEntry)),
      raw + Collect(es, AffiliationEntry))
  }

  function EmptyCatalogue(raw: seq<AffiliationData>): Catalogue
  {
    Catalogue(map[], map[], map[], map[], map[], [], map[], raw)
  }

  lemma ScannedStep(es: seq<DirEntry>, i: nat, raw: seq<AffiliationData>)
    requires i < |es|
    ensures Scanned(es[..i + 1], raw) == ScanStep(Scanned(es[..i], raw), es[i])
  {
    var e := es[i];
    var prev := Scanned(es[..i], raw);
    ScanStepFields(prev, e);
    ScannedMapsStep(es, i, raw);
    ScannedRestStep(es, i, raw);
  }

  lemma ScannedMapsStep(es: seq<DirEntry>, i: nat, raw: seq<AffiliationData>)
    requires i < |es|
    ensures var prev, next := Scanned(es[..i], raw), Scanned(es[..i + 1], raw);
      next.starts == AddEntry(prev.starts, StartEntry(es[i])) &&
      next.maps == AddEntry(prev.maps, MapEntry(es[i])) &&
      next.engines == AddEntry(prev.engines, EngineEntry(es[i])) &&
      next.weapons == AddEntry(prev.weapons, WeaponEntry(es[i])) &&
      next.ships == AddEntry(prev.ships, ShipEntry(es[i]))
  {
    EmplaceStep(es, i, StartEntry);
    EmplaceStep(es, i, MapEntry);
    EmplaceStep(es, i, EngineEntry);
    EmplaceStep(es, i, WeaponEntry);
    EmplaceStep(es, i, ShipEntry);
  }

  lemma ScannedRestStep(es: seq<DirEntry>, i: nat, raw: seq<AffiliationData>)
    requires i < |es|
    ensures var prev, next := Scanned(es[..i], raw), Scanned(es[..i + 1], raw);
      next.textures == prev.textures + (if TextureEntry(es[i]).Some? then [Loaded(es[i].path)] else []) &&
      next.textureMap == (if TextureEntry(es[i]).Some? then prev.textureMap[TextureName(es[i].path) := |prev.textures|]
                          else prev.textureMap) &&
      next.rawAffiliations == prev.rawAffiliations + OptionList(AffiliationEntry(es[i]))
  {
    var before := Collect(es[..i], TextureEntry);
    assert |LoadedTextures(before)| == |before|;
    TextureStep(es, i);
    CollectStep(es, i, AffiliationEntry);
    assert raw + Collect(es[..i + 1], AffiliationEntry) ==
      (raw + Collect(es[..i], AffiliationEntry)) + OptionList(AffiliationEntry(es[i]));
  }


  /** Scanning entry by entry from an empty store gives the per-field folds. */
  lemma {:induction false} ScanMeaning(es: seq<DirEntry>, raw: seq<AffiliationData>)
    ensures ScanFrom(EmptyCatalogue(raw), es) == Scanned(es, raw)
    decreases |es|
  {
    if es == [] {
      assert raw + [] == raw;
    } else {
      var i := |es| - 1;
      ScanMeaning(es[..i], raw);
      ScannedStep(es, i, raw);
      assert es[..i + 1] == es;
    }
  }

}
