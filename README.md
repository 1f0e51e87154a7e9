# Horizons simulation core in Dafny

This project models the simulation core of Horizons. Horizons is a small
entity-component space game written in C++ on top of raylib and entt. The
model covers six parts:

- **Timer** (`src/Timer.hpp`, `src/Timer.cpp`). A countdown/elapsed-time
  tracker with three mutable fields.
  - `Timers.Timer` is the object. Its methods are proved against functions
    on the value `TimerState`.
  - Components hold a timer by value, so they use `TimerState` directly.
- **Components** (`src/Components.hpp`, `src/Components.cpp`). The
  component records with their default initialisers, the collider mask
  filter, and the weapon constructor with `can_fire` and
  `trigger_cooldown`. The named constants (`DefaultPhysics`,
  `DefaultWeapon`, …) carry the defaults.
- **Asset and faction store** (`src/AssetManager.cpp`). The record
  constructors of both readers are pure functions over an abstract
  document, a map from field names to nodes.
  - Filename classification is modelled on strings.
  - `AssetStore.AssetManager` is a class with the eleven containers. Its
    methods are:
    - `load_assets`: the scan loop, the faction-id loop and the N×N
      relation-table loops;
    - `unload_all`.
  - The `get_*` lookups are functions of the manager's value `Assets`.
- **Systems and spawners** (`src/Systems.cpp`). The entt registry is a
  class `EntityRegistry.Registry`: a finite map from entity id to a record
  of optional components, plus the next fresh id.
  - Every system is a method with a loop over its view. It is proved
    against a function on the map, and lemmas state what that function
    does, entity by entity.
  - Each spawner is specified by the exact records it spawns. Both the
    found and the not-found cases are covered.
  - `update_collision` is modelled with its event queue.
  - `on_collision` is modelled with the hostility decision and its logging.
  - The ordering half of `render_sprites` is modelled.
  - `player_movement` is modelled as one turn per player: steer, thrust,
    then fire.
- **Logger** (`src/Logger.hpp`). Level names, the `H_LOG` threshold, and
  `log`, which fans out to sinks modelled as sequences of lines.
- **Hit quadrants** (`src/Functions.cpp`). Angle normalisation and the
  Front/Right/Back/Left buckets.

`Game.Init` and `Game.Update` compose these parts. Start-up loads the
assets, the start and the example player ship. A frame runs the systems in
the order of `src/Game.cpp:75-86`.

Both are proved to keep the registry *settled*:
- no entity carries a DespawnMarker;
- every child hangs off a live parent;
- that parent holds a Transform and is neither a child nor a bullet.

After a frame, no bullet past its lifetime remains.

Times, positions, angles and radii are `real`. Collider masks are `bv32`.

Trigonometry, `atan2`, `Vector2Rotate` and `Normalize` are function
parameters:
- `bearing` (in `HitQuadrants`);
- `rotate` (in `Systems`, `Game`);
- `heading` and `normalize` (in `PlayerControl.Controls`).

entt's view order is unspecified, so the model leaves it open. The
methods return the order they used as a ghost sequence, and their
contracts hold for every such order.

Where the headers and the implementation disagree, the model follows the
implementation. `src/AssetManager.hpp` lists neither the start, map and
faction containers nor `get_start`, `get_map`, `get_faction_id` and
`get_relation`, which `src/AssetManager.cpp` defines and uses.

## Model

| member | source | states |
|---|---|---|
| Timers.Progress | src/Timer.cpp:34-39 | progress is always in [0,1]; with duration ≤ 0 it is 1 when active and 0 otherwise; within the duration it is elapsed/duration, past it 1, before it 0 |
| Timers.FreshTimerNotDone | src/Timer.hpp:7-29 | both constructors give an inactive timer with elapsed 0 and duration 0 or the given seconds; it is not done and its progress is 0 |
| Timers.StartFacts | src/Timer.cpp:7-15 | start() zeroes elapsed, activates and keeps the duration; start(d) sets the duration and then is start(); right after start(d) the timer is done iff d ≤ 0 |
| Timers.UpdateFacts | src/Timer.cpp:17-20 | update does nothing while inactive and otherwise adds delta to elapsed with no clamping; duration and active never change |
| Timers.StopFacts | src/Timer.cpp:22-28 | after stop the timer is inactive and not done; elapsed and duration are kept |
| Timers.UpdatedAllSums | src/Timer.cpp:17-20 | a run of updates on an active timer adds the sum of the deltas to elapsed |
| Timers.StartThenUpdatesIsDone | src/Timer.cpp:12-24 | after start(d), updates whose deltas sum to at least d make is_done true; with d ≤ 0 it is true at once |
| Timers.DoneStaysDone | src/Timer.cpp:17-24 | non-negative updates keep a done timer done |
| Timers.Timer.constructor | src/Timer.hpp:7 | Timer(): duration 0, elapsed 0, inactive |
| Timers.Timer.WithDuration | src/Timer.hpp:8 | Timer(seconds): duration seconds, elapsed 0, inactive |
| Timers.Timer.Start | src/Timer.cpp:7-10 | the fields become the started state of the old ones |
| Timers.Timer.StartWith | src/Timer.cpp:12-15 | the fields become start(d) of the old ones |
| Timers.Timer.Update | src/Timer.cpp:17-20 | the fields become update(delta) of the old ones |
| Timers.Timer.Stop | src/Timer.cpp:26-28 | the fields become the stopped state of the old ones |
| Components.TransformAt | src/Components.hpp:89-93 | Transform{p} has position p, size (1,1) and rotation 0 |
| Components.RelativeTransformAt | src/Components.hpp:68-72 | RelativeTransform{o} has offset o, size 1 and rotation 0 |
| Components.MasksMatchSymmetric | src/Systems.cpp:752-757 | the mask filter does not depend on which collider comes first |
| Components.DefaultColliderNeverMatches | src/Components.hpp:34-38 | a default collider has zero masks and never passes the filter |
| Components.OnlyShipBulletPairsMatch | src/Systems.cpp:456-460 | with ship masks (1, 2) and bullet masks (2, 1), ship–bullet pairs pass the filter and ship–ship and bullet–bullet pairs do not |
| Components.NewWeapon | src/Components.cpp:8-20 | an unknown key gives munition "", damage 0, lifetime 0 and cooldown 2000000, and never fails; a known key copies munition, damage, lifetime and cooldown; radius and shot speed stay 0 and 100; the fire timer is fresh |
| Components.WeaponIgnoresAssetRadius | src/Components.cpp:14-19 | a non-zero asset radius never reaches the weapon component |
| Components.TriggerCooldown | src/Components.cpp:26-28 | the fire timer is active with elapsed 0 and duration equal to the cooldown, and nothing else changes |
| Components.TriggeredCanFire | src/Components.cpp:22-28 | right after trigger_cooldown, can_fire holds iff the cooldown is ≤ 0 |
| Components.NewWeaponCanFire | src/Components.cpp:8-24 | a weapon that has not fired yet can fire, whatever its asset |
| Components.CooldownElapses | src/Components.cpp:22-28 | once updates adding up to the cooldown have passed, the weapon can fire again |
| Logging.FromString | src/Logger.hpp:70-78 | a level other than Off is returned only for exactly its upper-case name; a string that is no level's name gives Off |
| Logging.FromToString | src/Logger.hpp:58-78 | from_string(to_string(l)) == l for every level |
| Logging.ConfigDefaultIsOff | src/Logger.hpp:70-78 | "Warning", "warning" and "" all read as Off, so the configuration default "Warning" gives Off |
| Logging.LevelOrder | src/Logger.hpp:13-21 | `>=` on levels is a total order with Trace least and Off greatest |
| Logging.Logger.constructor | src/Logger.hpp:96-99 | the logger starts at level Info with no sinks |
| Logging.Logger.SetLevel | src/Logger.hpp:45-51 | get_level returns the level just set; the sinks are kept |
| Logging.Logger.AddSink | src/Logger.hpp:54-56 | the sink goes after the existing ones; the level is kept |
| Logging.Logger.Log | src/Logger.hpp:81-93 | every sink, in order, receives the same line "[LEVEL] [context] message" |
| Logging.Logger.HLog | src/Logger.hpp:104-109 | the line goes to every sink iff the level is at least the current threshold; otherwise nothing is written |
| HitQuadrants.FMod360 | src/Functions.cpp:10 | C's fmod by 360: x less a whole number of turns, with the sign of x and a magnitude below 360 and at most that of x |
| HitQuadrants.Normalise | src/Functions.cpp:10-13 | after fmod and one correction the angle lies in [0, 360) and is the angle less whole turns |
| HitQuadrants.RelativeAngle | src/Functions.cpp:4-13 | the bearing of b from a, less a's rotation and 270, normalised into [0, 360) |
| HitQuadrants.CalculateDirection | src/Functions.cpp:3-29 | Front iff the angle is ≤ 45 or ≥ 315; Right iff in (45, 135]; Back iff in (135, 225]; Left iff in (225, 315) |
| HitQuadrants.BucketFront | src/Functions.cpp:15-17 | the first test picks Front exactly for angles ≤ 45 or ≥ 315 |
| HitQuadrants.BucketRight | src/Functions.cpp:18-20 | Right exactly for angles in (45, 135] |
| HitQuadrants.BucketBack | src/Functions.cpp:21-23 | Back exactly for angles in (135, 225] |
| HitQuadrants.BucketLeft | src/Functions.cpp:24-26 | Left exactly for angles in (225, 315) |
| HitQuadrants.FallbackUnreachable | src/Functions.cpp:15-28 | every angle meets one of the four tests, so the final `return Back` is never reached |
| HitQuadrants.FullTurnInvariant | src/Functions.cpp:8-13 | turning a by a full circle does not change the quadrant |
| HitQuadrants.NormalisePeriodic | src/Functions.cpp:10-13 | normalisation ignores a whole turn |
| Paths.LastIndexOf | src/AssetManager.cpp:475-485 | the position of the last occurrence of a character, or -1 when it does not occur |
| Paths.ExtensionDot | src/AssetManager.cpp:475-485 | the extension starts at the last dot of the name; there is none exactly when the name is `.` or `..` or has no dot after its first character |
| Paths.StemPlusExtension | src/AssetManager.cpp:487-491 | a file name is its stem followed by its extension |
| Paths.AssetTypeDecomposes | src/AssetManager.cpp:487-491 | a file passing is_of_asset_type is a regular file named `<asset name>.<kind>.json` or `.xml`, whose asset name is what get_asset_name_from_filename returns |
| Paths.DottedName | src/AssetManager.cpp:487-491 | `a.b`, with no dot in b, has extension `.b` and stem `a` |
| Paths.AssetFileParts | src/AssetManager.cpp:487-499 | `dir/base.kind.ext` has file name `base.kind.ext`, extension `.ext`, stem `base.kind`, and `base.kind` has extension `.kind` and stem `base` |
| Paths.AssetFileClassified | src/AssetManager.cpp:487-499 | `dir/base.kind.json` or `.xml` is of asset type kind and of no other type, is not a texture file, and has key `base` |
| Paths.KeyIgnoresDirectory | src/AssetManager.cpp:497-503 | engine, weapon, ship and texture keys depend only on the file name, so equal names in two directories collide |
| Paths.LeadingDotIsNotAKind | src/AssetManager.cpp:487-491 | a hidden file `dir/.kind.json` or `.kind.xml` is of no asset type, because its stem `.kind` has no extension |
| Documents.EntriesOf | src/AssetManager.cpp:45-55 | the JSON entries read with `at` succeed iff every element is an object, and then they are those objects, in order |
| Documents.XmlEntriesOf | src/AssetManager.cpp:64-76 | the repeated XML children give one entry per element, in order: the element's children, or none for an element holding only text |
| AssetRecords.MountsFromJson | src/AssetManager.cpp:45-57 | the JSON mount list reads iff every entry reads, and then mount i is entry i's `{type, x, y}` |
| AssetRecords.IncompleteMountFails | src/AssetManager.cpp:45-57 | an object entry of `weapons` or `engines` missing `type`, `x` or `y` makes the whole JSON ship read fail |
| AssetRecords.MountsFromXml | src/AssetManager.cpp:67-76 | the XML mount list has one mount per entry, each read with defaults |
| AssetRecords.MissingFieldsDefault | src/AssetManager.cpp:11-64 | a missing field gets the same default from both readers: thrust 20, engine rotation 180, max_speed 400, radius 0, munition "", and 0 for damage, lifetime and cooldown |
| AssetRecords.EmptyDocumentDefaults | src/AssetManager.cpp:11-79 | on an empty document the JSON readers succeed and agree with the XML readers on the all-default record |
| AssetRecords.MountReadersAgree | src/AssetManager.cpp:41-79 | when every mount entry has type, x and y, the two mount readers give the same mounts |
| AssetRecords.ShipReadersAgree | src/AssetManager.cpp:41-79 | on a well-typed ship document with complete mounts, the JSON reader succeeds with the XML reader's record |
| AssetRecords.WeaponReadersAgree | src/AssetManager.cpp:11-26 | on a well-typed weapon document, the JSON reader succeeds with the XML reader's record |
| AssetRecords.EngineReadersAgree | src/AssetManager.cpp:28-39 | on a well-typed engine document, the JSON reader succeeds with the XML reader's record |
| AssetRecords.ReadersDisagreeOnIncompleteMount | src/AssetManager.cpp:45-76 | for any ship document whose weapon entry i is an object without x, the JSON reader fails while the XML reader keeps mount i with x = 0 |
| AssetStore.Classify | src/AssetManager.cpp:193-358 | the scan's else-if chain: start and map keys come from the parsed name; engine, weapon and ship keys come from the file name; png files are textures; a file of no kind is skipped |
| AssetStore.ParseFailureSkipsOnlyThatFile | src/AssetManager.cpp:194-221 | a file whose parse fails contributes nothing to any container, and every other file is stored as if it were absent |
| AssetStore.CollectSkipsInert | src/AssetManager.cpp:193-360 | a file that contributes nothing can be removed from the scan without changing its result |
| AssetStore.EmplaceAllKeys | src/AssetManager.cpp:194-327 | after the emplaces, the keys are the old keys and every key offered |
| AssetStore.EmplaceAllKeepsExisting | src/AssetManager.cpp:194-327 | emplace never overwrites a key that is already present |
| AssetStore.EmplaceAllFirstWins | src/AssetManager.cpp:194-327 | a duplicated definition key keeps the first record scanned |
| AssetStore.TextureIndexLastWins | src/AssetManager.cpp:354-358 | a texture name is indexed iff some png file has it, and it maps to the last such file |
| AssetStore.LoadedTextures | src/AssetManager.cpp:354-358 | texture i of the table is loaded from the i-th png file's path |
| AssetStore.FactionIds | src/AssetManager.cpp:370-377 | the pair offered for affiliation i is (its name, i) |
| AssetStore.FirstFactionIdWins | src/AssetManager.cpp:370-377 | on a fresh store, a faction name gets the position of its first affiliation record |
| AssetStore.IdsInRange | src/AssetManager.cpp:364-377 | every faction id is below the number of affiliation records |
| AssetStore.RelationTable | src/AssetManager.cpp:379-401 | the relation table is N×N for N affiliation records |
| AssetStore.ApplyRelationsCell | src/AssetManager.cpp:383-400 | each cell of a row is the last listed relation toward that faction, or 0 |
| AssetStore.RelationTableCell | src/AssetManager.cpp:379-401 | cell [s][t] is the last relation of faction s toward t, and 0 when s lists none |
| AssetStore.FirstUnknownUnique | src/AssetManager.cpp:383-396 | the first unknown relation, scanning sources in id order and relations in list order, is one place |
| AssetStore.FirstUnknownExists | src/AssetManager.cpp:383-396 | there is a first unknown relation exactly when some relation names an unknown faction |
| AssetStore.NoRelationIsZero | src/AssetManager.cpp:380 | a target that no relation names keeps the initial 0 |
| AssetStore.ScanMeaning | src/AssetManager.cpp:193-360 | scanning entry by entry from empty containers gives each container as a fold over the files of its kind |
| AssetStore.FillRow | src/AssetManager.cpp:384-400 | the row has N cells; it fails iff some relation names an unknown faction, and then names the first such relation, with the relations before it written over zeros; otherwise it is every relation written over zeros in order |
| AssetStore.AssetManager.constructor | src/AssetManager.hpp:71-76 | every container starts empty |
| AssetStore.AssetManager.UnloadAll | src/AssetManager.cpp:505-516 | the textures, the texture map and the five definition maps are emptied; raw affiliations, faction names and ids, and the relation table are kept |
| AssetStore.AssetManager.LoadAssets | src/AssetManager.cpp:183-402 | a missing directory fails with "Assets directory not found!" after unloading, which empties the asset stores and keeps the faction state and the relation table; otherwise each container is the fold of the scanned files and affiliations accumulate across loads; the load succeeds iff every relation names a known faction, and then the table is the relation table; a failure names the source and the first unknown faction, and leaves the partly written table |
| AssetStore.AssetManager.ScanDirectory | src/AssetManager.cpp:193-360 | the containers after the scan loop are the per-kind folds over the walked entries; texture indices stay in range |
| AssetStore.AssetManager.ScanEntry | src/AssetManager.cpp:194-358 | one pass of the chain: the containers are one scan step of the old ones |
| AssetStore.AssetManager.StoreRecord | src/AssetManager.cpp:208-357 | emplace for the five definition maps, append for affiliations, and push-then-index for textures |
| AssetStore.AssetManager.AssignFactionIds | src/AssetManager.cpp:364-377 | the names are appended in order, the ids are emplaced at their positions, and all other containers are unchanged |
| AssetStore.AssetManager.BuildRelationTable | src/AssetManager.cpp:379-401 | succeeds iff every relation names a known faction, with the relation table; a failure names the first unknown relation in source order, and leaves the rows before it complete, its own row written up to it, and the rest zero |
| AssetStore.Assets.GetStart | src/AssetManager.cpp:432-437 | returns the stored start iff the key is present, else "Start '<name>' not found" |
| AssetStore.Assets.GetMap | src/AssetManager.cpp:425-430 | returns the stored map iff present, else "Map '<name>' not found" |
| AssetStore.Assets.GetEngine | src/AssetManager.cpp:418-423 | returns the stored engine iff present, else "Engine '<name>' not found" |
| AssetStore.Assets.GetWeapon | src/AssetManager.cpp:411-416 | returns the stored weapon iff present, else "Weapon '<name>' not found" |
| AssetStore.Assets.GetShip | src/AssetManager.cpp:404-409 | returns the stored ship iff present, else "Ship '<name>' not found" |
| AssetStore.Assets.GetFactionId | src/AssetManager.cpp:447-452 | returns the id iff the faction name has one, else "Affiliation '<name>' not assigned an id" |
| AssetStore.Assets.GetTexture | src/AssetManager.cpp:439-445 | the indexed texture when the name is known, else the shared placeholder |
| AssetStore.Assets.GetRelation | src/AssetManager.cpp:454-471 | succeeds iff both indices are in bounds, and then returns table[base][sub]; an out-of-range base gives the "Base Faction Index … is out of bounds (size)" message, and an out-of-range sub gives the "Sub Faction Index … is out of bounds for Base …" message with that row's size |
| EntityRegistry.BareHoldsNothing | src/Systems.cpp:399 | a freshly created entity holds no component |
| EntityRegistry.Spawned | src/Systems.cpp:393-411 | spawning a run of records advances the next id by its length and keeps ids fresh |
| EntityRegistry.SpawnedAt | src/Systems.cpp:393-411 | after a spawn, the live entities are the old ones and the new ids; new ids carry the records in order and old entities are unchanged |
| EntityRegistry.ViewOrder | src/Systems.cpp:30-32 | a view is iterated as a list of its entities, each exactly once |
| EntityRegistry.Registry.constructor | src/Systems.cpp:399 | an empty registry whose first id is 0 |
| EntityRegistry.Registry.Create | src/Systems.cpp:399 | create returns a fresh id, which holds nothing |
| EntityRegistry.Registry.Destroy | src/Systems.cpp:34 | destroy removes the entity and all its components, and nothing else |
| EntityRegistry.Registry.Put | src/Systems.cpp:401-408 | the record of one live entity is replaced, and nothing else changes |
| Systems.UpdateEach | src/Systems.cpp:722-808 | a loop over a view: every entity in the view gets the update, every other one is kept, and no entity is added or removed |
| Systems.DespawnedExactly | src/Systems.cpp:26-35 | exactly the marked entities are destroyed; every other entity keeps every component |
| Systems.DespawnIdempotent | src/Systems.cpp:26-35 | a second sweep destroys nothing |
| Systems.DespawnEntities | src/Systems.cpp:26-35 | collecting the marked entities and then destroying them gives the sweep |
| Systems.MarkedExactly | src/Systems.cpp:128-138 | an entity ends up marked iff it was marked or is a bullet whose despawn timer is done; nothing else about it changes |
| Systems.MarkThenDespawn | src/Systems.cpp:26-138 | marking then sweeping removes the expired bullets and the already marked entities, and keeps everything else unchanged |
| Systems.MarkBulletsForDespawn | src/Systems.cpp:128-138 | the registry becomes the marked registry |
| Systems.AdvanceBulletAllTimer | src/Systems.cpp:722-734 | over several frames, only the bullet's despawn timer moves, by the run of updates |
| Systems.BulletExpiresAfterLifetime | src/Systems.cpp:443-449 | a bullet whose timer started with its lifetime expires, and is marked, once the frame times add up to that lifetime |
| Systems.TimersOnlyMoveTimers | src/Systems.cpp:722-808 | the two timer systems update exactly the bullet despawn timer and the weapon fire timer, and leave everything else alone |
| Systems.UpdateBulletTimers | src/Systems.cpp:722-734 | the registry becomes the one with bullet timers advanced by dt |
| Systems.UpdateWeaponTimers | src/Systems.cpp:796-808 | the registry becomes the one with weapon fire timers advanced by dt |
| Systems.IntegratedMoves | src/Systems.cpp:786-794 | an entity with Transform and Physics moves by velocity × dt; nothing else changes |
| Systems.IntegrateAdditive | src/Systems.cpp:786-794 | two integration steps are one step over the summed time |
| Systems.UpdatePhysicsTransforms | src/Systems.cpp:786-794 | the registry becomes the integrated one |
| Systems.VisibilityExactly | src/Systems.cpp:37-49 | an engine with a parent is hidden iff the parent lacks Thrusting or is not thrusting; no other component or entity changes |
| Systems.VisibilityIdempotent | src/Systems.cpp:37-49 | running the visibility system twice is running it once |
| Systems.EngineVisibility | src/Systems.cpp:37-49 | the registry becomes the one with visibility applied |
| Systems.AttachedFollowsParent | src/Systems.cpp:771-784 | a child is placed at its parent's position plus the rotated offset, turned like its parent plus its own relative rotation |
| Systems.AttachedIdempotent | src/Systems.cpp:771-784 | parents do not move, so the hierarchy stays well formed and a second pass changes nothing |
| Systems.UpdateLocalTransforms | src/Systems.cpp:771-784 | the registry becomes the one with every child attached to its parent |
| Systems.SnappedExactly | src/Systems.cpp:713-718 | a snap moves exactly the backgrounds that have a Transform onto the position |
| Systems.SnapLastWins | src/Systems.cpp:706-720 | a later snap overrides an earlier one |
| Systems.SnapKeepsPlayerPositions | src/Systems.cpp:706-720 | snapping the backgrounds never moves a player |
| Systems.SnapBackgrounds | src/Systems.cpp:713-718 | the inner loop snaps every background onto the position |
| Systems.UpdateBackgroundPosition | src/Systems.cpp:706-720 | with no player nothing changes; otherwise the backgrounds end up at the position of one of the players |
| Systems.SinglePlayerSnaps | src/Systems.cpp:706-720 | with a single player, the backgrounds end up on it |
| Rendering.InsertPermutes | src/Systems.cpp:363-367 | insertion adds the element and keeps all others |
| Rendering.InsertSorted | src/Systems.cpp:363-367 | inserting into a sorted list keeps it sorted |
| Rendering.SortBySorted | src/Systems.cpp:363-367 | the sort's result is sorted by layer and a permutation of its input |
| Rendering.EnumeratesOnce | src/Systems.cpp:357-361 | the collected view holds each drawable entity exactly once |
| Rendering.RenderQueue | src/Systems.cpp:350-367 | the draw queue is a permutation of the entities with Transform, Renderable and RenderOrder and without ShouldNotRender, in non-decreasing layer order |
| Rendering.QueueDrawsEachOnce | src/Systems.cpp:350-369 | each drawable entity is drawn once, and nothing else is drawn |
| Rendering.LowerLayerFirst | src/Systems.cpp:363-369 | an entity on a lower layer is drawn before one on a higher layer |
| Spawners.WeaponRecordsAt | src/Systems.cpp:563-571 | the i-th weapon entity comes from the i-th mount |
| Spawners.EngineRecordsAt | src/Systems.cpp:582-590 | the j-th engine entity comes from the j-th mount |
| Spawners.BulletHolds | src/Systems.cpp:414-463 | a bullet holds exactly Affiliation, Physics, Transform, Bullet, Renderable, RenderOrder 10000 and Collider(radius, 2, 1); its damage is 50, its despawn timer runs for the weapon's lifetime, and its velocity is the ship's plus the heading times the shot speed |
| Spawners.EngineHolds | src/Systems.cpp:465-503 | a found engine holds Engine(thrust), Renderable, RenderOrder 999 and ShouldNotRender; a missing one holds only Transform, RelativeTransform and Parent; either way it follows its ship |
| Spawners.WeaponHolds | src/Systems.cpp:678-704 | a weapon entity holds Transform, RelativeTransform, Parent and Weapon (plus PlayerWeapon for the player), with the fire timer started on the cooldown: the asset's, or 2000000 for an unknown key |
| Spawners.ShipHolds | src/Systems.cpp:628-676 | with a known key the hull holds exactly Transform, Physics, Renderable, RenderOrder 0, Collider(r, 1, 2), Affiliation and Thrusting(false), followed by one weapon per mount and no engine; with an unknown key it holds only Transform and default Physics |
| Spawners.PlayerShipHolds | src/Systems.cpp:524-614 | with a known key: one hull at RenderOrder 1000 with a ship Collider, then one weapon per weapon mount, then one engine entity per engine mount; the hull's acceleration and turn rate are sums over the engines found, and it holds Affiliation iff "Player" has an id; an unknown key gives only Player and Transform |
| Spawners.PlayerShipPartsHold | src/Systems.cpp:562-600 | the player's weapons hang off the hull and are player weapons, and the engines follow them in mount order |
| Spawners.PlayerShipFound | src/Systems.cpp:540-611 | a found player ship is its hull, then its weapons, then its engines |
| Spawners.ThrustsStep | src/Systems.cpp:591-610 | one more mount adds its engine's thrust and rotation when found, and nothing otherwise |
| Spawners.NoEngineNoThrust | src/Systems.cpp:591-610 | with no listed engine found, the player ship neither accelerates nor turns |
| Spawners.FleetSkipsUnknownFaction | src/Systems.cpp:73-88 | a map ship whose faction has no id spawns nothing, and the ships after it keep their ids |
| Spawners.UnknownKeysSpawnNothing | src/Systems.cpp:56-111 | an unknown map key or an unknown start key spawns nothing |
| Spawners.StartEndsWithPlayer | src/Systems.cpp:102-126 | a start spawns its map first and then the player ship, whose first entity holds Player |
| Spawners.StartLoadSplits | src/Systems.cpp:112-124 | a known start spawns its map's records and then the player ship at the next id |
| Spawners.PlayerShipFirst | src/Systems.cpp:530-535 | the player ship's first entity is the hull, which holds Player |
| Spawners.SpawnOne | src/Systems.cpp:399-410 | one record is spawned at the next id |
| Spawners.SpawnBackground | src/Systems.cpp:393-411 | spawns exactly the background record |
| Spawners.SpawnObject | src/Systems.cpp:505-522 | spawns exactly the object record |
| Spawners.SpawnBullet | src/Systems.cpp:414-463 | spawns exactly the bullet record |
| Spawners.SpawnEngine | src/Systems.cpp:465-503 | spawns exactly the engine record, found or not |
| Spawners.SpawnWeapon | src/Systems.cpp:678-704 | spawns exactly the weapon record |
| Spawners.SpawnPlayerWeapon | src/Systems.cpp:616-626 | spawns exactly the weapon record with PlayerWeapon |
| Spawners.SpawnWeapons | src/Systems.cpp:664-672 | spawns one weapon record per mount, in order |
| Spawners.SpawnShip | src/Systems.cpp:628-676 | spawns exactly the ship's records at the next ids |
| Spawners.SpawnEngines | src/Systems.cpp:582-600 | spawns one engine per mount, and collects the thrusts and rotations of the engines found |
| Spawners.Total | src/Systems.cpp:601-610 | the summing loops compute the sum of the list |
| Spawners.SpawnPlayerShip | src/Systems.cpp:524-614 | spawns exactly the player ship's records at the next ids |
| Spawners.SpawnFoundPlayerShip | src/Systems.cpp:540-611 | past a successful lookup: the hull, its weapons and its engines |
| Spawners.SpawnPlayerParts | src/Systems.cpp:562-610 | the weapons and then the engines are spawned, and the hull's Physics comes from the engines found |
| Spawners.SpawnBackgrounds | src/Systems.cpp:64-71 | one background per entry, in order |
| Spawners.SpawnObjects | src/Systems.cpp:90-98 | one object per entry, in order |
| Spawners.SpawnMapShip | src/Systems.cpp:74-87 | one map ship is spawned with its faction's id, or skipped when the faction has none |
| Spawners.SpawnFleet | src/Systems.cpp:73-88 | the map's ships are spawned in order, skipping unknown factions |
| Spawners.SpawnFleetShip | src/Systems.cpp:73-88 | one turn of the ship loop keeps the spawned prefix equal to the fleet so far |
| Spawners.LoadMap | src/Systems.cpp:51-100 | an unknown map spawns nothing; otherwise backgrounds, then ships, then objects |
| Spawners.LoadStart | src/Systems.cpp:102-126 | an unknown start spawns nothing; otherwise its map and then the player ship |
| Collisions.TouchingSymmetric | src/Systems.cpp:752-764 | the mask and distance test does not depend on which entity comes first |
| Collisions.DefaultColliderNeverTouches | src/Systems.cpp:752-757 | an entity with a default collider never collides |
| Collisions.HitsAt | src/Systems.cpp:752-764 | the pair test on the view is the collision test of the two records |
| Collisions.RowShape | src/Systems.cpp:747-767 | every event of row i pairs order[i] with an entity listed after it |
| Collisions.RowMembers | src/Systems.cpp:747-767 | row i holds (order[i], order[q]) iff q comes after i and the pair touches |
| Collisions.RowsShape | src/Systems.cpp:742-768 | every event starts with an entity of the rows scanned and pairs two different entities |
| Collisions.RowsMembers | src/Systems.cpp:742-768 | the first n rows hold (order[p], order[q]) iff p < q, p < n and the pair touches |
| Collisions.RowsInOrder | src/Systems.cpp:742-768 | only entities of the view appear in events |
| Collisions.RowOnce | src/Systems.cpp:747-767 | a row names no unordered pair twice |
| Collisions.RowsOnce | src/Systems.cpp:742-768 | the rows together name no unordered pair twice |
| Collisions.CollisionsExactly | src/Systems.cpp:736-769 | a pair is enqueued iff it is two different entities of the view whose masks match in either direction and whose squared distance is at most the squared radius sum |
| Collisions.CollisionsOnce | src/Systems.cpp:736-769 | no event pairs an entity with itself, and each unordered pair is enqueued at most once |
| Collisions.UpdateCollision | src/Systems.cpp:736-769 | the events are the pairwise scan of the view in loop order; whatever that order, a pair is enqueued iff it is two different entities of the view that collide, and no unordered pair twice; the registry is only read |
| Collisions.ScanRow | src/Systems.cpp:747-767 | the inner loop enqueues the row of order[i] |
| Collisions.HostileExactly | src/Systems.cpp:140-166 | hostile iff both entities have an Affiliation, both directed get_relation lookups succeed, and one value is negative |
| Collisions.OnCollisionSymmetric | src/Systems.cpp:140-166 | the hostility decision does not depend on which side came first |
| Collisions.ReportExactly | src/Systems.cpp:147-161 | a hostile pair is logged at Info, a failed lookup at Warning with its error, and anything else is silent |
| Collisions.HandleCollision | src/Systems.cpp:140-166 | the outcome is the decision, and each sink receives the report line iff its level passes the logger's threshold |
| PlayerControl.TurnedIsSteering | src/Systems.cpp:188-202 | the new heading is the old one plus the net turn, corrected by at most one full turn |
| PlayerControl.TurnedInRange | src/Systems.cpp:188-202 | a heading in [0, 360) stays there for turns below a full turn; both arrow keys, or neither, leave it unchanged |
| PlayerControl.TurnedCorrectsOnce | src/Systems.cpp:197-202 | only one correction is applied, so a heading two turns too far stays out of range |
| PlayerControl.PushedClamps | src/Systems.cpp:204-220 | the thrusted velocity is kept when within top speed; above it, given a unit normalize, its length is exactly the top speed; nothing else in Physics changes |
| PlayerControl.SteerExactly | src/Systems.cpp:188-224 | steering changes only the heading, the velocity and Thrusting, which becomes UP; without UP the physics is kept |
| PlayerControl.CoolThenReady | src/Systems.cpp:237-239 | a weapon that just fired is ready at once iff its cooldown is ≤ 0, and again after updates adding up to the cooldown |
| PlayerControl.CooledSnoc | src/Systems.cpp:227-241 | visiting one more weapon restarts its timer iff it is ready |
| PlayerControl.ShotOnSpawned | src/Systems.cpp:237-240 | a ready weapon fires a bullet at the next id and restarts its timer; a weapon that is not ready changes nothing |
| PlayerControl.VolleyExactly | src/Systems.cpp:226-242 | a volley over the weapons restarts the ready ones and spawns their bullets in visiting order |
| PlayerControl.ReadyAmongSnoc | src/Systems.cpp:237 | one more weapon visited joins the ready ones iff it is ready |
| PlayerControl.ShellsCount | src/Systems.cpp:226-242 | one bullet per ready weapon, whatever the visiting order |
| PlayerControl.VolleyPrefix | src/Systems.cpp:227-241 | a volley one weapon further is one more shot |
| PlayerControl.FireAt | src/Systems.cpp:234-240 | a ready weapon fires and restarts; every other live entity keeps its record |
| PlayerControl.FireWeapons | src/Systems.cpp:226-242 | every PlayerWeapon of the view is visited once, and the result is the volley |
| PlayerControl.SteerPlayer | src/Systems.cpp:188-224 | the steered record |
| PlayerControl.MovePlayer | src/Systems.cpp:183-242 | one player's turn: steer, then fire with TAB |
| PlayerControl.TurnKeepsPilots | src/Systems.cpp:173-243 | a turn keeps every live player live and a player |
| PlayerControl.PlayerMovement | src/Systems.cpp:168-244 | every player of the view takes exactly one turn, the registry passing from each turn to the next |
| Game.ShapeKeptSettled | src/Game.cpp:75-86 | a change that keeps every entity's shape keeps the registry settled |
| Game.WeaponTimersKeepShape | src/Game.cpp:76 | the weapon timer system keeps every entity and its shape |
| Game.BulletTimersKeepShape | src/Game.cpp:77 | the bullet timer system keeps every entity and its shape |
| Game.IntegratedKeepsShape | src/Game.cpp:79 | the physics system keeps every entity and its shape |
| Game.AttachedKeepsShape | src/Game.cpp:80 | the hierarchy system keeps every entity and its shape |
| Game.SnappedKeepsShape | src/Game.cpp:81 | the background system keeps every entity and its shape |
| Game.VisibilityKeepsShape | src/Game.cpp:82 | the visibility system keeps every entity and its shape |
| Game.ShellsShape | src/Systems.cpp:414-463 | the bullets of a volley are neither marked nor children |
| Game.CooledKeepsShape | src/Systems.cpp:239 | restarting fire timers keeps shapes |
| Game.SpawnKeepsShape | src/Systems.cpp:422 | spawning unmarked non-child records keeps shapes |
| Game.TurnKeepsShape | src/Systems.cpp:183-242 | a player's turn keeps shapes |
| Game.TurnsKeepShape | src/Game.cpp:78 | all of player_movement keeps shapes |
| Game.SweepSettles | src/Game.cpp:83-85 | on a settled registry no bullet is marked twice, and after marking and sweeping it is settled with no expired bullet left |
| Game.SpawnSettles | src/Game.cpp:26-72 | spawning a settled run into a settled registry leaves it settled |
| Game.SettledRunAppend | src/Systems.cpp:102-126 | two settled runs, one after the other, are one settled run |
| Game.HullRun | src/Systems.cpp:524-614 | a hull followed by parts hanging off it is a settled run |
| Game.WeaponsHangOff | src/Systems.cpp:678-704 | weapon entities hang off the ship that spawned them |
| Game.EnginesHangOff | src/Systems.cpp:465-503 | engine entities hang off the ship that spawned them |
| Game.ShipSettles | src/Systems.cpp:628-676 | spawn_ship spawns a settled run |
| Game.PlayerShipSettles | src/Systems.cpp:524-614 | spawn_player_ship spawns a settled run |
| Game.BackgroundsLoose | src/Systems.cpp:393-411 | backgrounds are neither marked nor children |
| Game.ObjectsLoose | src/Systems.cpp:505-522 | objects are neither marked nor children |
| Game.FleetSettles | src/Systems.cpp:73-88 | the map's ships, each at the id it gets, are a settled run |
| Game.MapSettles | src/Systems.cpp:51-100 | load_map spawns a settled run |
| Game.StartSettles | src/Systems.cpp:102-126 | load_start spawns a settled run |
| Game.PopulateSettles | src/Game.cpp:28-72 | a start loaded, then a player ship at the next id, leave a settled registry settled |
| Game.Populate | src/Game.cpp:28-72 | the start's records and then the player ship are spawned, and the registry stays settled |
| Game.Init | src/Game.cpp:23-73 | a missing asset directory fails; any failed asset load ends init with the registry untouched; otherwise the start and then the "example" player ship at (200, 200) are spawned, and the registry is settled |
| Game.Update | src/Game.cpp:75-86 | the weapon and bullet timers advance by dt, every player takes one turn, then physics, the hierarchy, the backgrounds, engine visibility, marking and the despawn sweep run in that order; the result is settled and no bullet past its lifetime remains |

## Left out

- Window, camera and drawing: `camera_to_player`, the `Draw` calls of `render_sprites`, `Game::run`, `Game::render` and the raylib texture load/unload, all foreign graphics. A texture is `Loaded(path)`, or the shared `Placeholder` that `get_error_texture` stands for. The colour of a Renderable is not modelled, since it is always White.
- `SetTargetFPS` and the debug printing in `Game::init`, and the `print_*` helpers: console output only.
- Log output is modelled only for `on_collision`. These other log lines are not emitted by the model; the model keeps only the skip-and-continue behaviour they report:
  - `load_assets`: the H_CRITICAL line for a missing directory, the H_ERROR line for each file that fails to load, and the H_INFO lines for each loaded record, texture and faction id (`src/AssetManager.cpp:189-376`);
  - `get_texture`: the H_ERROR line for a missing texture (`src/AssetManager.cpp:443`);
  - `spawn_engine`, `spawn_player_ship` and `spawn_ship`: the H_WARNING and H_ERROR lines for a missing asset or affiliation (`src/Systems.cpp:479`, `538-539`, `557`, `595`, `643-644`);
  - `load_map` and `load_start`: the lines for a missing map, start or affiliation (`src/Systems.cpp:60`, `78`, `111`);
  - the `Weapon` constructor's `std::println` for an unknown weapon key (`src/Components.cpp:12`).
- The filesystem walk: `load_assets` takes the walked entries, or `None` for a missing directory.
- The JSON and XML parsers: each entry carries its parsed document, or `None` when parsing fails.
- Keyboard polling is the `Keys` parameter.
- The frame time is `Controls.dt`.
- The logger's mutex, singleton and atomic level: a `Logger` object holds the level and the sinks.
- Console sinks are sequences of the lines written to them.
- The entt dispatcher is the returned event sequence.
- Ids are never recycled: `create` hands out a fresh counter, which keeps identities distinct just as entt's versions do.
- Floating-point rounding and overflow: all measures are `real`. An affiliation id is an unbounded `nat`, not a wrapped `uint32_t`.
- Trigonometry (`sin`, `cos`, `atan2`, `Vector2Rotate`, `Normalize`) is supplied as function parameters, which each contract quantifies over.
- `update_collision` and `on_collision` are not called from `Game::update`, so `Game.Update` does not run them. They are modelled on their own.
- Map and start documents are read only as far as the loader and spawners need them. There is no reader-agreement lemma for them.
- A JSON list key that is missing reads as no entries. nlohmann's `operator[]` on a missing key of a `const json` has no defined result.
- A JSON list key whose value is an object is refused, and the file is skipped. nlohmann's range-for would visit the object's values in key order. Key order on a map is not modelled.
- How an XML file becomes a document is abstracted. A leaf element is carried either as text or as a number. `child(k).text().as_string()` on a leaf carried as a number gives the default here, not the number's text. `as_float` and `as_int` on text that is not a number give 0, and no leading-number prefix is parsed. A repeated child read with `child(k).text()` gives the default, not the first child's text.
- The `Animation` and `HullHealth` components are not modelled: no core system reads or writes them.
- Collisions.OnCollision: an event naming an entity that is no longer in the registry is treated as unaffiliated. entt's `try_get` on a destroyed entity is not defined.
- Systems.VisibilityExactly: a parent that is no longer in the registry counts as not thrusting. entt's `any_of` on a destroyed entity is not defined.
- Systems.UpdateLocalTransforms: requires every child's parent to be live, to hold a Transform, and to be no child itself, so the hierarchy is one level deep. The source's `registry.get` has no defined result for a missing parent. A parent that is itself a child would make the result depend on the view order. `Game.Update` proves that the requirement holds every frame.
- Systems.MarkBulletsForDespawn: requires that no expired bullet is already marked, because entt's `emplace` of a component already present is not defined. `Game.Update` proves that this holds every frame.
- Rendering.RenderQueue: `std::ranges::sort` is modelled as a function on the sequence, not in place. The contract promises only what the library promises: sorted by layer and a permutation. Which of two equal layers comes first is left open.
- PlayerControl.PushedClamps: the clamped speed is stated to equal the top speed only when the supplied `normalize` returns a unit vector, because `Normalize` is a parameter.
- Systems.UpdateBackgroundPosition: with several players, which player the backgrounds end on depends on the view order. The contract states only that it is one of the players' positions.
- The Timer class's queries `IsDoneNow`, `IsActive`, `GetProgress` and `GetDuration` read the fields directly and carry no contract of their own. What is_done, is_active and get_progress promise is stated on the value they read, through `Timers.Progress` and the lemmas beside it.
