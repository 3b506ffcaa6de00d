# A verified model of a tile-world sandbox game

This project models, in Dafny, the core logic of a two-dimensional tile-world
game (a Terraria-like sandbox written in Python with pygame and numpy).

- **World generation.**
  - The tile registry maps tile names to ids and back.
  - Each biome has an elevation, blended linearly across its border with the next biome.
  - Surface tiles and ramps are placed, then the underground is filled band by band, skipping carved cave cells.
  - Each biome's cave mask is generated only once and cached.
  - Valleys are detected and filled as lakes.
  - Trees are placed where a spawn point is valid, with a chance that grows with the number of trees nearby.
  - The player's spawn point is found.
- **The collision index.** A map from cell coordinates to the tile rectangles in each cell.
  - It is built from the tile grid, queried by rectangle and kept in step with the grid.
  - Mining writes air and then removes the rectangle.
  - Placement writes an id and then adds the rectangle.
  - The invariant proved is the one the code keeps: every non-air tile, water included, has its rectangle in its cell's bucket, once, and no bucket holds anything else.
- **The collision resolver and sprite movement.**
  - Solid tiles clamp a sprite per axis.
  - A sprite can step over a one-tile rise.
  - Ramps are followed along their line.
  - Submersion lowers gravity and jump height.
  - The jump rule and the clamp to the world's edges are modelled.
- **Inventories and production.**
  - The dictionary inventory with its slot indices and its re-indexing on removal.
  - All-or-nothing crafting.
  - Machine slots and slot transfers.
  - The assembler's progress counters.
  - The drill's ore survey, extraction and majority-vote tile conversion.
- **Transport.**
  - The pipe connection rule, and the move-not-copy hand-off of items between pipes.
  - The inserter's receive and send rules.
- **Small state machines.**
  - The alarm timer.
  - The sky's colour cycle and tint.
  - Oxygen and HP. The rules are in colonist.py, the respawn in player.py.
  - Chopping a tree and a cloud's drift.
- **Integer geometry and string helpers.**
  - Chunk windows.
  - The mini-map window and its visited marking.
  - The radius test, tool strength and the parameters a placed item's class is built from.
  - The CamelCase-to-key conversion of class names.

The source's own form is kept:
- Objects whose fields change are classes with `modifies` frames.
- The tile map is an `array2<int>`.
- Loops are methods with invariants, proved against pure specification functions.
- Code made of expressions is functions and lemmas.

Noise (`pnoise1`, `pnoise2`), random draws and the clock are inputs:
- noise values are function parameters;
- pre-drawn random values are sequences;
- the current time is an explicit `now`.

Python's integer division and numpy's negative indexing are written out where the code can reach them. In particular:
- `//` with a positive divisor is Dafny's `/`;
- a negative numpy index counts from the end, and an index outside `[-n, n)` is the IndexError.

Runtime errors the code would raise are modelled as `Result` values, for example a KeyError, an AttributeError or a ValueError.

## Model

| member | source | states |
|---|---|---|
| Settings.Hardness | code/settings.py:63-80 | every terrain tile has a hardness between 100 and 1000 |
| Settings.BiomeWidthCoversMap | code/settings.py:60 | the five surface biomes split the 3000-column map into five 600-column bands exactly |
| Settings.WorldEdges | code/settings.py:7-9 | the right world edge is 19 pixels short of the map's pixel width; the bottom edge is its pixel height |
| Settings.ElevationsOrdered | code/settings.py:11-57 | each biome's elevation band lies inside the map with its top above its bottom |
| Settings.TreesAndLakesOnlyInForestAndTaiga | code/settings.py:26-43 | a biome has a tree probability, and a lake probability, exactly when it is in `TREE_BIOMES` (line 61) |
| Settings.RampTilesShape | code/settings.py:82-85 | the ramp names are the four materials in order, each followed first by ' ramp right' and then by ' ramp left' |
| Settings.RampMaterialIsWord | code/settings.py:83 | each ramp material is a single word |
| Settings.RampTilesContainRamp | code/settings.py:82-85 | every ramp name contains 'ramp', the test the physics uses to find ramps |
| Settings.InserterDirections | code/settings.py:163 | the inserter's seven direction pairs are the six straight pipe variants followed by left-right |
| Settings.PipeVariants | code/settings.py:150-162 | there are 11 pipe variants, the first six straight and the last five junctions |
| TileRegistry.NatToString | code/procgen.py:53 | `str(n)` is a non-empty string of digits ending in the last decimal digit of `n` |
| TileRegistry.GetTileIds | code/procgen.py:47-61 | the builder loop returns exactly `BuildRegistry` of the name list |
| TileRegistry.BuildStep | code/procgen.py:56-60 | one more name adds its id `i + 2` to both maps, and to the ramp ids when the name contains 'ramp' |
| TileRegistry.IdsToNamesAt | code/procgen.py:48-58 | the ids are exactly 0 to `|names| + 1`, 0 naming air, 1 'item extended' and `i + 2` the `i`-th name |
| TileRegistry.NamesToIdsKeys | code/procgen.py:48-57 | the names with an id are exactly the two reserved ones and the listed ones |
| TileRegistry.NamesToIdsRoundTrip | code/procgen.py:56-58 | looking up a name and then its id gives the name back, for any list |
| TileRegistry.NamesToIdsOfDistinct | code/procgen.py:56-57 | with distinct names avoiding the reserved ones, the `i`-th name gets id `i + 2` |
| TileRegistry.RegistryBijective | code/procgen.py:47-61 | with distinct names the two maps are inverse to each other in both directions |
| TileRegistry.RampIdsByName | code/procgen.py:59-60 | an id is a ramp id exactly when it names a tile whose name contains 'ramp' |
| TileRegistry.NoRampInReserved | code/procgen.py:48 | neither reserved name contains 'ramp' |
| TileRegistry.FirstWord | code/procgen.py:65 | `name.split(' ')[0]` is a space-free prefix of the name that ends at the first space or at its end |
| TileRegistry.FirstWordOfPhrase | code/procgen.py:65 | the first word of a word followed by a space-led phrase is that word |
| TileRegistry.GetTileMaterial | code/procgen.py:63-65 | a KeyError exactly for an unknown id; a ramp's material is the first word of its name, any other tile's is its name |
| TileRegistry.RampMaterial | code/procgen.py:63-65 | every registered ramp's material is the material it was named after (settings.py:83-85) |
| TileRegistry.OrderBiomes | code/procgen.py:67-72 | all biomes but the underworld are numbered 0 to 4, and the two maps invert each other |
| TileRegistry.BiomeAt | code/procgen.py:70-71 | a biome index names a biome other than the underworld |
| TileRegistry.BiomeAtIsOrder | code/procgen.py:71 | `idxs_to_biomes[i]` is `BiomeAt(i)` |
| TileRegistry.TerrainKnown | code/procgen.py:52-55 | a complete registry knows every terrain tile, ramp material and ramp |
| TileRegistry.IdsDiffer | code/procgen.py:56-58 | two names never share an id in a complete registry |
| TileRegistry.GameRegistryComplete | code/procgen.py:47-61 | the game's own name list builds a complete registry, in whatever order the `LIQUIDS` set is iterated |
| TileRegistry.GameNamesHaveNeeded | code/procgen.py:52-55 | the game's name list holds every name the rest of the game looks up |
| TileRegistry.PipesAvoidReserved | code/procgen.py:53 | no pipe variant name is a reserved name |
| TileRegistry.RampsAvoidReserved | code/procgen.py:53 | no ramp name is a reserved name |
| TileRegistry.GameNamesAvoidReserved | code/procgen.py:52-55 | the game's name list repeats neither reserved name |
| TileRegistry.NamesToIdsAir | code/procgen.py:48 | air keeps id 0 and 'item extended' id 1 when the list avoids them |
| Alarms.Lookup | code/alarm.py:12 | a keyword is found exactly when some argument carries that name, and the value found is one given under it |
| Alarms.Bind | code/alarm.py:4-21 | only the keywords `function`, `auto` and `loop` reach those parameters; with no `function` keyword there is no callback |
| Alarms.Alarm.constructor | code/alarm.py:4-25 | the alarm keeps its length, callback and loop flag, and is running from `now` exactly when `auto` is set |
| Alarms.Alarm.Start | code/alarm.py:27-29 | running, started at `now` |
| Alarms.Alarm.Halt | code/alarm.py:31-33 | stopped with start time 0 |
| Alarms.Alarm.End | code/alarm.py:31-39 | the callback fires once; the alarm is then running from `now` if it loops, stopped otherwise |
| Alarms.Alarm.Update | code/alarm.py:41-49 | the alarm ends, firing its callback, exactly when it is running and `length` milliseconds have passed; otherwise nothing changes; the callback is `Report` of the old state and the new running flag and start time are `Next` of it |
| Inventories.Increase | code/inventory.py:47-50 | an item with its own slot capacity grows up to that capacity and no further; any other item grows by the full amount |
| Inventories.CapacityKeyCounterexample | code/inventory.py:49 | as written, a dirt stack of 999 gains nothing, although a tile stack holds 9999 |
| Inventories.Without | code/inventory.py:63 | deleting a key keeps exactly the other keys, in order |
| Inventories.WithoutDistinct | code/inventory.py:63 | deleting a key from distinct keys leaves distinct keys |
| Inventories.AddKeepsCapped | code/inventory.py:40-50 | adding never pushes a stack past its capacity and never shrinks the stack added to |
| Inventories.TakeKeepsCapped | code/inventory.py:56-63 | removing keeps every stack within its capacity |
| Inventories.SpriteInventory.Empty | code/inventory.py:24-31 | an inventory with no save data and no default contents starts empty, at slot 0 |
| Inventories.SpriteInventory.WithContents | code/inventory.py:20-27 | default contents keep their order, entry `i` getting slot index `i`; the slot counter starts at 0 |
| Inventories.SpriteInventory.AddItem | code/inventory.py:40-54 | a new item takes the next slot at the end of the keys while a slot is free; a known item grows by `Increase`; a sprite holding nothing then holds the item and selects its slot |
| Inventories.SpriteInventory.Append | code/inventory.py:43-45 | the slot counter grows by one and the new entry sits at that slot, last in order |
| Inventories.SpriteInventory.RemoveItem | code/inventory.py:56-65 | no item given and none held, or an item not in the contents, raises KeyError and changes nothing; with more than `amount` left only the amount drops; otherwise the entry goes, the sprite holds nothing and the remaining keys are renumbered 0.. in order |
| Inventories.SpriteInventory.DeleteEntry | code/inventory.py:61-65 | the deleting branch: the entry goes, nothing is held, the rest is renumbered in order |
| Inventories.SpriteInventory.Drop | code/inventory.py:62-63 | nothing is held and the entry is gone from the keys and amounts |
| Inventories.SpriteInventory.Reindex | code/inventory.py:64-65 | the `i`-th remaining key gets slot `i` |
| Inventories.SpriteInventory.SelectIndex | code/inventory.py:83-89 | the pressed slot is selected and the sprite holds its item, or nothing past the last item |
| Inventories.SpriteInventory.Clear | code/player.py:45-46 | an empty inventory holding nothing, with the slot counters unchanged |
| Crafting.CraftItem | code/crafting.py:5-11 | crafting happens exactly when every ingredient is held in at least its amount; then each ingredient drops by its amount, the product grows by one as far as its stack allows, and no other stack changes; otherwise nothing changes |
| Crafting.Produce | code/crafting.py:9-11 | the successful branch: the ingredients drop by their amounts and then one unit of the product is added |
| Crafting.Crafted | code/crafting.py:9-11 | after the removals the product's entry is present exactly when it was before, and adding one unit gives what `add_item` gives |
| Crafting.SpendFacts | code/crafting.py:9-10 | after the first `k` removals those ingredients dropped by their amounts, the later ones are untouched and no other stack changed |
| Crafting.SpendOthers | code/crafting.py:9-10 | the removals touch only the ingredients removed so far |
| Crafting.SpendSpent | code/crafting.py:9-10 | each of the first `k` ingredients dropped by exactly its amount |
| Crafting.SpendNext | code/crafting.py:9-10 | the next ingredient is still present, untouched, and whether it keeps a unit decides whether all so far keep one |
| Crafting.AllNames | code/crafting.py:8 | a name is an ingredient exactly when it is among the recipe's names |
| Crafting.RemoveRecipe | code/crafting.py:9-10 | the removal loop leaves the amounts with every ingredient taken, and the held item dropped exactly when some ingredient ran out |
| Crafting.Consume | code/inventory.py:56-65 | one `remove_item` of the loop, in terms of `Take` |
| HeightMap.LerpRangeIsAFifth | code/procgen.py:132 | the transition zone is a fifth of a biome's width |
| HeightMap.ElevationWithinBiome | code/procgen.py:150-164 | with noise in [-1, 1] a biome's elevation stays between the top and bottom of its band |
| HeightMap.ColumnOfBiome | code/procgen.py:134-142 | column `bx` of biome number `i` is map column `i * BIOME_WIDTH + bx`, inside the map |
| HeightMap.GenHeightMap | code/procgen.py:130-148 | every column's height is `HeightAt`: its biome's elevation, blended toward the next biome in the transition zone |
| HeightMap.FillBiome | code/procgen.py:142-147 | the inner loop extends the filled columns by one whole biome |
| HeightMap.OwnElevationOutsideZone | code/procgen.py:143-144 | outside the transition zone, and across the last biome, a column has its own biome's elevation |
| HeightMap.MulBetween | code/procgen.py:147 | a weight in [0, 1] scales a non-negative span within that span |
| HeightMap.LerpBetween | code/procgen.py:147 | the blend `(1 - t)·a + t·b` lies between `a` and `b` |
| HeightMap.BlendInsideZone | code/procgen.py:145-147 | inside the zone the next biome's weight is in [0, 1) and the height lies between the two biomes' elevations |
| HeightMap.HeightWithinMap | code/procgen.py:130-148 | with noise in [-1, 1] every surface height lies between rows 0 and 125 |
| HeightMap.SurfaceBiomeWithin | code/settings.py:15-47 | the five surface biomes lie between rows 0 and 125 |
| HeightMap.SurfaceLevels | code/procgen.py:112 | one surface row per column, each the height truncated toward zero |
| HeightMap.SurfaceWithinMap | code/procgen.py:112 | with bounded noise every surface row lies inside the map |
| Terrain.ColumnBiome | code/procgen.py:185 | the biome owning a map column, `biome_names[x // BIOME_WIDTH]`, is never the underworld |
| Terrain.BiomeIndex | code/procgen.py:209-210 | a surface biome's position is the index that `idxs_to_biomes` maps back to that biome |
| Terrain.BiomeIndexIsOrder | code/procgen.py:67-72 | `BiomeIndex` is the numbering `order_biomes` builds |
| Terrain.BiomeStart | code/procgen.py:135-136 | a biome's first column is its index times 600, and its 600 columns lie inside the map |
| Terrain.ColumnsOfBiome | code/procgen.py:210 | a column belongs to a biome exactly when it lies in that biome's 600-column band |
| Terrain.SurfaceTile | code/procgen.py:166-182 | the surface material of each biome for the draw `randint(0, 10)`, always one of the four ramp materials |
| Terrain.RampName | code/procgen.py:195-198 | '<material> ramp right' and '<material> ramp left' are always registered ramp names starting with the material |
| Terrain.RampIndex | code/settings.py:83 | a ramp material's position in the material list |
| Terrain.RampNameListed | code/settings.py:82-85 | a material followed by a ramp suffix is a listed ramp name |
| Terrain.RampNamesAreRamps | code/procgen.py:59-60 | every ramp the terrain writes contains 'ramp', so its id is a ramp id |
| Terrain.PlaceSurface | code/procgen.py:185-186 | every column's surface row gets its biome's surface tile and no other cell changes |
| Terrain.PlaceRamps | code/procgen.py:190-199 | where the surface falls from the previous column the surface cell becomes a left ramp; else where it rises to the next column a right ramp; nothing else changes |
| Terrain.Band | code/procgen.py:224-234 | a cell is in band `i` exactly when it is below the surface and its relative depth lies in band `i`'s range; no band otherwise |
| Terrain.BandRows | code/procgen.py:205-231 | the four bands are the rows 1 to 79 below the surface, band `i` the rows 20i to 20i+19 |
| Terrain.MaxIdx | code/procgen.py:115-123 | band `i` draws from the first `tile_probs_max_idxs` entries of the biome's tile table, the deepest band from all of them |
| Terrain.UndergroundName | code/procgen.py:215-222 | an underground tile is one of the first `MaxIdx` entries of its biome's table, and a terrain tile |
| Terrain.FillCell | code/procgen.py:222 | one cell gets its band's tile if it is below the surface, in a band and outside the cave mask; no other cell changes |
| Terrain.FillColumn | code/procgen.py:201-222 | one column's filled cells get their tiles and nothing else changes |
| Terrain.PlaceUndergroundTiles | code/procgen.py:201-222 | exactly the cells below the surface, in a band and outside the cave mask get a tile of their column's biome and band |
| Terrain.UndergroundLeavesOthers | code/procgen.py:206-233 | a cell at or above the surface, in a cave, or 80 or more rows down is never filled |
| Terrain.GetCaveMask | code/procgen.py:226-232 | the current biome's cave mask is generated only when missing; an existing mask is reused unchanged |
| Terrain.PlaceTiles | code/procgen.py:184-188 | the final grid: left ramp, right ramp or surface tile on the surface row, the band's tile in filled cells below, everything else unchanged; the cave masks stay as they were |
| Terrain.CenterIsHalfway | code/procgen.py:75 | the centre column is `MAP_SIZE[0] // 2` |
| Terrain.GetPlayerSpawnPoint | code/procgen.py:74-89 | the spawn is the valid column nearest the centre, leftmost on a tie, in pixels on its surface row; the centre when no column is valid (validity as in procgen.py:236-239) |
| Grids.WriteOnSurface | code/procgen.py:186 | `tile_map[xs, surface[xs]] = values`: exactly the surface cells of the selected columns get their column's value |
| Grids.AssignColumnSlice | code/procgen.py:304-305 | `grid[x, lo:hi] = value`: exactly the cells of column `x` from `lo` up to `hi`, cut off at the map's bottom, get the value |
| Grids.WriteMask | code/procgen.py:295 | `grid[mask] = value`: exactly the cells set in the mask get the value |
| Caves.ScreenTiles | code/procgen.py:258 | a screen is 45 tile rows high |
| Caves.CaveGen.constructor | code/procgen.py:247-253 | the generator starts with the current biome's mask and no other |
| Caves.CaveGen.GenMap | code/procgen.py:255-274 | a fresh mask of the biome is stored, replacing any earlier one, and a cell is cave exactly when it lies at least `min_y` rows below its surface and the rescaled noise exceeds the biome's threshold |
| Caves.NoCaveNearSurface | code/procgen.py:259-262 | no cave opens within `min_y` rows of the surface, and `min_y` is drawn between 22 and 45 |
| Lakes.LakeBiomes | code/procgen.py:291-293 | the lake biomes are forest and taiga, in biome order, and the widest lake is half a screen |
| Lakes.SpacedOrdered | code/procgen.py:321 | the spacing test keeps valleys strictly left to right, each later one past the end of an earlier one by that one's width |
| Lakes.ValleysDisjoint | code/procgen.py:307-325 | the column ranges of two kept valleys never overlap |
| Lakes.AppendOk | code/procgen.py:322 | keeping a valid valley keeps every valley valid |
| Lakes.AppendSpaced | code/procgen.py:321-322 | keeping a valley that passed the spacing test keeps the list spaced and the earlier valleys in place |
| Lakes.CandidateOk | code/procgen.py:313-322 | a candidate closed where the surface climbs back above its start row, wide enough and under the roll, is a valid valley of its biome |
| Lakes.KeepValley | code/procgen.py:318-323 | keeping such a valley keeps the list a valid, spaced extension of the earlier valleys |
| Lakes.ValleyStep | code/procgen.py:314-324 | one column either keeps the candidate start or moves it to the column, and either keeps the valleys or appends the candidate closed at the column |
| Lakes.ValleyRun | code/procgen.py:310-324 | after the columns before `x` the candidate start lies in the biome, left of `x` |
| Lakes.ValleyStepOk | code/procgen.py:314-324 | one column keeps the candidate start the lowest point since it began and the valleys a valid, spaced extension of the earlier ones |
| Lakes.ValleyRunOk | code/procgen.py:309-324 | over every column walked the candidate start stays the lowest point since it began and the valleys kept are valid, spaced and start inside the biome |
| Lakes.ValleyScanOk | code/procgen.py:309-324 | one lake biome's search appends only valid, spaced valleys that start inside that biome |
| Lakes.LakeValleysOk | code/procgen.py:307-325 | every valley of the lake biomes lies in one lake biome, is 8 to 40 columns wide, rises at its end, has no column above its start inside and won its roll; the valleys are spaced and disjoint |
| Lakes.ScanBiome | code/procgen.py:309-324 | one lake biome's loop returns exactly the valleys of the reference search `ValleyScan` from the valleys it was given |
| Lakes.GetValleyLocations | code/procgen.py:307-325 | the valleys returned are exactly those of the reference search over the lake biomes in order, hence valid, spaced and disjoint |
| Lakes.FillPeak | code/procgen.py:299-301 | the water's top row is the valley's start row, one lower when that rim tile is a ramp |
| Lakes.ValleyAt | code/procgen.py:303 | the valley whose columns contain `x`, or none when no valley does |
| Lakes.ValleyAtUnique | code/procgen.py:303 | among disjoint valleys a column's valley is the only one containing it |
| Lakes.Peaks | code/procgen.py:299-301 | the fill peak of every valley, one per valley |
| Lakes.CarveValley | code/procgen.py:303-305 | one valley's columns get water in the mask from the peak to the floor and air above the peak; no other column changes |
| Lakes.ValleyAtExtend | code/procgen.py:298 | adding a valley changes the valley of its own columns only |
| Lakes.CellsExtend | code/procgen.py:298-305 | carving valley `k` after the earlier ones sets its own columns and keeps every other column |
| Lakes.CarveNext | code/procgen.py:302-305 | carving one more valley keeps the mask equal to the water cells, and the grid equal to air on the air cells, of the valleys carved so far |
| Lakes.CarveLakes | code/procgen.py:297-305 | after all valleys, the mask is each valley's water and the grid has air above each peak; every fill peak is the one read before carving began |
| Lakes.Depths | code/procgen.py:302 | one depth draw per valley, in order |
| Lakes.AllOkOnMap | code/procgen.py:310-322 | valid valleys lie on the map |
| Lakes.GenLakes | code/procgen.py:285-305 | water fills each lake from its peak for its depth, air is above each peak within the valley's columns, and every other cell is unchanged |
| Lakes.LakeColumns | code/procgen.py:303-305 | inside valley `k`'s columns water is exactly rows `[peak, peak + depth)` and air exactly the rows above the peak |
| Lakes.OutsideLakes | code/procgen.py:303 | outside every valley's columns nothing is carved |
| Lakes.LakeDepthBounds | code/procgen.py:292-302 | a lake is 4 to 16 rows deep below a peak on or just under its start row |
| Trees.CountSide | code/procgen.py:354-357 | at most `n` of the `n` tiles on one side can hold a tree |
| Trees.TreeProbAt | code/procgen.py:347-350 | the tree chance is at least the biome's base chance and at most that plus ten tenths of it |
| Trees.MulMono | code/procgen.py:350 | a larger neighbour count never lowers the scaled bonus |
| Trees.CountSideZero | code/procgen.py:352-358 | the count on a side is zero exactly when none of its `n` tiles holds a tree |
| Trees.CountSideMonotone | code/procgen.py:352-358 | more trees never give fewer neighbours |
| Trees.CountLeftIgnoresRight | code/procgen.py:354-355 | a tree at or right of column `x` does not change the count to the left of `x` |
| Trees.TreeProbMonotone | code/procgen.py:347-350 | the tree chance never falls as trees are added |
| Trees.NoClash | code/procgen.py:236-239 | a tree planted on a valid spawn tile lies in no footprint that a tree further left needs for its own validity |
| Trees.PlantSpaced | code/procgen.py:343 | planting where no tree stands within two columns on the row keeps the trees more than two columns apart |
| Trees.PlantRolls | code/procgen.py:343-350 | planting right of every tree keeps every earlier tree's roll within its chance |
| Trees.PlantSites | code/procgen.py:339-344 | planting on the surface of a tree-biome column keeps every tree on such a site |
| Trees.SitesWeaken | code/procgen.py:341 | trees placed left of `x` are placed left of any later column |
| Trees.PlantFacts | code/procgen.py:343-345 | planting keeps the sites, the spacing and the rolls, and the new tile lies in no earlier tree's footprint |
| Grids.Snapshot | code/procgen.py:330 | a copy of the grid with every cell equal to the grid's |
| Trees.PlantTile | code/procgen.py:345 | writing the tree base changes only that cell and leaves every tree, old and new, on a valid spawn tile |
| Trees.TreeGen.Plant | code/procgen.py:344-345 | the tree joins the map and its cell becomes a tree base, and the scan's invariant moves one column on |
| Trees.TreeGen.TryTree | code/procgen.py:342-345 | a tree is planted exactly when the surface tile is a valid spawn point, no tree stands within two columns on its row and the roll is within the chance; that decision is the reference scan's test on the starting grid, so the scan moves one column on |
| Trees.TreeGen.constructor | code/procgen.py:329-336 | the generator starts with no trees, scans the tree biomes, plants exactly the trees of the reference scan on the grid it was given, and changes the grid only where it planted |
| Trees.TreeGen.GetTreeLocations | code/procgen.py:338-345 | every tree stands on the surface of a tree-biome column, on a valid spawn tile of the final grid, more than two columns from any tree on its row, with its roll within its chance; the trees are exactly those of the reference scan `TreeScan` on the starting grid; the grid changes only at the trees |
| Trees.TreeGen.ScanAll | code/procgen.py:338-345 | the outer loop walks the tree biomes left to right; from no trees it ends with exactly the trees of `TreeScan` over every column |
| Trees.TreeGen.ScanBiome | code/procgen.py:340-345 | the inner loop walks every column of one tree biome; if the trees so far are those of `TreeScan` up to the biome's first column, they are those of `TreeScan` up to its last column afterwards |
| Trees.Scan | code/procgen.py:340-345 | a left-to-right scan takes only surface tiles of columns left of where it stopped |
| Trees.ScanGrows | code/procgen.py:340-345 | what the scan has taken only grows as it moves right |
| Trees.ScanDecides | code/procgen.py:340-345 | a column is taken exactly when the test accepts it given what was taken to its left |
| Trees.ScanSkips | code/procgen.py:339-340 | columns the test always rejects add nothing |
| Trees.TreeScanDecides | code/procgen.py:338-345 | completeness and soundness: a tree-scan column holds a tree exactly when it is in a tree biome, is a valid spawn point on the starting grid, has no tree within two columns on its row, and its roll is within the chance given by the trees planted to its left |
| Trees.TreeScanSkips | code/procgen.py:339-340 | the tree scan plants nothing in columns outside the tree biomes |
| Trees.SpawnThroughTrees | code/procgen.py:236-239 | tree bases laid on solid tiles do not change which surface tiles are valid spawn points, so validity during the scan equals validity on the starting grid |
| Trees.SameClass | code/procgen.py:236-239 | a cell of the grid is air, or air or water, exactly when it was before the tree bases were laid |
| Trees.NoTreeColumns | code/procgen.py:339 | no column before the first tree biome, between the tree biomes or after the last one belongs to a tree biome |
| Collision.CellsCoverMap | code/physics_engine.py:58 | the map is a whole number of 10-tile cells, so a tile is on the map exactly when its cell is |
| Collision.RemoveFirst | code/physics_engine.py:96 | `list.remove` takes out one element |
| Collision.RemoveFirstKeeps | code/physics_engine.py:96 | removing keeps only elements of the list, and from a list without repeats takes exactly that rectangle and leaves no repeats |
| Collision.GatherColumnHas | code/physics_engine.py:78-80 | a rectangle is gathered from a column of cells exactly when one of its buckets holds it |
| Collision.GatherHas | code/physics_engine.py:77-80 | a rectangle is gathered exactly when some bucket of the searched cell range holds it |
| Collision.CollisionMap.ValidIsValidExcept | code/physics_engine.py:85-96 | an index that agrees with the grid still agrees after a write is pending at any one tile |
| Collision.CollisionMap.Write | code/mining.py:60 | a tile write changes that tile alone and keeps the index agreeing everywhere else |
| Collision.CollisionMap.RemoveResyncs | code/physics_engine.py:92-96 | after air is written at a tile, `update_map(remove_tile=True)` makes the index agree with the grid again |
| Collision.CollisionMap.AddResyncs | code/physics_engine.py:88-90 | after a solid tile is written, `update_map(add_tile=True)` makes the index agree again, provided the tile's cell has a bucket |
| Collision.CollisionMap.AddTile | code/physics_engine.py:88-90 | the corrected add: appending through `defaultdict` creates a missing bucket, so the index always agrees after a solid tile is written |
| Collision.CollisionMap.MissingCellBreaksIndex | code/physics_engine.py:88 | a solid tile whose cell has no bucket is missing from the index |
| Collision.CollisionMap.StaleRectBreaksIndex | code/physics_engine.py:95-96 | an air tile whose rectangle is still indexed breaks the agreement |
| Collision.CollisionMap.constructor | code/physics_engine.py:46-51 | a new index agrees with the grid and has no empty bucket |
| Collision.CollisionMap.GenerateMap | code/physics_engine.py:53-59 | every non-air tile's rectangle is in its cell's bucket exactly once, every stored rectangle is such a tile's, and no bucket is empty |
| Collision.CollisionMap.IndexColumn | code/physics_engine.py:56-59 | one column's solid tiles are appended in order, top to bottom |
| Collision.CollisionMap.AddNew | code/physics_engine.py:58-59 | appends the tile's rectangle to its own cell's bucket and nothing else |
| Collision.CollisionMap.SearchMap | code/physics_engine.py:61-82 | the buckets of every existing cell from the rectangle's top-left tile's cell to its bottom-right tile's cell, column by column |
| Collision.CollisionMap.GatheredAreTiles | code/physics_engine.py:61-82 | every rectangle a search of an agreeing index returns is a solid tile's rectangle on the map |
| Collision.CollisionMap.UpdateMap | code/physics_engine.py:85-96 | only an existing cell changes: adding appends the tile's rectangle when absent, otherwise removing deletes it when present and the tile already holds air; nothing else changes |
| Collision.AddedCreatingAgrees | code/physics_engine.py:88-90 | where the cell's key exists the corrected add is exactly the source's add |
| Rects.TileRect | code/physics_engine.py:59 | a tile's collision rectangle is one tile square |
| Rects.TileRectInjective | code/physics_engine.py:57-59 | the tile read back from a tile's rectangle (`tile.x // TILE_SIZE`, `tile.y // TILE_SIZE`) is that tile, so distinct tiles have distinct rectangles |
| Rects.TouchingDoesNotCollide | code/physics_engine.py:119 | rectangles that only share an edge never pass `colliderect`, so a pushed-out sprite no longer overlaps the tile |
| Physics.AboveTiles | code/physics_engine.py:35-37 | the tiles checked are those above the tile up to the sprite's height in tiles, then the tile above the head one column back |
| Physics.ReadEach | code/physics_engine.py:35-37 | building the list raises IndexError exactly when some tile read is off numpy's range; otherwise it holds each tile read, in order |
| Physics.StepOverOnMap | code/physics_engine.py:32-39 | on the map, with a sprite no taller than the map, `step_over_tile` never raises and holds exactly when the sprite is not moving vertically and every tile it reads is air |
| Physics.StepOverTile | code/physics_engine.py:32-39 | the loop builds the list of tiles above and returns the step-over test (False while moving vertically) |
| Physics.TileCollisionX | code/physics_engine.py:132-147 | a read error changes nothing; a sprite that cannot step over is pushed to the tile's side, stops and no longer overlaps the tile; one that can and is grounded lands on the tile's top corner; horizontal motion ends; size kept; the moving fields end as `CollideX` of the old ones |
| Physics.TileCollisionY | code/physics_engine.py:149-162 | moving up the top meets the tile's bottom; moving down the bottom meets the tile's top, the sprite is grounded and a jump ends; vertical motion ends and the overlap is gone; the moving fields end as `CollideY` of the old ones |
| Physics.RampLineShape | code/physics_engine.py:164-185 | the intended ramp surface stays within the tile, a right ramp falls from its top-left to its bottom-right corner, a left ramp the other way, and the two mirror each other |
| Physics.RightRampFlatAsWritten | code/physics_engine.py:171 | as written, a right ramp's surface is the tile's top under every centre left of its right edge |
| Physics.RightRampCounterexample | code/physics_engine.py:171 | under the middle of a 16-pixel right ramp the written line gives 0 and the intended one 8 |
| Physics.RampCollision | code/physics_engine.py:164-185 | falling below the ramp surface sets the bottom on it and lands the sprite; falling above it changes nothing; rising meets the tile's bottom; horizontal motion always ends; the moving fields end as `Ramp` of the old ones |
| Physics.SubmergedOnce | code/physics_engine.py:196-200 | gravity and jump height are cut only from their defaults, so staying under water cuts them once and the cut values are below the defaults |
| Physics.CheckSprUnderwater | code/physics_engine.py:187-204 | the sprite is under water exactly when every footprint tile is water; under water gravity and jump are cut, out of it both are restored and oxygen refilled; a read error changes nothing; the moving fields end as `Soak` of the old ones |
| Physics.CollideX | code/physics_engine.py:132-147 | `tile_collision_x` on the sprite's moving fields as a value: a read error leaves them as they were; otherwise horizontal motion ends; only the rectangle, state and horizontal motion change, and the size stays |
| Physics.CollideY | code/physics_engine.py:149-162 | `tile_collision_y` on the moving fields: vertical motion ends and the sprite no longer overlaps the tile; only the rectangle, grounding, state and vertical motion change, and the size stays |
| Physics.Ramp | code/physics_engine.py:164-185 | `ramp_collision` on the moving fields: horizontal motion ends, vertical motion stays or ends, the size stays, and nothing but the rectangle, grounding, state and motion changes |
| Physics.Soak | code/physics_engine.py:187-204 | `check_spr_underwater` on the moving fields: a read error changes nothing; only the water fields change, and gravity stays or becomes the default or the default cut by ten |
| Physics.Solid | code/physics_engine.py:124-128 | a solid tile is resolved only on the axis being processed and only when the sprite moves along it; that motion then ends, on the vertical axis the overlap is gone, and a sprite at rest on the axis is unchanged |
| Physics.Overlap | code/physics_engine.py:120-128 | an overlapped tile by kind (ramp, water, other) keeps the size and gravity, ends or keeps each axis' motion, and leaves the water fields alone |
| Physics.TileStep | code/physics_engine.py:118-130 | a tile the sprite does not overlap changes nothing; an overlapped one changes only what the pass may change |
| Physics.PassClear | code/physics_engine.py:117-130 | a pass over tiles none of which the sprite overlaps leaves it unchanged and does not raise |
| Physics.PassKept | code/physics_engine.py:117-130 | the whole loop keeps the size, keeps or ends each axis' motion and leaves gravity at its value, the default or the cut default |
| Physics.CollideKept | code/physics_engine.py:111-130 | with no indexed tile near, the sprite is airborne and shown jumping; otherwise the pass keeps what it may change |
| Physics.ResolveSolid | code/physics_engine.py:124-128 | the sprite's moving fields end as `Solid` of the old ones, together with the error it returns |
| Physics.ResolveTile | code/physics_engine.py:118-130 | the sprite's moving fields end as `TileStep` of the old ones: the id is read as numpy reads it, a ramp resolves by slope, water is skipped, another tile resolves as solid, and the water test follows |
| Physics.TileCollisionUpdate | code/physics_engine.py:111-130 | the sprite ends as `Collide` says: airborne and jumping when no indexed tile is near, otherwise the fold of `TileStep` over the searched tiles in order, stopping at the first read error |
| Physics.UpdateMovementX | code/physics_engine.py:234-240 | the sprite takes the direction, moves by direction times speed times dt truncated, stays within `[0, WORLD_EDGE_RIGHT]`, and an idle sprite starts walking; the moving fields end as `MoveX` of the old ones |
| Physics.UpdateMovementY | code/physics_engine.py:242-249 | half the pull before the move and half after; the top moves by the average speed and never passes `WORLD_EDGE_BOTTOM`; the moving fields end as `Fall` of the old ones |
| Physics.FallTo | code/physics_engine.py:244-247 | the new top is the truncated position when that is within `WORLD_EDGE_BOTTOM`, and never beyond it |
| Physics.StopState | code/physics_engine.py:217-228 | with no horizontal input a jumping, mining or chopping sprite keeps its state and any other becomes idle |
| Physics.StopInterruptsAsWritten | code/physics_engine.py:226 | as written, the test compares the sprite object with the state names, so mining and jumping sprites become idle too |
| Physics.WaterDirection | code/physics_engine.py:220-222 | under water a horizontal move has direction plus or minus one half with the input's sign; otherwise the input direction |
| Physics.MoveAcross | code/physics_engine.py:220-228 | the horizontal phase: a move at the input direction (plus or minus one half under water) or, with no input, a stop with the intended state rule |
| Physics.MoveKeepsSize | code/physics_engine.py:219-232 | a whole move keeps the sprite's size, and with no horizontal input its horizontal motion has ended |
| Physics.MoveSprite | code/physics_engine.py:219-232 | the sprite ends as `Move` says: horizontal phase, horizontal collision pass, gravity, vertical collision pass, with a read error in the first pass skipping the rest; the size is kept |
| Physics.Jump | code/physics_engine.py:251-256 | a grounded sprite not already jumping, with the key pressed, gains upward speed equal to its jump height and leaves the ground; otherwise nothing changes; the moving fields end as `Leap` of the old ones |
| Physics.HeldDirection | code/physics_engine.py:259 | right minus left is 1 exactly when only right is held, -1 exactly when only left is, and 0 when both or neither are |
| Physics.Update | code/physics_engine.py:258-260 | the sprite ends as `Move` with the held direction followed by `jump` on the result, or as the move alone when it raised; its size is kept |
| Mining.InReachIsSquareReach | code/mining.py:49-50 | a tile within the mining radius of the sprite's tile is within that radius on each axis too |
| Mining.Hit | code/mining.py:56-57 | the hits grow by this frame's hit; the hardness falls by strength times all hits so far, reaching 0 exactly when that product covers it and never going below 0 |
| Mining.HitsAddUp | code/mining.py:56-57 | with a positive strength and hit, every frame adds hits and never raises the hardness |
| Mining.FirstEntry | code/mining.py:38-42 | the first hit on a tile records its material's hardness (at least 100) and no hits; a tile with no material or no hardness entry raises KeyError |
| Mining.Miner.constructor | code/mining.py:15-32 | the miner starts with an empty mining map over a valid collision index |
| Mining.Miner.Run | code/mining.py:34-46 | with the bounds check the code evidently intends (see Findings; as written, `ValidTileAsWritten`): holding no pickaxe changes nothing; a tile out of reach, off the map or air, water or a tree base changes nothing but ends mining; a valid one sets the sprite mining and has the hit's whole outcome (`Outcome`), with the tile's entry its existing one or a fresh one of its material's hardness: no entry to create is a KeyError that changes nothing; a tool without a strength raises with the hit counted; a hit that leaves hardness is stored, changing no tile and no inventory; a hit that wears the tile down adds one of its material to the inventory (`AddAmount`), writes air, takes the tile out of the index and drops its entry; a failed material lookup then raises with the hit stored; only that tile changes; the index stays valid |
| Mining.Miner.MineTile | code/mining.py:37-43 | the valid branch of `run` has the hit's whole outcome (`Outcome`): KeyError with nothing changed for a first hit on a tile without hardness; otherwise the entry (existing or fresh) takes the hit, and the tool's error, the stored hit, the mined tile with its material added and its entry dropped, or the material's error follow as `update_tile` gives them |
| Mining.Miner.MineFresh | code/mining.py:37-43 | a tile without an entry gets one of its material's hardness and 0 hits, then takes the hit with the outcome `Outcome` states; no material hardness is the KeyError, changing nothing |
| Mining.Miner.UpdateTile | code/mining.py:54-62 | the hit is counted first; a tool without a strength raises after that; a tile with hardness left stays, and `Ok(false)` means exactly that case; a tile worn to 0 whose material lookup fails raises with the hit stored; one worn to 0 adds its material to the inventory, becomes air, leaves the index and its entry |
| Mining.Miner.Strike | code/mining.py:57-62 | one hit of a given strength: hardness left keeps the tile and the inventory; hardness 0 collects the tile, or raises the material lookup's error with the tile untouched |
| Mining.Miner.Collect | code/mining.py:59-62 | the material is added to the inventory, the tile becomes air, its rectangle leaves the index and its mining entry is deleted |
| Mining.Miner.RemoveTile | code/mining.py:60-61 | writing air and then `update_map(remove_tile=True)` leaves the index valid with exactly that tile's rectangle removed |
| Mining.Miner.RemoveTileAsWritten | code/mining.py:60-61 | for a mouse tile above or left of the map the write wraps to the far row or column, the index lookup finds no cell, and the index still holds the rectangle of a tile that is now air |
| Mining.Miner.ValidTileAsWritten | code/mining.py:48-51 | as written: out of reach is false without a read; on the map it agrees with `ValidTile`; a tile in reach above the map reads the bottom row instead and can pass although `ValidTile` rejects it; past either end it raises IndexError |
| Mining.Miner.Update | code/mining.py:64-69 | with the mine key held the miner runs: no pickaxe changes nothing, an invalid tile only ends mining, and a valid one sets the sprite mining with the hit's whole outcome (`Outcome`); released, a mining sprite becomes idle and nothing else changes |
| Machines.InvSlot.constructor | code/machine_sprite_base.py:17-23 | a slot made with an item, valid inputs and a capacity has no rect and holds nothing |
| Machines.InvSlot.Default | code/machine_sprite_base.py:17-23 | a default slot has no item, rect or valid inputs, holds 0 and has capacity 99 |
| Machines.Values | code/machine_sprite_base.py:31-33 | `input_slots.values()`: the slots stored under the keys, in insertion order |
| Machines.Inv.constructor | code/machine_sprite_base.py:25-28 | the inventory keeps the given input slots and gets a fresh default output slot of its own |
| Machines.Inv.Slots | code/machine_sprite_base.py:30-35 | iteration yields the input slots in insertion order and then the output slot |
| Machines.Inv.OnlyOutputWithoutInputs | code/machine_sprite_base.py:31-35 | with no input slots only the output slot is yielded |
| Machines.Inv.OutputOnlyLast | code/machine_sprite_base.py:30-35 | the output slot is yielded last and nowhere before |
| Machines.TileXY | code/machine_sprite_base.py:49 | the machine's tile is the tile whose square contains its top-left point, by floor division |
| Machines.Machine.constructor | code/machine_sprite_base.py:39-79 | with a UI the fuel and output stacks come from the save data or start empty; without one there are none; the machine is active only when saved active |
| Machines.FirstSlotAt | code/machine_ui.py:68-69 | the first position whose slot has a rect under the mouse, none before it does; none exactly when no slot does |
| Machines.MachineUI.GetSlotInput | code/machine_ui.py:68-69 | the first slot, in iteration order, with a rect under the mouse, or None exactly when there is none |
| Machines.ExtractAmount | code/machine_ui.py:79 | a left click takes the whole stack; any other click takes half rounded down, at least one |
| Machines.ExtractNeverOverdraws | code/machine_ui.py:79-80 | from a stocked slot a click takes between one and all of it; a left click empties it, another leaves the larger half |
| Machines.MachineUI.InputItem | code/machine_ui.py:71-76 | a slot with no valid inputs raises TypeError; a held item the slot does not accept changes nothing; an accepted one names an empty slot, adds the amount and is taken from the player's inventory, raising KeyError when the inventory has no entry for it |
| Machines.MachineUI.ExtractItem | code/machine_ui.py:78-83 | the slot loses the extracted amount and forgets its item at 0; the player's inventory gains exactly that amount of the item |
| Machines.MachineUI.UpdateInvSlot | code/machine_ui.py:126-137 | the smelt or fuel slot loses one unit; at 0 it forgets its item and the window closes; a smelt slot still holding an item adds one unit to the output, naming it after the plate when empty; a missing slot or unknown ore raises KeyError |
| Machines.MachineUI.constructor | code/machine_ui.py:14-37 | the UI belongs to the machine's inventory and starts closed |
| Assemblers.MaxCount | code/assembler.py:50 | `max(recipe.values())`: no count exceeds it and some count equals it |
| Assemblers.Zeros | code/assembler.py:46-47 | a counter of 0 for exactly the recipe's ingredients |
| Assemblers.ResetIsIncomplete | code/assembler.py:65-70 | after the counters are reset to 0, the completion test fails for any recipe that asks for a unit |
| Assemblers.Counted | code/assembler.py:54 | each ingredient that fired gains one count, every other keeps its count, and no key is added |
| Assemblers.TicksToComplete | code/assembler.py:54 | `n` consumptions of one ingredient raise its count by exactly `n` and add no key |
| Assemblers.Tick | code/assembler.py:60-64 | a stopped alarm starts now; a due one ends and restarts now when looping; a running one not yet due is unchanged |
| Assemblers.LoopingAlarmKeepsRunning | code/assembler.py:60-64 | a looping alarm is running after every tick of the loop |
| Assemblers.FiredIn | code/assembler.py:60-64 | the ingredients whose alarm is due now and calls `update_slot`, and no others |
| Assemblers.Consumed | code/assembler.py:52-56 | a slot loses one unit and forgets its item exactly when it had none or is left at 0 |
| Assemblers.ConsumeSome | code/assembler.py:52-56 | only the slots of the ingredients that fired change, and no slot is added or lost |
| Assemblers.CountedTwice | code/assembler.py:60-64 | counting two disjoint groups of ingredients one after the other is counting their union |
| Assemblers.UnitsAreConserved | code/assembler.py:52-56 | for every ingredient, the slot's amount plus its count is the same before and after the alarms fire |
| Assemblers.InsertKey | code/assembler.py:49-50 | storing under a key keeps the key order duplicate-free and holds exactly the old keys and the new one |
| Assemblers.StarvedStep | code/assembler.py:60-64 | visiting one more alarm adds exactly that ingredient's slot to those checked for a missing item |
| Assemblers.States | code/assembler.py:60-64 | the state of every alarm, by key and for no other key |
| Assemblers.Contents | code/assembler.py:52-56 | the contents of every slot, by key and for no other key |
| Assemblers.UpdateSlot | code/assembler.py:52-56 | one unit leaves the slot; with a counted item the item's counter gains one and a slot left at 0 forgets its item; otherwise a KeyError after the unit is gone |
| Assemblers.TickKey | code/assembler.py:60-64 | one alarm ticks; if it ends it consumes one unit of its slot for its ingredient; a slot without an item raises KeyError and stops the alarm; nothing else changes |
| Assemblers.TickStep | code/assembler.py:60-64 | one turn of the alarm loop extends the ticked alarms, consumed slots and counts by that key, or raises exactly when that ingredient fired with an empty slot |
| Assemblers.TickAll | code/assembler.py:60-64 | every alarm ticks, exactly the fired ingredients' slots give one unit each to their counters; a KeyError exactly when a fired ingredient's slot has no item |
| Assemblers.Select | code/assembler.py:40-43 | an unset or unknown category raises KeyError, an index outside the list (negative counting from the end) IndexError; otherwise the item and record at that position |
| Assemblers.PrefixDistinct | code/assembler.py:46 | the ingredients of any prefix of a recipe are distinct |
| Assemblers.Ingredients | code/assembler.py:46-49 | for each ingredient in the recipe's order a counter at 0, its own slot accepting only it, and its own 2500 ms looping alarm bound to that slot |
| Assemblers.Assembler.constructor | code/assembler.py:25-36 | no category, item or recipe, no input slots, counters or alarms |
| Assemblers.Assembler.TickAlarms | code/assembler.py:60-64 | every alarm ticks and each fired ingredient's slot gives a unit to its counter; the output slot is untouched; a KeyError exactly when a fired slot has no item |
| Assemblers.Assembler.SetCounts | code/assembler.py:54 | the counters become those the alarm loop left and the assembler stays valid |
| Assemblers.Assembler.Produce | code/assembler.py:65-70 | once every ingredient is counted as often as the recipe asks, the output gains one item, named after the assembler's item when empty, and the counters reset to 0; otherwise nothing changes |
| Assemblers.Assembler.Emit | code/assembler.py:66-68 | the output slot gains one unit and takes the item's name when it has none |
| Assemblers.Assembler.AssembleItem | code/assembler.py:58-70 | with no input slots or an empty one nothing changes; otherwise the alarms tick, fired slots are consumed and counted, and a complete count produces one item and resets; a KeyError exactly when a fired slot has no item |
| Assemblers.Assembler.LayOut | code/assembler.py:46-49 | the recipe becomes the assembler's, with a counter at 0, a slot and an ingredient alarm per ingredient, alarms keyed in recipe order |
| Assemblers.Assembler.LaidIsValid | code/assembler.py:46-49 | a laid-out recipe satisfies the assembler's wiring invariant |
| Assemblers.Assembler.Install | code/assembler.py:44-49 | the recipe, counters, slots and alarms are exactly those given |
| Assemblers.Assembler.Choose | code/assembler.py:41-42 | the item becomes the chosen one and the output slot accepts only it |
| Assemblers.Assembler.Clear | code/assembler.py:44-46 | a recipe of None clears every dictionary before the loop fails |
| Assemblers.Assembler.AddOutputAlarm | code/assembler.py:50 | the output alarm is stored under the item's own name, bound to the output slot, overwriting any ingredient alarm of that name only |
| Assemblers.Assembler.Store | code/assembler.py:49-50 | the alarm is stored under the name, bound to the output slot, the name kept in insertion order |
| Assemblers.Assembler.AssignItem | code/assembler.py:39-50 | a bad category or index changes nothing and raises; otherwise the item is chosen; a record without a recipe raises KeyError before anything is cleared; a recipe of None clears and raises TypeError; an empty recipe raises ValueError; any other lays out its ingredients and the output alarm of 2500 ms per unit of the largest count |
| Assemblers.Assembler.Reassign | code/assembler.py:43-50 | after the item is chosen, its record's recipe replaces the slots, counters and alarms as `AssignItem` states |
| Assemblers.Assembler.ReassignRecipe | code/assembler.py:45-50 | for a recipe, a zero counter, an ingredient slot and an ingredient alarm per ingredient; an empty recipe then raises ValueError with no alarms, any other adds the looping output alarm under the item's name, 2500 ms per unit of the largest count |
| Drills.SliceBounds | code/drills.py:34-39 | the strip's columns are the tiles under the rectangle's left and right edges, its rows start at the tile of its bottom edge, and `max_y = min_y + min(MAP_H - min_y, RES[1] // 4)` never passes the map's bottom |
| Drills.MapSlice | code/drills.py:40 | `tile_map[min_x:max_x, min_y:max_y]`: the strip's size is the bounds' spans and each entry is the grid's tile at the offset position |
| Drills.InFlat | code/drills.py:62 | a value occurs in the flattened strip exactly when it occurs at some strip position |
| Drills.RowHits | code/drills.py:65 | the positions of a value in one column of the strip, each once, top to bottom, as many as the column holds of it |
| Drills.Hits | code/drills.py:65 | `np.argwhere(slice == v)`: exactly the strip positions holding `v`, in column-then-row order, as many as the strip holds of it |
| Drills.OreData | code/drills.py:59-66 | one entry for exactly the names of the strip's ids outside the ignored set |
| Drills.OreEntryFacts | code/drills.py:42-66 | each entry's id lies in the strip and is not air, dirt or 'item extended'; its amount is `count * TILE_ORE_RATIO`; its locations are exactly the id's positions in the strip |
| Drills.EveryOreRecorded | code/drills.py:59-66 | every strip position holding an id that is not ignored is among the locations of that id's entry |
| Drills.Uniq | code/drills.py:83 | `Counter`'s key order: every value once, and no other |
| Drills.Tally | code/drills.py:83 | one `(value, count)` pair per distinct value |
| Drills.Insert | code/drills.py:87 | inserting a pair into the sorted list adds that pair and nothing else |
| Drills.InsertDesc | code/drills.py:87 | inserting a pair keeps the counts in descending order |
| Drills.SortDesc | code/drills.py:87 | `most_common`'s sort: a permutation of the tally, counts in descending order |
| Drills.TallyFacts | code/drills.py:83 | the tally holds each distinct neighbour id once, each with its number of occurrences |
| Drills.MostCommonFacts | code/drills.py:83-87 | `most_common()` holds every neighbour id once with its count, counts never increasing along it |
| Drills.VoteIsNeighbor | code/drills.py:87-94 | the converted tile always takes one of its neighbours' ids |
| Drills.StrictMajorityWins | code/drills.py:89-90 | an id counted more often than every other wins whatever the random draw |
| Drills.TiedLeadersFirst | code/drills.py:87-91 | two ids tied ahead of all others take the first two places of `most_common` and the third count is smaller |
| Drills.TwoWayTieKeepsLeaders | code/drills.py:91-92 | with a two-way tie at the top, the draw picks one of the two tied ids |
| Drills.NeighborDirsShape | code/drills.py:96-109 | the kept directions are up, right, down, left in that order, up only more than one row down, left not at x = 0, right not at x = W-1, down not at y = H-1 |
| Drills.NeighborDirsKept | code/drills.py:96-109 | a direction is kept exactly when its condition allows it, and none twice |
| Drills.NeighborDirsNonEmpty | code/drills.py:82-86 | a tile on the map always keeps its left or its right neighbour, so the air branch is never taken |
| Drills.NeighborsOnMap | code/drills.py:83-109 | each kept neighbour of a tile on the map is on the map, except up from the top row, which numpy reads from the bottom row |
| Drills.NeighborIds | code/drills.py:83 | the ids of the kept neighbours, in direction order |
| Drills.SlowedAlarms | code/drills.py:77-79 | going a row deeper makes the extraction alarm 5% longer; every other alarm, and a missing one, is left as it is |
| Drills.DeliverOutcome | code/drills.py:77-79 | `ore_col % span_x` raises ZeroDivisionError for a strip of width 0; going deeper with the alarms cleared raises KeyError; otherwise whether the drill went deeper |
| Drills.Drill.constructor | code/drills.py:28-57 | the strip, ore data and counters from save data or freshly surveyed; air, dirt and 'item extended' ignored; the extraction alarm (and a burner's fuel alarm) of `2000 * speed * 1.05 * (row + 1)`; a burner's one fuel slot accepting wood and coal up to 50 |
| Drills.Drill.GetNeighborDirs | code/drills.py:96-109 | the loop of removals yields exactly `NeighborDirs` |
| Drills.Drill.ConvertTile | code/drills.py:81-94 | the tile takes the vote of its neighbours' ids; all other tiles are unchanged |
| Drills.Drill.ConvertTileAsWritten | code/drills.py:83 | as written, `tile_xy + xy` indexes the grid with a 4-tuple, so every call on a map tile raises IndexError |
| Drills.Drill.Deliver | code/drills.py:73-79 | the output gains one unit, named after the target ore when empty; the row, alarms and outcome follow `Deepens`, `SlowedAlarms` and `DeliverOutcome` |
| Drills.Drill.Extract | code/drills.py:68-79 | one unit less available; when none is left the ore tile takes its neighbours' vote and no other tile changes; then the delivery |
| Drills.Drill.ExtractAsWritten | code/drills.py:69-71 | as written, the last unit reads the undefined `ore_xy`: AttributeError with the counter down and nothing delivered |
| Drills.Drill.BurnFuel | code/drills.py:176-179 | one unit of fuel burnt, and the slot forgets its item when none is left |
| Drills.Drill.BurnFuelAsWritten | code/drills.py:179 | as written, the last unit is burnt and `self.self` raises AttributeError, leaving the empty slot still naming its fuel |
| Drills.Drill.GetActiveState | code/drills.py:111-119 | afterwards active exactly when there is fuel and room in the output; a running drill that can no longer run loses its alarms; an electric drill's missing fuel slot raises TypeError |
| Transport.ObjAt | code/pipe.py:37 | `obj_map[x, y]` as numpy reads it: IndexError outside `[-W, W) x [-H, H)`, the object or None on the map, and column `W - 1` for `x = -1` |
| Transport.KeysAreSteps | code/settings.py:150-162 | every pipe variant's keys are at least two distinct unit steps; variants 0-5 are straight lines and the others junctions with both axis lists |
| Transport.DefaultHeading | code/pipe.py:44-46 | the default transport direction is the first key, or for a junction the first entry of each axis list, and is always one of the pipe's keys |
| Transport.Link | code/pipe.py:36-42 | a step links only to an object on a tile strictly inside the map, and a pipe only when its own keys hold the opposite step |
| Transport.EdgesNeverLink | code/pipe.py:37 | a step onto row 0, column 0 or an empty tile never links |
| Transport.LinksSymmetric | code/pipe.py:37-40 | two pipes inside the map whose keys hold opposite steps towards each other link both ways |
| Transport.LiveOf | code/pipe.py:56 | the loop list is the keys holding an object, in key order, each once |
| Transport.Run | code/pipe.py:55-73 | the pass over the linked neighbours in order, one result per neighbour; after an exception the rest are left as they were |
| Transport.RunSnoc | code/pipe.py:56 | the pass over one more neighbour is the pass so far followed by one iteration |
| Transport.RunAfterError | code/pipe.py:56-66 | once an iteration has raised, the remaining neighbours are passed over unchanged |
| Transport.StepConserves | code/pipe.py:58-73 | one iteration moves an item between the pipe and the neighbour or changes nothing: their items together are kept |
| Transport.ConserveLast | code/pipe.py:56-73 | the last iteration, or its skipping after an exception, keeps the pipe's and the neighbours' items together |
| Transport.RunConserves | code/pipe.py:55-73 | a pass never copies or loses an item: the pipe and its neighbours hold the same multiset of items before and after |
| Transport.RunMovesByRules | code/pipe.py:59-73 | each neighbour's item changes only by a rule: it received the item while ahead and empty, or it was a feeding pipe whose item was taken |
| Transport.RunFailsOnlyAtMachines | code/pipe.py:65-76 | a pass raises only when pushing to a machine ahead, and then AttributeError; with no machine ahead it never raises |
| Transport.PushReachesFirstEmptyPipe | code/pipe.py:59-64 | a pipe holding an item whose first neighbour ahead is an empty pipe hands the item to that pipe |
| Transport.RunIdleWhileNotAhead | code/pipe.py:59-60 | while no neighbour is ahead, a pipe holding an item changes nothing |
| Transport.Pipe.constructor | code/pipe.py:14-30 | as intended (see Findings): a new pipe holds nothing, has a looping 2000 ms `move item` alarm calling `transport`, and is linked to the grid |
| Transport.Pipe.GetConnectedObjs | code/pipe.py:32-46 | every key links by `Link` and the transport direction is reset to its default |
| Transport.Pipe.LinkAt | code/pipe.py:37-42 | one key of the loop: the object the step links to, if any |
| Transport.Pipe.Live | code/pipe.py:56 | the keys `transport` walks hold objects, each once |
| Transport.Pipe.PeersOf | code/pipe.py:56-57 | the neighbours as `transport` sees them, one per key, in order |
| Transport.Pipe.SendItemToInserter | code/pipe.py:75-78 | an inserter holding nothing and turned over takes the pipe's item and the pipe is emptied; otherwise nothing changes; a machine raises AttributeError |
| Transport.Pipe.Transport | code/pipe.py:55-73 | the pipe's new item, every neighbour's new item and the exception that stopped the loop are those of `Run` on the neighbours as they were |
| Transport.Pipe.Advance | code/pipe.py:56-73 | one more iteration of the walk is `Run` one neighbour further |
| Transport.Pipe.Stopped | code/pipe.py:56-73 | a walk that raised, or finished, leaves exactly the state `Run` describes |
| Transport.Pipe.SnapshotIs | code/pipe.py:56-57 | the neighbours read off pointwise are the snapshot the pass starts from |
| Transport.Pipe.FrameAt | code/pipe.py:56-73 | distinct keys reach distinct pipes and inserters, so one iteration changes only its own neighbour |
| Transport.Pipe.Iteration | code/pipe.py:57-73 | one iteration changes the pipe and that neighbour as `Step` says and no other neighbour |
| Transport.TransferLengthExact | code/inserter.py:45-49 | on a whole-millisecond clock the rounded alarm length ends the transfer exactly when `rotate_speed / speed_factor` has elapsed |
| Transport.AlarmsAsWrittenCallNothing | code/inserter.py:48-52 | as written, `fn=` is swallowed by the alarm's keyword arguments: `transfer` and `receive item` call nothing, `send item` calls its method |
| Transport.AlarmsCallTheirMethods | code/inserter.py:48-52 | corrected, each alarm calls its method: `transfer` automatic and looping, the two hand-offs single-shot at 200 and 100 ms |
| Transport.TileBorders | code/inserter.py:35-38 | exactly the horizontal and the vertical neighbours of the tile on the map, each once, in ascending order |
| Transport.PressesCycle | code/inserter.py:54-57 | after the first press the index walks the seven direction pairs in turn: `n` presses land on `(i + n) % 7` |
| Transport.Targets | code/inserter.py:60-61 | with a side unset there is nothing to do; the receiving cell is read first and the sending one only when it holds an object; a read off numpy's range raises IndexError |
| Transport.Taken | code/inserter.py:77-79 | a machine's output loses one unit and forgets its item when none is left |
| Transport.Stored | code/inserter.py:89-92 | a machine's fuel input gains one unit of the item, naming it when it held none |
| Transport.StoreThenTake | code/inserter.py:77-92 | taking back an item just stored restores the stack |
| Transport.Inserter.constructor | code/inserter.py:32-52 | a new inserter has its tile's borders, no sides chosen, holds nothing, is not turned over, and has the corrected alarms |
| Transport.Inserter.ConfigTransportDir | code/inserter.py:54-57 | a press over the inserter advances the index modulo 7 and takes that pair as the receiving and sending sides; otherwise nothing changes |
| Transport.Inserter.Rotate | code/inserter.py:101-112 | the turned-over flag flips |
| Transport.Inserter.Transfer | code/inserter.py:59-71 | with both sides holding objects, an empty inserter targets the receiving side and starts `receive item`, a loaded one targets the sending side and starts `send item`; it ends turned over; otherwise nothing happens |
| Transport.Inserter.ReceiveItem | code/inserter.py:73-85 | from a pipe with an item, the item moves here and the pipe is emptied; from a machine with an output item, one unit is taken; either way it turns back; anything else changes nothing |
| Transport.Inserter.SendItem | code/inserter.py:87-99 | to an empty pipe the item moves there; to a machine whose fuel input is empty or holds that item one unit is stored; either way the inserter drops it and turns back; a target without a fuel input raises AttributeError |
| Placement.GetTilesCovered | code/item_placement.py:128-134 | the covered tiles are exactly the block of tiles the image spans from its top-left tile, column by column |
| Placement.MaxRow | code/item_placement.py:79 | the result is the row of some tile and no tile lies below it |
| Placement.GetGroundTiles | code/item_placement.py:78-80 | an empty list raises ValueError and nothing else fails; the ground tiles are exactly the tiles just under the tiles on the lowest row |
| Placement.RowBelowColumn | code/item_placement.py:78-80 | only the last tile of a covered column lies on the block's bottom row |
| Placement.GroundOfCovered | code/item_placement.py:78-80 | the ground tiles of a covered block are the row just under it |
| Placement.GroundOfRow | code/item_placement.py:69-92 | taking the ground tiles of a row again, as the multi-tile check does, gives the row beneath it, so that check tests terrain two rows under the item |
| Placement.ValidPipeBorder | code/item_placement.py:99-104 | answers true exactly when one of the variant's directions leads to an on-map machine, 'item extended' or pipe tile |
| Placement.AnyLink | code/item_placement.py:101-104 | over any list of directions, true exactly when one of them leads to an on-map machine, 'item extended' or pipe tile |
| Placement.ValidItemBorder | code/item_placement.py:82-90 | a pipe whose last character is not a digit raises ValueError, any other pipe borders exactly when its variant has a linkable neighbour; any other item borders exactly when one of its four neighbours is a terrain or ramp tile |
| Placement.ReadHeight | code/item_placement.py:95 | numpy indexing of the height map: IndexError exactly outside [-width, width), the plain entry on the map |
| Placement.ValidItemBorderMulti | code/item_placement.py:92-97 | no tiles raise ValueError; a true answer means every ground tile is terrain and, for a pump, the tile one under the rounded surface of the column beside it is a liquid; a non-pump answers exactly the ground test |
| Placement.ValidPlacement | code/item_placement.py:63-67 | on the map, true exactly when the tile holds air or water, is within reach and borders what the item needs; an error is the border test's error |
| Placement.ValidPlacementMulti | code/item_placement.py:69-71 | no tiles raise ValueError; a true answer means the item's border test passed, its first tile is within reach and every covered tile holds air or water |
| Placement.InitKeysAreClassNames | code/sprite_manager.py:76-81 | a key is one of the keys of the classes created on placement exactly when it is the derived name of one of the ten machine classes |
| Placement.PipeVariantKey | code/item_placement.py:143 | every pipe variant is looked up under the key 'pipe' |
| Placement.Placer.constructor | code/item_placement.py:45 | the object map starts empty over a valid collision index and a complete registry |
| Placement.Placer.InitObj | code/item_placement.py:142-146 | as intended, with every class built (see Findings): an item without a class raises KeyError and a failed argument build raises its error, both leaving the map alone; otherwise one new object with the next serial and the item's key, which every covered tile then refers to, other tiles unchanged |
| Placement.Placer.InitObjAsWritten | code/item_placement.py:142-146 | as written: the lookup raises KeyError for an item without a class and a failed argument build raises its error; when the arguments build, a pipe and the electric furnace raise AttributeError and the two inserters TypeError in their constructors, leaving the object map and the serial alone; every other class is built as in `InitObj` |
| Placement.PipeReachesConstructor | code/item_placement.py:143-144 | 'pipe 0' is an object item stored under the key 'pipe', and its arguments build for any tile, so placing it reaches the pipe's constructor |
| Placement.FailingKeysPlaced | code/sprite_manager.py:76-81 | each of the four classes that raise when built is in the table of classes created on placement, so its lookup succeeds and the constructor is reached |
| Placement.NoPipeParams | code/sprite_manager.py:176-188 | an item whose name has no letter 'p' (so no 'pipe') gets the position of its first covered tile, a UI and no variant, and a direction exactly when it is one of the items that flip |
| Placement.InserterReachesConstructor | code/item_placement.py:143-144 | a burner inserter is an object item under its own name, its arguments build on any tile, and its class raises TypeError, so placing it reaches that error |
| Placement.ElectricFurnaceReachesConstructor | code/item_placement.py:143-144 | an electric furnace is an object item under its own name, its arguments build on any covered tiles, and its class raises AttributeError, so placing it reaches that error |
| Placement.Placer.PointAll | code/item_placement.py:145-146 | every given tile refers to the object, every other entry is unchanged and no other key appears |
| Placement.Placer.FinishPut | code/item_placement.py:108-123 | the index update after a solid write to an already-indexed cell restores agreement and adds the tile's rect |
| Placement.Placer.PutTile | code/item_placement.py:107-108 | the tile gets the id, no other tile changes, the rect is added, and the index agrees with the grid exactly when the tile's cell already had a bucket |
| Placement.Placer.PlaceSingleTileItem | code/item_placement.py:106-111 | an unknown item raises KeyError and changes nothing; otherwise the tile gets the item's id, one item is taken, the index agrees exactly when the cell had a bucket, and placing the last item of a kind (or a non-machine) creates no object; with two or more held, a machine whose class builds on arguments that build gets its object on the tile, while a pipe, an inserter or the electric furnace raises its constructor's error after the tile is written and the item taken, with no object created |
| Placement.Placer.PlaceSingleTileItemFixed | code/item_placement.py:106-111 | as intended: the index always agrees with the grid, one item is taken and a machine whose arguments build gets an object on the tile |
| Placement.Placer.TakeThenCreate | code/item_placement.py:109-111 | as written: one held item is taken; once the last item of a kind (or a non-machine) is taken no object is created; with two or more left and arguments that build, a machine whose class builds gets its object on the tile, while a class that raises (a pipe, an inserter, the electric furnace) gives its error and no object |
| Placement.Placer.CreateHeld | code/item_placement.py:110-111 | the object check on what is held after the removal: nothing held or a non-machine creates nothing; a machine whose class builds on arguments that build gets its object on the tile, only that tile entering the map; a class that raises gives its error and no object |
| Placement.Placer.TakeAndCreate | code/item_placement.py:109-111 | as intended: one item is taken, a non-machine creates nothing, and a machine whose arguments build gets its object on the tile whatever was left |
| Placement.Placer.PutTileCreating | code/item_placement.py:107-108 | the tile gets the id, no other tile changes, and the index, creating a missing bucket, agrees with the grid |
| Placement.Placer.PutExtended | code/item_placement.py:115-123 | every covered tile after the first holds 'item extended', the first keeps the item's id, tiles outside the cover are unchanged and the index agrees |
| Placement.Placer.ExtendStep | code/item_placement.py:121-123 | one more covered tile holds 'item extended' and the earlier ones keep their ids, with the index in agreement |
| Placement.Placer.CreateShared | code/item_placement.py:118-119 | a multi-tile machine's object, built as written, exists exactly when its class is known and builds and its arguments build; it is then shared by every covered tile under the item's key; otherwise the error is the KeyError, the argument error or the class's own error, and the object map is untouched |
| Placement.Placer.PutFirst | code/item_placement.py:116-123 | the first covered tile gets the item's id; the step's result is `ObjStep`: `false` for a non-machine, and for a machine the KeyError, the argument error, the error its class raises, or `true` with the object shared by every covered tile; an error comes before the index update, leaving the index out of step only at that tile and the object map untouched |
| Placement.Placer.PlaceMultiTileItem | code/item_placement.py:113-125 | an unknown item raises KeyError and changes nothing; otherwise the result is that of the object step (`ObjStep`); on success the first covered tile holds the item's id and the rest 'item extended', no other tile changes, the index agrees, one item is taken and a machine's object is shared by every covered tile; a class that raises (the electric furnace, a pipe, an inserter) stops it after the first write, with nothing taken |
| Placement.Placer.PlaceKnown | code/item_placement.py:113-125 | the same for an item the registry knows: the result is `ObjStep`, and an error from the object step, such as the electric furnace's AttributeError, comes after the first write |
| Placement.Placer.Extend | code/item_placement.py:120-125 | the other covered tiles hold 'item extended', no tile outside the cover changes, and one item is taken from the inventory |
| Weather.ClipAdd | code/weather.py:33 | every channel is the channel plus the update, clipped to the night and day colour of that channel |
| Weather.ClipAddInRange | code/weather.py:33 | a step always leaves the colour between the night and day colours, and a step that stays inside moves every channel by the update |
| Weather.TurnsAtEnds | code/weather.py:33-35 | a brightening step at the day colour stays there and turns to darkening, a darkening step at the night colour turns to brightening, and the first darkening step from the day colour keeps darkening |
| Weather.TintStepInRange | code/weather.py:47-51 | with alpha in [0, 255] and a unit direction, alpha stays in [0, 255] and the direction stays a unit; at a bound it turns without moving |
| Weather.TintRange | code/weather.py:23-38 | the morning band while the sky brightens, the evening band otherwise |
| Weather.TintBandsDisjoint | code/weather.py:23-39 | no blue value shows the tint in both directions' bands |
| Weather.DayNightStartsOnlyWithAuto | code/weather.py:28-29 | as written the day/night alarm is not started by its constructor, since it is passed `auto_start`, which the alarm does not read; with `auto` it is; both loop and call the cycle, and the tint alarm waits, loops and calls the tint step |
| Weather.Sky.constructor | code/weather.py:15-30 | from the save data when given, otherwise the day colour, darkening, alpha 0 brightening; the day/night alarm running from now (with the intended keyword) and the tint alarm stopped |
| Weather.Sky.NewColour | code/weather.py:19 | a fresh three-channel array holding the colour |
| Weather.Sky.DayNightCycle | code/weather.py:32-35 | the colour becomes the clipped step and stays in range; the direction turns exactly when the colour is the whole day or night colour |
| Weather.Sky.UpdateTint | code/weather.py:47-51 | alpha and direction become one tint step: the direction turns at 0 going down or 255 going up, otherwise alpha moves by it |
| Weather.Sky.RenderTint | code/weather.py:37-45 | inside the band the tint alarm runs (started now if it was stopped) and the current alpha is drawn; outside nothing is drawn and the alarm is untouched |
| Weather.Sky.Dispatch | code/alarm.py:35-36 | the day/night callback steps the colour only, the tint callback steps the tint only, anything else changes nothing; the state becomes `Run` of the old one |
| Weather.RunSteady | code/weather.py:32-51 | the day/night step touches only the colour and its direction, the tint step only the tint, any other callback nothing; a colour in range and a tint in [0, 255] with a unit direction stay so |
| Alarms.Report | code/alarm.py:41-49 | an alarm reports its callback exactly when it is running and its length has elapsed, and nothing otherwise |
| Weather.Sky.Update | code/weather.py:58-61 | the alpha is drawn exactly when the blue channel is in the band; the state becomes the day/night alarm's callback run on it and then the tint alarm's, the tint alarm's report taken after the tint check may have started it now; a steady sky stays steady |
| Weather.Sky.Tick | code/weather.py:60-61 | the sky's state becomes the reported callback run on it, the alarm restarts or stops as its update says, and a steady sky stays steady |
| Colonists.AlarmCallbacksLost | code/colonist.py:57-60 | with the callbacks passed under `fn`, a keyword the alarm does not read, neither alarm has a callback |
| Colonists.AlarmCallbacksBound | code/colonist.py:57-60 | under `function` the oxygen alarm calls `lose_oxygen` and the HP alarm `regen_hp`; neither starts on its own nor loops |
| Colonists.BiomeIndexInRange | code/colonist.py:64 | every position between the world's edges falls in one of the five surface biomes |
| Colonists.Colonist.constructor | code/colonist.py:18-60 | the sprite stands with its bottom centre at `xy`, at rest and idle, not grounded, with full HP (8) and oxygen (8), arm strength 4, jump height 350 and the default gravity; the player gets the starting inventory and others an empty one; both alarms stopped with their intended callbacks |
| Colonists.Colonist.UpdateCurrentBiome | code/colonist.py:62-66 | while the sprite moves the biome becomes that of its column, and an index past the surface biomes is the KeyError; at rest nothing changes |
| Colonists.Colonist.CheckOxygenLevel | code/colonist.py:68-71 | under water a stopped oxygen alarm starts now; otherwise the alarm is untouched |
| Colonists.Colonist.CheckHpLevel | code/colonist.py:110-112 | below full HP and out of the water a stopped regeneration alarm starts now; otherwise it is untouched |
| Colonists.Colonist.RegenHp | code/colonist.py:114-115 | one more HP |
| Colonists.Colonist.LoseOxygen | code/colonist.py:82-88 | with oxygen left one unit of it goes; without, one HP goes, and reaching 0 HP kills the sprite: the player respawns, any other colonist is removed |
| Colonists.Colonist.Die | code/colonist.py:90-95 | the player respawns and any other colonist is removed with its HP and oxygen as they were |
| Colonists.Colonist.Respawn | code/player.py:33-46 | full HP and oxygen, out of the water with the oxygen alarm stopped, centred on the spawn point at rest and grounded with the default gravity, an empty inventory holding nothing; size, life and the HP alarm are unchanged |
| Colonists.Colonist.Dispatch | code/alarm.py:35-36 | HP, oxygen and life become `Effect` of the old ones: the oxygen callback runs `lose_oxygen` (a unit of oxygen, else a unit of HP, and death at 0 HP, the player respawning full with its oxygen alarm stopped), the HP callback adds one HP, anything else changes nothing; the oxygen alarm stops only on a respawn |
| Colonists.LoseOxygenRunsDown | code/colonist.py:82-88 | from stats in range `lose_oxygen` keeps them in range; oxygen goes before HP; nothing rises except on a player's respawn, which restores both in full; a colonist that dies is not the player and has 0 HP |
| Colonists.Colonist.UpdateAlarms | code/colonist.py:117-119 | the alarms running at the start of the frame are updated, oxygen first: each alarm's running flag and start time become `Next` of its state at entry, and the stats become `Effect` of the oxygen alarm's reported callback followed by the HP alarm's; a respawn on either stops the oxygen alarm |
| Colonists.Colonist.Update | code/colonist.py:121-125 | the biome, oxygen, HP and alarm steps in order keep the colonist consistent, stopping at the biome KeyError |
| Colonists.AsWrittenAlarmUpdate | code/colonist.py:57-60 | with the alarms built as written an alarm update reports no callback, so oxygen and HP never change through them |
| Nature.Drift | code/nature_sprites.py:34 | the new left edge is within one pixel of the exact drifted position and never right of the old one for a non-negative step |
| Nature.DriftMovesLeft | code/nature_sprites.py:34 | a step of at least one pixel always moves the cloud left |
| Nature.Cloud.constructor | code/nature_sprites.py:18-31 | the cloud starts at its rect with its speed, in its sprite groups |
| Nature.Cloud.Move | code/nature_sprites.py:33-36 | the cloud drifts left by speed times dt and stays alive exactly while its right edge is past 0 |
| Nature.Chop | code/nature_sprites.py:86 | the strength left is never negative, is 0 exactly when the tool is at least as strong, and otherwise drops by the tool's strength |
| Nature.ChopTimesValue | code/nature_sprites.py:86 | after k hits the strength is the starting strength less k tool strengths, floored at 0 |
| Nature.HitsToFell | code/nature_sprites.py:86-91 | a tree falls on exactly the ceil(strength / tool)-th hit of a positive tool |
| Nature.RelStrength | code/nature_sprites.py:87-88 | ZeroDivisionError exactly for a tool of strength 0 or above the maximum of 50; otherwise, for a positive tool, the largest multiple of the tool within the maximum |
| Nature.HeldToolNeverDividesByZero | code/nature_sprites.py:85-88 | every tool strength a held item can look up leaves the division defined |
| Nature.Fade | code/nature_sprites.py:88-89 | the alpha never goes below 0 nor rises, and a relative strength of 1 clears it at once |
| Nature.RemoveFirstTakesOne | code/nature_sprites.py:92 | removing a present coordinate takes away exactly one occurrence |
| Nature.TreeMap.constructor | code/sprite_manager.py:42 | the shared tree map holds the given coordinates |
| Nature.TreeMap.Remove | code/nature_sprites.py:92 | the first occurrence of the coordinate leaves the tree map |
| Nature.Tree.constructor | code/nature_sprites.py:43-78 | the saved strength or the maximum 50, fully opaque, alive, `ceil(height / 25)` wood and a stopped 500 ms delay without a callback |
| Nature.Tree.CutDown | code/nature_sprites.py:80-97 | a hit lands only once the delay is over; it sets the sprite chopping, raises AttributeError with nothing held, IndexError for a blank name, the tool lookup's error, ZeroDivisionError for a tool of 0 or above 50; otherwise the strength is chopped and the alpha fades; a tree at 0 still in the map leaves it, dies, sets the sprite idle and drops its wood, and any other landed hit restarts the delay |
| Sprites.TwoWords | code/sprite_manager.py:126 | two words joined by one space split back into exactly those two words |
| Sprites.GetToolStrength | code/sprite_manager.py:124-128 | with nothing held, the arm strength; a held name that is not two words is a ValueError, a pair missing from the tool table a KeyError, and any found strength lies in [10, 50] |
| Sprites.HeldToolStrength | code/sprite_manager.py:126-127 | a held '<material> <tool>' gets exactly that pair's strength from the tool table, or a KeyError when it has none |
| Sprites.StonePickaxeStrength | code/sprite_manager.py:126-127 | the stone pickaxe mines at strength 15, and a one-word item such as wood cannot be unpacked |
| Sprites.InRadiusFacts | code/sprite_manager.py:148-159 | the radius test is symmetric, false at exactly the distance, preserved by larger distances, and a rect is within any positive radius of itself |
| Sprites.ScreenSpaceBoth | code/sprite_manager.py:156-159 | shifting both centres by the camera offset does not change the answer |
| Sprites.GetSpritesInRadius | code/sprite_manager.py:145-146 | exactly the sprites of the group that pass the radius test, never more than the group |
| Sprites.SpritesInRadiusAppend | code/sprite_manager.py:145-146 | filtering a split group is filtering each part, so the group's order is kept |
| Sprites.SpritesInRadiusAll | code/sprite_manager.py:145-146 | a group whose every sprite passes comes back whole |
| Sprites.FlipDir | code/sprite_manager.py:167 | the new facing always differs from the old one |
| Sprites.FlipTwice | code/sprite_manager.py:167 | flipping twice restores a set facing, and an unset one ends up facing right |
| Sprites.Flippable.constructor | code/sprite_manager.py:186-187 | a placed flippable item starts with its rect and the given facing, not mirrored |
| Sprites.Flippable.CheckDirFlip | code/sprite_manager.py:164-167 | with the mouse over the item and the rotate key pressed the image mirrors and the facing flips; otherwise nothing changes |
| Sprites.GetClsInitParams | code/sprite_manager.py:169-189 | an empty tile list is an IndexError; the position is the first tile in pixels; a pipe, and only a pipe, gets a variant (a digit from its last character) and no UI; a non-pipe that can flip gets the player's facing |
| Sprites.PipeVariantParam | code/sprite_manager.py:183-184 | the pipes 'pipe 0' to 'pipe 9' get their own index as variant |
| Sprites.PipeTenParam | code/sprite_manager.py:183-184 | 'pipe 10' gets the arguments of 'pipe 0', variant 0 |
| TileReads.ColumnFacts | code/item_placement.py:130-132 | a column of n tiles holds the tiles straight down from its first, in order |
| TileReads.BlockLength | code/item_placement.py:130-132 | the covered block has columns times rows tiles |
| TileReads.BlockHas | code/item_placement.py:128-134 | the covered block holds exactly the tiles of the rectangle from its top-left tile |
| TileReads.BlockOrdered | code/item_placement.py:130-132 | the block lists its tiles column by column in strictly increasing order, starting with its top-left tile |
| TileReads.BlockNoDup | code/item_placement.py:128-134 | no tile is covered twice |
| TileReads.Read | code/item_placement.py:71-95 | numpy indexing of the tile map: IndexError exactly outside [-width, width) x [-height, height), the tile itself on the map |
| TileReads.AnyIn | code/item_placement.py:88-90 | on the map, whether some listed tile has one of the ids; an error only from a read off the grid |
| TileReads.AllIn | code/item_placement.py:71-92 | on the map, whether every listed tile has one of the ids; an error only from a read off the grid |
| PyNum.Trunc | code/mini_map.py:96-97 | `int()` truncates toward zero: the result is within one of the value, on the value's side of 0 |
| PyNum.FloorDiv | code/nature_sprites.py:87 | Python's `//` is the floor of the exact quotient for either sign of divisor |
| PyNum.RoundHalfEven | code/item_placement.py:95 | Python's `round` picks the nearest integer and, at a half, the even one |
| PyNum.NpIndex | code/item_placement.py:95 | numpy reads a negative index from the end of the axis |
| Chunks.ChunkPrefix | code/chunk_manager.py:17-22 | the first `n` tiles of a chunk, `n` of them |
| Chunks.ChunkIsSquare | code/chunk_manager.py:14-24 | a chunk holds exactly the tiles of the 24 x 24 square below its top-left tile, each once |
| Chunks.ChunkIsXMajor | code/chunk_manager.py:17-18 | a chunk lists its tiles column by column, each column top to bottom |
| Chunks.GetChunk | code/chunk_manager.py:14-24 | the two loops return exactly `ChunkCoords` |
| Chunks.ChunkGrid | code/chunk_manager.py:31-32 | the screen takes 4 chunks across and 2 down |
| Chunks.ChunkOrigin | code/chunk_manager.py:36-43 | a chunk's origin is clamped into the map and equals the unclamped origin whenever that is already inside |
| Chunks.VisiblePrefix | code/chunk_manager.py:34-46 | the first `n` chunks of the screen grid, `n` of them |
| Chunks.VisibleChunksInMap | code/chunk_manager.py:26-48 | eight full chunks, every tile of which is inside the map, whatever the camera offset |
| Chunks.ChunkFollowsCamera | code/chunk_manager.py:36-37 | an unclamped chunk starts exactly `x` chunks right and `y` chunks down from the camera's tile |
| Chunks.Update | code/chunk_manager.py:26-48 | the two loops return exactly `VisibleChunks` for the camera offset |
| MiniMaps.Bound | code/mini_map.py:119-128 | a slice end is read inside the axis: as given when on it, counted from the end when negative |
| MiniMaps.Slice | code/mini_map.py:119-128 | a slice selects a run inside the axis, exactly the given run when it is on the axis, and nothing when the stop is not after the start |
| MiniMaps.WindowLo | code/mini_map.py:99-102 | the window's first index is never negative and never more than 40 before the centre, and is cut to 0 only when the centre is within 40 of the edge |
| MiniMaps.Window | code/mini_map.py:99-119 | the map slice shown lies inside the axis and, with the centre on the axis, starts at the window's first index and passes the centre |
| MiniMaps.WindowInside | code/mini_map.py:99-105 | with the centre on the axis the slice starts at the window's first index and goes past the centre |
| MiniMaps.VisitedWindow | code/mini_map.py:107-113 | the visited window lies inside the axis |
| MiniMaps.GridStart | code/mini_map.py:116-117 | the shown block starts at grid cell 0 when the centre is at least 40 from the edge, and 40 minus the centre otherwise |
| MiniMaps.AxisOf | code/mini_map.py:99-122 | the bounds along one axis keep both windows inside the map and the copied run inside the 80-cell grid |
| MiniMaps.ViewOf | code/mini_map.py:99-122 | both axes' bounds fit |
| MiniMaps.AxisSource | code/mini_map.py:125-128 | a grid index shows a map index exactly inside the copied run, and that index is in the window |
| MiniMaps.CellSource | code/mini_map.py:124-128 | a grid cell shows a map cell exactly when both axes show an index, and it is that pair |
| MiniMaps.AxisCentre | code/mini_map.py:116-128 | with the centre on the axis the grid's middle index shows the centre |
| MiniMaps.CentreTileShownAtCentre | code/mini_map.py:116-128 | with the centre tile on the map the grid's centre cell shows exactly that tile |
| MiniMaps.VisitedAroundCentre | code/mini_map.py:107-114 | the visited window holds the centre and nothing more than 6 before it |
| MiniMaps.TopRowsExtended | code/mini_map.py:101-117 | near the top edge the pushed-down bottom keeps the map slice 80 rows tall, placed below the grid's top by the rows cut off |
| MiniMaps.Pick | code/mini_map.py:125-128 | a pair of runs copies to a grid index exactly when the index is in the target run |
| MiniMaps.AxisAwayFromEdge | code/mini_map.py:99-122 | at least 40 from the near edge the window is not cut and is copied from grid cell 0 on |
| MiniMaps.AxisAsWrittenAgrees | code/mini_map.py:125-128 | at least 40 from the near edge both assignments as written broadcast and copy exactly the index the intended placement names |
| MiniMaps.AsWrittenAgreesAwayFromEdges | code/mini_map.py:124-128 | away from the left and top edges both grids as written show exactly the intended cells |
| MiniMaps.RunsNearTop | code/mini_map.py:125-128 | with the centre within 40 of the top the tile grid's middle row copies slice row 40 while the visited grid's copies the centre's own row |
| MiniMaps.TileRowsShiftedNearTop | code/mini_map.py:125 | with the centre within 40 of the top the tile grid's centre shows map row 40 instead of the centre tile, which the visited grid and the intended placement show |
| MiniMaps.RunsAboveMap | code/mini_map.py:122-128 | a centre 41 rows above the map leaves a negative row count whose value run is not a broadcastable shape |
| MiniMaps.VisitedFailsAboveMap | code/mini_map.py:128 | a centre 41 rows above the map makes the visited assignment raise ValueError |
| MiniMaps.SetBlock | code/mini_map.py:114 | the block is set and every other cell is kept |
| MiniMaps.Blit | code/mini_map.py:124-128 | every grid cell the view shows holds its map cell and every other cell is kept |
| MiniMaps.MiniMap.constructor | code/mini_map.py:18-27 | without save data the visited map has the tile map's shape and nothing visited |
| MiniMaps.MiniMap.ShowView | code/mini_map.py:114-130 | the visited window is marked; the fresh tile grid shows each shown cell's tile and air elsewhere; the fresh visited grid shows each shown cell's flag and false elsewhere |
| MiniMaps.MiniMap.GetMapSlices | code/mini_map.py:92-130 | for the camera's centre tile, the visited window is marked and both 80 x 80 grids show the same intended map cell at every position of the block, air or unvisited elsewhere |
| Helpers.Lower | code/helper_functions.py:34 | `lower()` on a character gives no capital, shifting each capital by 32 and keeping anything else |
| Helpers.SpaceFromFacts | code/helper_functions.py:34 | the converted tail has no capitals and gains one character per capital after the first position |
| Helpers.ClsNameToStrFacts | code/helper_functions.py:33-34 | the key has no capitals, starts with a space only when the name does, and is longer than the name by its capitals after the first character |
| Helpers.SpaceFromAppend | code/helper_functions.py:34 | converting a joined name converts the first part and then the rest |
| Helpers.SpaceFromInner | code/helper_functions.py:34 | a word after the start of a name has a space put before each of its capitals |
| Helpers.TwoWords | code/helper_functions.py:33-34 | a name of two capitalised words becomes the first word's key, a space and the second word lower-cased |
| Helpers.PlacedClassKey | code/sprite_manager.py:76-79 | each of the ten classes created when placed (`BurnerFurnace` … `OutletPump`) is keyed by its words lower-cased and spaced ('burner furnace' … 'outlet pump') |

## Left out

- Rendering, UI, input and assets are not modelled: graphics_engine.py, ui.py, the machine UI screens, the asset loaders, the input manager and every `render_*` drawing call. Only the tint range choice of `render_tint` is kept.
- Saving, loading and the main frame loop are not modelled. Save data enters as an optional constructor argument for the machines, the drills, the trees and the sky. The inventory, the mini-map and the colonist take none, as the next three lines say.
- Inventories.SpriteInventory.Empty: the save-data branch of `SpriteInventory.__init__` (inventory.py:16-18) is not modelled. It takes the contents and index from the save and never sets `last_idx_with_item`, so a later `add_item` of a new item would raise AttributeError.
- Inventories.SpriteInventory.WithContents: models the default-contents branch only; the save-data branch is left out as above.
- MiniMaps.MiniMap.constructor: the save-data branch (mini_map.py:27), which loads the saved visited-tiles grid, is not modelled.
- `pnoise1`, `pnoise2`, `randint`, `choice` and `np.random.choice` are parameters, because they are foreign or random.
  - The weighted tile choice of the underground fill is reduced to which table entries are eligible. The choice among them is a drawn index `pick`.
  - The probability renormalisation is floating point and is not modelled.
- Floating-point rounding is not modelled.
  - Heights, `dt` and mining hits are exact `real`s. A position written back to a rect is truncated to an integer, as pygame does.
  - `Alarm.percent` and `track_percent` are not modelled.
  - Alpha fades are not modelled.
- Alarm `args` and `kwargs` are not modelled. Keyword arguments are bound to the alarm's parameters by name only, and callbacks are run with no arguments.
- Weather.Sky.Tick: the alarm forwards the keywords it does not read to its callback. As written, `update_tint` is therefore called with `auto_start=False`, which is a TypeError when the tint alarm fires. The model runs `update_tint` with no arguments.
- The ids of the liquids depend on the iteration order of a Python set. The registry therefore takes its name list as a given sequence of distinct names, and only lemmas that rely on distinctness use it.
- furnaces.py is not part of this model beyond whether its classes build (`Placement.BuildError`): it creates the slot 'burn fuel' but reads 'fuel', and it uses undefined names.
- pumps.py is not part of this model: `extract_liquid` is a stub.
- The empty `WaterFlow` class is not modelled.
- `Drill.update` (drills.py:121-134) is not modelled. It only sequences alarms and the active-state check, which are modelled separately.
- The `place_item` dispatcher (item_placement.py:53-61) is not modelled, because it reads the item's image size. The two placements it chooses between are modelled with the covered tiles as input.
- `Pipe.update_rotation` and `Pipe.config_transport_dir` are not modelled: they read attributes that do not exist.
- Transport.Inserter.constructor: the source passes 11 arguments to a 6-parameter base class, a TypeError, and placement never gets that far: the inserter classes reject the keywords placement passes (see Findings). The model builds the inserter the rest of the code expects, with its alarms bound as the model's constructor binds them.
- Placement.Placer.InitObj: builds every class as intended. Which classes raise as written is the table `Placement.BuildError`, used by `Placement.Placer.InitObjAsWritten`; the other classes' constructors are taken to build, and their deeper steps are not modelled.
- The inserter variants are modelled by their speed factors only. Their `fuel_sources` and `tile_reach_radius` are not read by the modelled code. The NameError of `LongHandedInserter.__init__` (inserter.py:188) is not modelled.
- The image arithmetic of `rotate` is not modelled. Only the `rotated_over` flip is kept.
- Transport.Pipe.Transport: requires distinct neighbour links to reach distinct objects. This is a geometric fact of the tile grid that the model does not derive.
- `pick_up_item` is not modelled: it uses an undefined `human_sprites`.
- `produce_wood` is modelled by the number of wood items it drops, not by their positions.
- Drills.Drill.ConvertTile: the branch that writes air when no neighbour direction is left cannot occur on the map, since every tile has a neighbour, and is not modelled.
- Crafting.CraftItem: requires a held item or a free slot when the product is new. Otherwise the source raises a KeyError when it adds the product.
- Inventories.SpriteInventory.AddItem: requires a held item whenever the inventory is full and the item is new. The source raises a KeyError at inventory.py:54 in that case.
- Placement.Placer.PlaceMultiTileItem: requires a collision-map cell key for every covered tile, the condition under which `update_map` adds each rectangle.
- Colonists.Colonist.constructor: save data of a colonist (position and stats) is not read.
- Colonists.Colonist.Die: the items dropped by `drop_inventory` are not modelled. The source clears the contents only on respawn. The model keeps the contents for a colonist that is killed.
- Colonists.Colonist.Update: ensures only that the colonist stays consistent. The effect of each step is stated by that step's own method.
- The mini-map's drawing (scaling, borders, blitting) is not modelled. The window arithmetic and the visited marking are.
- Physics.MoveSprite: the reset of the animation frame (`frame_index = 0`) is not modelled. Every moving sprite is a colonist, so the `hasattr` tests of the physics always hold.
- Physics.TileCollisionUpdate: the index is a parameter, so the pass is stated for any index. That an index which agrees with the grid only yields tiles on the map is stated separately by `Collision.CollisionMap.GatheredAreTiles`.
- Transport.Pipe.constructor: models the construction as intended. As written, `Pipe.__init__` reads `names_to_ids` from the game object, which has none, so building a pipe raises AttributeError; placement uses that as-written reading (`Placement.Placer.InitObjAsWritten`, see Findings). The base constructors' steps before that read are not modelled.
- Mining.Miner.Run: follows the bounds check the code evidently intends, so a target off the map is invalid. As written, numpy wraps a negative coordinate and raises IndexError past the far edges; that reading is `Mining.Miner.ValidTileAsWritten` and `Mining.Miner.RemoveTileAsWritten` (see Findings).

## Findings

| source | as written | input that shows it | evidently intended | confidence | as-written member | corrected member |
|---|---|---|---|---|---|---|
| code/item_placement.py:108 | `update_map(add_tile=True)` adds a rectangle only when the cell key already exists | a tile placed in a cell whose bucket was never created | the placed tile's rectangle is always indexed | not executed | Placement.Placer.PlaceSingleTileItem, Collision.CollisionMap.MissingCellBreaksIndex | Placement.Placer.PlaceSingleTileItemFixed, Collision.CollisionMap.AddTile |
| code/item_placement.py:109-110 | the object check reads `item_holding` after `remove_item` | placing the last machine of a kind clears `item_holding` first, so no object is created | the object is created for the item that was placed | not executed | Placement.Placer.PlaceSingleTileItem | Placement.Placer.PlaceSingleTileItemFixed |
| code/colonist.py:58-59 | the alarms get their callbacks as `fn=`, a keyword the alarm does not read | any oxygen or HP alarm firing | the alarm calls `lose_oxygen` or `regen_hp` | not executed | Colonists.AlarmCallbacksLost, Colonists.AsWrittenAlarmUpdate | Colonists.AlarmCallbacksBound, Colonists.Colonist.constructor |
| code/inventory.py:49 | the capacity is read with the literal key `'item'` | 999 dirt, add 1: the cap used is the default 999, not dirt's 9999 | the capacity of the item being added | not executed | Inventories.CapacityKeyCounterexample | Inventories.Increase, Inventories.SpriteInventory.AddItem |
| code/pipe.py:24 | `Pipe.__init__` reads `names_to_ids` from the game object, which `Main` never sets (the drills read `game_obj.proc_gen.names_to_ids`, drills.py:29) | placing a pipe with two or more held: the tile is written and one pipe taken, then AttributeError, and no object is created | the pipe reads the generator's registry and is built | not executed | Placement.Placer.InitObjAsWritten, Placement.Placer.PlaceSingleTileItem, Placement.PipeReachesConstructor | Transport.Pipe.constructor, Placement.Placer.InitObj |
| code/inserter.py:131-167 | `BurnerInserter.__init__` and `ElectricInserter.__init__` take `xy, image, z, sprite_groups, screen, …` and none of the keywords `save_data`, `game_obj`, `ui` and `direction` that `get_cls_init_params` passes (sprite_manager.py:176-188) | placing one of the player's ten starting burner inserters (inventory.py:75) on a valid tile: the tile is written and one inserter taken, then TypeError, and no object is created | the inserters take the arguments every other placed machine takes and are built | not executed | Placement.Placer.InitObjAsWritten, Placement.Placer.PlaceSingleTileItem, Placement.InserterReachesConstructor | Placement.Placer.InitObj, Transport.Inserter.constructor |
| code/furnaces.py:34 | `Furnace.__init__` reads `self.fuel_sources`, which `Machine.__init__` never sets and `ElectricFurnace` sets only after that call (furnaces.py:123) | placing an electric furnace whose arguments build: the first covered tile is written, then AttributeError, and no object is created | the electric furnace sets its fuel sources before the base call, as `BurnerFurnace` does (furnaces.py:98), and is built | not executed | Placement.Placer.InitObjAsWritten, Placement.Placer.PlaceMultiTileItem, Placement.ElectricFurnaceReachesConstructor | Placement.Placer.InitObj, Placement.FailingKeysPlaced |
| code/mini_map.py:125 | the tile rows are copied from the window's top, not shifted with the extended bottom | centre tile at x >= 40 and 0 <= y < 40 | the grid's centre shows the centre tile, as the visited grid does | not executed | MiniMaps.TileRowsShiftedNearTop | MiniMaps.MiniMap.GetMapSlices, MiniMaps.CentreTileShownAtCentre |
| code/mini_map.py:128 | the visited assignment takes a negative row count | centre tile row -41 | the window is cut at the map's top | not executed | MiniMaps.VisitedFailsAboveMap | MiniMaps.MiniMap.GetMapSlices |
| code/mining.py:49-51 | the target is checked for reach and kind but not against the map's bounds | a sprite standing in the top rows with the mouse above the map, at tile y = -1 within reach: numpy reads and mines row `MAP_H - 1` of that column, and `update_map` looks in a cell the index does not have, so that far tile turns to air and keeps its rectangle | only tiles on the map can be mined | not executed | Mining.Miner.ValidTileAsWritten, Mining.Miner.RemoveTileAsWritten | Mining.Miner.Run, Mining.Miner.RemoveTile |
| code/physics_engine.py:171 | the right ramp's offset is measured from `tile.right` | Rect(0, 0, 16, 16), sprite centre x = 8: the offset is clamped to 0, so the ramp is flat | the offset is measured from `tile.left`, so the line rises across the tile | not executed | Physics.RightRampFlatAsWritten, Physics.RightRampCounterexample | Physics.RampLineShape, Physics.RampCollision |
| code/physics_engine.py:226 | the stop test asks whether the sprite object is one of the active state names | a mining sprite with no horizontal input becomes idle | the sprite's state is checked, so jumping, mining and chopping carry on | not executed | Physics.StopInterruptsAsWritten | Physics.StopState, Physics.MoveSprite |
| code/weather.py:28 | the day/night alarm is given `auto_start=True`, a keyword the alarm does not read | a newly built sky: its day/night alarm is not running | the day/night cycle starts at once | not executed | Weather.DayNightStartsOnlyWithAuto | Weather.Sky.constructor |
| code/drills.py:71 | `extract` reads the undefined `self.ore_xy` once the ore runs out | extracting the last unit raises AttributeError after the counter drops and before the output grows | the drill delivers the unit and converts the tile it has used up | not executed | Drills.Drill.ExtractAsWritten | Drills.Drill.Extract |
| code/drills.py:83 | `convert_tile` adds a direction to a coordinate tuple, making a 4-tuple index | any conversion raises IndexError | the neighbour's coordinate is the sum of the two | not executed | Drills.Drill.ConvertTileAsWritten | Drills.Drill.ConvertTile |
| code/drills.py:179 | emptying the fuel slot goes through `self.self` | burning the last unit of fuel raises AttributeError and leaves the item in the slot | the slot's item is cleared | not executed | Drills.Drill.BurnFuelAsWritten | Drills.Drill.BurnFuel |
| code/inserter.py:49-50 | the `transfer` and `receive item` alarms get their callbacks as `fn=`, a keyword the alarm does not read | the looping `transfer` alarm fires and calls nothing, so no item moves | every alarm calls its method, as `send item` already does with `function=` | not executed | Transport.AlarmsAsWrittenCallNothing | Transport.AlarmsCallTheirMethods, Transport.Inserter.constructor |
