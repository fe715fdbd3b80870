# Angry Birds gameplay layer in Dafny

This project models the gameplay layer of a small Angry Birds clone written in
Python on top of arcade (sprites and window) and pymunk (2-D physics).

- **Geometry** (`geometry.dfy`, from `game_logic.py`): `Point2D`, `ImpulseVector`
  and the three trajectory helpers. `sqrt`, `atan2`, `cos`, `sin` and
  `Vec2d.rotated` are fields of a `Numerics` value passed as a parameter.
  Their few laws are collected in `Numerics.Lawful()`.
- **Physics** (`physics.dfy`): pymunk's `Body`, `Shape` and `Space`, seen as a
  registry. The space is the set of bodies and shapes added to it, and a body
  keeps a log of the impulses applied to it.
- **Actors** (`actors.dfy`, from `game_object.py`): one `Actor` class for
  `Bird`, `YellowBird`, `BlueBird`, `Pig`, `Column` and `Beam`, tagged by
  `Kind`. It covers:
  - the constructors, with the spawn-impulse clamp and the registration of
    one body/shape pair;
  - `update`;
  - the yellow bird's one-shot boost;
  - the blue bird's one-shot split into three birds.

  `SpriteList` is arcade's list of sprites.
- **Levels** (`levels.dfy`): the three layouts of `LevelManager`, as placements,
  and the counters that `load_level` and `pig_destroyed` drive.
- **Session** (`session.dfy`, from `main.py`): the `LevelManager` and `App`
  classes.
  - Loading, clearing and building levels.
  - The contact handler, which destroys world objects hit hard enough and
    reloads the level when its last pig goes.
  - The key and mouse handlers, the per-frame sprite update and the aim clamp
    of `on_draw`.
- **AsWritten** (`as_written.dfy`): three loops of `main.py` that remove items
  from the list they are iterating, modelled as written. See "Findings".
- **Lists** (`lists.dfy`): sequence helpers. `Drop` models removal from a list.
  `Visited` gives the items a Python `for` loop reaches when its body removes
  the current item.

The classes follow the program's own state:
- `LevelManager` updates `currentLevel`, `pigCount` and `exited`.
- The sprite lists are `seq` fields that their methods reassign.
- Bodies carry `position`, `velocity`, `angle` and the impulse log.
- Birds carry `hasBoosted` and `hasSplit`.

Every loop of the source (clear_level, the contact handler, the right-click
loop, the split loop, sprite updates) is a `for` loop with its invariants. It
runs over a snapshot of the list, and each step acts on an object only while
that object is still present.

## Model

| member | source | states |
|---|---|---|
| Geometry.GetImpulseVector | game_logic.py:37-41 | the angle field receives get_angle_radians(start, end) and the impulse field receives get_distance(start, end) |
| Geometry.DistanceToSelfIsZero | game_logic.py:29-33 | get_distance(a, a) is 0 |
| Geometry.DistanceIsNonNegative | game_logic.py:29-33 | get_distance is never negative |
| Geometry.DistanceIsSymmetric | game_logic.py:29-33 | get_distance(a, b) equals get_distance(b, a) |
| Geometry.TranslationInvariant | game_logic.py:21-33 | moving both points by the same offset changes neither the angle nor the distance |
| Geometry.LaunchAimsFromEndTowardsStart | game_logic.py:21-41 | the angle points from the second point towards the first: dragging straight left of the press point launches at angle 0 with the drag length as impulse |
| Geometry.NoDragNoImpulse | game_logic.py:29-41 | releasing where the press began gives impulse 0 |
| Geometry.ThreeFourFive | game_logic.py:9-41 | Point2D defaults to (0, 0); a 3-4 drag from the origin gives the ImpulseVector (atan2(-4, -3), 5), with the fields in the order (angle, impulse) |
| Geometry.Radians | game_object.py:132-134 | math.radians keeps the sign of the angle and maps only 0 to 0 |
| Physics.Body.constructor | game_object.py:28-30 | a new body has the given mass and position, angle 0, no velocity and no impulses |
| Physics.Body.ApplyImpulseAtLocalPoint | game_object.py:33-35 | apply_impulse_at_local_point appends the impulse to the body's log |
| Physics.Shape.constructor | game_object.py:37 | a new shape is attached to the given body with the given outline |
| Physics.Space.constructor | main.py:149 | a new space has no bodies and no shapes |
| Physics.Space.Add | game_object.py:42 | space.add registers exactly the given body and shape |
| Physics.Space.Remove | main.py:49 | space.remove unregisters exactly the given body and shape |
| Actors.SpriteList.constructor | main.py:157-159 | a new sprite list is empty |
| Actors.SpriteList.Append | main.py:124-125 | append puts the sprite at the end |
| Actors.SpriteList.Remove | main.py:48 | removal takes the sprite out and keeps the order of the rest |
| Actors.SpriteList.Clear | main.py:53-54 | clear empties the list |
| Actors.CountKindDropOne | main.py:181-184 | removing one listed object lowers the count of its kind by one and leaves the other counts alone |
| Actors.SpawnImpulseIsMonotone | game_object.py:32 | min(max_impulse, requested) * power_multiplier does not decrease as the requested impulse grows |
| Actors.SpawnImpulseIsCapped | game_object.py:32 | the spawn impulse never exceeds max_impulse * power_multiplier and equals it from max_impulse on |
| Actors.SplitOffsets | game_object.py:132-134 | the three split angles are radians(angle_offset), 0 and its negation, in that order |
| Actors.BodiesApartAfterDrop | game_object.py:157-159 | removing birds from a list and appending birds on bodies of their own keeps every listed bird on a body no other listed bird has |
| Actors.SplitVelocities | game_object.py:132-137 | the middle child flies at the parent's velocity and every child at the parent's speed |
| Actors.Actor.Register | game_object.py:28-45 | exactly one new body and one new shape are added to the space, with the given mass, position and material |
| Actors.Actor.Launch | game_object.py:28-45 | Bird.__init__ registers one circle and applies one impulse, min(max_impulse, requested) * power_multiplier, along the launch angle |
| Actors.Actor.Bird | game_object.py:12-45 | a bird holds exactly the body/shape pair it registered, with default mass 5, radius 12, max impulse 100 and power multiplier 50, and the clamped launch impulse |
| Actors.Actor.YellowBird | game_object.py:59-86 | as Bird, with impulse multiplier 2 by default and has_boosted false |
| Actors.Actor.BlueBird | game_object.py:97-128 | as Bird, with angle offset 30 by default, the two shared lists stored, and has_split false |
| Actors.Actor.Pig | game_object.py:165-185 | one circle of radius width / 2 - 3, mass 2, elasticity 0.8 and friction 0.4 is registered, and no impulse is applied |
| Actors.Actor.PassiveObject | game_object.py:197-233 | a column or beam registers one box the size of its texture, with mass 2, elasticity 0.8 and friction 1 |
| Actors.Actor.Update | game_object.py:47-53 | the sprite's center and rotation become the body's position and angle, and nothing else changes |
| Actors.Actor.Boost | game_object.py:88-93 | the first click applies impulse_multiplier * speed along the body's angle and sets has_boosted; later clicks change nothing |
| Actors.Actor.SpawnSplitChild | game_object.py:137-154 | a split child is a fresh plain Bird at the parent's position, with the parent's mass, radius and material, flying at the given velocity |
| Actors.Actor.SpawnChildren | game_object.py:132-157 | the split loop appends three distinct fresh birds, at the rotated velocities, to both lists and registers their pairs |
| Actors.Actor.SpawnListed | game_object.py:139-157 | one pass of the split loop: one fresh child appended to the sprite list and to the bird list |
| Actors.Actor.Split | game_object.py:130-161 | the first click replaces the blue bird by its three children in both lists and in the space and sets has_split; a second click changes nothing, so there are never six children |
| Actors.Actor.RemoveFromSpriteLists | game_object.py:159 | the blue bird leaves both of its lists, which otherwise keep their order |
| Levels.LevelTable | main.py:57-120 | three levels: 2 pigs and 2 columns; 6 pigs, 12 columns and 9 beams; 7 pigs, 12 columns and 7 beams |
| Levels.CountLevel1 | main.py:57-61 | level_1 makes 2 pigs and 2 columns and nothing else |
| Levels.CountLevel2 | main.py:63-91 | level_2 makes 6 pigs, 12 columns and 9 beams |
| Levels.CountLevel3 | main.py:93-120 | level_3 makes 7 pigs, 12 columns and 7 beams |
| Levels.LayoutsPlaceWorldObjects | main.py:57-120 | the layouts only call add_pig, add_column and add_beam |
| Levels.LevelPigsCounted | main.py:122-126 | the pig count of level n is the number of add_pig calls of its layout |
| Levels.LayoutsTable | main.py:29-33 | the level table holds the three layouts in order, each made of world objects, with the pig counts 2, 6 and 7 |
| Levels.FirstLoad | main.py:28-40 | a new manager at level 0 with 0 pigs, loaded once, is at level 1 with 2 pigs |
| Levels.LoadAdvancesByOne | main.py:36-44 | load_level raises the level by exactly 1; up to level 3 the pig count becomes that layout's (positive) pig count, and past it the pig count is 0 and the game has exited |
| Levels.DestroyingEveryPigAdvances | main.py:138-142 | with n pigs left, the first n - 1 pig_destroyed calls only count down and the n-th loads the next level |
| Levels.ClearingAllLevelsEndsTheGame | main.py:36-142 | destroying 2, 6 and 7 pigs after the first load ends the game at level 4 |
| Lists.Drop | main.py:48 | the result holds exactly the items of the list that are not removed, and no more items than the list |
| Lists.DropAppend | main.py:48 | removing from two lists joined end to end removes from each part and keeps the parts in their order |
| Lists.VisitedWithoutRemoval | main.py:179-184 | a loop whose body removes nothing reaches every item |
| Lists.VisitedRemovingAll | main.py:47-52 | a loop whose body removes every item reaches only the items at even positions |
| Lists.VisitedSkipsNext | main.py:179-184 | when the loop removes the item it is on, it never reaches the next one |
| Session.BuiltCountsKinds | main.py:57-136 | the objects built from a layout have the layout's count of every kind |
| Session.TouchedPartition | main.py:179-180 | the world objects in the contact and those not in it together cover all world objects |
| Session.ReloadAccounts | main.py:183-184 | when a reload happens mid-loop, the objects destroyed so far and those the reload clears are exactly the snapshot and the birds |
| Session.AccountedNext | main.py:208-210 | one click keeps the right-click bookkeeping: the split birds are out of both lists and the space, and their children are in |
| Session.UnsplitNext | main.py:208-210 | the birds a right click splits are the blue birds whose has_split was false, in order |
| Session.LevelManager.constructor | main.py:23-34 | a new manager is at level 0 with 0 pigs, over the three-level table and the given space and lists |
| Session.LevelManager.AddPig | main.py:122-126 | add_pig appends one fresh pig to sprites and world, registers its pair, and raises pig_count by exactly 1 |
| Session.LevelManager.AddColumn | main.py:128-131 | add_column appends one fresh column to sprites and world and leaves pig_count alone |
| Session.LevelManager.AddBeam | main.py:133-136 | add_beam appends one fresh beam to sprites and world and leaves pig_count alone |
| Session.LevelManager.AddPlacement | main.py:122-136 | one line of a level method calls the adder for its kind at its spot |
| Session.LevelManager.BuildLevel | main.py:57-120 | a level method appends, in order, one fresh object per placement, of the placement's kind and at its spot; pig_count grows by the layout's pig count |
| Session.LevelManager.Discard | main.py:48-49 | remove_from_sprite_lists and space.remove take one object out of every list and the space |
| Session.LevelManager.DiscardWorldObject | main.py:181-182 | a destroyed world object leaves sprites, world and the space, and the birds are untouched |
| Session.LevelManager.DiscardAll | main.py:47-52 | every object of the snapshot leaves all lists and the space |
| Session.LevelManager.ClearLevel | main.py:46-55 | clear_level empties world, sprites and bird, sets pig_count to 0 and unregisters every world object and bird |
| Session.LevelManager.BirdsAreNoWorldObjects | main.py:47-52 | no bird is a world object, so the world loop leaves the birds listed |
| Session.LevelManager.LoadLevel | main.py:36-44 | load_level clears, raises the level by one, then builds that level's layout (fresh objects, its pig count) or, past level 3, builds nothing and exits |
| Session.LevelManager.NextLevel | main.py:38-44 | after clearing, the new level's layout is built when it exists, and otherwise the world stays empty and the game exits |
| Session.LevelManager.PigDestroyed | main.py:138-142 | pig_count drops by 1; the level is reloaded exactly when the count reaches 0 or less, and otherwise nothing else changes |
| Session.ClampedAimIsWithinReach | main.py:239-245 | an aim point within 100 is kept; one farther away is moved to exactly 100 from the press point, so the aim never exceeds 100 |
| Session.StartGame | main.py:149-162 | App.__init__ creates an empty space and lists and loads level 1: 2 pigs, the level-1 layout, all of it registered |
| Session.App.constructor | main.py:146-172 | the window starts at level 1 with the red bird selected, both points at (0, 0) and no aim line |
| Session.App.CollisionHandler | main.py:174-185 | impulses of at most 1200 change nothing. Above 1200, every world object still present and in the contact is destroyed and pig_destroyed runs once per pig; birds are untouched. The level reloads exactly when the impulse is above 1200 and the contact holds as many pigs as pig_count (at least one), and then the old level's remaining objects are gone. The handler always returns True |
| Session.App.ConsiderObject | main.py:179-184 | one pass of the contact loop destroys the object only if it is still in the world and in the contact; the loop has reloaded after this pass exactly when it had before or this object is a pig, still present and in the contact, and pig_count was at most 1 |
| Session.App.DestroyObject | main.py:180-184 | a hit object is removed, and a hit pig is reported to the manager; the level reloads exactly when the object is a pig and pig_count was at most 1 |
| Session.TouchedPigs | main.py:179-183 | the contact loop meets no more pigs than the world holds, and as many exactly when every pig is in the contact |
| Session.LastPigMeansEveryPig | main.py:138-142 | when pig_count equals the number of pigs in the world, a contact reloads the level exactly when there is a pig and every pig is in the contact |
| Session.LastPigStep | main.py:179-184 | one pass of the contact loop extends "the last pig has gone" from the first i objects to the first i + 1 |
| Session.App.Strike | main.py:181-182 | the hit object leaves sprites, world and the space |
| Session.App.PigHit | main.py:183-184 | pig_destroyed from the loop reloads exactly when the last pig went |
| Session.App.OnKeyPress | main.py:191-200 | key 1 selects Yellow, key 2 selects Red, key 3 selects Blue, and other keys change nothing |
| Session.App.OnMouseDrag | main.py:212-214 | dragging with the left button moves the aim point to the pointer; other buttons change nothing |
| Session.App.OnMousePress | main.py:202-210 | the left button puts both points at the pointer and starts the aim line; the right button runs on_click on every bird present (a yellow bird boosts, a blue bird not yet split splits into three new birds at the rotated velocities, a plain bird is untouched) and the lists and space lose exactly the split birds and gain their children; other buttons change nothing |
| Session.App.OnMouseRelease | main.py:217-232 | releasing the left button ends the aim line and appends one fresh bird of the selected kind, at the aim point, to sprites and birds, launched with the drag's impulse vector |
| Session.App.LaunchSelected | main.py:220-232 | the released bird has the selected kind and the clamped impulse of get_impulse_vector(start, end), and joins both lists and the space |
| Session.App.DrawAim | main.py:238-245 | while aiming, on_draw replaces the aim point by its clamp |
| Session.App.OnUpdate | main.py:187-189 | every sprite's pose matches its body afterwards, and no flag changes |
| Session.App.OnClick | main.py:209-210 | on_click on one bird: a yellow bird boosts once, a blue bird not yet split is replaced by three new birds at the rotated velocities in both lists and the space, and a plain bird (no on_click) is untouched |
| Session.App.ClickBird | main.py:208-210 | on_click on one bird of the loop's snapshot changes that bird's state as on_click does and leaves the other birds of the snapshot and the birds split off earlier as they were |
| Session.App.OnRightClick | main.py:207-210 | every bird present at the click has gone through on_click (boost, split or nothing, by kind); exactly the blue birds not yet split are replaced by three new birds each, at the rotated velocities, in both lists and in the space |
| Session.App.ClickEach | main.py:208-210 | the right-click loop ends with every bird of the snapshot clicked, and the split birds paired with their three children each |
| Session.App.ClickNext | main.py:208-210 | one pass of the right-click loop keeps its invariant and extends the pairing of split birds with their children |
| Session.BirdStates | main.py:208 | the state of each bird of the snapshot, in order, as on_click starts |
| Session.SplitFlags | game_object.py:130-131 | the has_split flag of each bird, in order |
| Session.ClickedPrefixNext | main.py:208-210 | clicking the next bird extends the clicked prefix of the snapshot by one |
| Session.SpawnedNext | game_object.py:132-157 | three more children of one more split bird extend the pairing of split birds with their children |
| Session.App.ClickingNext | main.py:208-210 | the loop invariant after on_click on the next bird |
| Session.App.ClickingStarts | main.py:207-208 | the right-click loop's invariant holds before the first bird |
| Session.App.ClickingDone | main.py:207-210 | after the last bird, every bird is clicked and the lists and space account for exactly the split birds and their children |
| AsWritten.ClearLevelReachesEvenPositions | main.py:47-52 | clear_level's loops, as written, reach only the objects at even positions |
| AsWritten.ClearLevelLeavesOddObjects | main.py:46-55 | as written, every world object at an odd position keeps its body and its shape registered in the space after clear_level |
| AsWritten.ClearLevelLeavesOddBirds | main.py:50-52 | as written, every bird at an odd position stays in the bird list after clear_level |
| AsWritten.CollisionSkipsNeighbour | main.py:179-184 | as written, the world object right after a destroyed one is skipped even when it is in the contact |
| AsWritten.RightClickSkipsBirdAfterSplit | main.py:208-210 | as written, the bird right after a blue bird that splits never has on_click run on it |

## Left out

- Rendering and windowing: textures, `draw`, the background, `arcade.run`,
  `main()`. Texture sizes (`Textures`) are a parameter of `LevelManager`.
- The physics step (`space.step`), gravity, the floor segment, moments of
  inertia, friction in contact, and how an impulse changes a velocity. A body
  only keeps a log of its impulses, and contacts arrive as a total impulse and
  a set of shapes.
- Floating point: coordinates, angles and impulses are reals. `sqrt`,
  `atan2`, `cos`, `sin` and `Vec2d.rotated` are uninterpreted, with the laws in
  `Numerics.Lawful()`.
- `StaticObject`, which registers nothing and has no behaviour.
- Logging, and `arcade.exit()`, which is the `exited` flag.
- The `distance` field of `App`, which is set once and never read.
- Image paths, and the BlueBird children's texture name.
- Actors.Actor.SpawnSplitChild: the child's `ImpulseVector(velocity.length,
  angle)` passes the speed as the angle, because the fields are
  (angle, impulse). The child's velocity is then assigned directly, which
  supersedes that impulse's effect on the flight. The model builds the vector
  as written, and its contract states only the velocity.
- Lists.Drop: removes every occurrence, while `list.remove` removes the first
  one. The two agree on the lists here, which never hold an object twice.
- Session.LevelManager.constructor: requires the three lists to be empty. Its
  only caller creates them empty.
- pymunk raises an error when `space.remove` is given an object that is not
  registered. The model never reaches that case, because every loop acts only
  on objects that are still present.
- Session.App.OnMouseRelease: the model does not show how on_draw's clamp gets
  into the launch. DrawAim and ClampedAimIsWithinReach state what the clamp
  does to `endPoint`; OnMouseRelease launches from whatever `endPoint` holds.
- The pymunk collision-handler registration and the arbiter object. The
  handler takes the impulse norm and the contact's shapes.
- A Python sprite's `remove_from_sprite_lists` also leaves lists the model
  does not track. The model covers the three lists of the game.

## Findings

| source | as written | input that shows it | evidently intended | confidence | as-written member | corrected member |
|---|---|---|---|---|---|---|
| main.py:46-55 | `clear_level` removes each object from the list it is iterating, so the loop skips every other world object and bird. The skipped ones stay registered in the space, and skipped birds stay in the bird list. | a level with two world objects: the second keeps its body and shape in the space after `load_level` | every world object and bird is unregistered and the lists are emptied | medium, not executed | AsWritten.ClearLevelLeavesOddObjects | Session.LevelManager.ClearLevel |
| main.py:179-184 | the contact loop removes each destroyed object from `world` while iterating it, so the world object right after a destroyed one is not considered | two adjacent world objects both in a contact above 1200: only the first is destroyed | every world object in the contact is destroyed | medium, not executed | AsWritten.CollisionSkipsNeighbour | Session.App.CollisionHandler |
| main.py:208-210 | a blue bird's split removes it from `birds` during the right-click loop, so the next bird is skipped | a blue bird followed by a yellow bird: one right click splits the blue bird but does not boost the yellow one | on_click runs on every bird present at the click | medium, not executed | AsWritten.RightClickSkipsBirdAfterSplit | Session.App.OnRightClick |
