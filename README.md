# PlayerShip bookkeeping model

A Dafny model of the player-controlled ship of the SpaceFighter arcade shooter
(`SpaceFighter/PlayerShip.cpp`). It covers the ship's own bookkeeping:

- the lives counter and the list of life-icon textures;
- damage, death and respawn (`Hit`, `Initialize`);
- content loading with a resource manager that may fail;
- composing a movement direction from the arrow keys, and firing;
- confining the ship to a padded screen rectangle after it moves;
- the life icons that `Draw` submits.

Everything lives in `player_ship.dfy`, module `PlayerShipModel`. The ship is a
class, `PlayerShip`, whose methods change its fields in place as the C++
methods do. Each method's postcondition states the whole new state. Pure
functions beside the class give the rules the methods follow, and lemmas prove
what those rules imply.

The engine's collaborators enter as parameters:

- the resource manager is an oracle: `shipTexture` is its answer to the
  ship-texture load, and `iconLoads[i]` its answer to the i-th life-icon load;
- the screen centre, width and height are parameters;
- `Update` receives the velocity after the engine's blending (`blendedVelocity`);
- weapon firing and explosions are counted in `shotsRequested` and
  `explosionsRequested`;
- the "Game Over" console message is the `gameOver` result of
  `OnCollisionWithEnemy`.

The model follows the code as written, including where it does not keep one
icon per life:

- `AddLife` adds no icon, and a lethal
  `Hit` that ends the game decrements `lives` without removing one. A failed
  icon load leaves the list short too. `Draw` reads icon `i` for every `i < lives`.
  The model makes that read a precondition, `CanDraw()`. `AddLife` proves the
  precondition fails afterwards on an active ship that had one icon per life.
  The method `AddLifeOutrunsIcons` shows it on a concrete ship.
- `lives` can become negative: a lethal hit at 0 lives gives -1.
- A respawn does not keep the decremented count. `Initialize` sets lives to 3.
- A respawned ship whose texture loads is placed 300 units below the screen
  centre, not at the centre. `LoadContent` overrides the start position that
  `Initialize` set. When the texture is missing, the ship stays at the centre
  and its old icon list is kept.
- `RemoveLife` drops the last icon without checking that one exists. The model
  requires one whenever `lives > 0` (`CanRemoveLife()`); `RemoveLifeOutrunsIcons`
  shows a ship reaching the excluded state.
- `LoadContent` turns on screen confinement before it checks the ship texture.
  A missing texture leaves a confined ship without one, and the next `Update`
  reads the half-dimensions through the missing texture. The model makes that
  read a precondition of `Update` (`CanUpdate()`), and `LoadContent` proves it
  fails after a missing texture. `MissingTextureBlocksUpdate` shows it on a
  concrete ship.

## Model

| member | source | states |
|---|---|---|
| `PlayerShipModel.Clamp01` | SpaceFighter/PlayerShip.cpp:191-194 | the responsiveness is the nearest value in [0, 1]: inside it is kept, below it becomes 0, above it 1 |
| `PlayerShipModel.PlayerShip.SetResponsiveness` | SpaceFighter/PlayerShip.cpp:191-194 | sets the responsiveness to the clamped value and changes nothing else |
| `PlayerShipModel.PlayerShip.LoadContent` | SpaceFighter/PlayerShip.cpp:7-38 | always turns on confinement and sets responsiveness 0.1. With the ship texture missing, it returns early: position and icon list are unchanged, and the confined ship without a texture can no longer be updated. Otherwise the ship is placed 300 below the centre and the icon list is rebuilt from empty with one icon per successful load over `lives` loads |
| `PlayerShipModel.LoadedIconsLength` | SpaceFighter/PlayerShip.cpp:29-37 | the rebuilt icon list is never longer than the number of loads, and is exactly as long precisely when every load succeeds |
| `PlayerShipModel.LoadedIconsFromLoads` | SpaceFighter/PlayerShip.cpp:29-37 | every icon in the rebuilt list is a texture the resource manager handed out |
| `PlayerShipModel.PlayerShip.AddLife` | SpaceFighter/PlayerShip.cpp:40-48 | lives grow by exactly one and the icon list is untouched, so an active ship with one icon per life can no longer be drawn |
| `PlayerShipModel.PlayerShip.AddLifeWithIcon` | SpaceFighter/PlayerShip.cpp:43-47 | with the icon load that the commented-out lines describe, a successful load keeps one icon per life and the ship drawable |
| `PlayerShipModel.PlayerShip.RemoveLifeChecked` | SpaceFighter/PlayerShip.cpp:59-70 | RemoveLife with the icon removal guarded: callable in every state, it removes an icon only when one exists, and keeps one icon per life |
| `PlayerShipModel.PlayerShip.OnCollisionWithEnemy` | SpaceFighter/PlayerShip.cpp:50-57 | removes a life as RemoveLife does and reports game over exactly when no life is left, in which case the ship is inactive |
| `PlayerShipModel.PlayerShip.RemoveLife` | SpaceFighter/PlayerShip.cpp:59-70 | with lives left: one life fewer and exactly the last icon removed, the earlier ones kept. At 0 or below: nothing changes. Lives never become negative, and at 0 the ship is inactive |
| `PlayerShipModel.PlayerShip.Initialize` | SpaceFighter/PlayerShip.cpp:72-78 | lives become 3 and hit points the maximum, then the content is loaded. The final position is the start position only when the ship texture is missing |
| `PlayerShipModel.PlayerShip.Activate` | SpaceFighter/PlayerShip.cpp:182 | makes the ship active and changes nothing else |
| `PlayerShipModel.PlayerShip.Hit` | SpaceFighter/PlayerShip.cpp:164-184 | a non-lethal hit only lowers hit points by the damage. A lethal hit with at most one life decrements lives (0 becomes -1), deactivates the ship and requests one explosion. A lethal hit with more lives respawns: active, full hit points, lives 3, at the spawn point or the screen centre |
| `PlayerShipModel.LethalHitsNeverExhaustLives` | SpaceFighter/PlayerShip.cpp:172-183 | from two or more lives, no run of lethal hits ever takes the deactivating branch: every respawn restores three lives |
| `PlayerShipModel.RespawnFromTwoLivesGivesThree` | SpaceFighter/PlayerShip.cpp:172-183 | a lethal hit on two lives leaves three, where one was intended |
| `PlayerShipModel.IntendedLethalHitsCountDown` | SpaceFighter/PlayerShip.cpp:172-183 | when a lethal hit costs exactly one life, n lethal hits take n lives, and a ship with n lives is destroyed by the n-th hit and not before |
| `PlayerShipModel.AxisInput` | SpaceFighter/PlayerShip.cpp:86-89 | an input axis lies in {-1, 0, 1}. It is 0 exactly when both or neither of its keys are held, and otherwise follows the held key |
| `PlayerShipModel.PlayerShip.HandleInput` | SpaceFighter/PlayerShip.cpp:81-103 | an inactive ship ignores input. An active one takes the direction composed from the four arrow keys, diagonal exactly when one key of each axis acts alone. It requests one primary shot exactly when SPACE is held |
| `PlayerShipModel.PlayerShip.Update` | SpaceFighter/PlayerShip.cpp:105-143 | the ship moves by the blended velocity. When confined, each axis is pushed off the low edge and then off the high edge of the rectangle padded by 4. An axis's velocity is zeroed exactly when the moved sprite was not inside the rectangle on that axis |
| `PlayerShipModel.PlayerShip.ClampToScreen` | SpaceFighter/PlayerShip.cpp:111-139 | each axis is pushed off the low edge and then off the high edge of the rectangle padded by 4, the second check reading the first's result. An axis's velocity is zeroed exactly when the sprite was not inside the rectangle on that axis |
| `PlayerShipModel.PlayerShip.UpdateGuarded` | SpaceFighter/PlayerShip.cpp:105-143 | Update with confinement skipped for a ship without a texture: callable in every state, and the same as Update wherever Update may be called |
| `PlayerShipModel.ConfineAxisFits` | SpaceFighter/PlayerShip.cpp:111-139 | a sprite whose width fits the padded rectangle ends inside it: `x - halfX >= 4` and `x + halfX <= width - 4`, and the same for y |
| `PlayerShipModel.ConfineAxisKeepsInside` | SpaceFighter/PlayerShip.cpp:111-139 | a position already inside the padded rectangle is left unchanged |
| `PlayerShipModel.ConfineAxisTooWide` | SpaceFighter/PlayerShip.cpp:111-139 | a sprite wider than the padded rectangle always ends against the high edge, because the second check wins |
| `PlayerShipModel.ConfineAxisIdempotent` | SpaceFighter/PlayerShip.cpp:111-139 | confining an already confined position does not move it |
| `PlayerShipModel.PlayerShip.Draw` | SpaceFighter/PlayerShip.cpp:145-162 | needs an icon for every life. An inactive ship submits nothing. An active one submits its sprite when it has a texture, and icon i at (10 + 50 i, 10) with scale 0.25 for each life |

## Findings

| source | as written | input that shows it | evidently intended | confidence | as-written member | corrected member |
|---|---|---|---|---|---|---|
| SpaceFighter/PlayerShip.cpp:172-183 | a lethal hit with lives remaining calls `Initialize`, which sets lives to 3 | a ship with 2 lives takes a lethal hit and ends with 3; from 2 or more lives, no run of lethal hits ever destroys it (`RespawnFromTwoLivesGivesThree`; `RespawnKeepsThreeLives` shows two lethal hits on a fresh ship) | a lethal hit costs exactly one life, so 2 lives become 1 | high; not executed | `PlayerShipModel.LethalHitsNeverExhaustLives` | `PlayerShipModel.IntendedLethalHitsCountDown` |
| SpaceFighter/PlayerShip.cpp:40-48 | `AddLife` increments lives without adding an icon, and `Draw` reads one icon per life | an active ship with 3 lives and 3 icons calls `AddLife`, then `Draw` reads icon 3 of a 3-element list (`AddLifeOutrunsIcons`) | `AddLife` also adds the icon that its commented-out lines load | medium; not executed | `PlayerShipModel.PlayerShip.AddLife` | `PlayerShipModel.PlayerShip.AddLifeWithIcon` |
| SpaceFighter/PlayerShip.cpp:9-17 | `LoadContent` turns on confinement before the ship-texture null check, and the confinement block in `Update` reads the half-dimensions through that texture (:120, :188) | `Initialize` with the ship texture missing, then `Update`: the texture is dereferenced while null (`MissingTextureBlocksUpdate`) | confinement applies only to a ship that has a texture | high; not executed | `PlayerShipModel.PlayerShip.LoadContent` | `PlayerShipModel.PlayerShip.UpdateGuarded` |
| SpaceFighter/PlayerShip.cpp:59-65 | `RemoveLife` removes the last icon whenever lives remain, without checking that the list has one | a ship with 3 lives and 3 icons calls `AddLife` and then `RemoveLife` three times: 1 life, no icons, and the next call removes from an empty list (`RemoveLifeOutrunsIcons`) | an icon is removed only when one exists | high; not executed | `PlayerShipModel.PlayerShip.RemoveLife` | `PlayerShipModel.PlayerShip.RemoveLifeChecked` |

## Left out

- In `Draw`: the texture centre used as the ship sprite's origin, the colour, and each icon's source region. These are rendering through the sprite batch, which is not part of this model. `Draw` returns only where the sprite and each icon go.
- The laser sound: loading it, setting its volume and attaching it to the "Main Blaster" weapon is audio plumbing.
- Resource-manager caching: each load is an answer supplied by the caller, present or absent.
- PlayerShipModel.PlayerShip.HandleInput: stores the raw direction. It does not apply the diagonal scaling by `Math::NORMALIZE_PI_OVER4`, which is floating point; `IsDiagonal` marks when the source would apply it.
- PlayerShipModel.PlayerShip.Update: requires `CanUpdate()` (a confined ship has a texture). That requires stands for the null dereference in `GetHalfDimensions` (:188) that the source reaches after a missing ship texture; `UpdateGuarded` is the variant without it.
- PlayerShipModel.PlayerShip.RemoveLife: requires `CanRemoveLife()` (an icon exists while lives remain). That requires stands for removing from an empty list (:64), which the source reaches; `RemoveLifeChecked` is the variant without it.
- PlayerShipModel.PlayerShip.Update (blending): takes the velocity after `Vector2::Lerp` blending as a parameter, because the blending is floating point. `Ship::Update` is base-class code and is not modelled.
- Floats are modelled as reals, so rounding is not modelled.
- `SetHitPoints`, `GetMaxHitPoints`, `Deactivate`, `GetPosition` and `SetPosition` belong to the base classes. They are modelled as plain field reads and writes.
- `SetResponsiveness` assumes that `Math::Clamp` takes its arguments as (min, max, value).
- `FireWeapons` and `Level::SpawnExplosion` are external. The model counts their requests only.
- The class constructor and the header's initial field values are not part of this model. The model's constructor starts a ship with no lives and no textures, inactive.
- The "Game Over" console output is the `gameOver` result of `OnCollisionWithEnemy`.
