# Multi-display slot registry of the rhythm game's UI

This project models `MultiDisplayManager`, the component that routes the game's
UI to secondary monitors. It keeps a dictionary from display number to a
`Display` record holding four engine objects: the display canvas
(`DisplayObject`), a track view canvas (`TrackViewObject`), a copy of the vocal
track (`VocalTrackObject`) and a camera. The keys are fixed at startup to the
secondary displays `2..DisplayCount`. A display's objects are created the first
time a player is put on it. Later they are only shown or hidden, never destroyed.
A reset re-derives every display's state from the list of current players.

Engine objects are abstract handles: an id plus the active flag that
`SetActive` changes. `Instantiate` takes the next id from a counter.
`_gameManager != null` is the boolean `inGameplay`. The model refreshes it
only when a reset looks up the game manager.
The player roster is the sequence of the players' display numbers.

Files:

- `Optional.dfy`: `Option`, standing for a reference that may be null.
- `DisplaySlot.dfy`: the `Display` record, the well-formedness every slot keeps,
  and connect and disconnect on one slot as functions, with their lemmas
  (idempotence, reuse on reconnect, the two allocation tiers).
- `Registry.dfy`: the same operations on the whole map, the reset loop as a
  function of the order it visits the keys, and the reset lemmas (effect per
  key, convergence whatever the prior state and order, idempotence).
- `MultiDisplayManager.dfy`: the class, with the dictionary as a `map` field
  updated in place by methods proved against the functions above, and a client
  method that walks through joining and leaving players on three displays.

Allocation has two tiers. The display object and camera always come together.
The track view and vocal track copy come only if a game manager exists at the
first connect, and a later connect never adds them
(`DisplaySlot.TrackViewOnlyAtFirstAllocation`). Ids are taken in the code's
order: display object, camera, track view, vocal track.

## Model

| member | source | states |
|---|---|---|
| `Registry.DisplayKeys` | Assets/Script/Helpers/MultiDisplay/MultiDisplayManager.cs:46-49 | the startup key set is exactly the display numbers from 2 to the display count (empty when there is at most one display) |
| `MultiDisplay.MultiDisplayManager.constructor` | Assets/Script/Helpers/MultiDisplay/MultiDisplayManager.cs:38-49 | after startup the keys are `2..displayCount`, every slot has all four references null, and no game manager has been seen |
| `MultiDisplay.MultiDisplayManager.Instantiate` | Assets/Script/Helpers/MultiDisplay/MultiDisplayManager.cs:177-192 | each instantiated object gets an id no object had before; it is as active as its original |
| `MultiDisplay.MultiDisplayManager.AddOptionsToDropdown` | Assets/Script/Helpers/MultiDisplay/MultiDisplayManager.cs:65-77 | returns `[1, ..., displayCount]` in increasing order; its entries other than 1 are exactly the registry's keys |
| `MultiDisplay.MultiDisplayManager.GetVocalTrack` | Assets/Script/Helpers/MultiDisplay/MultiDisplayManager.cs:112-125 | returns the scene's own vocal track exactly when the display has no slot, and the slot's vocal track copy (possibly null) otherwise |
| `DisplaySlot.Connect` | Assets/Script/Helpers/MultiDisplay/MultiDisplayManager.cs:174-202 | a first connect gives the slot a fresh display object and camera, the camera aimed at display `n - 1` and the canvas bound to it, with the ids `next`, `next + 1` (and `next + 2`, `next + 3` for the track view and vocal copy) so the counter advances by 2 or 4; a track view and an inactive vocal copy are added only in gameplay; a later connect keeps all four objects and allocates nothing; the slot ends shown and well formed |
| `DisplaySlot.FirstConnectTakesDistinctIds` | Assets/Script/Helpers/MultiDisplay/MultiDisplayManager.cs:177-192 | a first connect creates two distinct objects outside gameplay and four in gameplay, one per `Instantiate` call, and the counter advances by exactly that number |
| `DisplaySlot.Disconnect` | Assets/Script/Helpers/MultiDisplay/MultiDisplayManager.cs:212-213 | hides the display object and camera, keeps all four objects, and keeps the slot well formed |
| `DisplaySlot.ConnectShownIsNoOp` | Assets/Script/Helpers/MultiDisplay/MultiDisplayManager.cs:198-202 | connecting a shown slot changes nothing and allocates nothing |
| `DisplaySlot.DisconnectHiddenIsNoOp` | Assets/Script/Helpers/MultiDisplay/MultiDisplayManager.cs:212-213 | disconnecting a hidden slot changes nothing |
| `DisplaySlot.ConnectIdempotent` | Assets/Script/Helpers/MultiDisplay/MultiDisplayManager.cs:175-202 | two connects in a row leave the state of one, even if the gameplay flag changed in between |
| `DisplaySlot.DisconnectIdempotent` | Assets/Script/Helpers/MultiDisplay/MultiDisplayManager.cs:212-213 | two disconnects in a row leave the state of one |
| `DisplaySlot.ReconnectReuses` | Assets/Script/Helpers/MultiDisplay/MultiDisplayManager.cs:175-213 | connect, disconnect, connect restores the slot of the first connect, with the same objects and no new id |
| `DisplaySlot.TrackViewOnlyAtFirstAllocation` | Assets/Script/Helpers/MultiDisplay/MultiDisplayManager.cs:186-202 | a slot first connected outside gameplay has no track view or vocal copy, and a later connect in gameplay does not add them |
| `Registry.ConnectIn` | Assets/Script/Helpers/MultiDisplay/MultiDisplayManager.cs:167-203 | out-of-range display numbers (1, 0, above the count) leave the state unchanged; otherwise only that key changes and it ends shown; keys, well-formedness and id freshness are kept |
| `Registry.DisconnectIn` | Assets/Script/Helpers/MultiDisplay/MultiDisplayManager.cs:205-214 | a no-op for a number that is not a key and for a slot with a null display object; otherwise only that key changes, it ends hidden on the same objects |
| `Registry.ReconcileStep` | Assets/Script/Helpers/MultiDisplay/MultiDisplayManager.cs:156-163 | one visited key ends shown if some player is on it and not shown otherwise; other keys unchanged |
| `Registry.ReconcileAll` | Assets/Script/Helpers/MultiDisplay/MultiDisplayManager.cs:154-164 | the reset loop over any order keeps the key set, well-formedness and id freshness |
| `Registry.ReconcileAllEffect` | Assets/Script/Helpers/MultiDisplay/MultiDisplayManager.cs:154-164 | per key after a reset: with a player it is shown (on its old objects if it had them); without one it is hidden on its old objects if allocated, and untouched if never allocated; unvisited keys are unchanged |
| `Registry.ReconcileSettles` | Assets/Script/Helpers/MultiDisplay/MultiDisplayManager.cs:154-164 | after a full reset every key agrees with the roster |
| `Registry.ReconcileSettledIsNoOp` | Assets/Script/Helpers/MultiDisplay/MultiDisplayManager.cs:154-164 | resetting a registry that already agrees with the roster changes nothing and allocates nothing |
| `Registry.ReconcileShowsExactlyRoster` | Assets/Script/Helpers/MultiDisplay/MultiDisplayManager.cs:154-164 | after a full reset the shown displays are exactly the keys some player is on |
| `Registry.ReconcileConverges` | Assets/Script/Helpers/MultiDisplay/MultiDisplayManager.cs:154-164 | two full resets with the same roster show the same displays, whatever the prior states, orders and gameplay flags |
| `Registry.ReconcileIdempotent` | Assets/Script/Helpers/MultiDisplay/MultiDisplayManager.cs:140-165 | a second full reset with the same roster, in any order, leaves the state of the first |
| `MultiDisplay.MultiDisplayManager.ConnectDisplayTo` | Assets/Script/Helpers/MultiDisplay/MultiDisplayManager.cs:167-203 | the new dictionary and id counter are those of `Registry.ConnectIn`; the registry invariant is kept |
| `MultiDisplay.MultiDisplayManager.DisconnectDisplayTo` | Assets/Script/Helpers/MultiDisplay/MultiDisplayManager.cs:205-214 | the new dictionary is that of `Registry.DisconnectIn`; the id counter is untouched |
| `MultiDisplay.MultiDisplayManager.ConnectPlayerToDisplay` | Assets/Script/Helpers/MultiDisplay/MultiDisplayManager.cs:127-133 | connects the player's display as `ConnectDisplayTo` does |
| `MultiDisplay.MultiDisplayManager.DisconnectPlayerFromDisplay` | Assets/Script/Helpers/MultiDisplay/MultiDisplayManager.cs:135-138 | disconnects the player's display as `DisconnectDisplayTo` does |
| `MultiDisplay.MultiDisplayManager.ResetTargetDisplays` | Assets/Script/Helpers/MultiDisplay/MultiDisplayManager.cs:140-165 | stores the gameplay flag, visits every key exactly once in some order, and ends in the state `Registry.ReconcileAll` gives for that order: shown displays are exactly the keys on the roster, allocated keys off the roster are hidden on their old objects, never-allocated keys off the roster stay empty |

## Left out

- Platform display activation (`Display.displays[...].Activate()`) and the editor's substitution of 2 for the display count are platform I/O. The display count is a constructor parameter. In a player build the activation call would throw for a display number outside `1..Display.displays.Length`; that is not modelled.
- Loading the two canvas templates through the asset system is engine I/O.
- Object naming, parenting in the scene graph and `GetComponent` are engine calls. Only the ids, active flags, the camera's target display and the canvases' render camera are kept.
- Cloning the main camera with its children is not modelled. Each slot's camera is instantiated as a child of the main camera, so a later allocation also clones the cameras of earlier slots, still aimed at those earlier displays. Disconnecting an earlier slot does not hide those copies. The model creates exactly one camera per slot.
- `FindObjectOfType<GameManager>` and the two roster sources are inputs. `ResetTargetDisplays` takes whether a game manager was found and the players' display numbers.
- `OnEnable` only calls `ResetTargetDisplays`; engine callbacks are not modelled.
- `AddOptionsToDropdown`: the labels it writes into the dropdown are UI state; only the returned list is modelled.
- `GetTrackViewManager` and `GetLyricBar` are component lookups with a HUD side effect. For a key whose track view is null they dereference null, so they have no total contract.
- Engine objects live in the heap and `SetActive` changes them in place. The model stores each handle by value in its slot and rewrites the slot. This component's own methods reach each object only through its slot, so their changes are all captured.
- Changes made by other code to objects this component hands out are not modelled. `GetVocalTrack` returns the slot's vocal copy, and the track view lookups return components inside the track view. Callers can activate or deactivate those objects; the model's active flags record only this component's own `SetActive` calls.
- `MultiDisplay.MultiDisplayManager.Instantiate`: a new display canvas, track view and camera are taken to be active, on the assumption that the templates and the main camera are active; the vocal copy is set inactive as in the code, whatever its original's state.
- Unity's overloaded null test on destroyed objects is not modelled. This component destroys nothing. But the engine destroys the game manager when the gameplay scene unloads. From then on the null test in `ConnectDisplayTo` is false without any reset. The model's `inGameplay` stays true until the next reset, so a connect in between allocates a track view in the model and not in the program.
