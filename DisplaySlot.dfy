/**
 * One entry of the multi-display registry: the engine objects that make a
 * secondary physical display show the game's UI, and the two operations that
 * act on a single entry (first allocation or re-showing, and hiding).
 *
 * Engine objects are abstract handles: an identity plus the `activeSelf`
 * flag that `SetActive` changes.
 */
module DisplaySlot {
  import opened Optional

  /** An instantiated engine object: its identity and whether it is active. */
  datatype Handle = Handle(id: nat, active: bool)

  /** A camera cloned from the main camera, rendering to a zero-based physical display. */
  datatype CameraObject = CameraObject(handle: Handle, targetDisplay: int)

  /** A canvas root; `worldCamera` is the id of the camera its Canvas renders with. */
  datatype CanvasObject = CanvasObject(handle: Handle, worldCamera: nat)

  /** The `Display` struct: every reference is null until first allocation. */
  datatype Display = Display(
    displayObject: Option<CanvasObject>,
    trackViewObject: Option<CanvasObject>,
    vocalTrackObject: Option<Handle>,
    camera: Option<CameraObject>)

  /** `new Display()`: all four references null. */
  const Unallocated := Display(None, None, None, None)

  /** The null test of `ConnectDisplayTo` that tells a fresh slot from an allocated one. */
  predicate Allocated(d: Display) {
    d.displayObject.Some?
  }

  /**
   * The shape every slot of display `displayNumber` keeps: the display object
   * and the camera exist together; the track view and the vocal track copy
   * exist together and only in an allocated slot; the camera renders to
   * physical display `displayNumber - 1` and every canvas of the slot renders
   * with that camera.
   */
  predicate WellFormed(d: Display, displayNumber: int) {
    && (d.displayObject.Some? <==> d.camera.Some?)
    && (d.trackViewObject.Some? <==> d.vocalTrackObject.Some?)
    && (d.trackViewObject.Some? ==> Allocated(d))
    && (Allocated(d) && d.camera.Some? ==>
          && d.camera.value.targetDisplay == displayNumber - 1
          && d.displayObject.value.worldCamera == d.camera.value.handle.id
          && (d.trackViewObject.Some? ==> d.trackViewObject.value.worldCamera == d.camera.value.handle.id))
  }

  /** The slot's display object and camera exist and are both active. */
  predicate Shown(d: Display) {
    && d.displayObject.Some? && d.camera.Some?
    && d.displayObject.value.handle.active && d.camera.value.handle.active
  }

  /** The slot's display object and camera exist and are both inactive. */
  predicate Hidden(d: Display) {
    && d.displayObject.Some? && d.camera.Some?
    && !d.displayObject.value.handle.active && !d.camera.value.handle.active
  }

  function CanvasId(c: Option<CanvasObject>): Option<nat> {
    if c.Some? then Some(c.value.handle.id) else None
  }

  function CameraId(c: Option<CameraObject>): Option<nat> {
    if c.Some? then Some(c.value.handle.id) else None
  }

  function HandleId(h: Option<Handle>): Option<nat> {
    if h.Some? then Some(h.value.id) else None
  }

  /** The two slots refer to the same four engine objects (or to null in the same places). */
  predicate SameHandles(d: Display, e: Display) {
    && CanvasId(d.displayObject) == CanvasId(e.displayObject)
    && CanvasId(d.trackViewObject) == CanvasId(e.trackViewObject)
    && HandleId(d.vocalTrackObject) == HandleId(e.vocalTrackObject)
    && CameraId(d.camera) == CameraId(e.camera)
  }

  /** The ids of the engine objects a slot refers to. */
  function Ids(d: Display): set<nat> {
    (if d.displayObject.Some? then {d.displayObject.value.handle.id} else {})
    + (if d.trackViewObject.Some? then {d.trackViewObject.value.handle.id} else {})
    + (if d.vocalTrackObject.Some? then {d.vocalTrackObject.value.id} else {})
    + (if d.camera.Some? then {d.camera.value.handle.id} else {})
  }

  /** Every engine object the slot refers to has an id strictly between `lo` and `hi`. */
  predicate SlotIdsWithin(d: Display, lo: int, hi: int) {
    forall id :: id in Ids(d) ==> lo < id < hi
  }

  /** The slot after a connect, and the id the next instantiated object will receive. */
  datatype Connected = Connected(slot: Display, next: nat)

  /** `SetActive(shown)` on the slot's display object and on its camera's game object. */
  function SetShown(d: Display, shown: bool): Display
    requires d.displayObject.Some? && d.camera.Some?
  {
    d.(displayObject := Some(d.displayObject.value.(handle := d.displayObject.value.handle.(active := shown))),
       camera := Some(d.camera.value.(handle := d.camera.value.handle.(active := shown))))
  }

  /**
   * Connecting one slot. The first time, instantiate the display canvas and
   * a camera clone (ids `next` and `next + 1`), aim the camera at physical
   * display `displayNumber - 1` and bind the canvas to it; during gameplay
   * also instantiate a track view bound to that camera and an inactive copy
   * of the vocal track (ids `next + 2` and `next + 3`). Afterwards, only
   * re-activate the display object and the camera. Returns the slot and the
   * next unused id.
   */
  function Connect(d: Display, displayNumber: int, inGameplay: bool, next: nat): (r: Connected)
    requires WellFormed(d, displayNumber)
    ensures WellFormed(r.slot, displayNumber) && Shown(r.slot) && next <= r.next
    ensures Allocated(d) ==>
      && r.next == next
      && SameHandles(r.slot, d) && Ids(r.slot) == Ids(d)
      && r.slot.trackViewObject == d.trackViewObject
      && r.slot.vocalTrackObject == d.vocalTrackObject
    ensures !Allocated(d) ==>
      && (r.slot.trackViewObject.Some? <==> inGameplay)
      && (r.slot.vocalTrackObject.Some? ==> !r.slot.vocalTrackObject.value.active)
      && (forall id :: id in Ids(r.slot) ==> next <= id < r.next)
      && r.next == next + (if inGameplay then 4 else 2)
      && CanvasId(r.slot.displayObject) == Some(next)
      && CameraId(r.slot.camera) == Some(next + 1)
      && (inGameplay ==> CanvasId(r.slot.trackViewObject) == Some(next + 2))
      && (inGameplay ==> HandleId(r.slot.vocalTrackObject) == Some(next + 3))
  {
    if d.displayObject.None? then
      var camera := CameraObject(Handle(next + 1, true), displayNumber - 1);
      var displayObject := CanvasObject(Handle(next, true), next + 1);
      if inGameplay then
        var trackView := CanvasObject(Handle(next + 2, true), next + 1);
        var slot := Display(Some(displayObject), Some(trackView), Some(Handle(next + 3, false)), Some(camera));
        Connected(slot, next + 4)
      else
        var slot := Display(Some(displayObject), None, None, Some(camera));
        Connected(slot, next + 2)
    else
      Connected(SetShown(d, true), next)
  }

  /**
   * A first connect instantiates two objects outside gameplay and four in
   * gameplay, each with its own id: as many distinct ids as the counter advanced.
   */
  lemma FirstConnectTakesDistinctIds(d: Display, displayNumber: int, inGameplay: bool, next: nat)
    requires WellFormed(d, displayNumber) && !Allocated(d)
    ensures var c := Connect(d, displayNumber, inGameplay, next);
      |Ids(c.slot)| == c.next - next == if inGameplay then 4 else 2
  {
    var c := Connect(d, displayNumber, inGameplay, next);
    if inGameplay {
      assert Ids(c.slot) == {next} + {next + 2} + {next + 3} + {next + 1};
      assert |{next} + {next + 2}| == 2;
      assert |{next} + {next + 2} + {next + 3}| == 3;
    } else {
      assert Ids(c.slot) == {next} + {next + 1};
    }
  }

  /** Disconnecting an allocated slot: hide its display object and camera, free nothing. */
  function Disconnect(d: Display): (r: Display)
    requires d.displayObject.Some? && d.camera.Some?
    ensures Hidden(r) && SameHandles(r, d) && Ids(r) == Ids(d)
    ensures r.trackViewObject == d.trackViewObject && r.vocalTrackObject == d.vocalTrackObject
    ensures forall n :: WellFormed(d, n) ==> WellFormed(r, n)
  {
    SetShown(d, false)
  }

  /** Connecting a slot that is already shown changes nothing and allocates nothing. */
  lemma ConnectShownIsNoOp(d: Display, displayNumber: int, inGameplay: bool, next: nat)
    requires WellFormed(d, displayNumber) && Shown(d)
    ensures Connect(d, displayNumber, inGameplay, next) == Connected(d, next)
  {
  }

  /** Disconnecting a slot that is already hidden changes nothing. */
  lemma DisconnectHiddenIsNoOp(d: Display)
    requires Hidden(d)
    ensures Disconnect(d) == d
  {
  }

  /** Connect is idempotent, whatever the gameplay flag is the second time. */
  lemma ConnectIdempotent(d: Display, displayNumber: int, inGameplay: bool, inGameplay': bool, next: nat)
    requires WellFormed(d, displayNumber)
    ensures var c := Connect(d, displayNumber, inGameplay, next);
      Connect(c.slot, displayNumber, inGameplay', c.next) == c
  {
    var c := Connect(d, displayNumber, inGameplay, next);
    ConnectShownIsNoOp(c.slot, displayNumber, inGameplay', c.next);
  }

  /** Disconnect is idempotent. */
  lemma DisconnectIdempotent(d: Display)
    requires d.displayObject.Some? && d.camera.Some?
    ensures Disconnect(Disconnect(d)) == Disconnect(d)
  {
    DisconnectHiddenIsNoOp(Disconnect(d));
  }

  /**
   * A connect / disconnect / connect cycle reuses the objects of the first
   * connect: the slot comes back exactly as it was and no id is taken.
   */
  lemma ReconnectReuses(d: Display, displayNumber: int, inGameplay: bool, inGameplay': bool, next: nat)
    requires WellFormed(d, displayNumber)
    ensures var c := Connect(d, displayNumber, inGameplay, next);
      Connect(Disconnect(c.slot), displayNumber, inGameplay', c.next) == c
  {
  }

  /**
   * The track view and vocal track copy are created only at first allocation:
   * a slot first connected outside gameplay never gets them, however many
   * disconnect / connect cycles follow during gameplay.
   */
  lemma TrackViewOnlyAtFirstAllocation(displayNumber: int, next: nat)
    ensures var c := Connect(Unallocated, displayNumber, false, next);
      && Allocated(c.slot) && c.slot.trackViewObject.None? && c.slot.vocalTrackObject.None?
      && Connect(Disconnect(c.slot), displayNumber, true, c.next).slot.trackViewObject.None?
      && Connect(Disconnect(c.slot), displayNumber, true, c.next).slot.vocalTrackObject.None?
  {
  }
}
