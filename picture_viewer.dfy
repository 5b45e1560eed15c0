/**
 * The carousel of the picture viewer: a window of four slots (left, selected,
 * next, right) over an append-only list of pictures, the hand-off of quads to
 * the render thread through an init queue and a dispose queue, and the slide
 * and zoom animations reduced to their start, their ticks and their completion.
 *
 * The module first states the carousel as a value (`Viewer`) with one function
 * per step and the lemmas about those steps; the class `PictureViewer` then
 * holds the same state in fields and an array and is proved against them.
 */
module Ui {
  import opened Wrappers
  import opened Geometry

  // Slot indices of the renderables array.
  const LEFT := 0
  const SELECTED := 1
  const NEXT := 2
  const RIGHT := 3

  const QUAD_WIDTH: real := 60.0

  /** Duration of a slide, in milliseconds. */
  const SLIDE_DELAY := 800
  /** Duration of a zoom, in milliseconds. */
  const ZOOM_DELAY := 400

  /**
   * A loaded picture. `quadHeight` is the height `(int) (QUAD_WIDTH / ratio)`
   * that the image's aspect ratio gives its quad; the image itself is opaque.
   */
  datatype Picture = Picture(name: string, quadHeight: int)

  /** Position, rotation and scale of a quad. */
  datatype Pose = Pose(position: Vec3, rotation: Rot3, scale: Vec3)

  /**
   * A reflected quad showing one picture. `id` stands for the object's
   * identity: two slots hold the same quad exactly when their ids agree.
   */
  datatype Quad = Quad(id: nat, picture: nat, height: int, pose: Pose)

  /** The rendered caption of a picture, an opaque token of its name. */
  datatype TextImage = TextImage(caption: string)

  function TextImageOf(p: Picture): TextImage { TextImage(p.name) }

  /** A GL resource call made by the render thread. */
  datatype GlCall = Init(id: nat) | Dispose(id: nat)

  /** The Swing timer: stopped, or driving a slide (in one direction) or a zoom. */
  datatype Animation = Idle | Sliding(forward: bool) | Zooming

  /** The four slots of the `renderables` array, by role. */
  datatype Slots = Slots(left: Option<Quad>, selected: Option<Quad>, next: Option<Quad>, right: Option<Quad>)

  /** The slot at array index `index`. */
  function Slot(s: Slots, index: int): Option<Quad>
    requires 0 <= index <= RIGHT
  {
    if index == LEFT then s.left
    else if index == SELECTED then s.selected
    else if index == NEXT then s.next
    else s.right
  }

  /** The slots with array index `index` replaced. */
  function SlotsWith(s: Slots, index: int, q: Option<Quad>): (r: Slots)
    requires 0 <= index <= RIGHT
    ensures Slot(r, index) == q
    ensures forall k :: 0 <= k <= RIGHT && k != index ==> Slot(r, k) == Slot(s, k)
  {
    if index == LEFT then s.(left := q)
    else if index == SELECTED then s.(selected := q)
    else if index == NEXT then s.(next := q)
    else s.(right := q)
  }

  /** The carousel state that the slot operations read and write. */
  datatype Viewer = Viewer(
    pictures: seq<Picture>,
    slots: Slots,
    selected: int,
    next: int,
    initQueue: seq<Quad>,
    disposeQueue: seq<Quad>,
    glLog: seq<GlCall>,
    nextId: nat,
    textImage: Option<TextImage>,
    nextTextImage: Option<TextImage>)

  /** The pose a fresh quad gets from the factory: at the origin, unrotated, unscaled. */
  const FactoryPose := Pose(Origin, NoRotation, UnitScale)

  /** The pose `createQuad` gives a quad placed in slot `index`. */
  function RestingPose(index: int, height: int): Pose
    requires 0 <= index <= RIGHT
  {
    var h := height as real;
    if index == SELECTED then
      FactoryPose.(position := Vec3(-7.0, 0.0, 0.0), rotation := Rot3(0, 30, 0))
    else if index == NEXT then
      Pose(Vec3(36.0, -h / 2.0, 30.0), Rot3(0, -20, 0), Vec3(0.5, 0.5, 0.5))
    else if index == RIGHT then
      Pose(Vec3(196.0, -h / 2.0, 30.0), Rot3(0, -20, 0), Vec3(0.5, 0.5, 0.5))
    else
      FactoryPose.(position := Vec3(-7.0 - QUAD_WIDTH * 2.0, 0.0, 0.0), rotation := Rot3(0, 30, 0))
  }

  /**
   * The position and rotation a quad gets when it slides into the left slot:
   * those of the left slot's resting pose, with its identity, picture and
   * scale kept.
   */
  function MovedLeft(q: Quad): (r: Quad)
    ensures r.id == q.id && r.picture == q.picture && r.height == q.height && r.pose.scale == q.pose.scale
    ensures r.pose.position == RestingPose(LEFT, q.height).position
    ensures r.pose.rotation == RestingPose(LEFT, q.height).rotation
  {
    q.(pose := q.pose.(position := Vec3(-7.0 - QUAD_WIDTH * 2.0, 0.0, 0.0), rotation := Rot3(0, 30, 0)))
  }

  // ---------------------------------------------------------------------------
  // The window invariant

  /** The slot, if filled, does not hold the quad with this id. */
  predicate NotHolding(o: Option<Quad>, id: nat)
  {
    o.Some? ==> o.value.id != id
  }

  /** No slot holds the quad with this id. */
  predicate Apart(s: Slots, id: nat)
  {
    NotHolding(s.left, id) && NotHolding(s.selected, id) && NotHolding(s.next, id) && NotHolding(s.right, id)
  }

  /** Two slots do not hold the same quad. */
  predicate Disjoint(a: Option<Quad>, b: Option<Quad>)
  {
    a.Some? && b.Some? ==> a.value.id != b.value.id
  }

  /** No quad sits in two slots. */
  predicate Distinct(s: Slots)
  {
    && Disjoint(s.left, s.selected) && Disjoint(s.left, s.next) && Disjoint(s.left, s.right)
    && Disjoint(s.selected, s.next) && Disjoint(s.selected, s.right) && Disjoint(s.next, s.right)
  }

  /** A filled slot holds a quad with a known id that shows an existing picture at that picture's height. */
  predicate Known(v: Viewer, o: Option<Quad>)
  {
    o.Some? ==>
      o.value.id < v.nextId
      && o.value.picture < |v.pictures|
      && o.value.height == v.pictures[o.value.picture].quadHeight
  }

  /**
   * The frame of the carousel: every quad in a slot is known, no quad sits in
   * two slots, and no quad handed to the dispose queue (or already disposed)
   * is in a slot.
   */
  ghost predicate Sound(v: Viewer)
  {
    && Known(v, v.slots.left) && Known(v, v.slots.selected) && Known(v, v.slots.next) && Known(v, v.slots.right)
    && Distinct(v.slots)
    && (forall q :: q in v.initQueue ==> q.id < v.nextId)
    && (forall q :: q in v.disposeQueue ==> q.id < v.nextId && Apart(v.slots, q.id))
    && (forall c :: c in v.glLog && c.Dispose? ==> c.id < v.nextId && Apart(v.slots, c.id))
  }

  /** The slot holds a quad of picture `number` if that picture exists, and is empty otherwise. */
  predicate Holds(v: Viewer, o: Option<Quad>, number: int)
  {
    if 0 <= number < |v.pictures| then o.Some? && o.value.picture == number else o.None?
  }

  /**
   * The sliding window: the four slots show the pictures selected-1 ..
   * selected+2 that exist, and `next` is `selected + 1` once there are two pictures.
   */
  predicate Window(v: Viewer)
  {
    var n := |v.pictures|;
    && (if n == 0 then v.selected == -1 else 0 <= v.selected < n)
    && (if n <= 1 then v.next == -1 else v.next == v.selected + 1)
    && Holds(v, v.slots.left, v.selected - 1)
    && Holds(v, v.slots.selected, v.selected)
    && Holds(v, v.slots.next, v.selected + 1)
    && Holds(v, v.slots.right, v.selected + 2)
  }

  ghost predicate WindowInvariant(v: Viewer)
  {
    Sound(v) && Window(v)
  }

  // ---------------------------------------------------------------------------
  // The slot operations as functions of the state

  datatype Created = Created(viewer: Viewer, quad: Quad)

  /** `createQuad`: a new quad for picture `number`, placed at once in slot `index` in its resting pose. */
  function QuadCreated(v: Viewer, index: int, number: int): Created
    requires 0 <= index <= RIGHT && 0 <= number < |v.pictures|
  {
    var picture := v.pictures[number];
    var quad := Quad(v.nextId, number, picture.quadHeight, RestingPose(index, picture.quadHeight));
    var v1 := v.(slots := SlotsWith(v.slots, index, Some(quad)), nextId := v.nextId + 1);
    var v2 :=
      if index == SELECTED then v1.(selected := number, textImage := Some(TextImageOf(picture)))
      else if index == NEXT then v1.(next := number)
      else v1;
    Created(v2, quad)
  }

  /** A quad created into a slot and queued for GL initialisation. */
  function QuadQueued(v: Viewer, index: int, number: int): Viewer
    requires 0 <= index <= RIGHT && 0 <= number < |v.pictures|
  {
    var c := QuadCreated(v, index, number);
    c.viewer.(initQueue := c.viewer.initQueue + [c.quad])
  }

  /**
   * Which slot a newly added picture fills, and with which picture, given the
   * new size: the code as written hard-codes the picture numbers 1 and 2,
   * so the picture number depends on the slot alone.
   */
  function SlotFillAsWritten(size: int, selected: int, next: int): (r: Option<(int, int)>)
    ensures r.Some? ==> SELECTED <= r.value.0 <= RIGHT && r.value.1 == r.value.0 - SELECTED
  {
    if size == 1 then Some((SELECTED, 0))
    else if size - 1 == selected + 1 then Some((NEXT, 1))
    else if size - 1 == next + 1 then Some((RIGHT, 2))
    else None
  }

  /**
   * The slot choice with the intended picture number: the picture just
   * added.  It fills the same slot as the code as written, and agrees with
   * it on the picture exactly while the list is too short for the
   * hard-coded numbers to go wrong.
   */
  function SlotFill(size: int, selected: int, next: int): (r: Option<(int, int)>)
    ensures r.Some? ==> SELECTED <= r.value.0 <= RIGHT && r.value.1 == size - 1
    ensures r.Some? <==> size == 1 || size - 1 == selected + 1 || size - 1 == next + 1
    ensures r == SlotFillAsWritten(size, selected, next) <==>
              r.None? || r.value.0 == SELECTED || (r.value.0 == NEXT && size == 2) || (r.value.0 == RIGHT && size == 3)
  {
    if size == 1 then Some((SELECTED, 0))
    else if size - 1 == selected + 1 then Some((NEXT, size - 1))
    else if size - 1 == next + 1 then Some((RIGHT, size - 1))
    else None
  }

  /** The picture `addPicture` appends: a null name becomes "". */
  function NewPicture(name: Option<string>, quadHeight: int): Picture
  {
    Picture(if name.Some? then name.value else "", quadHeight)
  }

  /** `addPicture` with a given slot choice. */
  function PictureAddedWith(v: Viewer, name: Option<string>, quadHeight: int, fill: Option<(int, int)>): Viewer
    requires fill.Some? ==> 0 <= fill.value.0 <= RIGHT && 0 <= fill.value.1 <= |v.pictures|
  {
    var v1 := v.(pictures := v.pictures + [NewPicture(name, quadHeight)]);
    if fill.Some? then QuadQueued(v1, fill.value.0, fill.value.1) else v1
  }

  /** `addPicture` as written, with picture numbers 1 and 2 hard-coded. */
  function PictureAddedAsWritten(v: Viewer, name: Option<string>, quadHeight: int): Viewer
    requires Window(v)
  {
    PictureAddedWith(v, name, quadHeight, SlotFillAsWritten(|v.pictures| + 1, v.selected, v.next))
  }

  /** `addPicture` with the picture number the window calls for. */
  function PictureAdded(v: Viewer, name: Option<string>, quadHeight: int): Viewer
  {
    PictureAddedWith(v, name, quadHeight, SlotFill(|v.pictures| + 1, v.selected, v.next))
  }

  /** The caption prepared when a slide starts: that of the picture about to be selected, if any. */
  function SlideCaption(v: Viewer, forward: bool): Option<TextImage>
  {
    if forward then
      (if 0 <= v.next < |v.pictures| then Some(TextImageOf(v.pictures[v.next])) else None)
    else
      (if 0 < v.selected <= |v.pictures| then Some(TextImageOf(v.pictures[v.selected - 1])) else None)
  }

  /**
   * The first half of `selectNextPicture`: the old left quad is queued for
   * disposal, the selected quad moves left, the next quad becomes the
   * selected one and the right quad the next one (while that picture exists).
   */
  function NextShifted(v: Viewer): Viewer
    requires 0 <= v.selected + 1 < |v.pictures| && v.next >= -1 && v.slots.selected.Some?
  {
    var sel := v.selected + 1;
    var nxt := v.next + 1;
    var size := |v.pictures|;
    var disposed := if v.slots.left.Some? then v.disposeQueue + [v.slots.left.value] else v.disposeQueue;
    var slots := Slots(Some(MovedLeft(v.slots.selected.value)), v.slots.next,
                       if nxt < size then v.slots.right else None, None);
    v.(selected := sel, next := nxt, slots := slots, disposeQueue := disposed,
       textImage := Some(TextImageOf(v.pictures[sel])),
       nextTextImage := if nxt < size then Some(TextImageOf(v.pictures[nxt])) else v.nextTextImage)
  }

  /** `selectNextPicture`: the shift, then a new quad in the right slot while its picture exists. */
  function NextSelected(v: Viewer): Viewer
    requires 0 <= v.selected + 1 < |v.pictures| && v.next >= -1 && v.slots.selected.Some?
  {
    var w := NextShifted(v);
    if w.next < |w.pictures| - 1 then QuadQueued(w, RIGHT, w.next + 1) else w
  }

  /**
   * The first half of `selectPreviousPicture`: the old right quad is queued
   * for disposal, the next quad moves right (back into its resting pose), the
   * selected quad becomes the next one and the left quad the selected one.
   */
  function PreviousShifted(v: Viewer): Viewer
    requires 1 <= v.selected < |v.pictures| && 1 <= v.next <= |v.pictures|
  {
    var sel := v.selected - 1;
    var nxt := v.next - 1;
    var disposed := if v.slots.right.Some? then v.disposeQueue + [v.slots.right.value] else v.disposeQueue;
    var right :=
      if v.slots.next.Some? then Some(v.slots.next.value.(pose := RestingPose(RIGHT, v.slots.next.value.height)))
      else v.slots.right;
    var slots := Slots(None, v.slots.left, v.slots.selected, right);
    v.(selected := sel, next := nxt, slots := slots, disposeQueue := disposed,
       nextTextImage := Some(TextImageOf(v.pictures[nxt])),
       textImage := Some(TextImageOf(v.pictures[sel])))
  }

  /** `selectPreviousPicture`: the shift, then a new quad in the left slot while its picture exists. */
  function PreviousSelected(v: Viewer): Viewer
    requires 1 <= v.selected < |v.pictures| && 1 <= v.next <= |v.pictures|
  {
    var w := PreviousShifted(v);
    if w.selected > 0 then QuadQueued(w, LEFT, w.selected - 1) else w
  }

  function InitCalls(q: seq<Quad>): (calls: seq<GlCall>)
    ensures |calls| == |q|
    ensures forall i :: 0 <= i < |q| ==> calls[i] == Init(q[i].id)
  {
    seq(|q|, i requires 0 <= i < |q| => Init(q[i].id))
  }

  function DisposeCalls(q: seq<Quad>): (calls: seq<GlCall>)
    ensures |calls| == |q|
    ensures forall i :: 0 <= i < |q| ==> calls[i] == Dispose(q[i].id)
  {
    seq(|q|, i requires 0 <= i < |q| => Dispose(q[i].id))
  }

  /** `initAndDisposeQuads`: every queued quad initialised, then every queued quad disposed, in FIFO order. */
  function Drained(v: Viewer): Viewer
  {
    v.(initQueue := [], disposeQueue := [],
       glLog := v.glLog + InitCalls(v.initQueue) + DisposeCalls(v.disposeQueue))
  }

  /** The picture a slot shows, if it is filled. */
  function PictureIn(o: Option<Quad>): Option<nat>
  {
    if o.Some? then Some(o.value.picture) else None
  }

  /** The pictures the four slots show, left to right. */
  function SlotPictures(s: Slots): seq<Option<nat>>
  {
    [PictureIn(s.left), PictureIn(s.selected), PictureIn(s.next), PictureIn(s.right)]
  }

  /** The raw caption alpha `setTextAlpha` computes `elapsed` milliseconds into a slide. */
  function RawTextAlpha(elapsed: int): real
  {
    var factor := elapsed as real / SLIDE_DELAY as real;
    if (elapsed as real) < (SLIDE_DELAY as real) / 2.0 then 1.0 - 2.0 * factor
    else
      var a := (factor - 0.5) * 2.0;
      if a > 1.0 then 1.0 else a
  }

  /** The caption alpha after `setTextAlpha`'s lower clamp. */
  function TextAlpha(elapsed: int): real
  {
    var a := RawTextAlpha(elapsed);
    if a < 0.1 then 0.1 else a
  }

  // ---------------------------------------------------------------------------
  // Lemmas about the slot operations

  /**
   * A created quad is fresh (no slot and no queue holds its id), lands in
   * its slot in its resting pose, and leaves every other slot alone.
   */
  lemma CreatedQuadIsFresh(v: Viewer, index: int, number: int)
    requires Sound(v) && 0 <= index <= RIGHT && 0 <= number < |v.pictures|
    ensures var c := QuadCreated(v, index, number);
      && Apart(v.slots, c.quad.id)
      && (forall q :: q in v.initQueue + v.disposeQueue ==> q.id != c.quad.id)
      && Slot(c.viewer.slots, index) == Some(c.quad)
      && (forall k :: 0 <= k <= RIGHT && k != index ==> Slot(c.viewer.slots, k) == Slot(v.slots, k))
      && c.quad.picture == number
      && c.quad.pose == RestingPose(index, v.pictures[number].quadHeight)
      && c.viewer.selected == (if index == SELECTED then number else v.selected)
      && c.viewer.next == (if index == NEXT then number else v.next)
  {
  }

  /** What a slot held before `createQuad` fills it makes no difference to the result. */
  lemma CreatedOverwrites(v: Viewer, index: int, number: int, o: Option<Quad>)
    requires 0 <= index <= RIGHT && 0 <= number < |v.pictures|
    ensures QuadCreated(v.(slots := SlotsWith(v.slots, index, o)), index, number) == QuadCreated(v, index, number)
  {
  }

  /** Creating and queuing a quad keeps the carousel's frame sound, whatever slot it overwrites. */
  lemma {:induction false} QuadQueuedSound(v: Viewer, index: int, number: int)
    requires Sound(v) && 0 <= index <= RIGHT && 0 <= number < |v.pictures|
    ensures Sound(QuadQueued(v, index, number))
  {
    var w := QuadQueued(v, index, number);
    forall q | q in w.disposeQueue ensures q.id < w.nextId && Apart(w.slots, q.id) {
      assert Apart(v.slots, q.id);
    }
    forall c | c in w.glLog && c.Dispose? ensures c.id < w.nextId && Apart(w.slots, c.id) {
      assert Apart(v.slots, c.id);
    }
  }

  /**
   * Adding a picture keeps the window invariant. The first picture fills the
   * selected slot; the others fill the next or right slot when it is the
   * picture that slot is waiting for; only the init queue may grow, by one.
   */
  lemma PictureAddedKeepsWindow(v: Viewer, name: Option<string>, quadHeight: int)
    requires WindowInvariant(v)
    ensures var w := PictureAdded(v, name, quadHeight);
      && WindowInvariant(w)
      && w.pictures == v.pictures + [NewPicture(name, quadHeight)]
      && w.selected == (if |v.pictures| == 0 then 0 else v.selected)
      && w.disposeQueue == v.disposeQueue && w.glLog == v.glLog
      && (w.initQueue == v.initQueue || (|w.initQueue| == |v.initQueue| + 1 && w.initQueue[..|v.initQueue|] == v.initQueue))
  {
    PictureAddedSound(v, name, quadHeight);
    PictureAddedWindow(v, name, quadHeight);
    var v1 := v.(pictures := v.pictures + [NewPicture(name, quadHeight)]);
    var fill := SlotFill(|v1.pictures|, v.selected, v.next);
    if fill.Some? {
      assert QuadQueued(v1, fill.value.0, fill.value.1).initQueue[..|v.initQueue|] == v.initQueue;
    }
  }

  /** Adding a picture keeps the carousel's frame sound. */
  lemma PictureAddedSound(v: Viewer, name: Option<string>, quadHeight: int)
    requires Sound(v)
    ensures Sound(PictureAdded(v, name, quadHeight))
  {
    var v1 := v.(pictures := v.pictures + [NewPicture(name, quadHeight)]);
    assert Sound(v1);
    var fill := SlotFill(|v1.pictures|, v.selected, v.next);
    if fill.Some? {
      QuadQueuedSound(v1, fill.value.0, fill.value.1);
    }
  }

  /** Adding a picture keeps the window: the one slot waiting for the new picture gets it. */
  lemma PictureAddedWindow(v: Viewer, name: Option<string>, quadHeight: int)
    requires Window(v)
    ensures Window(PictureAdded(v, name, quadHeight))
  {
  }

  /**
   * The finding in `addPicture`: once the user has moved to the last of two
   * pictures, the code as written puts picture 1 (the selected one) into the
   * next slot when a third picture arrives, instead of picture 2.
   */
  lemma PictureAddedAsWrittenBreaksWindow(v: Viewer, name: Option<string>, quadHeight: int)
    requires WindowInvariant(v) && |v.pictures| == 2 && v.selected == 1
    ensures var w := PictureAddedAsWritten(v, name, quadHeight);
      && w.slots.next.Some? && w.slots.next.value.picture == 1 && w.next == 1
      && !Window(w)
  {
  }

  /** The shift of a forward slide keeps the frame sound and takes the old left quad out of every slot. */
  lemma {:induction false} NextShiftedSound(v: Viewer)
    requires Sound(v) && 0 <= v.selected + 1 < |v.pictures| && v.next >= -1 && v.slots.selected.Some?
    ensures var w := NextShifted(v);
      && Sound(w)
      && (v.slots.left.Some? ==> Apart(w.slots, v.slots.left.value.id))
  {
    var w := NextShifted(v);
    forall q | q in w.disposeQueue ensures q.id < w.nextId && Apart(w.slots, q.id) {
      if q in v.disposeQueue { assert Apart(v.slots, q.id); }
    }
    forall c | c in w.glLog && c.Dispose? ensures c.id < w.nextId && Apart(w.slots, c.id) {
      assert Apart(v.slots, c.id);
    }
  }

  /**
   * The end of a forward slide keeps the window invariant: both indices move
   * up by one, the old left quad goes to the dispose queue exactly once and is
   * in no slot afterwards, the selected quad moves left and the next quad
   * becomes the selected one.
   */
  lemma NextSelectedKeepsWindow(v: Viewer)
    requires WindowInvariant(v) && v.selected < |v.pictures| - 1
    ensures v.slots.selected.Some? && v.next >= -1
    ensures var w := NextSelected(v);
      && WindowInvariant(w)
      && w.selected == v.selected + 1 && w.next == v.next + 1
      && w.pictures == v.pictures && w.glLog == v.glLog
      && w.slots.left == Some(MovedLeft(v.slots.selected.value))
      && w.slots.selected == v.slots.next
      && w.slots.next == (if w.next < |v.pictures| then v.slots.right else None)
      && (v.slots.left.Some? ==>
            w.disposeQueue == v.disposeQueue + [v.slots.left.value]
            && Apart(w.slots, v.slots.left.value.id))
      && (v.slots.left.None? ==> w.disposeQueue == v.disposeQueue)
  {
    NextShiftedSound(v);
    var s := NextShifted(v);
    if s.next < |s.pictures| - 1 {
      QuadQueuedSound(s, RIGHT, s.next + 1);
      CreatedQuadIsFresh(s, RIGHT, s.next + 1);
    }
  }

  /** The shift of a backward slide keeps the frame sound and takes the old right quad out of every slot. */
  lemma {:induction false} PreviousShiftedSound(v: Viewer)
    requires WindowInvariant(v) && v.selected > 0
    ensures 1 <= v.next <= |v.pictures|
    ensures var w := PreviousShifted(v);
      && Sound(w)
      && (v.slots.right.Some? ==> Apart(w.slots, v.slots.right.value.id))
  {
    var w := PreviousShifted(v);
    forall q | q in w.disposeQueue ensures q.id < w.nextId && Apart(w.slots, q.id) {
      if q in v.disposeQueue { assert Apart(v.slots, q.id); }
    }
    forall c | c in w.glLog && c.Dispose? ensures c.id < w.nextId && Apart(w.slots, c.id) {
      assert Apart(v.slots, c.id);
    }
  }

  /**
   * The end of a backward slide keeps the window invariant: both indices move
   * down by one, the old right quad goes to the dispose queue exactly once and
   * is in no slot afterwards, and every quad moves one slot to the right.
   */
  lemma PreviousSelectedKeepsWindow(v: Viewer)
    requires WindowInvariant(v) && v.selected > 0
    ensures 1 <= v.next <= |v.pictures|
    ensures var w := PreviousSelected(v);
      && WindowInvariant(w)
      && w.selected == v.selected - 1 && w.next == v.next - 1
      && w.pictures == v.pictures && w.glLog == v.glLog
      && w.slots.selected == v.slots.left
      && w.slots.next == v.slots.selected
      && (v.slots.next.Some? ==>
            w.slots.right == Some(v.slots.next.value.(pose := RestingPose(RIGHT, v.slots.next.value.height))))
      && (v.slots.right.Some? ==>
            w.disposeQueue == v.disposeQueue + [v.slots.right.value]
            && Apart(w.slots, v.slots.right.value.id))
      && (v.slots.right.None? ==> w.disposeQueue == v.disposeQueue)
  {
    PreviousShiftedSound(v);
    var s := PreviousShifted(v);
    if s.selected > 0 {
      QuadQueuedSound(s, LEFT, s.selected - 1);
      CreatedQuadIsFresh(s, LEFT, s.selected - 1);
    }
  }

  /** Two states whose windows have the same pictures and selection show the same pictures in every slot. */
  lemma WindowDeterminesPictures(v: Viewer, w: Viewer)
    requires Window(v) && Window(w)
    requires v.pictures == w.pictures && v.selected == w.selected
    ensures SlotPictures(v.slots) == SlotPictures(w.slots)
  {
  }

  /** A forward slide followed by a backward slide shows the same pictures in the same slots again. */
  lemma NextThenPreviousRestoresWindow(v: Viewer)
    requires WindowInvariant(v) && v.selected < |v.pictures| - 1
    ensures NextSelected.requires(v)
    ensures var w := NextSelected(v);
      && PreviousSelected.requires(w)
      && var u := PreviousSelected(w);
      && WindowInvariant(u)
      && u.selected == v.selected && u.next == v.next
      && SlotPictures(u.slots) == SlotPictures(v.slots)
  {
    NextSelectedKeepsWindow(v);
    var w := NextSelected(v);
    PreviousSelectedKeepsWindow(w);
    WindowDeterminesPictures(PreviousSelected(w), v);
  }

  /** Draining the queues keeps the window invariant, leaves both queues empty and logs one call per queued quad. */
  lemma DrainedKeepsWindow(v: Viewer)
    requires WindowInvariant(v)
    ensures var w := Drained(v);
      && WindowInvariant(w) && w.initQueue == [] && w.disposeQueue == []
      && w.slots == v.slots
      && |w.glLog| == |v.glLog| + |v.initQueue| + |v.disposeQueue|
  {
    var w := Drained(v);
    forall e | e in w.glLog && e.Dispose? ensures e.id < w.nextId && Apart(w.slots, e.id) {
      if e !in v.glLog {
        assert e !in InitCalls(v.initQueue);
        assert e in DisposeCalls(v.disposeQueue);
        var i :| 0 <= i < |v.disposeQueue| && DisposeCalls(v.disposeQueue)[i] == e;
        assert v.disposeQueue[i] in v.disposeQueue;
      }
    }
  }

  /** Through a slide the caption alpha stays within [0.1, 1]. */
  lemma TextAlphaBounds(elapsed: int)
    requires 0 <= elapsed < SLIDE_DELAY
    ensures 0.1 <= TextAlpha(elapsed) <= 1.0
  {
  }

  /** The caption is swapped exactly while the raw alpha is below 0.1: strictly between 360 and 440 ms. */
  lemma CaptionSwapWindow(elapsed: int)
    ensures RawTextAlpha(elapsed) < 0.1 <==> 360 < elapsed < 440
  {
  }

  /** The carousel keeps its window, and a running slide has a picture to slide to. */
  ghost predicate Consistent(v: Viewer, animator: Animation)
  {
    && WindowInvariant(v)
    && (animator == Sliding(true) ==> v.selected < |v.pictures| - 1)
    && (animator == Sliding(false) ==> v.selected > 0)
  }

  lemma CaptionKeepsConsistent(v: Viewer, t: Option<TextImage>, a: Animation)
    requires Consistent(v, a)
    ensures Consistent(v.(textImage := t), a)
  {
  }

  // ---------------------------------------------------------------------------
  // The viewer component

  class PictureViewer {
    var pictures: seq<Picture>
    /** The left, selected, next and right quads, by array index. */
    const renderables: array<Option<Quad>>
    var initQuadsQueue: seq<Quad>
    var disposeQuadsQueue: seq<Quad>
    /** The GL calls the render thread has made on quads, oldest first. */
    var glLog: seq<GlCall>
    /** The identity the next quad will get. */
    var nextId: nat
    var selectedPicture: int
    var nextPicture: int
    var textImage: Option<TextImage>
    var nextTextImage: Option<TextImage>
    var textAlpha: real
    var animFactor: real
    /** Direction of the last slide started. */
    var next: bool
    var pictureIsShowing: bool
    var animator: Animation
    var showEnabled: bool
    var nextEnabled: bool
    var previousEnabled: bool

    function State(): Viewer
      requires renderables.Length == 4
      reads this`pictures, this`initQuadsQueue, this`disposeQuadsQueue, this`glLog, this`nextId,
        this`selectedPicture, this`nextPicture, this`textImage, this`nextTextImage, renderables
    {
      Viewer(pictures, Slots(renderables[LEFT], renderables[SELECTED], renderables[NEXT], renderables[RIGHT]),
             selectedPicture, nextPicture, initQuadsQueue,
             disposeQuadsQueue, glLog, nextId, textImage, nextTextImage)
    }

    /** The carousel keeps its window, and a running slide has a picture to slide to. */
    ghost predicate Valid()
      reads this`pictures, this`initQuadsQueue, this`disposeQuadsQueue, this`glLog, this`nextId,
        this`selectedPicture, this`nextPicture, this`textImage, this`nextTextImage, this`animator, renderables
    {
      renderables.Length == 4 && Consistent(State(), animator)
    }

    constructor ()
      ensures Valid() && fresh(renderables)
      ensures State() == Viewer([], Slots(None, None, None, None), -1, -1, [], [], [], 0, None, None)
      ensures textAlpha == 1.0 && animFactor == 0.0 && !next && !pictureIsShowing && animator == Idle
      ensures !showEnabled && !nextEnabled && !previousEnabled
    {
      pictures := [];
      renderables := new Option<Quad>[4](_ => None);
      initQuadsQueue := [];
      disposeQuadsQueue := [];
      glLog := [];
      nextId := 0;
      selectedPicture := -1;
      nextPicture := -1;
      textImage := None;
      nextTextImage := None;
      textAlpha := 1.0;
      animFactor := 0.0;
      next := false;
      pictureIsShowing := false;
      animator := Idle;
      showEnabled := false;
      nextEnabled := false;
      previousEnabled := false;
    }

    /** `createQuad`: builds a quad for picture `pictureNumber` and places it in slot `index` at once. */
    method CreateQuad(index: int, pictureNumber: int) returns (quad: Quad)
      requires renderables.Length == 4 && 0 <= index <= RIGHT && 0 <= pictureNumber < |pictures|
      modifies this`nextId, this`selectedPicture, this`nextPicture, this`textImage, renderables
      ensures Created(State(), quad) == QuadCreated(old(State()), index, pictureNumber)
    {
      var picture := pictures[pictureNumber];
      var height := picture.quadHeight;
      quad := Quad(nextId, pictureNumber, height, RestingPose(index, height));
      nextId := nextId + 1;
      renderables[index] := Some(quad);
      if index == SELECTED {
        selectedPicture := pictureNumber;
        textImage := Some(TextImageOf(picture));
      } else if index == NEXT {
        nextPicture := pictureNumber;
      }
    }

    /** `initQuadsQueue.add(createQuad(index, number))`: a new quad in slot `index`, queued for GL initialisation. */
    method QueueQuad(index: int, pictureNumber: int)
      requires renderables.Length == 4 && 0 <= index <= RIGHT && 0 <= pictureNumber < |pictures|
      modifies this`initQuadsQueue, this`nextId, this`selectedPicture, this`nextPicture, this`textImage, renderables
      ensures State() == QuadQueued(old(State()), index, pictureNumber)
    {
      var quad := CreateQuad(index, pictureNumber);
      initQuadsQueue := initQuadsQueue + [quad];
    }

    /** `addPicture`: appends a picture, fills the slot waiting for it, and updates the three actions. */
    method AddPicture(name: Option<string>, quadHeight: int)
      requires Valid()
      modifies this`pictures, this`initQuadsQueue, this`nextId, this`selectedPicture, this`nextPicture,
        this`textImage, this`showEnabled, this`nextEnabled, this`previousEnabled, renderables
      ensures Valid()
      ensures State() == PictureAdded(old(State()), name, quadHeight)
      ensures showEnabled == (selectedPicture >= 0)
      ensures nextEnabled == (selectedPicture < |pictures| - 1)
      ensures previousEnabled == (selectedPicture > 0)
    {
      ghost var v := State();
      PictureAddedKeepsWindow(v, name, quadHeight);
      ghost var w := PictureAdded(v, name, quadHeight);
      assert Consistent(w, animator);
      pictures := pictures + [NewPicture(name, quadHeight)];
      assert State() == v.(pictures := pictures);
      FillWaitingSlot();
      assert State() == w;
      EnableActions();
    }

    /** The middle of `addPicture`: the slot waiting for the picture just appended gets a quad of it. */
    method FillWaitingSlot()
      requires renderables.Length == 4 && |pictures| >= 1
      modifies this`initQuadsQueue, this`nextId, this`selectedPicture, this`nextPicture, this`textImage, renderables
      ensures var fill := SlotFill(|pictures|, old(selectedPicture), old(nextPicture));
        State() == if fill.Some? then QuadQueued(old(State()), fill.value.0, fill.value.1) else old(State())
    {
      var size := |pictures|;
      if size == 1 {
        QueueQuad(SELECTED, 0);
      } else if size - 1 == selectedPicture + 1 {
        QueueQuad(NEXT, size - 1);
      } else if size - 1 == nextPicture + 1 {
        QueueQuad(RIGHT, size - 1);
      }
    }

    /** The end of `addPicture`: the show, next and previous actions follow the selection and the number of pictures. */
    method EnableActions()
      modifies this`showEnabled, this`nextEnabled, this`previousEnabled
      ensures showEnabled == (selectedPicture >= 0)
      ensures nextEnabled == (selectedPicture < |pictures| - 1)
      ensures previousEnabled == (selectedPicture > 0)
    {
      showEnabled := selectedPicture >= 0;
      nextEnabled := selectedPicture < |pictures| - 1;
      previousEnabled := selectedPicture > 0;
    }

    /** `showSelectedPicture`: toggles the zoom unless an animation is running. */
    method ShowSelectedPicture()
      requires Valid()
      modifies this`pictureIsShowing, this`animator
      ensures Valid() && State() == old(State())
      ensures old(animator) != Idle ==> pictureIsShowing == old(pictureIsShowing) && animator == old(animator)
      ensures old(animator) == Idle ==> pictureIsShowing == !old(pictureIsShowing) && animator == Zooming
    {
      if animator != Idle {
        return;
      }
      pictureIsShowing := !pictureIsShowing;
      animator := Zooming;
    }

    /**
     * `showPicture`: starts a slide unless an animation is running. While a
     * picture is shown zoomed, the source hands the request to a helper
     * thread (reported by `deferred`) whose steps are not part of this model.
     */
    method ShowPicture(forward: bool) returns (deferred: bool)
      requires Valid()
      requires forward ==> selectedPicture < |pictures| - 1
      requires !forward ==> selectedPicture > 0
      modifies this`next, this`nextTextImage, this`animator
      ensures Valid()
      ensures deferred == (old(animator) == Idle && old(pictureIsShowing))
      ensures old(animator) != Idle || deferred ==>
        State() == old(State()) && next == old(next) && animator == old(animator)
      ensures old(animator) == Idle && !deferred ==>
        && State() == old(State()).(nextTextImage := SlideCaption(old(State()), forward))
        && next == forward && animator == Sliding(forward)
    {
      deferred := false;
      if animator != Idle {
        return;
      }
      if pictureIsShowing {
        deferred := true;
        return;
      }
      next := forward;
      if forward {
        nextTextImage := if nextPicture < |pictures| then Some(TextImageOf(pictures[nextPicture])) else None;
      } else {
        nextTextImage := if selectedPicture > 0 then Some(TextImageOf(pictures[selectedPicture - 1])) else None;
      }
      animator := Sliding(forward);
    }

    /** `nextPicture`: ignored on the last picture, otherwise a forward `showPicture`. */
    method NextPicture() returns (deferred: bool)
      requires Valid()
      modifies this`next, this`nextTextImage, this`animator
      ensures Valid()
      ensures deferred == (old(selectedPicture) < |old(pictures)| - 1 && old(animator) == Idle && old(pictureIsShowing))
      ensures old(selectedPicture) >= |old(pictures)| - 1 || old(animator) != Idle || deferred ==>
        State() == old(State()) && next == old(next) && animator == old(animator)
      ensures old(selectedPicture) < |old(pictures)| - 1 && old(animator) == Idle && !old(pictureIsShowing) ==>
        && State() == old(State()).(nextTextImage := SlideCaption(old(State()), true))
        && next == true && animator == Sliding(true)
    {
      deferred := false;
      if selectedPicture < |pictures| - 1 {
        deferred := ShowPicture(true);
      }
    }

    /** `previousPicture`: ignored on the first picture, otherwise a backward `showPicture`. */
    method PreviousPicture() returns (deferred: bool)
      requires Valid()
      modifies this`next, this`nextTextImage, this`animator
      ensures Valid()
      ensures deferred == (old(selectedPicture) > 0 && old(animator) == Idle && old(pictureIsShowing))
      ensures old(selectedPicture) <= 0 || old(animator) != Idle || deferred ==>
        State() == old(State()) && next == old(next) && animator == old(animator)
      ensures old(selectedPicture) > 0 && old(animator) == Idle && !old(pictureIsShowing) ==>
        && State() == old(State()).(nextTextImage := SlideCaption(old(State()), false))
        && next == false && animator == Sliding(false)
    {
      deferred := false;
      if selectedPicture > 0 {
        deferred := ShowPicture(false);
      }
    }

    /** `selectNextPicture`: the slot shift at the end of a forward slide. */
    method SelectNextPicture()
      requires Valid() && animator == Idle && selectedPicture < |pictures| - 1
      modifies this`selectedPicture, this`nextPicture, this`disposeQuadsQueue, this`initQuadsQueue,
        this`nextId, this`textImage, this`nextTextImage, renderables
      ensures Valid() && State() == NextSelected(old(State()))
    {
      ghost var v := State();
      NextSelectedKeepsWindow(v);
      ShiftForward();
      if nextPicture < |pictures| - 1 {
        QueueQuad(RIGHT, nextPicture + 1);
      } else {
        renderables[RIGHT] := None;
      }
      assert State() == NextSelected(v);
    }

    /** The first half of `selectNextPicture`: everything up to filling the right slot. */
    method ShiftForward()
      requires renderables.Length == 4 && 0 <= selectedPicture + 1 < |pictures| && nextPicture >= -1
      requires renderables[SELECTED].Some?
      modifies this`selectedPicture, this`nextPicture, this`disposeQuadsQueue, this`textImage, this`nextTextImage, renderables
      ensures State() == NextShifted(old(State())).(slots := SlotsWith(NextShifted(old(State())).slots, RIGHT, old(renderables[RIGHT])))
    {
      selectedPicture := selectedPicture + 1;
      nextPicture := nextPicture + 1;
      if renderables[LEFT].Some? {
        disposeQuadsQueue := disposeQuadsQueue + [renderables[LEFT].value];
      }
      var quad := renderables[SELECTED];
      renderables[LEFT] := Some(MovedLeft(quad.value));
      renderables[SELECTED] := renderables[NEXT];
      textImage := Some(TextImageOf(pictures[selectedPicture]));
      if nextPicture < |pictures| {
        renderables[NEXT] := renderables[RIGHT];
        nextTextImage := Some(TextImageOf(pictures[nextPicture]));
      } else {
        renderables[NEXT] := None;
      }
    }

    /** `selectPreviousPicture`: the slot shift at the end of a backward slide. */
    method SelectPreviousPicture()
      requires Valid() && animator == Idle && selectedPicture > 0
      modifies this`selectedPicture, this`nextPicture, this`disposeQuadsQueue, this`initQuadsQueue,
        this`nextId, this`textImage, this`nextTextImage, renderables
      ensures Valid() && State() == PreviousSelected(old(State()))
    {
      PreviousSelectedKeepsWindow(State());
      ShiftBackward();
      if selectedPicture > 0 {
        QueueQuad(LEFT, selectedPicture - 1);
      } else {
        renderables[LEFT] := None;
      }
    }

    /** The first half of `selectPreviousPicture`: everything up to filling the left slot. */
    method ShiftBackward()
      requires renderables.Length == 4 && 1 <= selectedPicture < |pictures| && 1 <= nextPicture <= |pictures|
      modifies this`selectedPicture, this`nextPicture, this`disposeQuadsQueue, this`textImage, this`nextTextImage, renderables
      ensures State() == PreviousShifted(old(State())).(slots := SlotsWith(PreviousShifted(old(State())).slots, LEFT, old(renderables[LEFT])))
    {
      selectedPicture := selectedPicture - 1;
      nextPicture := nextPicture - 1;
      if renderables[RIGHT].Some? {
        disposeQuadsQueue := disposeQuadsQueue + [renderables[RIGHT].value];
      }
      var quad := renderables[NEXT];
      if quad.Some? {
        renderables[RIGHT] := Some(quad.value.(pose := RestingPose(RIGHT, quad.value.height)));
      }
      quad := renderables[SELECTED];
      renderables[NEXT] := quad;
      nextTextImage := Some(TextImageOf(pictures[nextPicture]));
      quad := renderables[LEFT];
      renderables[SELECTED] := quad;
      textImage := Some(TextImageOf(pictures[selectedPicture]));
    }

    /**
     * One tick of the slide timer, `elapsed` milliseconds after the slide
     * started; `curvedFactor` is the animation curve's value for this tick.
     * At the end it stops the timer and settles the slide; before that it
     * fades the caption.
     */
    method SlideTick(elapsed: int, curvedFactor: real)
      requires Valid() && animator.Sliding?
      modifies this`selectedPicture, this`nextPicture, this`disposeQuadsQueue, this`initQuadsQueue,
        this`nextId, this`textImage, this`nextTextImage, this`textAlpha, this`animFactor, this`animator,
        this`nextEnabled, this`previousEnabled, renderables
      ensures Valid()
      ensures elapsed >= SLIDE_DELAY ==>
        && State() == (if old(animator).forward then NextSelected(old(State())) else PreviousSelected(old(State())))
        && animator == Idle && animFactor == 0.0 && textAlpha == old(textAlpha)
        && nextEnabled == (selectedPicture < |pictures| - 1)
        && previousEnabled == (selectedPicture > 0 && |pictures| > 1)
      ensures elapsed < SLIDE_DELAY ==>
        && State() == old(State()).(textImage := if RawTextAlpha(elapsed) < 0.1 then old(nextTextImage) else old(textImage))
        && animator == old(animator) && animFactor == curvedFactor && textAlpha == TextAlpha(elapsed)
        && nextEnabled == old(nextEnabled) && previousEnabled == old(previousEnabled)
    {
      if elapsed >= SLIDE_DELAY {
        ghost var v := State();
        var forward := animator.forward;
        animator := Idle;
        assert State() == v;
        EndSlide(forward);
      } else {
        ghost var v := State();
        animFactor := curvedFactor;
        SetTextAlpha(elapsed);
        assert State() == v.(textImage := textImage);
        CaptionKeepsConsistent(v, textImage, animator);
      }
    }

    /**
     * The last tick of a slide: the timer stops, the slots shift once in the
     * slide's direction, and the next and previous actions follow the new
     * selection.
     */
    method EndSlide(forward: bool)
      requires Valid() && animator == Idle
      requires forward ==> selectedPicture < |pictures| - 1
      requires !forward ==> selectedPicture > 0
      modifies this`selectedPicture, this`nextPicture, this`disposeQuadsQueue, this`initQuadsQueue,
        this`nextId, this`textImage, this`nextTextImage, this`animFactor,
        this`nextEnabled, this`previousEnabled, renderables
      ensures Valid()
      ensures State() == if forward then NextSelected(old(State())) else PreviousSelected(old(State()))
      ensures animFactor == 0.0
      ensures nextEnabled == (selectedPicture < |pictures| - 1)
      ensures previousEnabled == (selectedPicture > 0 && |pictures| > 1)
    {
      if forward {
        SelectNextPicture();
      } else {
        SelectPreviousPicture();
      }
      SettleActions();
    }

    /** The end of the last slide tick: the next and previous actions follow the new selection, and the slide factor resets. */
    method SettleActions()
      modifies this`nextEnabled, this`previousEnabled, this`animFactor
      ensures nextEnabled == (selectedPicture < |pictures| - 1)
      ensures previousEnabled == (selectedPicture > 0 && |pictures| > 1)
      ensures animFactor == 0.0
    {
      nextEnabled := selectedPicture < |pictures| - 1;
      previousEnabled := selectedPicture > 0 && |pictures| > 1;
      animFactor := 0.0;
    }

    /** `setTextAlpha`: fades the caption out and in, swapping in the next caption at the bottom of the fade. */
    method SetTextAlpha(elapsed: int)
      modifies this`textAlpha, this`textImage
      ensures textAlpha == TextAlpha(elapsed)
      ensures textImage == if RawTextAlpha(elapsed) < 0.1 then old(nextTextImage) else old(textImage)
    {
      var factor := elapsed as real / SLIDE_DELAY as real;
      if (elapsed as real) < (SLIDE_DELAY as real) / 2.0 {
        textAlpha := 1.0 - 2.0 * factor;
      } else {
        textAlpha := (factor - 0.5) * 2.0;
        if textAlpha > 1.0 {
          textAlpha := 1.0;
        }
      }
      if textAlpha < 0.1 {
        textAlpha := 0.1;
        textImage := nextTextImage;
      }
    }

    /** One tick of the zoom timer: it stops once the zoom has run its course. */
    method ZoomTick(elapsed: int)
      requires Valid() && animator == Zooming
      modifies this`animator
      ensures Valid() && State() == old(State())
      ensures animator == if elapsed >= ZOOM_DELAY then Idle else Zooming
    {
      if elapsed >= ZOOM_DELAY {
        animator := Idle;
      }
    }

    /** `initAndDisposeQuads`: the render thread drains the init queue, then the dispose queue. */
    method InitAndDisposeQuads()
      requires Valid()
      modifies this`initQuadsQueue, this`disposeQuadsQueue, this`glLog
      ensures Valid()
      ensures State() == Drained(old(State()))
    {
      ghost var target := Drained(State());
      DrainedKeepsWindow(State());
      assert Consistent(target, animator);
      InitQueued();
      DisposeQueued();
      assert State() == target;
    }

    /** The first loop of `initAndDisposeQuads`: every queued quad is initialised, oldest first. */
    method InitQueued()
      modifies this`initQuadsQueue, this`glLog
      ensures initQuadsQueue == [] && glLog == old(glLog) + InitCalls(old(initQuadsQueue))
    {
      ghost var inits := initQuadsQueue;
      ghost var done := 0;
      while initQuadsQueue != []
        invariant 0 <= done <= |inits| && initQuadsQueue == inits[done..]
        invariant glLog == old(glLog) + InitCalls(inits[..done])
        decreases |initQuadsQueue|
      {
        var quad := initQuadsQueue[0];
        initQuadsQueue := initQuadsQueue[1..];
        assert inits[..done + 1] == inits[..done] + [quad];
        glLog := glLog + [Init(quad.id)];
        done := done + 1;
      }
      assert inits[..done] == inits;
    }

    /** The second loop of `initAndDisposeQuads`: every quad queued for disposal is disposed, oldest first. */
    method DisposeQueued()
      modifies this`disposeQuadsQueue, this`glLog
      ensures disposeQuadsQueue == [] && glLog == old(glLog) + DisposeCalls(old(disposeQuadsQueue))
    {
      ghost var disposals := disposeQuadsQueue;
      ghost var done := 0;
      while disposeQuadsQueue != []
        invariant 0 <= done <= |disposals| && disposeQuadsQueue == disposals[done..]
        invariant glLog == old(glLog) + DisposeCalls(disposals[..done])
        decreases |disposeQuadsQueue|
      {
        var quad := disposeQuadsQueue[0];
        disposeQuadsQueue := disposeQuadsQueue[1..];
        assert disposals[..done + 1] == disposals[..done] + [quad];
        glLog := glLog + [Dispose(quad.id)];
        done := done + 1;
      }
      assert disposals[..done] == disposals;
    }
  }
}
