/**
 * A billboard (`org.progx.jogl.rendering.Billboard`): a renderable that
 * wraps another one, forwards position and scale to it, and has no rotation
 * of its own.
 */
module Rendering {
  import opened Geometry

  /**
   * The wrapped renderable's transform state.  Its own setters are taken to
   * store their argument.
   */
  class Renderable {
    var position: Vec3
    var scale: Vec3
    var rotation: Rot3

    constructor (position: Vec3, scale: Vec3, rotation: Rot3)
      ensures this.position == position && this.scale == scale && this.rotation == rotation
    {
      this.position := position;
      this.scale := scale;
      this.rotation := rotation;
    }

    method SetPosition(p: Vec3)
      modifies this`position
      ensures position == p
    {
      position := p;
    }

    method SetScale(s: Vec3)
      modifies this`scale
      ensures scale == s
    {
      scale := s;
    }
  }

  class Billboard {
    var item: Renderable?

    /** Stores the item first, then resets it to the origin, to unit scale, and (a no-op) to no rotation. */
    constructor (item: Renderable?)
      modifies item
      ensures this.item == item
      ensures item != null ==>
                item.position == Origin && item.scale == UnitScale && item.rotation == old(item.rotation)
    {
      this.item := item;
      new;
      SetPositionXYZ(0.0, 0.0, 0.0);
      SetScaleXYZ(1.0, 1.0, 1.0);
      SetRotationXYZ(0, 0, 0);
    }

    method GetItem() returns (r: Renderable?)
      ensures r == item
    {
      r := item;
    }

    /** Replaces the wrapped item; later setters reach only the new one, since they modify `item` alone. */
    method SetItem(item: Renderable?)
      modifies this`item
      ensures this.item == item
    {
      this.item := item;
    }

    /** The wrapped item's position; there is no null guard, so an item must be present. */
    method GetPosition() returns (p: Vec3)
      requires item != null
      ensures p == item.position
    {
      p := item.position;
    }

    /** Forwards a `Point3f` position to the item; does nothing without one. */
    method SetPosition(position: Vec3)
      modifies item
      ensures item == old(item)
      ensures item != null ==>
                item.position == position && item.scale == old(item.scale) && item.rotation == old(item.rotation)
    {
      if item == null {
        return;
      }
      item.SetPosition(position);
    }

    /** Forwards an (x, y, z) position to the item; does nothing without one. */
    method SetPositionXYZ(x: real, y: real, z: real)
      modifies item
      ensures item == old(item)
      ensures item != null ==>
                item.position == Vec3(x, y, z) && item.scale == old(item.scale) && item.rotation == old(item.rotation)
    {
      if item == null {
        return;
      }
      item.SetPosition(Vec3(x, y, z));
    }

    /** A billboard always faces the camera: its reported rotation is zero whatever was set. */
    method GetRotation() returns (r: Rot3)
      ensures r == NoRotation
    {
      r := Rot3(0, 0, 0);
    }

    /** The wrapped item's scale; there is no null guard, so an item must be present. */
    method GetScale() returns (s: Vec3)
      requires item != null
      ensures s == item.scale
    {
      s := item.scale;
    }

    /** Ignored: neither the billboard nor its item changes. */
    method SetRotationXYZ(x: int, y: int, z: int)
      ensures item == old(item)
      ensures item != null ==>
                item.position == old(item.position) && item.scale == old(item.scale) && item.rotation == old(item.rotation)
    {
    }

    /** Ignored, like the other rotation setters. */
    method SetRotationArray(coordinates: seq<int>)
      ensures item == old(item)
      ensures item != null ==>
                item.position == old(item.position) && item.scale == old(item.scale) && item.rotation == old(item.rotation)
    {
    }

    /** Ignored, like the other rotation setters. */
    method SetRotation(rot: Rot3)
      ensures item == old(item)
      ensures item != null ==>
                item.position == old(item.position) && item.scale == old(item.scale) && item.rotation == old(item.rotation)
    {
    }

    /** Forwards an (x, y, z) scale to the item; does nothing without one. */
    method SetScaleXYZ(x: real, y: real, z: real)
      modifies item
      ensures item == old(item)
      ensures item != null ==>
                item.scale == Vec3(x, y, z) && item.position == old(item.position) && item.rotation == old(item.rotation)
    {
      if item == null {
        return;
      }
      item.SetScale(Vec3(x, y, z));
    }

    /** Forwards a `Point3f` scale to the item; does nothing without one. */
    method SetScale(scale: Vec3)
      modifies item
      ensures item == old(item)
      ensures item != null ==>
                item.scale == scale && item.position == old(item.position) && item.rotation == old(item.rotation)
    {
      if item == null {
        return;
      }
      item.SetScale(scale);
    }
  }
}
