/**
 * A cursor: a temporary marker in time placed on captured data. It has a
 * fixed index, and an optional time stamp, label and colour that its
 * mutators set and clear.
 */
module Cursors {
  import opened Options

  /** The number of cursors; every cursor index lies below it. */
  const MAX_CURSORS: int := 10

  /** An AWT colour, reduced to its RGB value. */
  datatype Color = Color(rgb: int)

  class Cursor {
    const index: int
    /** The time stamp, or None while the cursor is undefined. */
    var timestamp: Option<int>
    /** The raw label, or None when no label is set. */
    var caption: Option<string>
    /** The colour, or None for the user interface's default colour. */
    var color: Option<Color>

    /** The index is a cursor number, and a defined time stamp is never negative. */
    ghost predicate Valid()
      reads this
    {
      && 0 <= index < MAX_CURSORS
      && (timestamp.Some? ==> timestamp.value >= 0)
    }

    /** A new cursor is undefined and has neither label nor colour. */
    constructor (index: int)
      requires 0 <= index < MAX_CURSORS
      ensures Valid() && this.index == index
      ensures timestamp == None && caption == None && color == None
    {
      this.index := index;
      timestamp := None;
      caption := None;
      color := None;
    }

    /** clear(): makes the cursor undefined; its label and colour stay. */
    method Clear()
      requires Valid()
      modifies this
      ensures Valid() && !IsDefined()
      ensures caption == old(caption) && color == old(color)
    {
      timestamp := None;
    }

    /** setTimestamp(t): the cursor becomes defined at t. */
    method SetTimestamp(t: int)
      requires Valid() && t >= 0
      modifies this
      ensures Valid() && IsDefined() && GetTimestamp() == t
      ensures caption == old(caption) && color == old(color)
    {
      timestamp := Some(t);
    }

    /** setLabel(l): `None` stands for Java's null, which removes the label. */
    method SetLabel(l: Option<string>)
      requires Valid()
      modifies this
      ensures Valid() && GetLabel() == l
      ensures HasLabel() <==> l.Some?
      ensures timestamp == old(timestamp) && color == old(color)
    {
      caption := l;
    }

    /** setColor(c): `None` stands for Java's null, the default colour. */
    method SetColor(c: Option<Color>)
      requires Valid()
      modifies this
      ensures Valid() && GetColor() == c
      ensures timestamp == old(timestamp) && caption == old(caption)
    {
      color := c;
    }

    function GetIndex(): (r: int)
      requires Valid()
      reads this
      ensures 0 <= r < MAX_CURSORS
    {
      index
    }

    predicate IsDefined()
      reads this
    {
      timestamp.Some?
    }

    /** getTimestamp(): only legal on a defined cursor; Java throws otherwise. */
    function GetTimestamp(): (t: int)
      requires Valid() && IsDefined()
      reads this
      ensures t >= 0
    {
      timestamp.value
    }

    function GetLabel(): (r: Option<string>)
      reads this
      ensures r.Some? <==> HasLabel()
    {
      caption
    }

    predicate HasLabel()
      reads this
    {
      caption.Some?
    }

    function GetColor(): Option<Color>
      reads this
    {
      color
    }

    /** inArea(t, delta): the cursor is defined and its time stamp lies within delta of t. */
    function InArea(t: int, delta: real): (r: bool)
      requires delta >= 0.0
      reads this
      ensures r <==> IsDefined() && Distance(timestamp.value, t) as real <= delta
    {
      WithinDeltaIsDistance(if timestamp.Some? then timestamp.value else 0, t, delta);
      && timestamp.Some?
      && WithinDelta(timestamp.value, t, delta)
    }

    /** clone(): a new cursor equal to this one in every field. */
    method Clone() returns (c: Cursor)
      requires Valid()
      ensures fresh(c) && c.Valid()
      ensures c.GetIndex() == GetIndex() && c.timestamp == timestamp
      ensures c.GetLabel() == GetLabel() && c.GetColor() == GetColor()
    {
      c := new Cursor(index);
      c.timestamp := timestamp;
      c.caption := caption;
      c.color := color;
    }
  }

  /** Whether time stamp ts lies within delta of t, measured on the real line. */
  predicate WithinDelta(ts: int, t: int, delta: real)
  {
    t as real - delta <= ts as real <= t as real + delta
  }

  /** The distance between two time stamps. */
  function Distance(a: int, b: int): (d: nat)
    ensures d == 0 <==> a == b
  {
    if a >= b then a - b else b - a
  }

  /** Being within delta is a bound on the distance between the two time stamps. */
  lemma WithinDeltaIsDistance(ts: int, t: int, delta: real)
    ensures WithinDelta(ts, t, delta) <==> Distance(ts, t) as real <= delta
  {
  }

  /** A larger delta covers at least as many time stamps. */
  lemma WithinDeltaWidens(ts: int, t: int, delta: real, wider: real)
    requires delta <= wider
    ensures WithinDelta(ts, t, delta) ==> WithinDelta(ts, t, wider)
  {
  }
}
