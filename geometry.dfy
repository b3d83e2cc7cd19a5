/** Integer rectangle arithmetic of XNA's `Rectangle` and the rectangles
    `CreateHull` carves out of two docked ports. Coordinates are the game's
    world coordinates, in which Y grows upward: a rectangle's (x, y) is its
    top-left corner and it covers x .. x + width horizontally and
    y - height .. y vertically. */
module Geometry {
  import opened Numerics

  datatype Point = Point(x: int, y: int)

  datatype Rect = Rect(x: int, y: int, width: int, height: int) {

    /** XNA's `Rectangle.Center`: `(X + Width / 2, Y + Height / 2)` with C#
        integer division. */
    function Center(): Point {
      Point(x + CsDiv(width, 2), y + CsDiv(height, 2))
    }

    /** XNA's `Rectangle.Right`. */
    function Right(): int {
      x + width
    }

    /** `rect.Location -= d`. */
    function MovedBack(d: Point): (r: Rect)
      ensures r.width == width && r.height == height
      ensures r.x + d.x == x && r.y + d.y == y
    {
      Rect(x - d.x, y - d.y, width, height)
    }

    /** Adding a submarine's offset back: the world rectangle of a hull
        whose rectangle is stored relative to its submarine. */
    function MovedBy(d: Point): (r: Rect)
      ensures r.width == width && r.height == height
      ensures r.MovedBack(d) == this
    {
      Rect(x + d.x, y + d.y, width, height)
    }
  }

  /** `Submarine.RectContains(rect, pos)`: `pos` lies strictly inside `rect`
      (Y-up convention). */
  predicate RectContains(r: Rect, p: Point) {
    r.x < p.x < r.x + r.width && r.y - r.height < p.y < r.y
  }

  /** Containment does not depend on the frame: moving the rectangle and
      the point by the same offset keeps the answer. A rectangle and a
      position both relative to one submarine are tested as their world
      counterparts would be. */
  lemma RectContainsMoved(r: Rect, p: Point, d: Point)
    ensures RectContains(r.MovedBy(d), Point(p.x + d.x, p.y + d.y)) <==> RectContains(r, p)
  {
  }

  /** The two hull rectangles (in world coordinates) that `CreateHull`
      derives from the two port rectangles, before they are made relative to
      their submarines. `swapped` says the target port's rectangle came
      first. */
  datatype HullLayout = HullLayout(swapped: bool, hull0: Rect, hull1: Rect)

  /** The port rectangle the layout puts first, and the one it puts second. */
  function First(own: Rect, target: Rect, l: HullLayout): Rect {
    if l.swapped then target else own
  }

  function Second(own: Rect, target: Rect, l: HullLayout): Rect {
    if l.swapped then own else target
  }

  /** Horizontal docking: the rectangles are ordered by the x of their
      centres, and each hull spans half the docked distance from its port's
      centre toward the other port, at the port's full height. Vertical
      docking: ordered by the y of their centres; the first hull rises half
      the docked distance from the middle of its port, the second one hangs
      half the docked distance below the middle of its port, each at its
      port's full width. */
  function HullLayoutOf(horizontal: bool, own: Rect, target: Rect, dockedDistance: int): (l: HullLayout)
    ensures horizontal ==> l.swapped == (own.Center().x > target.Center().x)
    ensures !horizontal ==> l.swapped == (own.Center().y > target.Center().y)
    ensures horizontal ==> First(own, target, l).Center().x <= Second(own, target, l).Center().x
    ensures !horizontal ==> First(own, target, l).Center().y <= Second(own, target, l).Center().y
    ensures horizontal ==>
      && l.hull0.width == l.hull1.width == CsDiv(dockedDistance, 2)
      && l.hull0.x == First(own, target, l).Center().x
      && l.hull1.Right() == Second(own, target, l).Center().x
      && l.hull0.y == First(own, target, l).y && l.hull0.height == First(own, target, l).height
      && l.hull1.y == Second(own, target, l).y && l.hull1.height == Second(own, target, l).height
    ensures !horizontal ==>
      && l.hull0.height == l.hull1.height == CsDiv(dockedDistance, 2)
      && l.hull0.x == First(own, target, l).x && l.hull0.width == First(own, target, l).width
      && l.hull1.x == Second(own, target, l).x && l.hull1.width == Second(own, target, l).width
      && l.hull0.y == First(own, target, l).y + CsDiv(dockedDistance - First(own, target, l).height, 2)
      && l.hull1.y == Second(own, target, l).y - CsDiv(Second(own, target, l).height, 2)
  {
    var half := CsDiv(dockedDistance, 2);
    if horizontal then
      var swapped := own.Center().x > target.Center().x;
      var r0 := if swapped then target else own;
      var r1 := if swapped then own else target;
      HullLayout(swapped,
        Rect(r0.Center().x, r0.y, half, r0.height),
        Rect(r1.Center().x - half, r1.y, half, r1.height))
    else
      var swapped := own.Center().y > target.Center().y;
      var r0 := if swapped then target else own;
      var r1 := if swapped then own else target;
      HullLayout(swapped,
        Rect(r0.x, r0.y + CsDiv(-r0.height + dockedDistance, 2), r0.width, half),
        Rect(r1.x, r1.y - CsDiv(r1.height, 2), r1.width, half))
  }

  /** The gap between the two hulls, given the first hull's rectangle: a
      strip 4 units across straddling the first hull's right edge (horizontal)
      or its top edge (vertical). */
  function GapRect(horizontal: bool, hull0: Rect): (g: Rect)
    ensures horizontal ==> g.x + 2 == hull0.Right() && g.width == 4 && g.y == hull0.y && g.height == hull0.height
    ensures !horizontal ==> g.y - 2 == hull0.y && g.height == 4 && g.x == hull0.x && g.width == hull0.width
  {
    if horizontal then Rect(hull0.Right() - 2, hull0.y, 4, hull0.height)
    else Rect(hull0.x, hull0.y + 2, hull0.width, 4)
  }

  /** Which side starts the docking does not matter: unless the two centres
      coincide along the docking axis, swapping the ports yields the same two
      hull rectangles. */
  lemma LayoutIndependentOfInitiator(horizontal: bool, a: Rect, b: Rect, dockedDistance: int)
    requires horizontal ==> a.Center().x != b.Center().x
    requires !horizontal ==> a.Center().y != b.Center().y
    ensures var l := HullLayoutOf(horizontal, a, b, dockedDistance);
      var m := HullLayoutOf(horizontal, b, a, dockedDistance);
      l.hull0 == m.hull0 && l.hull1 == m.hull1 && l.swapped != m.swapped
  {
    var l := HullLayoutOf(horizontal, a, b, dockedDistance);
    var m := HullLayoutOf(horizontal, b, a, dockedDistance);
    assert First(a, b, l) == First(b, a, m) && Second(a, b, l) == Second(b, a, m);
  }

  /** Horizontal docking at exactly the docked distance (an even one): the
      two hulls meet at the seam halfway between the port centres, and the
      gap is centred on that seam. */
  lemma HorizontalHullsMeetAtSeam(own: Rect, target: Rect, dockedDistance: nat)
    requires dockedDistance % 2 == 0
    requires Abs(own.Center().x - target.Center().x) == dockedDistance
    ensures var l := HullLayoutOf(true, own, target, dockedDistance);
      && l.hull0.Right() == l.hull1.x
      && l.hull0.x + dockedDistance / 2 == l.hull1.x
      && GapRect(true, l.hull0).x + 2 == l.hull1.x
  {
  }

  /** Vertical docking at exactly the docked distance, with even heights and
      an even distance: the first hull's bottom edge is the middle of its
      port, the second hull's top edge the middle of its port, and the two
      hulls meet at the seam, on which the gap is centred. */
  lemma VerticalHullsMeetAtSeam(own: Rect, target: Rect, dockedDistance: nat)
    requires dockedDistance % 2 == 0 && own.height % 2 == 0 && target.height % 2 == 0
    requires own.height >= 0 && target.height >= 0
    requires var l := HullLayoutOf(false, own, target, dockedDistance);
      var r0 := First(own, target, l);
      var r1 := Second(own, target, l);
      (r1.y - r1.height / 2) - (r0.y - r0.height / 2) == dockedDistance
    ensures var l := HullLayoutOf(false, own, target, dockedDistance);
      var r0 := First(own, target, l);
      var r1 := Second(own, target, l);
      && l.hull0.y - l.hull0.height == r0.y - r0.height / 2
      && l.hull1.y == r1.y - r1.height / 2
      && l.hull0.y == l.hull1.y - l.hull1.height
      && GapRect(false, l.hull0).y - 2 == l.hull0.y
  {
  }

  /** Vertical docking with a first port taller than the docked distance
      by an odd amount: the first hull's top edge is the C# half of a
      negative odd number above the port's top, one more than Euclidean
      halving would give. */
  lemma VerticalOddOvershoot(own: Rect, target: Rect, dockedDistance: int)
    requires var r0 := First(own, target, HullLayoutOf(false, own, target, dockedDistance));
      dockedDistance < r0.height && (dockedDistance - r0.height) % 2 == 1
    ensures var l := HullLayoutOf(false, own, target, dockedDistance);
      var r0 := First(own, target, l);
      l.hull0.y == r0.y + (dockedDistance - r0.height) / 2 + 1
  {
    var r0 := First(own, target, HullLayoutOf(false, own, target, dockedDistance));
    CsHalfOfOddNegative(dockedDistance - r0.height);
  }

  /** An instance: a port 33 high docked vertically at distance 32 gets a
      hull whose top edge is the port's own top (C# halves -1 to 0), where
      Euclidean halving would put it one lower. */
  lemma VerticalOddOvershootExample()
    ensures HullLayoutOf(false, Rect(0, 0, 10, 33), Rect(0, 100, 10, 32), 32).hull0.y == 0
    ensures CsDiv(32 - 33, 2) == 0
  {
    VerticalOddOvershoot(Rect(0, 0, 10, 33), Rect(0, 100, 10, 32), 32);
  }
}
