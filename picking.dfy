/**
 * The first stage of the click handler: the pointer position in normalized
 * device coordinates, where x runs from -1 (left) to 1 (right) and y from
 * -1 (bottom) to 1 (top).
 */
module Picking {

  /** The renderer canvas's bounding rectangle. */
  datatype Rect = Rect(left: real, top: real, width: real, height: real)

  predicate HasArea(rect: Rect) { rect.width > 0.0 && rect.height > 0.0 }

  datatype Ndc = Ndc(x: real, y: real)

  /**
   * The click handler's mapping. It divides the event's client coordinates
   * by the rectangle's size without subtracting its left and top, so it
   * measures from the corner of the window, not of the canvas.
   */
  function ToNdc(clientX: real, clientY: real, rect: Rect): (n: Ndc)
    requires HasArea(rect)
    ensures (0.0 <= clientX <= rect.width) <==> (-1.0 <= n.x <= 1.0)
    ensures (0.0 <= clientY <= rect.height) <==> (-1.0 <= n.y <= 1.0)
  {
    var n := Ndc((clientX / rect.width) * 2.0 - 1.0, -(clientY / rect.height) * 2.0 + 1.0);
    ScaleBounds(clientX, rect.width);
    ScaleBounds(clientY, rect.height);
    n
  }

  /** `v / w * 2 - 1` is within [-1, 1] exactly when v is within [0, w]. */
  lemma ScaleBounds(v: real, w: real)
    requires w > 0.0
    ensures (0.0 <= v <= w) <==> (-1.0 <= (v / w) * 2.0 - 1.0 <= 1.0)
    ensures (0.0 <= v <= w) <==> (-1.0 <= -(v / w) * 2.0 + 1.0 <= 1.0)
  {
    var q := v / w;
    assert v == q * w;
    if 0.0 <= v <= w {
      assert 0.0 <= q <= 1.0;
    }
    if 0.0 <= q <= 1.0 {
      assert 0.0 <= q * w <= w;
    }
  }

  /** The client position a point of normalized device coordinates comes from. */
  function FromNdc(n: Ndc, rect: Rect): (c: (real, real))
  {
    ((n.x + 1.0) / 2.0 * rect.width, (1.0 - n.y) / 2.0 * rect.height)
  }

  /** Division by a non-zero length and multiplication by it cancel. */
  lemma Cancel(a: real, w: real)
    requires w != 0.0
    ensures (a / w) * w == a
    ensures (a * w) / w == a
  {
  }

  lemma FromToNdc(clientX: real, clientY: real, rect: Rect)
    requires HasArea(rect)
    ensures FromNdc(ToNdc(clientX, clientY, rect), rect) == (clientX, clientY)
  {
    var n := ToNdc(clientX, clientY, rect);
    var u, v := clientX / rect.width, clientY / rect.height;
    assert (n.x + 1.0) / 2.0 == u && (1.0 - n.y) / 2.0 == v;
    Cancel(clientX, rect.width);
    Cancel(clientY, rect.height);
    assert FromNdc(n, rect).0 == clientX;
    assert FromNdc(n, rect).1 == clientY;
  }

  lemma ToFromNdc(n: Ndc, rect: Rect)
    requires HasArea(rect)
    ensures var c := FromNdc(n, rect); ToNdc(c.0, c.1, rect) == n
  {
    var u, v := (n.x + 1.0) / 2.0, (1.0 - n.y) / 2.0;
    Cancel(u, rect.width);
    Cancel(v, rect.height);
    var c := FromNdc(n, rect);
    assert c.0 / rect.width == u && c.1 / rect.height == v;
  }

  /** The corners: (0, 0) is the top left, (width, height) the bottom right. */
  lemma NdcCorners(rect: Rect)
    requires HasArea(rect)
    ensures ToNdc(0.0, 0.0, rect) == Ndc(-1.0, 1.0)
    ensures ToNdc(rect.width, rect.height, rect) == Ndc(1.0, -1.0)
  {
    Cancel(1.0, rect.width);
    Cancel(1.0, rect.height);
  }

  /** Moving right raises x; moving down lowers y. */
  lemma NdcOrientation(x1: real, y1: real, x2: real, y2: real, rect: Rect)
    requires HasArea(rect)
    ensures x1 < x2 <==> ToNdc(x1, y1, rect).x < ToNdc(x2, y2, rect).x
    ensures y1 < y2 <==> ToNdc(x1, y1, rect).y > ToNdc(x2, y2, rect).y
  {
    assert x1 / rect.width < x2 / rect.width <==> x1 < x2 by {
      assert x1 == (x1 / rect.width) * rect.width;
      assert x2 == (x2 / rect.width) * rect.width;
    }
    assert y1 / rect.height < y2 / rect.height <==> y1 < y2 by {
      assert y1 == (y1 / rect.height) * rect.height;
      assert y2 == (y2 / rect.height) * rect.height;
    }
  }

  /** The mapping measured from the canvas's own corner. */
  function ElementNdc(clientX: real, clientY: real, rect: Rect): (n: Ndc)
    requires HasArea(rect)
    ensures (rect.left <= clientX <= rect.left + rect.width) <==> (-1.0 <= n.x <= 1.0)
    ensures (rect.top <= clientY <= rect.top + rect.height) <==> (-1.0 <= n.y <= 1.0)
  {
    ToNdc(clientX - rect.left, clientY - rect.top, rect)
  }

  /**
   * The click handler agrees with the canvas-relative mapping for every
   * pointer position exactly when the canvas sits at the window's corner.
   */
  lemma ViewportRelative(rect: Rect)
    requires HasArea(rect)
    ensures (forall cx: real, cy: real :: ToNdc(cx, cy, rect) == ElementNdc(cx, cy, rect))
        <==> (rect.left == 0.0 && rect.top == 0.0)
  {
    if forall cx: real, cy: real :: ToNdc(cx, cy, rect) == ElementNdc(cx, cy, rect) {
      OffsetShifts(rect);
    }
  }

  /** At the window's corner the two mappings differ whenever the canvas is offset. */
  lemma OffsetShifts(rect: Rect)
    requires HasArea(rect)
    requires ToNdc(0.0, 0.0, rect) == ElementNdc(0.0, 0.0, rect)
    ensures rect.left == 0.0 && rect.top == 0.0
  {
    var w, h := rect.width, rect.height;
    assert ElementNdc(0.0, 0.0, rect) == ToNdc(-rect.left, -rect.top, rect);
    assert (-rect.left / w) * 2.0 - 1.0 == -1.0;
    assert -(-rect.top / h) * 2.0 + 1.0 == 1.0;
    assert -rect.left / w == 0.0 && -rect.top / h == 0.0;
    assert -rect.left == (-rect.left / w) * w;
    assert -rect.top == (-rect.top / h) * h;
  }
}
