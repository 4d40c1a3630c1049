/** The integer arithmetic around a captured eye window: which window is
    hooked, how the window border is measured, which part of the bitmap is
    kept, and how far the kept picture is shrunk. The pixels themselves are
    not modelled; only their dimensions are. */
module WindowGeometry {

  /** Title of the window that shows one eye's picture: the first eye's
      window unless the index is positive. */
  function EyeWindowName(index: int): (name: string)
    ensures name == "draw Image2" <==> index > 0
    ensures name == "draw Image1" <==> index <= 0
  {
    if index > 0 then "draw Image2" else "draw Image1"
  }

  /** A screen rectangle as the window manager reports it. */
  datatype Rect = Rect(left: int, top: int, right: int, bottom: int)
  {
    /** The rectangle lies within `outer` and is not inverted. */
    predicate Within(outer: Rect) {
      outer.left <= left <= right <= outer.right &&
      outer.top <= top <= bottom <= outer.bottom
    }
  }

  /** Offsets of the client area's edges from the window's edges. */
  datatype Borders = Borders(left: int, top: int, right: int, bottom: int)

  /** The borders measured when a window is hooked: each client edge minus
      the matching window edge. For a client area inside its window the
      left and top borders are never negative and the right and bottom
      borders never positive, and adding the borders back to the window
      edges gives the client area. */
  function BordersOf(client: Rect, window: Rect): (b: Borders)
    ensures client.Within(window) ==> b.left >= 0 && b.top >= 0 && b.right <= 0 && b.bottom <= 0
    ensures Rect(window.left + b.left, window.top + b.top, window.right + b.right, window.bottom + b.bottom) == client
  {
    Borders(client.left - window.left, client.top - window.top,
            client.right - window.right, client.bottom - window.bottom)
  }

  /** Where a Python slice bound `i` lands on an axis of length `n`: a
      negative bound counts from the end, and the result is clamped to the
      axis. */
  function SliceBound(i: int, n: nat): (b: nat)
    ensures b <= n
    ensures 0 <= i <= n ==> b == i
    ensures i < 0 <= i + n ==> b == i + n
    ensures i + n < 0 ==> b == 0
    ensures n < i ==> b == n
  {
    if i < 0 then (if i + n < 0 then 0 else i + n)
    else if i > n then n
    else i
  }

  /** Number of elements of an axis of length `n` that the slice
      `start:stop` keeps. */
  function SliceLength(n: nat, start: int, stop: int): (len: nat)
    ensures len <= n
    ensures len == 0 <==> SliceBound(stop, n) <= SliceBound(start, n)
    ensures 0 <= start <= stop <= n ==> len == stop - start
  {
    var lo, hi := SliceBound(start, n), SliceBound(stop, n);
    if lo < hi then hi - lo else 0
  }

  /** Height and width of the bitmap crop `[1 + top, height + bottom)` by
      `[1 + left, width + right)`, which get_image applies to the captured
      window bitmap. The crop is never larger than the bitmap. */
  function CroppedSize(height: nat, width: nat, b: Borders): (size: (nat, nat))
    ensures size.0 <= height && size.1 <= width
  {
    (SliceLength(height, 1 + b.top, height + b.bottom),
     SliceLength(width, 1 + b.left, width + b.right))
  }

  /** Percentage of each linear dimension kept when a frame is shrunk. */
  const ScalePercent: nat := 75

  /** A shrunk dimension: the floor of 75% of `d`. It never exceeds `d`,
      and it is strictly smaller than any positive `d`. */
  function Scaled(d: nat): (r: nat)
    ensures r * 100 <= d * ScalePercent < r * 100 + 100
    ensures r <= d
    ensures d > 0 ==> r < d
  {
    d * ScalePercent / 100
  }

  /** Height and width of the picture that is queued for a window bitmap
      of the given size: the crop, then shrunk. */
  function FrameSize(height: nat, width: nat, b: Borders): (size: (nat, nat))
    ensures size.0 <= height && size.1 <= width
  {
    var cropped := CroppedSize(height, width, b);
    (Scaled(cropped.0), Scaled(cropped.1))
  }

  /** Length of an interval, zero when it is empty. */
  function Extent(lo: int, hi: int): nat {
    if lo < hi then hi - lo else 0
  }

  /** For a bitmap of the whole window, the crop keeps the client area
      except its first row and its first column: one pixel less than the
      client area in each dimension. */
  lemma CropOfHookedWindow(client: Rect, window: Rect)
    requires client.Within(window)
    ensures CroppedSize(window.bottom - window.top, window.right - window.left, BordersOf(client, window))
         == (Extent(client.top + 1, client.bottom), Extent(client.left + 1, client.right))
  {
  }
}
