// 4:2:0 images: planar (YUV) and semi-planar (YVU) layouts, and flips. An image has even width 2 * w and even
// height 2 * h: 4 * w * h bytes of luma, then w * h of each chroma component.
module Yuv {

  type Byte = b: int | 0 <= b < 256

  // n rows of width w; also where row n starts.
  function Span(n: nat, w: nat): nat {
    n * w
  }

  lemma {:induction false} SpanNext(n: nat, w: nat)
    ensures Span(n + 1, w) == Span(n, w) + w
  {
  }

  lemma {:induction false} SpanMonotone(n: nat, n': nat, w: nat)
    requires n <= n'
    ensures Span(n, w) <= Span(n', w)
    decreases n'
  {
    if n < n' {
      SpanMonotone(n, n' - 1, w);
      SpanNext(n' - 1, w);
    }
  }

  lemma RowFits(h: nat, w: nat, row: nat)
    requires row < h
    ensures Span(row, w) + w == Span(row + 1, w) <= Span(h, w)
  {
    SpanNext(row, w);
    SpanMonotone(row + 1, h, w);
  }

  // The products the source computes, in terms of half width and half height.
  lemma Halves(w: nat, h: nat)
    ensures (2 * w) * (2 * h) == 4 * Span(h, w)
    ensures (2 * w) * (2 * h) * 5 / 4 == 5 * Span(h, w) && (2 * w) * (2 * h) / 4 == Span(h, w)
    ensures 2 * w / 2 == w && 2 * h / 2 == h
  {
    assert (2 * w) * (2 * h) == 4 * (h * w);
  }

  lemma DoubleRow(r: nat, w: nat)
    ensures r * (2 * w) == 2 * Span(r, w) && r * (2 * w) / 2 == Span(r, w)
  {
    assert r * (2 * w) == 2 * (r * w);
  }

  // ---- the two layouts ----

  // n is the number of chroma samples of each component. In the semi-planar layout they alternate, V first;
  // in the planar layout all of U come before all of V.
  ghost function ToPlanar(s: seq<Byte>, n: nat): (p: seq<Byte>)
    requires |s| == 6 * n
  {
    seq(6 * n, i requires 0 <= i < 6 * n =>
      if i < 4 * n then s[i] else if i < 5 * n then s[4 * n + 2 * (i - 4 * n) + 1] else s[4 * n + 2 * (i - 5 * n)])
  }

  ghost function ToSemi(p: seq<Byte>, n: nat): (s: seq<Byte>)
    requires |p| == 6 * n
  {
    seq(6 * n, i requires 0 <= i < 6 * n =>
      if i < 4 * n then p[i]
      else if (i - 4 * n) % 2 == 0 then p[5 * n + (i - 4 * n) / 2] else p[4 * n + (i - 4 * n) / 2])
  }

  // The conversions undo each other.
  lemma ConversionsInverse(a: seq<Byte>, n: nat)
    requires |a| == 6 * n
    ensures ToSemi(ToPlanar(a, n), n) == a && ToPlanar(ToSemi(a, n), n) == a
  {
    var p, s := ToPlanar(a, n), ToSemi(a, n);
    forall i | 0 <= i < 6 * n ensures ToSemi(p, n)[i] == a[i] && ToPlanar(s, n)[i] == a[i] {
      var k := (i - 4 * n) / 2;
      assert i >= 4 * n ==> i == 4 * n + 2 * k || i == 4 * n + 2 * k + 1;
    }
  }

  // The first k samples of both components are in place.
  ghost predicate ChromaSplit(semi: seq<Byte>, planar: seq<Byte>, n: nat, k: nat)
    requires |semi| == |planar| == 6 * n
  {
    && k <= n
    && (forall i :: 0 <= i < 4 * n ==> planar[i] == semi[i])
    && (forall i :: 0 <= i < k ==> planar[4 * n + i] == semi[4 * n + 2 * i + 1])
    && (forall i :: 0 <= i < k ==> planar[5 * n + i] == semi[4 * n + 2 * i])
  }

  // With all samples in place, each is the conversion of the other.
  lemma AllSplit(semi: seq<Byte>, planar: seq<Byte>, n: nat)
    requires |semi| == |planar| == 6 * n && ChromaSplit(semi, planar, n, n)
    ensures planar == ToPlanar(semi, n) && semi == ToSemi(planar, n)
  {
    forall i | 0 <= i < 6 * n ensures planar[i] == ToPlanar(semi, n)[i] {
      assert i >= 5 * n ==> planar[5 * n + (i - 5 * n)] == semi[4 * n + 2 * (i - 5 * n)];
      assert 4 * n <= i < 5 * n ==> planar[4 * n + (i - 4 * n)] == semi[4 * n + 2 * (i - 4 * n) + 1];
    }
    ConversionsInverse(semi, n);
  }

  // yvu420s_yuv420p: one running index over both chroma planes.
  method SemiToPlanar(yvu: array<Byte>, w: nat, h: nat, yuv: array<Byte>)
    requires yvu != yuv && yvu.Length == yuv.Length == 6 * Span(h, w)
    modifies yuv
    ensures yuv[..] == ToPlanar(yvu[..], Span(h, w))
  {
    hide Span, ToPlanar, ToSemi;
    ghost var n := Span(h, w);
    Halves(w, h);
    var width, height := 2 * w, 2 * h;
    var pixels := width * height;
    var uvWidth, uvHeight := width, height / 2;
    forall i | 0 <= i < pixels { yuv[i] := yvu[i]; }
    var s, r := 0, 0;
    SpanZero(w);
    while r < uvHeight
      invariant r <= h && s == Span(r, w) && ChromaSplit(yvu[..], yuv[..], n, s)
    {
      RowFits(h, w, r);
      DoubleRow(r, w);
      s := SplitRow(yvu, pixels, pixels * 5 / 4, r * uvWidth, uvWidth, s, yuv, n);
      r := r + 1;
    }
    AllSplit(yvu[..], yuv[..], n);
  }

  // One turn of its outer loop: the row that starts at start, the planes at u and v.
  method SplitRow(yvu: array<Byte>, u: nat, v: nat, start: nat, uvWidth: nat, s0: nat, yuv: array<Byte>, ghost n: nat)
    returns (s: nat)
    requires yvu != yuv && yvu.Length == yuv.Length == 6 * n && u == 4 * n && v == 5 * n
    requires start == 2 * s0 && uvWidth % 2 == 0 && s0 + uvWidth / 2 <= n && ChromaSplit(yvu[..], yuv[..], n, s0)
    modifies yuv
    ensures s == s0 + uvWidth / 2 && ChromaSplit(yvu[..], yuv[..], n, s)
  {
    hide ChromaSplit;
    s := s0;
    var c := 0;
    while c < uvWidth
      invariant c <= uvWidth && start + c == 2 * s && s0 <= s && ChromaSplit(yvu[..], yuv[..], n, s)
    {
      ghost var before := yuv[..];
      yuv[u + s] := yvu[u + start + c + 1];
      yuv[v + s] := yvu[u + start + c];
      SplitNext(yvu[..], before, yuv[..], n, s);
      s := s + 1;
      c := c + 2;
    }
  }

  lemma SplitNext(semi: seq<Byte>, planar: seq<Byte>, after: seq<Byte>, n: nat, k: nat)
    requires |semi| == |planar| == 6 * n && k < n && ChromaSplit(semi, planar, n, k)
    requires after == planar[4 * n + k := semi[4 * n + 2 * k + 1]][5 * n + k := semi[4 * n + 2 * k]]
    ensures ChromaSplit(semi, after, n, k + 1)
  {
  }

  lemma JoinNext(semi: seq<Byte>, after: seq<Byte>, planar: seq<Byte>, n: nat, k: nat)
    requires |semi| == |planar| == 6 * n && k < n && ChromaSplit(semi, planar, n, k)
    requires after == semi[4 * n + 2 * k := planar[5 * n + k]][4 * n + 2 * k + 1 := planar[4 * n + k]]
    ensures ChromaSplit(after, planar, n, k + 1)
  {
  }

  lemma SpanZero(w: nat)
    ensures Span(0, w) == 0
  {
  }

  // yuv420p_yvu420s: a pointer that advances by two, and row * width + column on the planes.
  method PlanarToSemi(yuv: array<Byte>, w: nat, h: nat, yvu: array<Byte>)
    requires yvu != yuv && yvu.Length == yuv.Length == 6 * Span(h, w)
    modifies yvu
    ensures yvu[..] == ToSemi(yuv[..], Span(h, w))
  {
    hide Span, ToPlanar, ToSemi;
    ghost var n := Span(h, w);
    Halves(w, h);
    var width, height := 2 * w, 2 * h;
    var pixels := width * height;
    var uvWidth, uvHeight := width / 2, height / 2;
    forall i | 0 <= i < pixels { yvu[i] := yuv[i]; }
    var uvPtr, uPtr := pixels, pixels;
    var vPtr := uPtr + pixels / 4;
    var s, r := uvWidth, 0;
    SpanZero(w);
    while r < uvHeight
      invariant r <= h && uvPtr == 4 * n + 2 * Span(r, w) && ChromaSplit(yvu[..], yuv[..], n, Span(r, w))
    {
      RowFits(h, w, r);
      SpanIs(r, w);
      uvPtr := JoinRow(yuv, uPtr, vPtr, r * s, uvWidth, uvPtr, yvu, n);
      r := r + 1;
    }
    AllSplit(yvu[..], yuv[..], n);
  }

  // One turn of its outer loop: the row that starts at start of each plane.
  method JoinRow(yuv: array<Byte>, u: nat, v: nat, start: nat, uvWidth: nat, uv0: nat, yvu: array<Byte>, ghost n: nat)
    returns (uvPtr: nat)
    requires yvu != yuv && yvu.Length == yuv.Length == 6 * n && u == 4 * n && v == 5 * n
    requires uv0 == 4 * n + 2 * start && start + uvWidth <= n && ChromaSplit(yvu[..], yuv[..], n, start)
    modifies yvu
    ensures uvPtr == uv0 + 2 * uvWidth && ChromaSplit(yvu[..], yuv[..], n, start + uvWidth)
  {
    hide ChromaSplit;
    uvPtr := uv0;
    var c := 0;
    while c < uvWidth
      invariant c <= uvWidth && uvPtr == uv0 + 2 * c && ChromaSplit(yvu[..], yuv[..], n, start + c)
    {
      ghost var before := yvu[..];
      yvu[uvPtr] := yuv[v + (start + c)];
      yvu[uvPtr + 1] := yuv[u + (start + c)];
      JoinNext(before, yvu[..], yuv[..], n, start + c);
      uvPtr := uvPtr + 2;
      c := c + 1;
    }
  }

  lemma SpanIs(r: nat, w: nat)
    ensures r * w == Span(r, w)
  {
  }

  // ---- flips ----

  // Position i of an axis of length len, read backwards if the flag is set.
  function Mirrored(len: nat, flag: bool, i: nat): (r: nat)
    requires i < len
    ensures r < len
  {
    if flag then len - 1 - i else i
  }

  // The byte in row i and column j of the plane of this width that starts at off.
  function Pixel(image: seq<Byte>, off: nat, width: nat, i: nat, j: nat): Byte
    requires off + (Span(i, width) + j) < |image|
  {
    image[off + (Span(i, width) + j)]
  }

  // Where a plane of width w and height h at off has row i and column j.
  lemma InPlane(off: nat, w: nat, h: nat, i: nat, j: nat)
    requires i < h && j < w
    ensures off + (Span(i, w) + j) < off + Span(h, w)
  {
    hide Span;
    RowFits(h, w, i);
  }

  // The plane of width w and height h at off in dst is that of src, flipped.
  ghost predicate PlaneFlipped(src: seq<Byte>, dst: seq<Byte>, off: nat, w: nat, h: nat, flip: bool, mirror: bool)
    requires |src| == |dst| && off + Span(h, w) <= |src|
  {
    forall i, j :: 0 <= i < h && 0 <= j < w ==>
      PixelFlipped(src, dst, off, w, h, flip, mirror, i, j)
  }

  ghost predicate PixelFlipped(src: seq<Byte>, dst: seq<Byte>, off: nat, w: nat, h: nat, flip: bool, mirror: bool, i: nat, j: nat)
    requires |src| == |dst| && off + Span(h, w) <= |src| && i < h && j < w
  {
    RowFits(h, w, i);
    RowFits(h, w, Mirrored(h, mirror, i));
    dst[off + (Span(i, w) + j)] == src[off + (Span(Mirrored(h, mirror, i), w) + Mirrored(w, flip, j))]
  }

  ghost predicate ImageFlipped(src: seq<Byte>, dst: seq<Byte>, w: nat, h: nat, flip: bool, mirror: bool)
    requires |src| == |dst| == 6 * Span(h, w)
  {
    Halves(w, h);
    DoubleSpan(w, h);
    && PlaneFlipped(src, dst, 0, 2 * w, 2 * h, flip, mirror)
    && PlaneFlipped(src, dst, 4 * Span(h, w), w, h, flip, mirror)
    && PlaneFlipped(src, dst, 5 * Span(h, w), w, h, flip, mirror)
  }

  lemma DoubleSpan(w: nat, h: nat)
    ensures Span(2 * h, 2 * w) == 4 * Span(h, w)
  {
    assert (2 * h) * (2 * w) == 4 * (h * w);
  }

  // Flips compose: flipping twice flips along the axes where exactly one of them does.
  lemma PlaneCompose(a: seq<Byte>, b: seq<Byte>, c: seq<Byte>, off: nat, w: nat, h: nat, f1: bool, m1: bool, f2: bool, m2: bool)
    requires |a| == |b| == |c| && off + Span(h, w) <= |a|
    requires PlaneFlipped(a, b, off, w, h, f1, m1) && PlaneFlipped(b, c, off, w, h, f2, m2)
    ensures PlaneFlipped(a, c, off, w, h, f1 != f2, m1 != m2)
  {
    hide Span;
    var f, m := f1 != f2, m1 != m2;
    forall i, j | 0 <= i < h && 0 <= j < w ensures PixelFlipped(a, c, off, w, h, f, m, i, j) {
      assert PixelFlipped(b, c, off, w, h, f2, m2, i, j);
      assert PixelFlipped(a, b, off, w, h, f1, m1, Mirrored(h, m2, i), Mirrored(w, f2, j));
    }
  }

  lemma PlaneUnflipped(a: seq<Byte>, c: seq<Byte>, off: nat, w: nat, h: nat, p: nat)
    requires |a| == |c| && off + Span(h, w) <= |a| && PlaneFlipped(a, c, off, w, h, false, false) && p < Span(h, w)
    ensures c[off + p] == a[off + p]
  {
    var i := RowOf(p, w, h);
    hide Span;
    var j: nat := p - Span(i, w);
    assert PixelFlipped(a, c, off, w, h, false, false, i, j);
    assert off + (Span(i, w) + j) == off + p;
  }

  lemma {:induction false} RowOf(p: nat, w: nat, h: nat) returns (i: nat)
    requires p < Span(h, w)
    ensures i < h && Span(i, w) <= p < Span(i, w) + w
  {
    hide Span;
    SpanZero(w);
    if h > 0 {
      SpanNext(h - 1, w);
      if p < Span(h - 1, w) { i := RowOf(p, w, h - 1); } else { i := h - 1; }
    }
  }

  lemma ImageCompose(a: seq<Byte>, b: seq<Byte>, c: seq<Byte>, w: nat, h: nat, f1: bool, m1: bool, f2: bool, m2: bool)
    requires |a| == |b| == |c| == 6 * Span(h, w)
    requires ImageFlipped(a, b, w, h, f1, m1) && ImageFlipped(b, c, w, h, f2, m2)
    ensures ImageFlipped(a, c, w, h, f1 != f2, m1 != m2)
  {
    hide Span, PlaneFlipped;
    DoubleSpan(w, h);
    PlaneCompose(a, b, c, 0, 2 * w, 2 * h, f1, m1, f2, m2);
    PlaneCompose(a, b, c, 4 * Span(h, w), w, h, f1, m1, f2, m2);
    PlaneCompose(a, b, c, 5 * Span(h, w), w, h, f1, m1, f2, m2);
  }

  // Flipping twice with the same flags restores the image.
  lemma FlipInvolution(a: seq<Byte>, b: seq<Byte>, c: seq<Byte>, w: nat, h: nat, flip: bool, mirror: bool)
    requires |a| == |b| == |c| == 6 * Span(h, w)
    requires ImageFlipped(a, b, w, h, flip, mirror) && ImageFlipped(b, c, w, h, flip, mirror)
    ensures c == a
  {
    hide Span, PlaneFlipped;
    ImageCompose(a, b, c, w, h, flip, mirror, flip, mirror);
    DoubleSpan(w, h);
    var n := Span(h, w);
    forall p | 0 <= p < 6 * n ensures c[p] == a[p] {
      if p < 4 * n {
        PlaneUnflipped(a, c, 0, 2 * w, 2 * h, p);
      } else if p < 5 * n {
        PlaneUnflipped(a, c, 4 * n, w, h, p - 4 * n);
      } else {
        PlaneUnflipped(a, c, 5 * n, w, h, p - 5 * n);
      }
    }
  }

  lemma FlippedPixel(src: seq<Byte>, dst: seq<Byte>, off: nat, w: nat, h: nat, flip: bool, mirror: bool, i: nat, j: nat)
    requires |src| == |dst| && off + Span(h, w) <= |src| && PlaneFlipped(src, dst, off, w, h, flip, mirror) && i < h
             && j < w
    ensures (InPlane(off, w, h, i, j);
             InPlane(off, w, h, if mirror then h - 1 - i else i, if flip then w - 1 - j else j);
             Pixel(dst, off, w, i, j)
             == Pixel(src, off, w, if mirror then h - 1 - i else i, if flip then w - 1 - j else j))
  {
    assert PixelFlipped(src, dst, off, w, h, flip, mirror, i, j);
  }

  // ImageYUV420_flip: three loops, the chroma ones with index i * width / 2 + j. flip reverses the columns of every
  // plane, mirror its rows.
  method Flip(src: array<Byte>, w: nat, h: nat, dst: array<Byte>, flip: bool, mirror: bool)
    requires src != dst && src.Length == dst.Length == 6 * Span(h, w)
    modifies dst
    ensures ImageFlipped(src[..], dst[..], w, h, flip, mirror)
    ensures forall i: nat, j: nat :: i < 2 * h && j < 2 * w ==>
              (DoubleSpan(w, h);
               InPlane(0, 2 * w, 2 * h, i, j);
               InPlane(0, 2 * w, 2 * h, if mirror then 2 * h - 1 - i else i, if flip then 2 * w - 1 - j else j);
               Pixel(dst[..], 0, 2 * w, i, j)
               == Pixel(src[..], 0, 2 * w, if mirror then 2 * h - 1 - i else i, if flip then 2 * w - 1 - j else j))
    ensures forall off: nat, i: nat, j: nat :: off in [4 * Span(h, w), 5 * Span(h, w)] && i < h && j < w ==>
              (InPlane(off, w, h, i, j);
               InPlane(off, w, h, if mirror then h - 1 - i else i, if flip then w - 1 - j else j);
               Pixel(dst[..], off, w, i, j)
               == Pixel(src[..], off, w, if mirror then h - 1 - i else i, if flip then w - 1 - j else j))
  {
    hide Span, PlaneFlipped;
    var width, height := 2 * w, 2 * h;
    Halves(w, h);
    DoubleSpan(w, h);
    var u := width * height;
    var v := u + width * height / 4;
    FlipLuma(src, width, height, dst, flip, mirror);
    ghost var d1 := dst[..];
    FlipChroma(src, u, width, height, dst, flip, mirror);
    ghost var d2 := dst[..];
    PlaneSame(src[..], d1, d2, 0, width, height, flip, mirror);
    FlipChroma(src, v, width, height, dst, flip, mirror);
    PlaneSame(src[..], d2, dst[..], 0, width, height, flip, mirror);
    PlaneSame(src[..], d2, dst[..], u, w, h, flip, mirror);
    hide Pixel;
    forall i: nat, j: nat | i < 2 * h && j < 2 * w
      ensures (InPlane(0, 2 * w, 2 * h, i, j);
               InPlane(0, 2 * w, 2 * h, if mirror then 2 * h - 1 - i else i, if flip then 2 * w - 1 - j else j);
               Pixel(dst[..], 0, 2 * w, i, j)
               == Pixel(src[..], 0, 2 * w, if mirror then 2 * h - 1 - i else i, if flip then 2 * w - 1 - j else j))
    {
      FlippedPixel(src[..], dst[..], 0, 2 * w, 2 * h, flip, mirror, i, j);
    }
    forall off: nat, i: nat, j: nat | off in [4 * Span(h, w), 5 * Span(h, w)] && i < h && j < w
      ensures (InPlane(off, w, h, i, j);
               InPlane(off, w, h, if mirror then h - 1 - i else i, if flip then w - 1 - j else j);
               Pixel(dst[..], off, w, i, j)
               == Pixel(src[..], off, w, if mirror then h - 1 - i else i, if flip then w - 1 - j else j))
    {
      FlippedPixel(src[..], dst[..], off, w, h, flip, mirror, i, j);
    }
  }

  lemma PlaneSame(src: seq<Byte>, d: seq<Byte>, d': seq<Byte>, off: nat, w: nat, h: nat, flip: bool, mirror: bool)
    requires |src| == |d| == |d'| && off + Span(h, w) <= |src| && PlaneFlipped(src, d, off, w, h, flip, mirror)
    requires forall p :: off <= p < off + Span(h, w) ==> d'[p] == d[p]
    ensures PlaneFlipped(src, d', off, w, h, flip, mirror)
  {
    hide Span;
    forall i, j | 0 <= i < h && 0 <= j < w ensures PixelFlipped(src, d', off, w, h, flip, mirror, i, j) {
      assert PixelFlipped(src, d, off, w, h, flip, mirror, i, j);
      RowFits(h, w, i);
    }
  }

  method FlipLuma(src: array<Byte>, width: nat, height: nat, dst: array<Byte>, flip: bool, mirror: bool)
    requires src != dst && src.Length == dst.Length && Span(height, width) <= src.Length
    modifies dst
    ensures PlaneFlipped(src[..], dst[..], 0, width, height, flip, mirror)
    ensures forall p :: Span(height, width) <= p < dst.Length ==> dst[p] == old(dst[p])
  {
    hide Span;
    var i := 0;
    while i < height
      invariant i <= height
      invariant forall k, j :: 0 <= k < i && 0 <= j < width ==>
                  PixelFlipped(src[..], dst[..], 0, width, height, flip, mirror, k, j)
      invariant forall p :: Span(height, width) <= p < dst.Length ==> dst[p] == old(dst[p])
    {
      var ii := if mirror then height - 1 - i else i;
      RowFits(height, width, i);
      RowFits(height, width, ii);
      SpanIs(i, width);
      SpanIs(ii, width);
      ghost var before := dst[..];
      FlipRow(src, i * width, ii * width, width, dst, flip);
      RowDone(src[..], before, dst[..], 0, width, height, flip, mirror, i);
      i := i + 1;
    }
  }

  method FlipChroma(src: array<Byte>, off: nat, width: nat, height: nat, dst: array<Byte>, flip: bool, mirror: bool)
    requires width % 2 == 0 && height % 2 == 0
    requires src != dst && src.Length == dst.Length && off + Span(height / 2, width / 2) <= src.Length
    modifies dst
    ensures PlaneFlipped(src[..], dst[..], off, width / 2, height / 2, flip, mirror)
    ensures forall p :: 0 <= p < dst.Length && !(off <= p < off + Span(height / 2, width / 2)) ==> dst[p] == old(dst[p])
  {
    hide Span;
    ghost var w, h := width / 2, height / 2;
    var i := 0;
    while i < height / 2
      invariant i <= h
      invariant forall k, j :: 0 <= k < i && 0 <= j < w ==>
                  PixelFlipped(src[..], dst[..], off, w, h, flip, mirror, k, j)
      invariant forall p :: 0 <= p < dst.Length && !(off <= p < off + Span(h, w)) ==> dst[p] == old(dst[p])
    {
      var ii := if mirror then height / 2 - 1 - i else i;
      RowFits(h, w, i);
      RowFits(h, w, ii);
      DoubleRow(i, w);
      DoubleRow(ii, w);
      ghost var before := dst[..];
      FlipRow(src, off + i * width / 2, off + ii * width / 2, width / 2, dst, flip);
      RowDone(src[..], before, dst[..], off, w, h, flip, mirror, i);
      i := i + 1;
    }
  }

  // An inner loop: one row of a plane.
  method FlipRow(src: array<Byte>, to: nat, from: nat, w: nat, dst: array<Byte>, flip: bool)
    requires src != dst && to + w <= dst.Length && from + w <= src.Length
    modifies dst
    ensures forall j :: 0 <= j < w ==> dst[to + j] == src[from + Mirrored(w, flip, j)]
    ensures forall p :: 0 <= p < dst.Length && !(to <= p < to + w) ==> dst[p] == old(dst[p])
  {
    var j := 0;
    while j < w
      invariant j <= w
      invariant forall k :: 0 <= k < j ==> dst[to + k] == src[from + Mirrored(w, flip, k)]
      invariant forall p :: 0 <= p < dst.Length && !(to <= p < to + w) ==> dst[p] == old(dst[p])
    {
      var jj := j;
      if flip {
        jj := w - 1 - jj;
      }
      dst[to + j] := src[from + jj];
      j := j + 1;
    }
  }

  // Writing row i completes it and leaves the rows before it alone.
  lemma RowDone(src: seq<Byte>, d: seq<Byte>, d': seq<Byte>, off: nat, w: nat, h: nat, flip: bool, mirror: bool, i: nat)
    requires |src| == |d| == |d'| && i < h && off + Span(h, w) <= |src|
    requires forall k, j :: 0 <= k < i && 0 <= j < w ==> PixelFlipped(src, d, off, w, h, flip, mirror, k, j)
    requires Span(i, w) + w <= Span(h, w) && Span(Mirrored(h, mirror, i), w) + w <= Span(h, w)
    requires forall j :: 0 <= j < w ==>
               d'[off + Span(i, w) + j] == src[off + Span(Mirrored(h, mirror, i), w) + Mirrored(w, flip, j)]
    requires forall p :: 0 <= p < |d| && !(off + Span(i, w) <= p < off + Span(i, w) + w) ==> d'[p] == d[p]
    ensures forall k, j :: 0 <= k <= i && 0 <= j < w ==> PixelFlipped(src, d', off, w, h, flip, mirror, k, j)
  {
    hide Span;
    forall k, j | 0 <= k <= i && 0 <= j < w ensures PixelFlipped(src, d', off, w, h, flip, mirror, k, j) {
      RowFits(h, w, k);
      if k < i {
        SpanMonotone(k + 1, i, w);
        assert PixelFlipped(src, d, off, w, h, flip, mirror, k, j);
      } else {
        assert d'[off + Span(i, w) + j] == src[off + Span(Mirrored(h, mirror, i), w) + Mirrored(w, flip, j)];
      }
    }
  }
}
