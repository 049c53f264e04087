/** The resolution ladder of vsize.go: a video size, the next smaller
    rendition in a fixed table of heights, and the codecs a rendition of a
    given size is encoded with. */
module VSize {
  import opened Base

  datatype VSize = VSize(w: int, h: int)

  /** A rendition of the ladder: a size and the codec it is encoded with. */
  datatype Variant = Variant(size: VSize, codec: Codec)

  /** The heights `smaller` steps down through, largest first. */
  const Steps: seq<int> := [4320, 2160, 1440, 1080, 720, 480, 360, 240, 160]

  /** The lowest width or height a smaller rendition may have. */
  const MinSide: int := 160

  /** isOver: the width or the height exceeds `n`. */
  predicate IsOver(v: VSize, n: int)
  {
    v.w > n || v.h > n
  }

  /** reverse: the size with width and height swapped; nil stays nil. */
  function Reverse(v: Option<VSize>): (r: Option<VSize>)
    ensures r.None? <==> v.None?
    ensures r.Some? ==> r.value.w == v.value.h && r.value.h == v.value.w
  {
    match v
    case None => None
    case Some(s) => Some(VSize(s.h, s.w))
  }

  /** Go's `x &^ 1` for x >= 0: clear the lowest bit. */
  function EvenDown(x: int): int
  {
    x - x % 2
  }

  /** The size `v` scaled to height `nh`: the width scaled by integer
      division with its lowest bit cleared, or nil when a side falls under 160. */
  function ScaleTo(v: VSize, nh: int): Option<VSize>
    requires v.h > 0
  {
    var nw := EvenDown(v.w * nh / v.h);
    if nw < MinSide || nh < MinSide then None else Some(VSize(nw, nh))
  }

  /** The first entry of `steps` strictly below `h`, or `h` itself when
      there is none: the step loop of smaller, which skips the heights not
      below the current one. */
  function FirstBelow(steps: seq<int>, h: int): int
  {
    if steps == [] then h else if steps[0] < h then steps[0] else FirstBelow(steps[1..], h)
  }

  /** The first entry below `h` is an entry below `h`; when there is none,
      every entry is at least `h`. */
  lemma {:induction false} FirstBelowSpec(steps: seq<int>, h: int)
    ensures var r := FirstBelow(steps, h);
            && (r == h || (r in steps && r < h))
            && (r == h ==> forall i :: 0 <= i < |steps| ==> steps[i] >= h)
  {
    if steps != [] && steps[0] >= h {
      FirstBelowSpec(steps[1..], h);
      assert forall i :: 1 <= i < |steps| ==> steps[i] == steps[1..][i - 1];
    }
  }

  /** The landscape branch of smaller: the size scaled to the first table
      height below its height, or nil when there is none. Go's truncating
      division agrees with Dafny's in ScaleTo, because both operands are
      non-negative there. */
  function ScaleLandscape(v: VSize): (r: Option<VSize>)
    requires v.w >= v.h
    ensures r.Some? ==> MinSide <= r.value.w < v.w && MinSide <= r.value.h < v.h
  {
    var nh := FirstBelow(Steps, v.h);
    if nh == v.h then None
    else
      FirstBelowSpec(Steps, v.h);
      StepsFloor();
      ScaleToShrinks(v, nh);
      ScaleTo(v, nh)
  }

  /** smaller: the next rendition of the ladder, or nil. A portrait size is
      reversed, made smaller (it is then landscape) and reversed back. Both
      sides of a result are at least 160 and strictly below those of `v`, so
      iterating ends. */
  function Smaller(v: VSize): (r: Option<VSize>)
    ensures r.Some? ==> MinSide <= r.value.w < v.w && MinSide <= r.value.h < v.h
  {
    if v.w < v.h then Reverse(ScaleLandscape(VSize(v.h, v.w)))
    else ScaleLandscape(v)
  }

  lemma ScaleToShrinks(v: VSize, nh: int)
    requires v.w >= v.h > nh > 0
    ensures var r := ScaleTo(v, nh);
            r.Some? ==> MinSide <= r.value.w < v.w && MinSide <= r.value.h < v.h
  {
    var q := v.w * nh / v.h;
    assert v.w * nh < v.w * v.h;
    assert q * v.h <= v.w * nh;
    assert q < v.w;
  }

  /** In a strictly descending list, the first entry below `h` is the largest
      entry below `h`: no entry lies strictly between it and `h`. */
  lemma {:induction false} FirstBelowIsLargest(steps: seq<int>, h: int)
    requires forall i, j :: 0 <= i < j < |steps| ==> steps[i] > steps[j]
    ensures forall i :: 0 <= i < |steps| ==> !(FirstBelow(steps, h) < steps[i] < h)
  {
    if steps != [] && steps[0] >= h {
      FirstBelowIsLargest(steps[1..], h);
      assert forall i :: 1 <= i < |steps| ==> steps[i] == steps[1..][i - 1];
    }
  }

  lemma StepsFloor()
    ensures forall i :: 0 <= i < |Steps| ==> Steps[i] >= MinSide
  {
  }

  /** The table is strictly descending, even, and ends at 160. */
  lemma StepsShape()
    ensures forall i, j :: 0 <= i < j < |Steps| ==> Steps[i] > Steps[j]
    ensures forall i :: 0 <= i < |Steps| ==> Steps[i] % 2 == 0 && Steps[i] >= MinSide
    ensures Steps[|Steps| - 1] == MinSide
  {
  }

  /** The landscape case of smaller (w >= h): the result's height is the
      largest table height strictly below h, and both sides are even. */
  lemma SmallerLandscapeHeight(v: VSize)
    requires v.w >= v.h
    ensures var r := Smaller(v);
            r.Some? ==> && r.value.h == FirstBelow(Steps, v.h) && r.value.h < v.h
                        && (forall i :: 0 <= i < |Steps| ==> !(r.value.h < Steps[i] < v.h))
                        && r.value.h % 2 == 0
  {
    FirstBelowSpec(Steps, v.h);
    FirstBelowIsLargest(Steps, v.h);
    StepsShape();
  }

  /** The landscape case of smaller (w >= h): the result's width is
      w * nh / h with its lowest bit cleared, hence even. */
  lemma SmallerLandscapeWidth(v: VSize)
    requires v.w >= v.h
    ensures var r := Smaller(v);
            r.Some? ==> r.value.w == EvenDown(v.w * r.value.h / v.h) && r.value.w % 2 == 0
  {
  }

  /** A landscape size has no smaller rendition exactly when its height is
      at most 160 or the scaled width falls under 160. */
  lemma SmallerLandscapeNil(v: VSize)
    requires v.w >= v.h
    ensures Smaller(v).None? <==>
            (v.h <= MinSide || EvenDown(v.w * FirstBelow(Steps, v.h) / v.h) < MinSide)
  {
    FirstBelowSpec(Steps, v.h);
    StepsShape();
    if v.h > MinSide {
      assert MinSide in Steps;
    }
  }

  /** The portrait case: smaller of a portrait size is the swap of smaller of
      the swapped size. */
  lemma SmallerPortrait(v: VSize)
    requires v.w < v.h
    ensures Smaller(v) == Reverse(Smaller(VSize(v.h, v.w)))
  {
  }

  /** reverse undoes itself. */
  lemma ReverseInvolution(v: Option<VSize>)
    ensures Reverse(Reverse(v)) == v
  {
  }

  /** The successive results of smaller, starting after `v`, up to the first
      nil. It is a total function: every chain ends. */
  function Chain(v: VSize): seq<VSize>
    decreases v.w + v.h
  {
    match Smaller(v)
    case None => []
    case Some(s) => [s] + Chain(s)
  }

  /** The chain is the iteration of smaller: its first size is smaller of
      `v`, each next one is smaller of the one before, smaller of its last
      size (of `v` when it is empty) is nil, and every size in it is at least
      160 on both sides and strictly below `v`. */
  lemma {:induction false} ChainIsIteration(v: VSize)
    ensures var c := Chain(v);
            && (c == [] <==> Smaller(v).None?)
            && (c != [] ==> Smaller(v) == Some(c[0]) && Smaller(c[|c| - 1]).None?)
            && (forall i :: 0 < i < |c| ==> Smaller(c[i - 1]) == Some(c[i]))
            && (forall i :: 0 <= i < |c| ==> MinSide <= c[i].w < v.w && MinSide <= c[i].h < v.h)
    decreases v.w + v.h
  {
    match Smaller(v)
    case None =>
    case Some(s) =>
      ChainIsIteration(s);
      var c := Chain(v);
      assert c == [s] + Chain(s);
      assert forall i :: 0 < i < |c| ==> c[i] == Chain(s)[i - 1];
  }

  /** variants: the renditions encoded at size `v`. */
  function Variants(v: VSize): seq<Variant>
  {
    if IsOver(v, 1280) then [Variant(v, AV1), Variant(v, HEVC)] else [Variant(v, H264)]
  }

  /** Every variant has the size it was made for; above 1280 pixels on either
      side there are two (AV1 first, then HEVC), otherwise one H264. */
  lemma VariantsBySize(v: VSize)
    ensures forall i :: 0 <= i < |Variants(v)| ==> Variants(v)[i].size == v
    ensures (v.w > 1280 || v.h > 1280) <==> |Variants(v)| == 2
    ensures |Variants(v)| == 2 ==> Variants(v)[0].codec == AV1 && Variants(v)[1].codec == HEVC
    ensures |Variants(v)| != 2 ==> |Variants(v)| == 1 && Variants(v)[0].codec == H264
  {
  }

  /** Smaller of a size one step of a pinned chain, and that chain one
      step on. */
  lemma {:induction false} ChainStep(v: VSize, s: VSize)
    requires Smaller(v) == Some(s)
    ensures Chain(v) == [s] + Chain(s)
  {
  }

  lemma Smaller3840x1610() ensures Smaller(VSize(3840, 1610)) == Some(VSize(3434, 1440)) {}
  lemma Smaller3434x1440() ensures Smaller(VSize(3434, 1440)) == Some(VSize(2574, 1080)) {}
  lemma Smaller2574x1080() ensures Smaller(VSize(2574, 1080)) == Some(VSize(1716, 720)) {}
  lemma Smaller1716x720() ensures Smaller(VSize(1716, 720)) == Some(VSize(1144, 480)) {}
  lemma Smaller1144x480() ensures Smaller(VSize(1144, 480)) == Some(VSize(858, 360)) {}
  lemma Smaller858x360() ensures Smaller(VSize(858, 360)) == Some(VSize(572, 240)) {}
  lemma Smaller572x240() ensures Smaller(VSize(572, 240)) == Some(VSize(380, 160)) {}
  lemma Smaller3840x2160() ensures Smaller(VSize(3840, 2160)) == Some(VSize(2560, 1440)) {}
  lemma Smaller2560x1440() ensures Smaller(VSize(2560, 1440)) == Some(VSize(1920, 1080)) {}
  lemma Smaller1920x1080() ensures Smaller(VSize(1920, 1080)) == Some(VSize(1280, 720)) {}
  lemma Smaller1280x720() ensures Smaller(VSize(1280, 720)) == Some(VSize(852, 480)) {}
  lemma Smaller852x480() ensures Smaller(VSize(852, 480)) == Some(VSize(638, 360)) {}
  lemma Smaller638x360() ensures Smaller(VSize(638, 360)) == Some(VSize(424, 240)) {}
  lemma Smaller424x240() ensures Smaller(VSize(424, 240)) == Some(VSize(282, 160)) {}
  lemma Smaller380x160() ensures Smaller(VSize(380, 160)) == None {}
  lemma Smaller282x160() ensures Smaller(VSize(282, 160)) == None {}

  /** The chains the test suite pins; each ends in nil. */
  lemma Chain3840x1610()
    ensures Chain(VSize(3840, 1610)) == [VSize(3434, 1440), VSize(2574, 1080), VSize(1716, 720), VSize(1144, 480), VSize(858, 360), VSize(572, 240), VSize(380, 160)]
  {
    Smaller380x160();
    Smaller572x240();
    ChainStep(VSize(572, 240), VSize(380, 160));
    Smaller858x360();
    ChainStep(VSize(858, 360), VSize(572, 240));
    Smaller1144x480();
    ChainStep(VSize(1144, 480), VSize(858, 360));
    Smaller1716x720();
    ChainStep(VSize(1716, 720), VSize(1144, 480));
    Smaller2574x1080();
    ChainStep(VSize(2574, 1080), VSize(1716, 720));
    Smaller3434x1440();
    ChainStep(VSize(3434, 1440), VSize(2574, 1080));
    Smaller3840x1610();
    ChainStep(VSize(3840, 1610), VSize(3434, 1440));
  }

  lemma Chain1920x1080()
    ensures Chain(VSize(1920, 1080)) == [VSize(1280, 720), VSize(852, 480), VSize(638, 360), VSize(424, 240), VSize(282, 160)]
  {
    Smaller282x160();
    Smaller424x240();
    ChainStep(VSize(424, 240), VSize(282, 160));
    Smaller638x360();
    ChainStep(VSize(638, 360), VSize(424, 240));
    Smaller852x480();
    ChainStep(VSize(852, 480), VSize(638, 360));
    Smaller1280x720();
    ChainStep(VSize(1280, 720), VSize(852, 480));
    Smaller1920x1080();
    ChainStep(VSize(1920, 1080), VSize(1280, 720));
  }

  lemma Chain3840x2160()
    ensures Chain(VSize(3840, 2160)) == [VSize(2560, 1440), VSize(1920, 1080), VSize(1280, 720), VSize(852, 480),
                                         VSize(638, 360), VSize(424, 240), VSize(282, 160)]
  {
    Smaller282x160();
    Smaller424x240();
    ChainStep(VSize(424, 240), VSize(282, 160));
    Smaller638x360();
    ChainStep(VSize(638, 360), VSize(424, 240));
    Smaller852x480();
    ChainStep(VSize(852, 480), VSize(638, 360));
    Smaller1280x720();
    ChainStep(VSize(1280, 720), VSize(852, 480));
    Smaller1920x1080();
    ChainStep(VSize(1920, 1080), VSize(1280, 720));
    Smaller2560x1440();
    ChainStep(VSize(2560, 1440), VSize(1920, 1080));
    Smaller3840x2160();
    ChainStep(VSize(3840, 2160), VSize(2560, 1440));
  }

  lemma Chain1080x1920()
    ensures Chain(VSize(1080, 1920)) == [VSize(720, 1280), VSize(480, 852), VSize(360, 638),
                                         VSize(240, 424), VSize(160, 282)]
  {
    Smaller282x160();
    assert Smaller(VSize(160, 282)) == None;
    Smaller424x240();
    ChainStep(VSize(240, 424), VSize(160, 282));
    Smaller638x360();
    ChainStep(VSize(360, 638), VSize(240, 424));
    Smaller852x480();
    ChainStep(VSize(480, 852), VSize(360, 638));
    Smaller1280x720();
    ChainStep(VSize(720, 1280), VSize(480, 852));
    Smaller1920x1080();
    ChainStep(VSize(1080, 1920), VSize(720, 1280));
  }
}
