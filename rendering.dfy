/** MonoWorks.Rendering.Color: a colour stored as four bytes (red, green, blue, alpha). */
module Rendering {
  import opened Outcomes

  newtype byte = x: int | 0 <= x < 256

  /** C#'s `a % 6` on int: the remainder truncates toward zero, so it takes the sign of `a`
      (Dafny's own `%` is Euclidean and never negative). */
  function CsRemainder6(a: int): (r: int)
    ensures -6 < r < 6
    ensures (a - r) % 6 == 0
    ensures a >= 0 ==> r >= 0
    ensures a <= 0 ==> r <= 0
  {
    if a >= 0 then a % 6 else -((-a) % 6)
  }

  /** The sector `hi = floor(h/60) % 6` of SetHsv selects one of six arrangements of the
      computed values v, t, p and q; any other sector selects none. */
  function HsvArrangement(hi: int, v: byte, t: byte, p: byte, q: byte): Option<seq<byte>>
  {
    if hi == 0 then Some([v, t, p])
    else if hi == 1 then Some([q, v, p])
    else if hi == 2 then Some([p, v, t])
    else if hi == 3 then Some([p, q, v])
    else if hi == 4 then Some([t, p, v])
    else if hi == 5 then Some([v, p, q])
    else None
  }

  /** Every arrangement is a permutation of v, p and a third value, placed by the sector: v
      (the brightest) goes to red in sectors 0 and 5, green in 1 and 2, blue in 3 and 4; p (the
      darkest) goes to blue in 0 and 1, red in 2 and 3, green in 4 and 5; the remaining channel
      takes t in the even sectors and q in the odd ones. */
  lemma HsvArrangementChannels(hi: int, v: byte, t: byte, p: byte, q: byte)
    requires 0 <= hi < 6
    ensures HsvArrangement(hi, v, t, p, q).Some?
    ensures var rgb := HsvArrangement(hi, v, t, p, q).value;
      var brightest, darkest := (hi + 1) / 2 % 3, (hi / 2 + 2) % 3;
      |rgb| == 3 && brightest != darkest &&
      rgb[brightest] == v && rgb[darkest] == p &&
      rgb[3 - brightest - darkest] == (if hi % 2 == 0 then t else q)
  {
  }

  /** SetHsv assigns a colour exactly when floor(h/60) is non-negative or a multiple of 6:
      a negative floor(h/60) that is not a multiple of 6 gives a negative sector, which no case
      of the switch handles. */
  lemma {:induction false} HsvSectorAssigned(floorH: int, v: byte, t: byte, p: byte, q: byte)
    ensures HsvArrangement(CsRemainder6(floorH), v, t, p, q).Some?
        <==> (floorH >= 0 || floorH % 6 == 0)
  {
    var hi := CsRemainder6(floorH);
    if floorH < 0 && floorH % 6 != 0 {
      assert (-floorH) % 6 != 0;
      assert hi < 0;
    } else {
      assert 0 <= hi < 6;
    }
  }

  /** The "inverse" colour's bytes: green, blue and red of `c`, fully opaque. */
  function InverseOf(c: seq<byte>): (r: seq<byte>)
    requires |c| == 4
    ensures |r| == 4 && r[3] == 255
    ensures forall i :: 0 <= i < 3 ==> r[i] == c[(i + 1) % 3]
  {
    [c[1], c[2], c[0], 255]
  }

  /** Taking the inverse three times gives back the red, green and blue components. */
  lemma InverseThrice(c: seq<byte>)
    requires |c| == 4
    ensures InverseOf(InverseOf(InverseOf(c))) == c[..3] + [255]
  {
  }

  class Color {
    /** The bytes red, green, blue, alpha. */
    var rgba: array<byte>

    ghost predicate Valid()
      reads this
    {
      rgba.Length == 4
    }

    /** The four components. */
    function Components(): seq<byte>
      reads this, rgba
    {
      rgba[..]
    }

    /** Default colour: opaque black. */
    constructor Default()
      ensures Valid() && fresh(rgba)
      ensures Components() == [0, 0, 0, 255]
    {
      rgba := new byte[4] [0, 0, 0, 255];
    }

    /** Three components; alpha is 255. */
    constructor FromRgb(red: byte, green: byte, blue: byte)
      ensures Valid() && fresh(rgba)
      ensures Components() == [red, green, blue, 255]
    {
      rgba := new byte[4] [red, green, blue, 255];
    }

    /** All four components as given. */
    constructor FromRgba(red: byte, green: byte, blue: byte, alpha: byte)
      ensures Valid() && fresh(rgba)
      ensures Components() == [red, green, blue, alpha]
    {
      rgba := new byte[4] [red, green, blue, alpha];
    }

    /** The RGBA setter: the array itself becomes the colour's storage when it has four
        elements; any other length throws and leaves the colour as it was. */
    method SetRgba(value: array<byte>) returns (o: Outcome)
      requires Valid()
      modifies this
      ensures Valid()
      ensures o.Pass? <==> value.Length == 4
      ensures o.Pass? ==> rgba == value
      ensures o.Fail? ==> rgba == old(rgba)
    {
      if value.Length == 4 {
        rgba := value;
        o := Pass;
      } else {
        o := Fail("RGB vectors must have 4 components.");
      }
    }

    /** True iff the colour is opaque, i.e. its alpha byte is 255. */
    function IsOpaque(): (r: bool)
      reads this, rgba
      requires Valid()
      ensures r <==> rgba[3] == 255
    {
      if rgba[3] < 255 then false else true
    }

    /** The indexer's getter: component `index` scaled to [0, 1]; an index outside 0..3 throws. */
    function Component(index: int): (r: Result<real>)
      reads this, rgba
      requires Valid()
      ensures r.Ok? <==> 0 <= index <= 3
      ensures r.Ok? ==> 0.0 <= r.value <= 1.0
      ensures r.Ok? ==> r.value * 255.0 == rgba[index] as real
    {
      if index < 0 || index > 3 then Err("Color component must be between 0 and 3")
      else Ok(rgba[index] as real / 255.0)
    }

    /** The indexer's setter, given the byte `(byte)(value * 255f)`: only the indexed
        component changes; an index outside 0..3 throws and changes nothing. */
    method SetComponent(index: int, value: byte) returns (o: Outcome)
      requires Valid()
      modifies rgba
      ensures o.Pass? <==> 0 <= index <= 3
      ensures o.Pass? ==> Components() == old(Components())[index := value]
      ensures o.Fail? ==> Components() == old(Components())
    {
      if index < 0 || index > 3 {
        o := Fail("Color component must be between 0 and 3");
      } else {
        rgba[index] := value;
        o := Pass;
      }
    }

    /** The RGBf setter, given the three converted bytes: red, green and blue take them in
        order and alpha is kept; any length other than 3 throws and changes nothing. */
    method SetRgbf(value: seq<byte>) returns (o: Outcome)
      requires Valid()
      modifies rgba
      ensures o.Pass? <==> |value| == 3
      ensures o.Pass? ==> Components() == value + [old(rgba[3])]
      ensures o.Fail? ==> Components() == old(Components())
    {
      if |value| != 3 {
        return Fail("RGB vectors must have 3 components.");
      }
      var i := 0;
      while i < |value|
        invariant 0 <= i <= 3
        invariant forall k :: 0 <= k < i ==> rgba[k] == value[k]
        invariant forall k :: i <= k < 4 ==> rgba[k] == old(rgba[k])
      {
        var _ := SetComponent(i, value[i]);
        i := i + 1;
      }
      o := Pass;
    }

    /** SetHsv with floor(h/60) given as `floorH` and the computed bytes of v, t, p and q:
        the sector `floorH % 6` (C# remainder) picks the arrangement assigned through RGBf;
        a sector outside 0..5 leaves the colour unchanged. Alpha never changes. */
    method SetHsv(floorH: int, v: byte, t: byte, p: byte, q: byte)
      requires Valid()
      modifies rgba
      ensures Components()[3] == old(Components())[3]
      ensures Components() == match HsvArrangement(CsRemainder6(floorH), v, t, p, q)
                 case Some(rgb) => rgb + [old(rgba[3])]
                 case None => old(Components())
    {
      var hi := CsRemainder6(floorH);
      if hi == 0 {
        var _ := SetRgbf([v, t, p]);
      } else if hi == 1 {
        var _ := SetRgbf([q, v, p]);
      } else if hi == 2 {
        var _ := SetRgbf([p, v, t]);
      } else if hi == 3 {
        var _ := SetRgbf([p, q, v]);
      } else if hi == 4 {
        var _ := SetRgbf([t, p, v]);
      } else if hi == 5 {
        var _ := SetRgbf([v, p, q]);
      }
    }

    /** The "inverse" colour: a new colour built from green, blue and red, with alpha 255. */
    method Inverse() returns (c: Color)
      requires Valid()
      ensures fresh(c) && fresh(c.rgba) && c.Valid()
      ensures c.Components() == InverseOf(Components())
    {
      c := new Color.FromRgb(rgba[1], rgba[2], rgba[0]);
    }
  }
}
