/** The headless framebuffer: one byte per pixel, drawn by exclusive-or. */
module Display {
  import opened Chip8
  import opened Instructions

  const DISPLAY_SIZE: int := 128 * 64

  /** The pixels of a byte-per-pixel buffer that are on. */
  function LitIn(px: seq<byte>): (s: set<Pixel>)
    requires |px| == DISPLAY_SIZE
  {
    set x, y | 0 <= x < WIDTH && 0 <= y < HEIGHT && px[x + y * WIDTH] != 0 :: (x, y)
  }

  /** The pixel that column `i` of row `j` of a sprite drawn at (x, y) covers. */
  ghost predicate Covers(x: int, y: int, rows: seq<byte>, j: int, i: int, p: Pixel)
  {
    && 0 <= j < |rows| && 0 <= i < 8 && BitSet(rows[j], i)
    && p == (x % WIDTH + i, y % HEIGHT + j) && p.0 < WIDTH && p.1 < HEIGHT
  }

  /** The sprite's pixels in the rows above `j`, and in row `j` left of `i`. */
  ghost function Drawn(x: int, y: int, rows: seq<byte>, j: int, i: int): set<Pixel>
  {
    set p | p in SpritePixels(x, y, rows) && (p.1 - y % HEIGHT < j || (p.1 - y % HEIGHT == j && p.0 - x % WIDTH < i))
  }

  lemma {:induction false} InSprite(x: int, y: int, rows: seq<byte>, p: Pixel)
    ensures p in SpritePixels(x, y, rows) <==>
      Covers(x, y, rows, p.1 - y % HEIGHT, p.0 - x % WIDTH, p)
  {
    hide BitSet;
    var i, j := p.0 - x % WIDTH, p.1 - y % HEIGHT;
    if Covers(x, y, rows, j, i, p) {
      assert (x % WIDTH + i, y % HEIGHT + j) in SpritePixels(x, y, rows);
    }
  }

  /** Drawing the same sprite twice restores the screen. */
  lemma {:induction false} DrawTwice(lit: set<Pixel>, sprite: set<Pixel>)
    ensures Toggle(Toggle(lit, sprite), sprite) == lit
  {}

  class Framebuffer {
    const pixels: array<byte>

    ghost predicate Valid()
      reads this, pixels
    {
      pixels.Length == DISPLAY_SIZE && forall k :: 0 <= k < DISPLAY_SIZE ==> pixels[k] <= 1
    }

    function Lit(): set<Pixel>
      reads this, pixels
      requires pixels.Length == DISPLAY_SIZE
    {
      LitIn(pixels[..])
    }

    constructor ()
      ensures Valid() && fresh(pixels) && Lit() == {}
    {
      pixels := new byte[DISPLAY_SIZE](_ => 0);
    }

    method Clear()
      requires Valid()
      modifies pixels
      ensures Valid() && Lit() == {}
    {
      forall k | 0 <= k < pixels.Length { pixels[k] := 0; }
    }

    /** One pixel of the sprite. */
    method DrawPixel(ghost before: set<Pixel>, ghost x0: byte, ghost y0: byte, mem: seq<byte>, j: nat, i: nat, x2: int, y2: int, hit: byte)
      returns (vf: byte)
      requires Valid() && j < |mem| && i < 8 && x2 == x0 % WIDTH + i && y2 == y0 % HEIGHT + j < HEIGHT
      requires Lit() == Toggle(before, Drawn(x0, y0, mem, j, i))
      requires hit == Bit(before * Drawn(x0, y0, mem, j, i) != {})
      modifies pixels
      ensures Valid()
      ensures Lit() == Toggle(before, Drawn(x0, y0, mem, j, i + 1))
      ensures vf == Bit(before * Drawn(x0, y0, mem, j, i + 1) != {})
    {
      hide Drawn, LitIn, BitSet, Toggle;
      vf := hit;
      DrawnNext(x0, y0, mem, j, i);
      ghost var drawn, was := Drawn(x0, y0, mem, j, i), pixels[..];
      assert drawn + {} == drawn;
      if x2 < WIDTH {
        var bit := Bit(BitSet(mem[j], i));
        var old_pixel := pixels[x2 + y2 * WIDTH];
        var new_pixel := if old_pixel == bit then 0 else 1;
        pixels[x2 + y2 * WIDTH] := new_pixel;
        LitAt(was, x2, y2);
        LitAfter(was, pixels[..], x2, y2);
        TogglePixel(before, drawn, (x2, y2), bit != 0);
        if old_pixel != 0 && bit != 0 {
          vf := 1;
        }
      }
    }

    /** Exclusive-or the rows of `mem` onto the screen, origin wrapped, edges
        clipped; report whether a pixel that was on was hit. */
    method Draw(x0: byte, y0: byte, mem: seq<byte>) returns (vf: byte)
      requires Valid()
      modifies pixels
      ensures Valid()
      ensures Lit() == Toggle(old(Lit()), SpritePixels(x0, y0, mem))
      ensures vf == Bit(old(Lit()) * SpritePixels(x0, y0, mem) != {})
      ensures forall px, py :: 0 <= px < 64 && 0 <= py < 32 ==>
        ((pixels[px + py * 64] != 0) != (old(pixels[px + py * 64]) != 0) <==> Inked(x0, y0, mem, px, py))
    {
      vf := 0;
      var x, y := x0 % WIDTH, y0 % HEIGHT;
      ghost var before := Lit();
      DrawnStart(x0, y0, mem);
      for j := 0 to |mem|
        invariant Valid()
        invariant Lit() == Toggle(before, Drawn(x0, y0, mem, j, 0))
        invariant vf == Bit(before * Drawn(x0, y0, mem, j, 0) != {})
      {
        var y2 := j + y;
        if y2 < HEIGHT {
          for i := 0 to 8
            invariant Valid()
            invariant Lit() == Toggle(before, Drawn(x0, y0, mem, j, i))
            invariant vf == Bit(before * Drawn(x0, y0, mem, j, i) != {})
          {
            vf := DrawPixel(before, x0, y0, mem, j, i, x + i, y2, vf);
          }
        }
        DrawnRow(x0, y0, mem, j);
      }
      DrawnAll(x0, y0, mem);
      forall px, py | 0 <= px < 64 && 0 <= py < 32
        ensures (pixels[px + py * 64] != 0) != (old(pixels[px + py * 64]) != 0) <==> Inked(x0, y0, mem, px, py)
      {
        LitAt(pixels[..], px, py);
        LitAt(old(pixels[..]), px, py);
        SpriteInked(x0, y0, mem, px, py);
      }
    }
  }

  lemma {:induction false} DrawnStart(x: int, y: int, rows: seq<byte>)
    ensures Drawn(x, y, rows, 0, 0) == {}
  {
    forall p | p in SpritePixels(x, y, rows) ensures p.1 - y % HEIGHT >= 0 && p.0 - x % WIDTH >= 0 {
      InSprite(x, y, rows, p);
    }
  }

  lemma {:induction false} DrawnAll(x: int, y: int, rows: seq<byte>)
    ensures Drawn(x, y, rows, |rows|, 0) == SpritePixels(x, y, rows)
  {
    forall p | p in SpritePixels(x, y, rows) ensures p.1 - y % HEIGHT < |rows| {
      InSprite(x, y, rows, p);
    }
  }

  /** A finished row, or one below the bottom edge. */
  lemma {:induction false} DrawnRow(x: int, y: int, rows: seq<byte>, j: nat)
    requires j < |rows|
    ensures Drawn(x, y, rows, j, 8) == Drawn(x, y, rows, j + 1, 0)
    ensures y % HEIGHT + j >= HEIGHT ==> Drawn(x, y, rows, j, 0) == Drawn(x, y, rows, j + 1, 0)
  {
    forall p | p in SpritePixels(x, y, rows) ensures 0 <= p.0 - x % WIDTH < 8 && p.1 < HEIGHT {
      InSprite(x, y, rows, p);
    }
  }

  lemma {:induction false} DrawnNext(x: int, y: int, rows: seq<byte>, j: nat, i: nat)
    requires j < |rows| && i < 8 && y % HEIGHT + j < HEIGHT
    ensures
      var p := (x % WIDTH + i, y % HEIGHT + j);
      && Drawn(x, y, rows, j, i + 1) ==
           Drawn(x, y, rows, j, i) + (if BitSet(rows[j], i) && p.0 < WIDTH then {p} else {})
      && p !in Drawn(x, y, rows, j, i)
  {
    hide BitSet, SpritePixels;
    var q := (x % WIDTH + i, y % HEIGHT + j);
    forall p | p in SpritePixels(x, y, rows) && p.1 - y % HEIGHT == j && p.0 - x % WIDTH == i
      ensures p == q
    {
      InSprite(x, y, rows, p);
    }
    InSprite(x, y, rows, q);
  }

  lemma {:induction false} LitAt(px: seq<byte>, x: int, y: int)
    requires |px| == DISPLAY_SIZE && 0 <= x < WIDTH && 0 <= y < HEIGHT
    ensures (x, y) in LitIn(px) <==> px[x + y * WIDTH] != 0
  {}

  /** Flipping a pixel the sprite has not touched yet extends the toggled set. */
  lemma {:induction false} TogglePixel(before: set<Pixel>, drawn: set<Pixel>, p: Pixel, bit: bool)
    requires p !in drawn
    ensures p in Toggle(before, drawn) <==> p in before
    ensures p in before ==> Toggle(before, drawn + {p}) == Toggle(before, drawn) - {p}
    ensures p !in before ==> Toggle(before, drawn + {p}) == Toggle(before, drawn) + {p}
    ensures before * (drawn + {p}) != {} <==> before * drawn != {} || p in before
    ensures p in before ==> Toggle(before, drawn) + {p} == Toggle(before, drawn)
    ensures p !in before ==> Toggle(before, drawn) - {p} == Toggle(before, drawn)
  {
    assert before * (drawn + {p}) == before * drawn + if p in before then {p} else {};
  }

  lemma {:induction false} LitAfter(was: seq<byte>, now: seq<byte>, x: int, y: int)
    requires |was| == DISPLAY_SIZE && 0 <= x < WIDTH && 0 <= y < HEIGHT
    requires |now| == DISPLAY_SIZE && now == was[x + y * WIDTH := now[x + y * WIDTH]]
    ensures LitIn(now) == if now[x + y * WIDTH] != 0 then LitIn(was) + {(x, y)} else LitIn(was) - {(x, y)}
  {
    forall x', y' | 0 <= x' < WIDTH && 0 <= y' < HEIGHT && (x', y') != (x, y)
      ensures x' + y' * WIDTH != x + y * WIDTH
    {}
  }
}
