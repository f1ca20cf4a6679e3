/**
  The integer side of the colour codec of `MapTypeConverter.swift`: a message
  integer is split into its alpha, red, green and blue bytes, and a colour is
  packed back into one integer. The division of each byte by 255 on the way in
  and the multiplication by 255 on the way out are taken as exact, so a colour
  is represented here by its four channel bytes.
 */
module Color {
  import opened Values

  /** A colour as its four 8-bit channels. */
  datatype Argb = Argb(alpha: int, red: int, green: int, blue: int)

  predicate IsByte(x: int) { 0 <= x < 0x100 }

  predicate IsByteColor(c: Argb) {
    IsByte(c.alpha) && IsByte(c.red) && IsByte(c.green) && IsByte(c.blue)
  }

  /**
    `(argb >> shift) & 0xff` on a two's-complement integer: an arithmetic right
    shift by `shift` bits is a floor division by 2^shift (Dafny's `/` by a
    positive divisor), and masking the low byte is the non-negative remainder.
   */
  function ByteAt(argb: int, scale: int): (r: int)
    requires scale in {0x100_0000, 0x1_0000, 0x100, 1}
    ensures IsByte(r)
  {
    (argb / scale) % 0x100
  }

  /** `UIColor(argb:)`: alpha in bits 24-31, red 16-23, green 8-15, blue 0-7. */
  function ColorOfArgb(argb: int): (c: Argb)
    ensures IsByteColor(c)
  {
    Argb(ByteAt(argb, 0x100_0000), ByteAt(argb, 0x1_0000), ByteAt(argb, 0x100), ByteAt(argb, 1))
  }

  /** `asUIColor`: the message value must be an integer. */
  function AsUIColor(v: Value): (r: Result<Argb>)
    ensures r.Ok? <==> v.Int?
    ensures r.Ok? ==> IsByteColor(r.value)
    ensures r.Ok? ==> r.value == ColorOfArgb(v.i) && ToInt(r.value) == v.i % 0x1_0000_0000
  {
    var argb :- AsInt(v);
    PackUnpack(argb);
    Ok(ColorOfArgb(argb))
  }

  /**
    `UIColor.toInt`: the channels shifted to 24/16/8/0 and combined. On byte
    channels the shifted fields do not overlap, so their bitwise OR is their sum
    (see `ShiftOrIsSum`).
   */
  function ToInt(c: Argb): (r: int)
    requires IsByteColor(c)
    ensures 0 <= r < 0x1_0000_0000
  {
    c.alpha * 0x100_0000 + c.red * 0x1_0000 + c.green * 0x100 + c.blue
  }

  /** Shift-and-OR of four bytes is the same as shift-and-add. */
  lemma ShiftOrIsSum(a: bv32, r: bv32, g: bv32, b: bv32)
    requires a < 0x100 && r < 0x100 && g < 0x100 && b < 0x100
    ensures (a << 24) | (r << 16) | (g << 8) | b == a * 0x100_0000 + r * 0x1_0000 + g * 0x100 + b
  {
  }

  /** Dividing by 256 twice or three times is dividing by 2^16 or 2^24. */
  lemma DivByByte(x: int)
    ensures x / 0x1_0000 == (x / 0x100) / 0x100
    ensures x / 0x100_0000 == (x / 0x1_0000) / 0x100
  {
  }

  /** An integer written as a multiple of 2^32 plus a 32-bit remainder has that remainder. */
  lemma ModUnique(x: int, q: int, t: int)
    requires 0 <= t < 0x1_0000_0000 && x == 0x1_0000_0000 * q + t
    ensures x % 0x1_0000_0000 == t
  {
  }

  /** Unpacking and repacking keeps the low 32 bits of any integer. */
  lemma PackUnpack(argb: int)
    ensures ToInt(ColorOfArgb(argb)) == argb % 0x1_0000_0000
  {
    var x := argb;
    var x1, r0 := x / 0x100, x % 0x100;
    var x2, r1 := x1 / 0x100, x1 % 0x100;
    var x3, r2 := x2 / 0x100, x2 % 0x100;
    var q, r3 := x3 / 0x100, x3 % 0x100;
    DivByByte(x);
    assert ColorOfArgb(x) == Argb(r3, r2, r1, r0);
    var t := r3 * 0x100_0000 + r2 * 0x1_0000 + r1 * 0x100 + r0;
    assert ToInt(ColorOfArgb(x)) == t;
    assert x == 0x1_0000_0000 * q + t;
    ModUnique(x, q, t);
  }

  /** For an integer that fits in 32 bits, unpacking and repacking gives it back. */
  lemma ArgbRoundTrip(argb: int)
    requires 0 <= argb < 0x1_0000_0000
    ensures ToInt(ColorOfArgb(argb)) == argb
  {
    PackUnpack(argb);
  }

  /** For byte channels, packing and unpacking gives the channels back. */
  lemma ChannelsRoundTrip(c: Argb)
    requires IsByteColor(c)
    ensures ColorOfArgb(ToInt(c)) == c
  {
    var x := ToInt(c);
    DivByByte(x);
    assert x / 0x100 == c.alpha * 0x1_0000 + c.red * 0x100 + c.green;
    assert x / 0x100 / 0x100 == c.alpha * 0x100 + c.red;
    assert x / 0x100 / 0x100 / 0x100 == c.alpha;
  }

  /** Boundary colours: transparent black, opaque white and a mixed value. */
  lemma ArgbBoundaries()
    ensures ColorOfArgb(0) == Argb(0, 0, 0, 0)
    ensures ColorOfArgb(0xFFFF_FFFF) == Argb(0xff, 0xff, 0xff, 0xff)
    ensures ColorOfArgb(0x8040_2010) == Argb(0x80, 0x40, 0x20, 0x10)
  {
  }
}
