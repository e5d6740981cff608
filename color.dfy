/** `EvilCat.Color`: an RGB triple packed into a hex number as
    r + g * 0x100 + b * 0x10000. Blending with fractional factors is not
    part of this module (see README). */
module ColorModel {

  /** A color as the constructor leaves it: every channel already floored. */
  datatype Color = Color(r: int, g: int, b: int)

  /** The constructor `new Color(r, g, b)`, which floors each channel. */
  function NewColor(r: real, g: real, b: real): (c: Color)
    ensures c.r as real <= r < c.r as real + 1.0
    ensures c.g as real <= g < c.g as real + 1.0
    ensures c.b as real <= b < c.b as real + 1.0
  {
    Color(r.Floor, g.Floor, b.Floor)
  }

  /** JavaScript's `a % d` for a positive divisor: the remainder takes the sign
      of the dividend (truncating division), unlike Dafny's `%`. */
  function JsRem(a: int, d: int): (m: int)
    requires d > 0
    ensures -d < m < d
    ensures a >= 0 ==> m == a % d
    ensures a < 0 ==> m <= 0
    ensures a == (if a >= 0 then a / d else -((-a) / d)) * d + m
  {
    if a >= 0 then a % d else -((-a) % d)
  }

  /** `Color.create_from_hex(hex)` on an integer `hex`: the low byte is red,
      the next byte green, and everything above is blue. `Math.floor(hex/0x100)`
      on an integer is Dafny's `/` by a positive divisor. */
  function CreateFromHex(hex: int): (c: Color)
    ensures hex >= 0 ==> 0 <= c.r < 0x100 && 0 <= c.g < 0x100 && c.b == hex / 0x10000
    ensures hex < 0 ==> c.r <= 0 && c.g <= 0 && c.b < 0
  {
    NewColor(JsRem(hex, 0x100) as real, JsRem(hex / 0x100, 0x100) as real, (hex / 0x10000) as real)
  }

  /** `color.to_hex()`: red in the low byte, green in the next, blue above.
      Its partners are HexRoundTrip and ColorRoundTrip below. */
  function ToHex(c: Color): (h: int)
    ensures 0 <= c.r < 0x100 && 0 <= c.g < 0x100 && 0 <= c.b ==>
              h >= 0 && h % 0x100 == c.r && h / 0x10000 == c.b
    // a JavaScript number holds the hex exactly (below 2^53) iff blue is below 2^37
    ensures 0 <= c.r < 0x100 && 0 <= c.g < 0x100 && 0 <= c.b ==>
              (h < 0x20_0000_0000_0000 <==> c.b < 0x20_0000_0000)
    // byte-sized channels give a 24-bit hex
    ensures 0 <= c.r < 0x100 && 0 <= c.g < 0x100 && 0 <= c.b < 0x100 ==> h < 0x100_0000
  {
    c.r + c.g * 0x100 + c.b * 0x10000
  }

  /** The constructor leaves integer channels as they are. */
  lemma NewColorKeepsIntegers(r: int, g: int, b: int)
    ensures NewColor(r as real, g as real, b as real) == Color(r, g, b)
  {
  }

  /** Division with remainder by one of the two packing radixes is unique. */
  lemma DivModUnique(n: int, d: int, q: int, m: int)
    requires d == 0x100 || d == 0x10000
    requires 0 <= m < d && n == q * d + m
    ensures n / d == q && n % d == m
  {
    var q', m' := n / d, n % d;
    assert n == q' * d + m';
    if d == 0x100 {
      assert (q' - q) * 0x100 == m - m';
    } else {
      assert (q' - q) * 0x10000 == m - m';
    }
  }

  /** Dividing by 0x100 twice is dividing by 0x10000. */
  lemma DivTwice(n: nat)
    ensures n / 0x100 / 0x100 == n / 0x10000
    ensures n == n % 0x100 + (n / 0x100 % 0x100) * 0x100 + (n / 0x10000) * 0x10000
  {
    var q := n / 0x100;
    var q2 := q / 0x100;
    assert n == q * 0x100 + n % 0x100;
    assert q == q2 * 0x100 + q % 0x100;
    assert n == q2 * 0x10000 + ((q % 0x100) * 0x100 + n % 0x100);
    DivModUnique(n, 0x10000, q2, (q % 0x100) * 0x100 + n % 0x100);
  }

  /** Decoding then re-encoding gives back every non-negative hex value. */
  lemma {:induction false} HexRoundTrip(n: int)
    requires n >= 0
    ensures ToHex(CreateFromHex(n)) == n
  {
    DivTwice(n);
  }

  /** Encoding then decoding gives back every color whose red and green
      channels fit in a byte and whose blue channel is non-negative. */
  lemma {:induction false} ColorRoundTrip(c: Color)
    requires 0 <= c.r < 0x100 && 0 <= c.g < 0x100 && 0 <= c.b
    ensures CreateFromHex(ToHex(c)) == c
  {
    var n := ToHex(c);
    var q := c.g + c.b * 0x100;
    assert n == q * 0x100 + c.r;
    DivModUnique(n, 0x100, q, c.r);
    DivModUnique(q, 0x100, c.b, c.g);
    DivTwice(n);
  }
}
