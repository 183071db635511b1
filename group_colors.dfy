/**
 * The banner colour of a group: a Java-`hashCode`-style 32-bit string hash
 * of the group's code (or name) picks one of eight fixed palettes.
 */
module GroupColors {

  /** One banner palette: two gradient stops and a badge colour. */
  datatype Banner = Banner(a: string, b: string, badge: string)

  const PaletaBanners: seq<Banner> := [
    Banner("#0F80C1", "#1F93D8", "#0A5F93"),
    Banner("#7B3FE4", "#9E62FF", "#5A28B7"),
    Banner("#0E8F6A", "#1CB98C", "#0B664B"),
    Banner("#C05A1A", "#E17A2F", "#8C3E10"),
    Banner("#C2276B", "#E34D8E", "#8A1B4A"),
    Banner("#3159C8", "#4C77E8", "#223F90"),
    Banner("#2E7D32", "#46A34B", "#1F5722"),
    Banner("#8B5E00", "#B37A00", "#654300")
  ]

  const TwoTo32: int := 0x1_0000_0000
  const TwoTo31: int := 0x8000_0000

  predicate IsInt32(x: int)
  {
    -TwoTo31 <= x < TwoTo31
  }

  /** ECMAScript ToInt32: reduce modulo 2^32 into the signed range. */
  function ToInt32(x: int): (r: int)
    ensures IsInt32(r)
    ensures (r - x) % TwoTo32 == 0
  {
    var m := x % TwoTo32;
    if m >= TwoTo31 then m - TwoTo32 else m
  }

  /** Two integers congruent modulo 2^32 have the same ToInt32. */
  lemma ToInt32Congruent(x: int, y: int)
    requires (x - y) % TwoTo32 == 0
    ensures ToInt32(x) == ToInt32(y)
  {
    var k := (x - y) / TwoTo32;
    assert x == y + k * TwoTo32;
    assert x % TwoTo32 == y % TwoTo32 by {
      ModShift(y, k);
    }
  }

  lemma ModShift(y: int, k: int)
    ensures (y + k * TwoTo32) % TwoTo32 == y % TwoTo32
  {
    var q, r := y / TwoTo32, y % TwoTo32;
    assert y == q * TwoTo32 + r;
    assert y + k * TwoTo32 == (q + k) * TwoTo32 + r;
  }

  /** One step of the loop body: `hash = (hash << 5) - hash + code; hash |= 0`. */
  function Step(hash: int, code: int): int
  {
    var shifted := ToInt32(ToInt32(hash) * 32);
    ToInt32(shifted - hash + code)
  }

  /** The step is `int32(31 * hash + code)`. */
  lemma StepIsWrappedMultiply(hash: int, code: int)
    requires IsInt32(hash)
    ensures Step(hash, code) == ToInt32(31 * hash + code)
  {
    var shifted := ToInt32(hash * 32);
    assert (shifted - hash * 32) % TwoTo32 == 0;
    assert (shifted - hash + code) - (31 * hash + code) == shifted - hash * 32;
    ToInt32Congruent(shifted - hash + code, 31 * hash + code);
  }

  /** The hash accumulated over `s` before `Math.abs`; a character's code is its code point. */
  function Hash32(s: string): (h: int)
    ensures IsInt32(h)
  {
    if s == [] then 0 else Step(Hash32(s[..|s| - 1]), s[|s| - 1] as int)
  }

  /** Hashing one more character is the wrapping `31 * h + c` recurrence. */
  lemma Hash32Snoc(s: string, c: char)
    ensures Hash32(s + [c]) == ToInt32(31 * Hash32(s) + c as int)
  {
    assert (s + [c])[..|s + [c]| - 1] == s;
    StepIsWrappedMultiply(Hash32(s), c as int);
  }

  function Abs(x: int): int
  {
    if x < 0 then -x else x
  }

  /** `hashTexto(valor)`: the loop over the characters, then `Math.abs`. */
  method HashTexto(valor: string) returns (r: int)
    ensures r == Abs(Hash32(valor))
    ensures 0 <= r <= TwoTo31
  {
    var hash := 0;
    for i := 0 to |valor|
      invariant hash == Hash32(valor[..i])
    {
      assert valor[..i + 1][..i] == valor[..i];
      hash := Step(hash, valor[i] as int);
    }
    assert valor[..|valor|] == valor;
    r := if hash < 0 then -hash else hash;
  }

  /** `obtenerColorGrupo(identificador)`: the palette entry at the hash modulo eight. */
  method ObtenerColorGrupo(identificador: string) returns (c: Banner)
    ensures c == PaletaBanners[Abs(Hash32(identificador)) % |PaletaBanners|]
    ensures c in PaletaBanners
  {
    var h := HashTexto(identificador);
    c := PaletaBanners[h % |PaletaBanners|];
  }

  /** The empty identifier (the parameter's default) hashes to 0 and gets the first palette. */
  lemma EmptyIdentifier()
    ensures Abs(Hash32("")) == 0
    ensures PaletaBanners[Abs(Hash32("")) % |PaletaBanners|] == PaletaBanners[0]
  {
  }
}
