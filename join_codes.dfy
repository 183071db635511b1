/**
 * `generarCodigo(longitud = 6)`, written identically in the in-memory store
 * and in the backend service: `longitud` characters each drawn uniformly
 * from the 36-character alphabet.
 *
 * `Math.random` is an oracle `rng`: the k-th draw of the page's random
 * stream picks the alphabet index `rng(k) % 36`, so every index in
 * [0, 36) can be drawn and nothing is assumed about the source.
 */
module JoinCodes {

  import opened JsText

  const Caracteres: string := "ABCDEFGHIJKLMNOPQRSTUVWXYZ0123456789"

  const LongitudPorDefecto: nat := 6

  predicate IsCodeChar(c: char)
  {
    'A' <= c <= 'Z' || '0' <= c <= '9'
  }

  predicate IsCode(s: string, longitud: nat)
  {
    |s| == longitud && forall i :: 0 <= i < |s| ==> IsCodeChar(s[i])
  }

  lemma {:induction false} AlphabetIsCodeChars(k: nat)
    requires k < |Caracteres|
    ensures IsCodeChar(Caracteres[k])
  {
    assert |Caracteres| == 36;
    assert forall j :: 0 <= j < 36 ==> IsCodeChar(Caracteres[j]);
  }

  /** The character that the draw numbered `k` contributes. */
  function Draw(rng: nat -> nat, k: nat): char
  {
    Caracteres[rng(k) % |Caracteres|]
  }

  /** The code made of the `longitud` draws starting at draw `start`. */
  function CodeFrom(rng: nat -> nat, start: nat, longitud: nat): (r: string)
    ensures IsCode(r, longitud)
  {
    var r := seq(longitud, (k: int) requires 0 <= k < longitud => Draw(rng, start + k));
    forall k | 0 <= k < longitud ensures IsCodeChar(r[k]) {
      assert r[k] == Draw(rng, start + k);
      AlphabetIsCodeChars(rng(start + k) % |Caracteres|);
    }
    r
  }

  /** The code that the `n`-th call of `generarCodigo()` (six draws each) produces. */
  function RoundCode(rng: nat -> nat, n: nat): string
  {
    CodeFrom(rng, LongitudPorDefecto * n, LongitudPorDefecto)
  }

  /**
   * `generarCodigo(longitud)` using the draws from `start` on: the `for`
   * loop appends one drawn character per iteration.
   */
  method GenerarCodigo(longitud: nat, rng: nat -> nat, start: nat) returns (resultado: string)
    ensures resultado == CodeFrom(rng, start, longitud)
    ensures IsCode(resultado, longitud)
  {
    resultado := "";
    for i := 0 to longitud
      invariant resultado == CodeFrom(rng, start, i)
    {
      resultado := resultado + [Draw(rng, start + i)];
      assert resultado == CodeFrom(rng, start, i + 1) by {
        forall k | 0 <= k < i + 1 ensures resultado[k] == CodeFrom(rng, start, i + 1)[k] {
          if k < i {
            assert resultado[k] == CodeFrom(rng, start, i)[k];
          }
        }
      }
    }
  }

  /** The code a lookup compares against: `codigo.trim().toUpperCase()`. */
  function Normalizar(codigo: string): string
  {
    ToUpper(Trim(codigo))
  }

  /** A generated code survives the lookup normalisation: it has no whitespace and no lower-case letter. */
  lemma CodeSurvivesNormalisation(code: string, longitud: nat)
    requires IsCode(code, longitud)
    ensures Normalizar(code) == code
  {
    assert code == [] || !IsWhite(code[0]);
    assert TrimStart(code) == code;
    assert code == [] || !IsWhite(code[|code| - 1]);
    assert TrimEnd(code) == code;
    assert ToUpper(code) == code;
  }
}
