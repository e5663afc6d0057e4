/** Case folding, standing for Python's `str.lower`. The fold maps the
    capital letters of ASCII and of the Latin-1 supplement (so `É` and `Á`
    of `MIÉRCOLES` and `SÁBADO`) to their small letters, one character to
    one character, and leaves every other character alone. */
module Texto {

  predicate EsMayuscula(c: char)
  {
    ('A' <= c <= 'Z') || ('\U{C0}' <= c <= '\U{DE}' && c != '\U{D7}')
  }

  function MinusculaChar(c: char): (r: char)
    ensures !EsMayuscula(r)
    ensures !EsMayuscula(c) ==> r == c
  {
    if EsMayuscula(c) then (c as int + 32) as char else c
  }

  /** `s.lower()` */
  function Minuscula(s: string): (r: string)
    ensures |r| == |s|
    ensures forall i :: 0 <= i < |s| ==> r[i] == MinusculaChar(s[i])
  {
    seq(|s|, i requires 0 <= i < |s| => MinusculaChar(s[i]))
  }

  /** A string with no capital letter folds to itself. */
  lemma MinusculaFija(s: string)
    requires forall i :: 0 <= i < |s| ==> !EsMayuscula(s[i])
    ensures Minuscula(s) == s
  {
  }

  /** Folding twice is folding once. */
  lemma MinusculaIdempotente(s: string)
    ensures Minuscula(Minuscula(s)) == Minuscula(s)
  {
    MinusculaFija(Minuscula(s));
  }

  /** Folding keeps the empty string empty and a non-empty one non-empty. */
  lemma MinusculaVacia(s: string)
    ensures Minuscula(s) == [] <==> s == []
  {
  }
}
