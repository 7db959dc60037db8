/** The JavaScript string operations the normaliser relies on: the white-space
    class shared by `\s` in a regular expression and by `Number`/`parseFloat`,
    `String.prototype.toUpperCase`, and `replace(/\+/g, '-')`. */
module Text {

  /** ECMAScript white space and line terminators (the characters `\s` matches
      and the characters `Number` and `parseFloat` trim). */
  predicate IsSpace(c: char) {
    c == ' ' || ('\t' <= c <= '\r') || ('\U{00A0}' <= c && IsWideSpace(c))
  }

  predicate IsWideSpace(c: char) {
    c == '\U{00A0}' || c == '\U{1680}' || ('\U{2000}' <= c <= '\U{200A}')
    || c == '\U{2028}' || c == '\U{2029}' || c == '\U{202F}' || c == '\U{205F}'
    || c == '\U{3000}' || c == '\U{FEFF}'
  }

  /** Upper case of one character, for ASCII and Latin-1, which covers every
      label of the property-type table (`Chácara`, `Área Agrícola`, ...). */
  function UpperChar(c: char): char {
    if 'a' <= c <= 'z' then (c as int - 32) as char
    else if '\U{00E0}' <= c <= '\U{00FE}' && c != '\U{00F7}' then (c as int - 32) as char
    else if c == '\U{00FF}' then '\U{0178}'
    else if c == '\U{00B5}' then '\U{039C}'
    else c
  }

  /** `s.toUpperCase()`, character by character. */
  function ToUpper(s: string): (r: string)
    ensures |r| == |s|
    ensures forall i :: 0 <= i < |s| ==> r[i] == UpperChar(s[i])
  {
    if s == [] then [] else [UpperChar(s[0])] + ToUpper(s[1..])
  }

  /** A string that upper-casing leaves as it is. */
  predicate IsUpper(s: string) {
    ToUpper(s) == s
  }

  lemma UpperCharIdempotent(c: char)
    ensures UpperChar(UpperChar(c)) == UpperChar(c)
  {
  }

  /** Upper-casing twice is upper-casing once, so every stored upper-cased
      column is a fixed point of `toUpperCase`. */
  lemma {:induction false} ToUpperIsUpper(s: string)
    ensures IsUpper(ToUpper(s))
  {
    var u := ToUpper(s);
    forall i | 0 <= i < |u|
      ensures ToUpper(u)[i] == u[i]
    {
      UpperCharIdempotent(s[i]);
    }
  }

  /** The upper case of an ASCII lower-case letter is its capital, and
      upper-casing keeps capitals, digits and punctuation of ASCII as they are. */
  lemma UpperCharAscii(c: char)
    requires c < '\U{0080}'
    ensures 'a' <= c <= 'z' ==> UpperChar(c) as int == c as int - 32
    ensures !('a' <= c <= 'z') ==> UpperChar(c) == c
  {
  }

  /** `s.replace(/\+/g, '-')`: every `+` becomes `-`. */
  function DashForPlus(s: string): (r: string)
    ensures |r| == |s|
    ensures forall i :: 0 <= i < |s| ==> r[i] == (if s[i] == '+' then '-' else s[i])
  {
    if s == [] then [] else [if s[0] == '+' then '-' else s[0]] + DashForPlus(s[1..])
  }

  /** No `+` survives the rewrite. */
  lemma DashForPlusRemovesPlus(s: string)
    ensures '+' !in DashForPlus(s)
  {
  }

  /** A link without `+` is left exactly as it is, so rewriting twice is
      rewriting once. */
  lemma DashForPlusIdempotent(s: string)
    ensures '+' !in s ==> DashForPlus(s) == s
    ensures DashForPlus(DashForPlus(s)) == DashForPlus(s)
  {
    DashForPlusRemovesPlus(s);
    var r := DashForPlus(s);
    assert DashForPlus(r) == r by {
      assert forall i :: 0 <= i < |r| ==> r[i] != '+';
    }
    if '+' !in s {
      assert forall i :: 0 <= i < |s| ==> s[i] != '+';
    }
  }

  lemma UpperLabel(s: string, t: string)
    requires |s| == |t| && forall i :: 0 <= i < |s| ==> t[i] == UpperChar(s[i])
    ensures ToUpper(s) == t
  {
  }

  /** Upper case of the labels `Apartamento`, `Aluguel` and `Venda`. */
  lemma UpperApartamento()
    ensures ToUpper("Apartamento") == "APARTAMENTO"
  {
    UpperLabel("Apartamento", "APARTAMENTO");
  }

  lemma UpperAluguel()
    ensures ToUpper("Aluguel") == "ALUGUEL"
  {
    UpperLabel("Aluguel", "ALUGUEL");
  }

  lemma UpperVenda()
    ensures ToUpper("Venda") == "VENDA"
  {
    UpperLabel("Venda", "VENDA");
  }

  lemma DashedLink(s: string, t: string)
    requires |s| == |t| && forall i :: 0 <= i < |s| ==> t[i] == (if s[i] == '+' then '-' else s[i])
    ensures DashForPlus(s) == t
  {
  }

  lemma DashForPlusExample()
    ensures DashForPlus("imovel+venda+123") == "imovel-venda-123"
  {
    DashedLink("imovel+venda+123", "imovel-venda-123");
  }
}
