/** Text operations shared by the models: trimming with respect to a class of
    blank characters, joining, and letter case. */
module Text {

  /** The characters removed by Go's strings.TrimSpace and splitting strings.Fields. */
  predicate GoSpace(c: char) {
    || '\t' <= c <= '\r' || c == ' ' || c == '\U{85}' || c == '\U{A0}' || c == '\U{1680}'
    || '\U{2000}' <= c <= '\U{200A}' || c == '\U{2028}' || c == '\U{2029}' || c == '\U{202F}'
    || c == '\U{205F}' || c == '\U{3000}'
  }

  /** The characters matched by ECMAScript's `\s` and removed by String.prototype.trim. */
  predicate JsSpace(c: char) {
    || '\t' <= c <= '\r' || c == ' ' || c == '\U{A0}' || c == '\U{1680}'
    || '\U{2000}' <= c <= '\U{200A}' || c == '\U{2028}' || c == '\U{2029}' || c == '\U{202F}'
    || c == '\U{205F}' || c == '\U{3000}' || c == '\U{FEFF}'
  }

  function TrimLeft(s: string, blank: char -> bool): string {
    if s != [] && blank(s[0]) then TrimLeft(s[1..], blank) else s
  }

  function TrimRight(s: string, blank: char -> bool): string {
    if s != [] && blank(s[|s| - 1]) then TrimRight(s[..|s| - 1], blank) else s
  }

  function Trim(s: string, blank: char -> bool): string {
    TrimRight(TrimLeft(s, blank), blank)
  }

  /** A string that trimming leaves alone. */
  predicate Trimmed(s: string, blank: char -> bool) {
    s == [] || (!blank(s[0]) && !blank(s[|s| - 1]))
  }

  lemma TrimKeepsTrimmed(s: string, blank: char -> bool)
    requires Trimmed(s, blank)
    ensures Trim(s, blank) == s
  {
  }

  lemma {:induction false} TrimLeftStarts(s: string, blank: char -> bool)
    ensures var t := TrimLeft(s, blank); |t| <= |s| && t == s[|s| - |t|..] && (t == [] || !blank(t[0]))
  {
    if s != [] && blank(s[0]) {
      TrimLeftStarts(s[1..], blank);
    }
  }

  lemma {:induction false} TrimRightEnds(s: string, blank: char -> bool)
    ensures var t := TrimRight(s, blank); t <= s && (t == [] || !blank(t[|t| - 1]))
  {
    if s != [] && blank(s[|s| - 1]) {
      TrimRightEnds(s[..|s| - 1], blank);
    }
  }

  /** Trimming always yields a trimmed string, so it is idempotent. */
  lemma TrimTrims(s: string, blank: char -> bool)
    ensures Trimmed(Trim(s, blank), blank)
    ensures Trim(Trim(s, blank), blank) == Trim(s, blank)
  {
    TrimLeftStarts(s, blank);
    TrimRightEnds(TrimLeft(s, blank), blank);
    TrimKeepsTrimmed(Trim(s, blank), blank);
  }

  function Join(parts: seq<string>, separator: string): string {
    if parts == [] then ""
    else if |parts| == 1 then parts[0]
    else parts[0] + separator + Join(parts[1..], separator)
  }

  /** ASCII lower case, as applied by the case-insensitive ECMAScript patterns of the source. */
  function LowerChar(c: char): char {
    if 'A' <= c <= 'Z' then c - 'A' + 'a' else c
  }

  function Lower(s: string): string {
    seq(|s|, i requires 0 <= i < |s| => LowerChar(s[i]))
  }

  predicate IsDigit(c: char) { '0' <= c <= '9' }
}
