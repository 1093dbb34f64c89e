/**
 * Character and string helpers used by the Go server and the browser client:
 * ASCII case mapping, the two languages' notions of white space, trimming and
 * splitting on a separator character.
 */
module Text {

  predicate IsUpper(c: char) { 'A' <= c <= 'Z' }

  function LowerChar(c: char): (r: char)
    ensures IsUpper(c) ==> r as int == c as int + 32
    ensures !IsUpper(c) ==> r == c
    ensures !IsUpper(r)
  {
    if IsUpper(c) then (c as int + 32) as char else c
  }

  /** Lower-case mapping of ASCII letters; every other character is kept. */
  function Lower(s: string): (r: string)
    ensures |r| == |s|
    ensures forall i :: 0 <= i < |s| ==> r[i] == LowerChar(s[i])
  {
    seq(|s|, i requires 0 <= i < |s| => LowerChar(s[i]))
  }

  lemma LowerIdempotent(s: string)
    ensures Lower(Lower(s)) == Lower(s)
  {
  }

  /** Case-insensitive equality restricted to ASCII letters. */
  predicate EqualFold(a: string, b: string) { Lower(a) == Lower(b) }

  /** White space as Go's unicode.IsSpace defines it. */
  predicate IsGoSpace(c: char) {
    c == '\t' || c == '\n' || c == '\U{0B}' || c == '\U{0C}' || c == '\r' || c == ' '
    || c == '\U{85}' || c == '\U{A0}' || c == '\U{1680}'
    || ('\U{2000}' <= c <= '\U{200A}')
    || c == '\U{2028}' || c == '\U{2029}' || c == '\U{202F}' || c == '\U{205F}' || c == '\U{3000}'
  }

  /** White space and line terminators as String.prototype.trim and parseInt skip them. */
  predicate IsJsSpace(c: char) {
    c == '\t' || c == '\n' || c == '\U{0B}' || c == '\U{0C}' || c == '\r' || c == ' '
    || c == '\U{A0}' || c == '\U{1680}'
    || ('\U{2000}' <= c <= '\U{200A}')
    || c == '\U{2028}' || c == '\U{2029}' || c == '\U{202F}' || c == '\U{205F}' || c == '\U{3000}'
    || c == '\U{FEFF}'
  }

  /** Which of the two white-space sets a trim drops. */
  datatype Blanks = GoBlanks | JsBlanks

  predicate IsSpace(b: Blanks, c: char) {
    match b
    case GoBlanks => IsGoSpace(c)
    case JsBlanks => IsJsSpace(c)
  }

  /** Drops the leading characters that are white space of kind `b`. */
  function TrimLeft(s: string, b: Blanks): (r: string)
    ensures |r| <= |s| && r == s[|s| - |r|..]
    ensures r != [] ==> !IsSpace(b, r[0])
    ensures forall i :: 0 <= i < |s| - |r| ==> IsSpace(b, s[i])
  {
    if s != [] && IsSpace(b, s[0]) then TrimLeft(s[1..], b) else s
  }

  /** Text that does not start with white space is left as it is. */
  lemma TrimLeftStops(s: string, b: Blanks)
    requires s != [] && !IsSpace(b, s[0])
    ensures TrimLeft(s, b) == s
  {
  }

  /** Drops the trailing characters that are white space of kind `b`. */
  function TrimRight(s: string, b: Blanks): (r: string)
    ensures |r| <= |s| && r == s[..|r|]
    ensures r != [] ==> !IsSpace(b, r[|r| - 1])
    ensures forall i :: |r| <= i < |s| ==> IsSpace(b, s[i])
  {
    if s != [] && IsSpace(b, s[|s| - 1]) then TrimRight(s[..|s| - 1], b) else s
  }

  /** Go's strings.TrimSpace. */
  function TrimSpace(s: string): string { TrimRight(TrimLeft(s, GoBlanks), GoBlanks) }

  /** JavaScript's String.prototype.trim. */
  function TrimJs(s: string): string { TrimRight(TrimLeft(s, JsBlanks), JsBlanks) }

  /** Go's strings.Split(s, string(sep)): the pieces between the separators, in order. */
  function Split(s: string, sep: char): (r: seq<string>)
    ensures |r| >= 1
    ensures forall i :: 0 <= i < |r| ==> sep !in r[i]
  {
    if s == [] then [[]]
    else
      var rest := Split(s[1..], sep);
      if s[0] == sep then [[]] + rest
      else [[s[0]] + rest[0]] + rest[1..]
  }

  /** Go's strings.Join(parts, string(sep)). */
  function Join(parts: seq<string>, sep: char): string
    requires |parts| >= 1
  {
    if |parts| == 1 then parts[0] else parts[0] + [sep] + Join(parts[1..], sep)
  }

  lemma {:induction false} JoinSplit(s: string, sep: char)
    ensures Join(Split(s, sep), sep) == s
  {
    if s != [] {
      JoinSplit(s[1..], sep);
      var rest := Split(s[1..], sep);
      if s[0] != sep {
        if |rest| == 1 {
        } else {
          calc {
            Join([[s[0]] + rest[0]] + rest[1..], sep);
            [s[0]] + rest[0] + [sep] + Join(rest[1..], sep);
            [s[0]] + (rest[0] + [sep] + Join(rest[1..], sep));
            [s[0]] + Join(rest, sep);
          }
        }
      }
    }
  }
}
