/**
 * The WTForms validators that the account forms use, as predicates over the
 * submitted string: DataRequired, Length, EqualTo and Regexp.
 *
 * Every Regexp in the forms has the shape `^[H][T]*$`: one character of class
 * H followed by any number of characters of class T. It is modelled as a
 * whole-string match, with the two classes kept as the literal text between
 * the brackets and parsed the way Python's `re` parses a character class.
 */
module Validators {

  predicate IsAsciiLetter(c: char) { 'a' <= c <= 'z' || 'A' <= c <= 'Z' }

  predicate IsAsciiDigit(c: char) { '0' <= c <= '9' }

  predicate IsAsciiUpper(c: char) { 'A' <= c <= 'Z' }

  /** `str.lower()` on one character, for the ASCII range. */
  function LowerChar(c: char): (r: char)
    ensures !IsAsciiUpper(r)
    ensures !IsAsciiUpper(c) ==> r == c
    ensures IsAsciiUpper(c) ==> r as int == c as int + 32
  {
    if IsAsciiUpper(c) then (c as int + 32) as char else c
  }

  /** `str.lower()`: the same string with every upper-case letter lowered. */
  function Lower(s: string): (r: string)
    ensures |r| == |s|
    ensures forall i :: 0 <= i < |s| ==> r[i] == LowerChar(s[i])
  {
    if s == [] then [] else [LowerChar(s[0])] + Lower(s[1..])
  }

  /** Lowering twice is lowering once: a stored (lowered) email is a fixed point. */
  lemma LowerIdempotent(s: string)
    ensures Lower(Lower(s)) == Lower(s)
  {
  }

  /** The characters `str.strip()` removes, restricted to ASCII. */
  predicate IsSpace(c: char) { 9 <= c as int <= 13 || 28 <= c as int <= 32 }

  /** DataRequired: the data is present and not only whitespace. */
  predicate DataRequired(s: string) { exists i :: 0 <= i < |s| && !IsSpace(s[i]) }

  /** Length(min, max): `max == -1` means "no upper bound". */
  predicate LengthOk(s: string, min: int, max: int) { min <= |s| && (max == -1 || |s| <= max) }

  /** EqualTo(other): the field equals the other field of the same form. */
  predicate EqualTo(s: string, other: string) { s == other }

  /** One element of a bracketed character class: a character or a range. */
  datatype ClassItem = Single(c: char) | Span(lo: char, hi: char)

  /** The items of a class body such as "a-zA-Z0-9_.": `x-y` is a range, anything else one character. */
  function ParseClass(body: string): (items: seq<ClassItem>)
    ensures |items| <= |body|
  {
    if |body| == 0 then []
    else if |body| >= 3 && body[1] == '-' then [Span(body[0], body[2])] + ParseClass(body[3..])
    else [Single(body[0])] + ParseClass(body[1..])
  }

  predicate Covers(item: ClassItem, c: char) {
    match item
    case Single(d) => c == d
    case Span(lo, hi) => lo <= c <= hi
  }

  predicate InClass(items: seq<ClassItem>, c: char) {
    |items| > 0 && (Covers(items[0], c) || InClass(items[1..], c))
  }

  /** Membership in a class whose first item is `x`: that item, or one of the rest. */
  lemma InClassCons(x: ClassItem, rest: seq<ClassItem>, c: char)
    ensures InClass([x] + rest, c) <==> Covers(x, c) || InClass(rest, c)
  {
    assert ([x] + rest)[1..] == rest;
  }

  /** `[a-zA-Z]`, the head class of every username pattern, is the ASCII letters. */
  lemma LetterClass(c: char)
    ensures InClass(ParseClass("a-zA-Z"), c) <==> IsAsciiLetter(c)
  {
    var body := "a-zA-Z";
    assert body[3..] == "A-Z" && body[3..][3..] == [];
    InClassCons(Span('A', 'Z'), [], c);
    InClassCons(Span('a', 'z'), [Span('A', 'Z')], c);
  }

  /** The regular expression `^[head][tail]*$`, each class given by its body text. */
  datatype Pattern = HeadStar(head: string, tail: string)

  /** `[cls]*` matches all of `s`. */
  predicate Star(items: seq<ClassItem>, s: string) {
    |s| == 0 || (InClass(items, s[0]) && Star(items, s[1..]))
  }

  /** Regexp(p): the whole string matches the pattern. */
  predicate FullMatch(p: Pattern, s: string) {
    |s| >= 1 && InClass(ParseClass(p.head), s[0]) && Star(ParseClass(p.tail), s[1..])
  }

  /** A starred class matches exactly the strings made only of its characters. */
  lemma {:induction false} StarAll(items: seq<ClassItem>, s: string)
    ensures Star(items, s) <==> forall i :: 0 <= i < |s| ==> InClass(items, s[i])
  {
    if |s| > 0 {
      StarAll(items, s[1..]);
      assert forall i :: 1 <= i < |s| ==> s[i] == s[1..][i - 1];
    }
  }

  /**
   * The meaning of a head-star pattern, given the meaning of its two classes:
   * the first character is in the head class and every later one in the tail class.
   */
  lemma FullMatchMeaning(p: Pattern, s: string, head: char -> bool, tail: char -> bool)
    requires forall c :: InClass(ParseClass(p.head), c) <==> head(c)
    requires forall c :: InClass(ParseClass(p.tail), c) <==> tail(c)
    ensures FullMatch(p, s) <==> |s| >= 1 && head(s[0]) && forall i :: 1 <= i < |s| ==> tail(s[i])
  {
    if |s| >= 1 {
      StarAll(ParseClass(p.tail), s[1..]);
      assert forall i :: 1 <= i < |s| ==> s[i] == s[1..][i - 1];
    }
  }
}
