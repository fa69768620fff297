/** Whitespace stripping, as the invoice class does it for identifier-like fields. */
module Strings {

  /** The characters `\s` matches in a PCRE pattern without the `u` flag:
      space, tab, line feed, vertical tab, form feed and carriage return. */
  predicate IsWhitespace(c: char)
  {
    c == ' ' || c == '\t' || c == '\n' || c == '\U{0B}' || c == '\U{0C}' || c == '\r'
  }

  predicate NoWhitespace(s: string)
  {
    forall i :: 0 <= i < |s| ==> !IsWhitespace(s[i])
  }

  /** `preg_replace('/\s+/', '', s)`: every run of whitespace is replaced by
      nothing. The result holds no whitespace and is no longer than `s`. */
  function RemoveSpaces(s: string): (r: string)
    ensures NoWhitespace(r)
    ensures |r| <= |s|
  {
    if s == [] then []
    else
      var rest := RemoveSpaces(s[1..]);
      assert s == [s[0]] + s[1..];
      if IsWhitespace(s[0]) then rest else [s[0]] + rest
  }

  /** Stripping keeps every other character, with its multiplicity. */
  lemma {:induction false} RemoveSpacesKeepsOthers(s: string)
    ensures forall c :: !IsWhitespace(c) ==> multiset(RemoveSpaces(s))[c] == multiset(s)[c]
  {
    if s != [] {
      RemoveSpacesKeepsOthers(s[1..]);
      assert s == [s[0]] + s[1..];
    }
  }

  /** A string is left as it is exactly when it holds no whitespace. */
  lemma {:induction false} RemoveSpacesFixpoint(s: string)
    ensures RemoveSpaces(s) == s <==> NoWhitespace(s)
  {
    if s != [] {
      RemoveSpacesFixpoint(s[1..]);
      if IsWhitespace(s[0]) {
        assert |RemoveSpaces(s)| < |s| by {
          assert RemoveSpaces(s) == RemoveSpaces(s[1..]);
        }
      }
    }
  }

  /** Stripping twice is stripping once. */
  lemma RemoveSpacesIdempotent(s: string)
    ensures RemoveSpaces(RemoveSpaces(s)) == RemoveSpaces(s)
  {
    RemoveSpacesFixpoint(RemoveSpaces(s));
  }

  /** Stripping works piecewise: it distributes over concatenation. */
  lemma {:induction false} RemoveSpacesConcat(a: string, b: string)
    ensures RemoveSpaces(a + b) == RemoveSpaces(a) + RemoveSpaces(b)
  {
    if a != [] {
      assert (a + b)[1..] == a[1..] + b;
      RemoveSpacesConcat(a[1..], b);
    } else {
      assert a + b == b;
    }
  }
}
