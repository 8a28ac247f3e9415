/**
 * Small value types shared by the modules of this model: Java's nullable
 * references become Option, and the blank test that the repository's
 * StringHelper.containsNonWhitespace performs is defined once here.
 */
module Common {

  /** A Java reference that may be null. */
  datatype Option<+T> = None | Some(value: T)

  /** Character.isWhitespace restricted to the ASCII range (space, the
      control characters \t \n \u000B \f \r and the separators \u001C-\u001F). */
  predicate IsWhitespace(c: char)
  {
    c == ' ' || c == '\t' || c == '\n' || c == '\U{B}' || c == '\U{C}' || c == '\r'
    || ('\U{1C}' <= c <= '\U{1F}')
  }

  /** StringHelper.containsNonWhitespace on a non-null string. */
  predicate HasText(s: string)
  {
    exists i :: 0 <= i < |s| && !IsWhitespace(s[i])
  }

  /** StringHelper.containsNonWhitespace on a nullable string: null is blank. */
  predicate ContainsNonWhitespace(s: Option<string>)
  {
    s.Some? && HasText(s.value)
  }

  /** String.toLowerCase on the ASCII letters; other characters are kept. */
  function LowerAscii(s: string): (r: string)
    ensures |r| == |s|
    ensures forall i :: 0 <= i < |s| ==>
      r[i] == (if 'A' <= s[i] <= 'Z' then (s[i] - 'A' + 'a') as char else s[i])
  {
    if s == [] then [] else
      [if 'A' <= s[0] <= 'Z' then (s[0] - 'A' + 'a') as char else s[0]] + LowerAscii(s[1..])
  }

  /** String.contains: `t` occurs in `s` at some position. */
  predicate ContainsSubstring(s: string, t: string)
  {
    exists i :: 0 <= i <= |s| && OccursAt(s, t, i)
  }

  /** `t` occurs in `s` starting at index `i`. */
  predicate OccursAt(s: string, t: string, i: int)
  {
    0 <= i && i + |t| <= |s| && s[i..i + |t|] == t
  }

  /** The set of elements of a sequence. */
  function Elements<T>(xs: seq<T>): (r: set<T>)
    ensures forall i :: 0 <= i < |xs| ==> xs[i] in r
    ensures forall x :: x in r ==> exists i :: 0 <= i < |xs| && xs[i] == x
  {
    set x | x in xs
  }

  lemma ElementsOfAppend<T>(a: seq<T>, b: seq<T>)
    ensures Elements(a + b) == Elements(a) + Elements(b)
  {
    assert forall x :: x in a + b <==> x in a || x in b;
  }

  /** No element occurs twice. */
  predicate Distinct<T(==)>(xs: seq<T>)
  {
    forall i, j :: 0 <= i < j < |xs| ==> xs[i] != xs[j]
  }

  /** Turns a set into a list without duplicates, in an order the model does
      not fix: this is `new ArrayList<>(hashSet)`, whose order depends on
      hash codes. */
  method ListOfSet<T>(s: set<T>) returns (xs: seq<T>)
    ensures Distinct(xs)
    ensures Elements(xs) == s
    ensures |xs| == |s|
  {
    xs := [];
    var rest := s;
    while rest != {}
      invariant rest <= s
      invariant Distinct(xs)
      invariant Elements(xs) == s - rest
      invariant |xs| + |rest| == |s|
      decreases |rest|
    {
      var x :| x in rest;
      assert Elements(xs + [x]) == Elements(xs) + {x};
      xs := xs + [x];
      rest := rest - {x};
    }
  }
}
