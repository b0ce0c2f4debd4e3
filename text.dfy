/**
 * String operations behind PostgreSQL's `ILIKE '%s%'`, `ORDER BY text ASC`
 * and JavaScript's `Array.prototype.join`.
 */
module Text {

  /** ASCII lower-casing; other characters are left as they are. */
  function LowerChar(c: char): char {
    if 'A' <= c <= 'Z' then (c as int + 32) as char else c
  }

  function Lower(s: string): (r: string)
    ensures |r| == |s|
    ensures forall i :: 0 <= i < |s| ==> r[i] == LowerChar(s[i])
  {
    seq(|s|, i requires 0 <= i < |s| => LowerChar(s[i]))
  }

  /** `needle` occurs in `hay` at position `at`. */
  predicate OccursAt(hay: string, needle: string, at: nat) {
    at + |needle| <= |hay| && hay[at..at + |needle|] == needle
  }

  /** `needle` is a substring of `hay`, found by trying every start position from the left. */
  function Contains(hay: string, needle: string): (b: bool)
    ensures b <==> exists at: nat :: OccursAt(hay, needle, at)
    decreases |hay|
  {
    if OccursAt(hay, needle, 0) then true
    else if hay == [] then false
    else
      var rest := Contains(hay[1..], needle);
      assert forall at: nat :: OccursAt(hay[1..], needle, at) <==> OccursAt(hay, needle, at + 1) by {
        forall at: nat
          ensures OccursAt(hay[1..], needle, at) <==> OccursAt(hay, needle, at + 1)
        {
          if at + 1 + |needle| <= |hay| {
            assert hay[1..][at..at + |needle|] == hay[at + 1..at + 1 + |needle|];
          }
        }
      }
      if rest then true
      else
        assert forall at: nat :: OccursAt(hay, needle, at) ==> at == 0 || OccursAt(hay[1..], needle, at - 1);
        false
  }

  /** `ILIKE '%needle%'` read as a plain case-insensitive substring test. */
  predicate ContainsIgnoringCase(hay: string, needle: string) {
    Contains(Lower(hay), Lower(needle))
  }

  /** Lexicographic order by character code: the collation-free `ORDER BY text ASC`. */
  predicate LexLe(a: string, b: string) {
    if a == [] then true
    else if b == [] then false
    else if a[0] != b[0] then a[0] < b[0]
    else LexLe(a[1..], b[1..])
  }

  lemma {:induction false} LexLeTotal(a: string, b: string)
    ensures LexLe(a, b) || LexLe(b, a)
  {
    if a != [] && b != [] && a[0] == b[0] {
      LexLeTotal(a[1..], b[1..]);
    }
  }

  lemma {:induction false} LexLeTransitive(a: string, b: string, c: string)
    requires LexLe(a, b) && LexLe(b, c)
    ensures LexLe(a, c)
  {
    if a != [] && b != [] && c != [] && a[0] == b[0] && b[0] == c[0] {
      LexLeTransitive(a[1..], b[1..], c[1..]);
    }
  }

  lemma {:induction false} LexLeAntisymmetric(a: string, b: string)
    requires LexLe(a, b) && LexLe(b, a)
    ensures a == b
  {
    if a != [] && b != [] {
      LexLeAntisymmetric(a[1..], b[1..]);
      assert a == [a[0]] + a[1..] && b == [b[0]] + b[1..];
    }
  }

  /** The parts separated by `sep` (`Array.prototype.join`). */
  function Join(parts: seq<string>, sep: string): (r: string)
    ensures |parts| == 1 ==> r == parts[0]
    ensures parts == [] ==> r == ""
  {
    if parts == [] then ""
    else if |parts| == 1 then parts[0]
    else parts[0] + sep + Join(parts[1..], sep)
  }
}
