/**
 * The three functions of Go's `strings` package that the alert engine relies on,
 * each given the meaning it has in Go.
 */
module Strings {

  /** strings.Replace(s, "\n", " ", -1): each newline becomes one space, every other character stays in place. */
  function ReplaceNewlines(s: string): (r: string)
    ensures |r| == |s|
    ensures '\n' !in r
  {
    seq(|s|, i requires 0 <= i < |s| => if s[i] == '\n' then ' ' else s[i])
  }

  /** `sub` occurs in `s` starting at index i. */
  ghost predicate OccursAt(s: string, sub: string, i: int)
  {
    0 <= i && i + |sub| <= |s| && s[i..i + |sub|] == sub
  }

  /** strings.Contains(s, sub). */
  function Contains(s: string, sub: string): (r: bool)
    ensures r <==> exists i :: OccursAt(s, sub, i)
    decreases |s|
  {
    if |s| < |sub| then
      assert forall i :: !OccursAt(s, sub, i);
      false
    else if s[..|sub|] == sub then
      assert OccursAt(s, sub, 0);
      true
    else
      var rest := Contains(s[1..], sub);
      ShiftOccurrence(s, sub);
      rest
  }

  /** An occurrence in s[1..] is an occurrence in s one place further, and conversely for i > 0. */
  lemma ShiftOccurrence(s: string, sub: string)
    requires |s| > 0
    requires !OccursAt(s, sub, 0)
    ensures (exists i :: OccursAt(s[1..], sub, i)) <==> (exists i :: OccursAt(s, sub, i))
  {
    if exists i :: OccursAt(s[1..], sub, i) {
      var i :| OccursAt(s[1..], sub, i);
      assert s[i + 1..i + 1 + |sub|] == s[1..][i..i + |sub|];
      assert OccursAt(s, sub, i + 1);
    }
    if exists i :: OccursAt(s, sub, i) {
      var i :| OccursAt(s, sub, i);
      assert i > 0;
      assert s[1..][i - 1..i - 1 + |sub|] == s[i..i + |sub|];
      assert OccursAt(s[1..], sub, i - 1);
    }
  }

  /** The strings of `parts` one after the other, as a loop of `s += part` builds them. */
  function Concatenation(parts: seq<string>): string
    decreases |parts|
  {
    if parts == [] then "" else Concatenation(parts[..|parts| - 1]) + parts[|parts| - 1]
  }

  /** Concatenation distributes over `+` of the parts. */
  lemma {:induction false} ConcatenationAppend(a: seq<string>, b: seq<string>)
    ensures Concatenation(a + b) == Concatenation(a) + Concatenation(b)
    decreases |b|
  {
    if b == [] {
      assert a + b == a;
    } else {
      var b' := b[..|b| - 1];
      var last := b[|b| - 1];
      assert (a + b)[..|a + b| - 1] == a + b';
      assert (a + b)[|a + b| - 1] == last;
      ConcatenationAppend(a, b');
      calc {
        Concatenation(a + b);
        Concatenation(a + b') + last;
        Concatenation(a) + Concatenation(b') + last;
        Concatenation(a) + (Concatenation(b') + last);
        Concatenation(a) + Concatenation(b);
      }
    }
  }

  /** strings.Join(parts, sep). */
  function Join(parts: seq<string>, sep: string): (r: string)
    ensures parts == [] ==> r == ""
    ensures |parts| == 1 ==> r == parts[0]
    ensures |parts| > 0 ==> |r| >= |parts[0]| && r[..|parts[0]|] == parts[0]
  {
    if parts == [] then ""
    else if |parts| == 1 then parts[0]
    else parts[0] + sep + Join(parts[1..], sep)
  }

  /** errors.Wrap(err, context).Error() of github.com/pkg/errors. */
  function Wrap(context: string, message: string): (r: string)
    ensures |r| == |context| + 2 + |message|
    ensures r[..|context|] == context && r[|context|..|context| + 2] == ": " && r[|context| + 2..] == message
  {
    context + ": " + message
  }
}
