/** The two PHP string builtins the formatter relies on: `trim` and `implode`. */
module Text {

  /** The characters PHP's `trim` strips by default: " \t\n\r\0\x0B". */
  predicate IsTrimChar(c: char)
  {
    c == ' ' || c == '\t' || c == '\n' || c == '\r' || c as int == 0 || c as int == 0x0B
  }

  /** Length of the longest prefix made of trim characters. */
  function LeadingTrim(s: string): (n: nat)
    ensures n <= |s|
    ensures forall i :: 0 <= i < n ==> IsTrimChar(s[i])
    ensures n < |s| ==> !IsTrimChar(s[n])
  {
    if s != [] && IsTrimChar(s[0]) then
      var n := 1 + LeadingTrim(s[1..]);
      assert forall i :: 1 <= i < |s| ==> s[i] == s[1..][i - 1];
      n
    else 0
  }

  /** Length of the longest suffix made of trim characters. */
  function TrailingTrim(s: string): (n: nat)
    ensures n <= |s|
    ensures forall i :: |s| - n <= i < |s| ==> IsTrimChar(s[i])
    ensures n < |s| ==> !IsTrimChar(s[|s| - n - 1])
  {
    if s != [] && IsTrimChar(s[|s| - 1]) then
      var n := 1 + TrailingTrim(s[..|s| - 1]);
      assert forall i :: 0 <= i < |s| - 1 ==> s[i] == s[..|s| - 1][i];
      n
    else 0
  }

  /**
    PHP's `trim`: the result is the part of `s` that is left when the
    longest leading and trailing runs of trim characters are removed.
   */
  function Trim(s: string): (r: string)
    ensures LeadingTrim(s) + |r| <= |s|
    ensures r == s[LeadingTrim(s)..LeadingTrim(s) + |r|]
    ensures forall i :: 0 <= i < LeadingTrim(s) ==> IsTrimChar(s[i])
    ensures forall i :: LeadingTrim(s) + |r| <= i < |s| ==> IsTrimChar(s[i])
    ensures r != [] ==> !IsTrimChar(r[0]) && !IsTrimChar(r[|r| - 1])
    ensures r == [] <==> forall i :: 0 <= i < |s| ==> IsTrimChar(s[i])
  {
    var a := LeadingTrim(s);
    var t := s[a..];
    var b := TrailingTrim(t);
    assert forall i :: a <= i < |s| ==> s[i] == t[i - a];
    t[..|t| - b]
  }

  /** PHP's `implode(' ', ts)`: the texts separated by single spaces. */
  function Join(ts: seq<string>): string
  {
    if ts == [] then ""
    else if |ts| == 1 then ts[0]
    else ts[0] + " " + Join(ts[1..])
  }

  /** Joining two non-empty runs of texts puts a single space between their joins. */
  lemma {:induction false} JoinAppend(a: seq<string>, b: seq<string>)
    requires a != [] && b != []
    ensures Join(a + b) == Join(a) + " " + Join(b)
    decreases |a|
  {
    if |a| == 1 {
      assert (a + b)[1..] == b;
    } else {
      assert (a + b)[1..] == a[1..] + b;
      JoinAppend(a[1..], b);
    }
  }

  /** Cuts a string at every single space: PHP's `explode(' ', s)`, the inverse of `Join`. */
  function Split(s: string): (ts: seq<string>)
    ensures ts != []
    decreases |s|
  {
    if s == [] then [""]
    else
      var rest := Split(s[1..]);
      if s[0] == ' ' then [""] + rest
      else [[s[0]] + rest[0]] + rest[1..]
  }

  predicate HasNoSpace(t: string)
  {
    forall i :: 0 <= i < |t| ==> t[i] != ' '
  }

  /** A text without spaces splits to itself. */
  lemma {:induction false} SplitNoSpace(t: string)
    requires HasNoSpace(t)
    ensures Split(t) == [t]
    decreases |t|
  {
    if t != [] {
      SplitNoSpace(t[1..]);
      assert [t[0]] + t[1..] == t;
    }
  }

  /** Splitting a joined text at its spaces gives the texts back when none contains a space. */
  lemma {:induction false} SplitJoin(ts: seq<string>)
    requires ts != []
    requires forall k :: 0 <= k < |ts| ==> HasNoSpace(ts[k])
    ensures Split(Join(ts)) == ts
    decreases |ts|
  {
    if |ts| == 1 {
      SplitNoSpace(ts[0]);
    } else {
      SplitJoin(ts[1..]);
      SplitAfter(ts[0], Join(ts[1..]));
      assert [ts[0]] + ts[1..] == ts;
    }
  }

  /** A word followed by a space and a rest splits into the word and the rest's pieces. */
  lemma {:induction false} SplitAfter(w: string, rest: string)
    requires HasNoSpace(w)
    ensures Split(w + " " + rest) == [w] + Split(rest)
    decreases |w|
  {
    if w == [] {
      assert w + " " + rest == [' '] + rest;
      assert (w + " " + rest)[1..] == rest;
    } else {
      SplitAfter(w[1..], rest);
      var s := w + " " + rest;
      assert s[1..] == w[1..] + " " + rest;
      assert [w[0]] + w[1..] == w;
    }
  }
}
