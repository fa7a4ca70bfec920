/** The optional value used wherever the JavaScript program has `undefined` or an error-first callback. */
module Optional {
  datatype Option<+T> = None | Some(value: T)
}

/**
 * The JavaScript string operations the proxy uses (`startsWith`, `indexOf`
 * and `Array.prototype.join`), and the tools the lemmas use to read strings
 * back: `EndsWith`, and splitting at a one-character separator. The script
 * itself never calls `endsWith` or `split`.
 */
module Text {

  /** `s.startsWith(prefix)` */
  predicate StartsWith(s: string, prefix: string) {
    |prefix| <= |s| && s[..|prefix|] == prefix
  }

  /** `suffix` is the end of `s`. */
  predicate EndsWith(s: string, suffix: string) {
    |suffix| <= |s| && s[|s| - |suffix|..] == suffix
  }

  /** `needle` occurs in `s` starting at index `j`. */
  ghost predicate OccursAt(s: string, needle: string, j: int) {
    0 <= j && j + |needle| <= |s| && s[j..j + |needle|] == needle
  }

  ghost predicate Occurs(s: string, needle: string) {
    exists j :: OccursAt(s, needle, j)
  }

  /** `s.indexOf(needle, from)`: the first occurrence at or after `from`, or -1. */
  function IndexFrom(s: string, needle: string, from: nat): (r: int)
    ensures r == -1 || (from <= r && OccursAt(s, needle, r))
    ensures r == -1 ==> forall j :: from <= j ==> !OccursAt(s, needle, j)
    ensures r != -1 ==> forall j :: from <= j < r ==> !OccursAt(s, needle, j)
    decreases |s| - from
  {
    if from + |needle| > |s| then -1
    else if s[from..from + |needle|] == needle then from
    else IndexFrom(s, needle, from + 1)
  }

  /** `s.indexOf(needle)`: -1 exactly when `needle` does not occur, otherwise its first position. */
  function IndexOf(s: string, needle: string): (r: int)
    ensures r == -1 <==> !Occurs(s, needle)
    ensures r != -1 ==> OccursAt(s, needle, r) && forall j :: 0 <= j < r ==> !OccursAt(s, needle, j)
  {
    IndexFrom(s, needle, 0)
  }

  /** A needle placed between two strings is found, no later than where it was placed. */
  lemma IndexOfPlaced(a: string, needle: string, b: string)
    ensures 0 <= IndexOf(a + needle + b, needle) <= |a|
  {
    var s := a + needle + b;
    assert s[|a|..|a| + |needle|] == needle;
    assert OccursAt(s, needle, |a|);
  }

  /** `parts.join(sep)` */
  function Join(parts: seq<string>, sep: string): string {
    if |parts| == 0 then ""
    else if |parts| == 1 then parts[0]
    else parts[0] + sep + Join(parts[1..], sep)
  }

  /** Joining two non-empty lists is joining each and putting the separator between. */
  lemma {:induction false} JoinConcat(a: seq<string>, b: seq<string>, sep: string)
    requires |a| > 0 && |b| > 0
    ensures Join(a + b, sep) == Join(a, sep) + sep + Join(b, sep)
  {
    if |a| > 1 {
      assert (a + b)[1..] == a[1..] + b;
      JoinConcat(a[1..], b, sep);
    } else {
      assert (a + b)[1..] == b;
    }
  }

  /** The pieces of `s` between occurrences of `c`, as JavaScript's `split` gives them: never empty; splitting `""` gives `[""]`. */
  function Split(s: string, c: char): (r: seq<string>)
    ensures |r| >= 1
  {
    if |s| == 0 then [""]
    else
      var rest := Split(s[1..], c);
      if s[0] == c then [""] + rest
      else [[s[0]] + rest[0]] + rest[1..]
  }

  /** A string without the separator is one piece. */
  lemma {:induction false} SplitWithoutSeparator(s: string, c: char)
    requires c !in s
    ensures Split(s, c) == [s]
  {
    if |s| > 0 {
      SplitWithoutSeparator(s[1..], c);
      assert [s[0]] + s[1..] == s;
    }
  }

  /** Splitting at a separator placed between two strings splits each side on its own. */
  lemma {:induction false} SplitConcat(a: string, b: string, c: char)
    ensures Split(a + [c] + b, c) == Split(a, c) + Split(b, c)
  {
    if |a| == 0 {
      assert a + [c] + b == [c] + b;
      assert ([c] + b)[1..] == b;
    } else {
      var s := a + [c] + b;
      assert s[0] == a[0];
      assert s[1..] == a[1..] + [c] + b;
      SplitConcat(a[1..], b, c);
    }
  }

  /** The pieces of every part, in order. */
  function SplitEach(parts: seq<string>, c: char): seq<string> {
    if |parts| == 0 then [] else Split(parts[0], c) + SplitEach(parts[1..], c)
  }

  /** Splitting a join at its separator gives the pieces of each joined part, in order. */
  lemma {:induction false} SplitJoin(parts: seq<string>, c: char)
    requires |parts| > 0
    ensures Split(Join(parts, [c]), c) == SplitEach(parts, c)
  {
    if |parts| > 1 {
      SplitJoin(parts[1..], c);
      SplitConcat(parts[0], Join(parts[1..], [c]), c);
    }
  }

  /** The pieces of two lists of parts are the pieces of each, in order. */
  lemma {:induction false} SplitEachConcat(a: seq<string>, b: seq<string>, c: char)
    ensures SplitEach(a + b, c) == SplitEach(a, c) + SplitEach(b, c)
  {
    if |a| > 0 {
      assert (a + b)[0] == a[0];
      assert (a + b)[1..] == a[1..] + b;
      SplitEachConcat(a[1..], b, c);
    } else {
      assert a + b == b;
    }
  }

  /** Parts without the separator are each their own single piece. */
  lemma {:induction false} SplitEachWords(parts: seq<string>, c: char)
    requires forall i :: 0 <= i < |parts| ==> c !in parts[i]
    ensures SplitEach(parts, c) == parts
  {
    if |parts| > 0 {
      SplitWithoutSeparator(parts[0], c);
      SplitEachWords(parts[1..], c);
    }
  }
}
