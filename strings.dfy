/**
 * The part of Go's strings package the client uses, strings.Join, and the
 * splitting a receiver applies to the uploaded content.
 */
module Strings {

  /** strings.Join(elems, sep): the elements with sep between each neighbouring pair. */
  function Join(elems: seq<string>, sep: string): (joined: string)
    ensures |elems| > 0 ==> elems[0] <= joined && EndsWith(joined, elems[|elems| - 1])
    ensures |elems| > 1 ==> elems[0] + sep <= joined
    decreases |elems|
  {
    if |elems| == 0 then ""
    else if |elems| == 1 then elems[0]
    else
      var rest := Join(elems[1..], sep);
      var joined := elems[0] + sep + rest;
      assert joined[|joined| - |rest|..] == rest;
      joined
  }

  predicate EndsWith(s: string, suffix: string) {
    |suffix| <= |s| && s[|s| - |suffix|..] == suffix
  }

  /** The sum of the lengths of the elements. */
  function TotalLength(elems: seq<string>): (n: nat)
    ensures forall i :: 0 <= i < |elems| ==> |elems[i]| <= n
    decreases |elems|
  {
    if |elems| == 0 then 0 else |elems[0]| + TotalLength(elems[1..])
  }

  /** strings.Split(s, [sep]): the maximal pieces of s between occurrences of sep, in order. */
  function Split(s: string, sep: char): (parts: seq<string>)
    ensures |parts| >= 1
    decreases |s|
  {
    if |s| == 0 then [""]
    else
      var rest := Split(s[1..], sep);
      if s[0] == sep then [""] + rest else [[s[0]] + rest[0]] + rest[1..]
  }

  predicate Free(elems: seq<string>, c: char) {
    forall i :: 0 <= i < |elems| ==> c !in elems[i]
  }

  /** Joining no elements gives the empty string; joining one gives that element. */
  lemma JoinSmall(sep: string, e: string)
    ensures Join([], sep) == ""
    ensures Join([e], sep) == e
  {
  }

  /** The content of an upload of three tokens. */
  lemma JoinExample()
    ensures Join(["abc", "def", "ghi"], "\n") == "abc\ndef\nghi"
  {
  }

  lemma {:induction false} JoinLength(elems: seq<string>, sep: string)
    requires |elems| >= 1
    ensures |Join(elems, sep)| == TotalLength(elems) + (|elems| - 1) * |sep|
    decreases |elems|
  {
    if |elems| > 1 {
      JoinLength(elems[1..], sep);
      calc {
        |Join(elems, sep)|;
        |elems[0]| + |sep| + |Join(elems[1..], sep)|;
        |elems[0]| + |sep| + TotalLength(elems[1..]) + (|elems| - 2) * |sep|;
        { assert |sep| + (|elems| - 2) * |sep| == (|elems| - 1) * |sep|; }
        TotalLength(elems) + (|elems| - 1) * |sep|;
      }
    }
  }

  lemma {:induction false} SplitWithoutSeparator(t: string, sep: char)
    requires sep !in t
    ensures Split(t, sep) == [t]
    decreases |t|
  {
    if |t| > 0 {
      SplitWithoutSeparator(t[1..], sep);
      assert [t[0]] + t[1..] == t;
    }
  }

  lemma {:induction false} SplitAtSeparator(t: string, u: string, sep: char)
    requires sep !in t
    ensures Split(t + [sep] + u, sep) == [t] + Split(u, sep)
    decreases |t|
  {
    var s := t + [sep] + u;
    if |t| == 0 {
      assert s[1..] == u;
    } else {
      assert s[1..] == t[1..] + [sep] + u;
      SplitAtSeparator(t[1..], u, sep);
      assert [t[0]] + t[1..] == t;
    }
  }

  /** Splitting a join of separator-free elements on the separator gives the elements back. */
  lemma {:induction false} SplitJoin(elems: seq<string>, sep: char)
    requires |elems| >= 1 && Free(elems, sep)
    ensures Split(Join(elems, [sep]), sep) == elems
    decreases |elems|
  {
    if |elems| == 1 {
      SplitWithoutSeparator(elems[0], sep);
    } else {
      assert Free(elems[1..], sep) by {
        forall i | 0 <= i < |elems[1..]| ensures sep !in elems[1..][i] {
          assert elems[1..][i] == elems[i + 1];
        }
      }
      assert sep !in elems[0];
      SplitJoin(elems[1..], sep);
      SplitAtSeparator(elems[0], Join(elems[1..], [sep]), sep);
      assert [elems[0]] + elems[1..] == elems;
    }
  }
}
