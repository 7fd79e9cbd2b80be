/**
 * Topic handling of the chat component: the sender of a received message is the
 * second `/`-separated segment of the topic it arrived on (`topic.split('/')[1]`).
 */
module Topic {
  import opened Wrappers

  const Separator: char := '/'

  /**
   * JavaScript's `s.split(sep)` for a one-character separator: the maximal runs of
   * characters other than `sep`, in order, empty runs included, so that there is always
   * one part more than there are separators.
   */
  function Split(s: string, sep: char): (parts: seq<string>)
    ensures |parts| >= 1
    decreases |s|
  {
    if s == [] then [[]]
    else if s[0] == sep then [[]] + Split(s[1..], sep)
    else
      var rest := Split(s[1..], sep);
      [[s[0]] + rest[0]] + rest[1..]
  }

  /** JavaScript's `parts.join(sep)`. */
  function Join(parts: seq<string>, sep: char): (s: string)
    requires |parts| >= 1
  {
    if |parts| == 1 then parts[0] else parts[0] + [sep] + Join(parts[1..], sep)
  }

  /** No part contains the separator, and there is more than one part exactly when the string has a separator. */
  lemma {:induction false} SplitParts(s: string, sep: char)
    ensures var parts := Split(s, sep);
      (|parts| == 1 <==> sep !in s) &&
      forall i :: 0 <= i < |parts| ==> sep !in parts[i]
    decreases |s|
  {
    if s != [] {
      SplitParts(s[1..], sep);
      assert s == [s[0]] + s[1..];
    }
  }

  /** Putting a character in front of the first part puts it in front of the join. */
  lemma JoinPrepend(c: char, parts: seq<string>, sep: char)
    requires |parts| >= 1
    ensures Join([[c] + parts[0]] + parts[1..], sep) == [c] + Join(parts, sep)
  {
    var parts' := [[c] + parts[0]] + parts[1..];
    assert parts'[0] == [c] + parts[0];
    if |parts| > 1 {
      assert parts'[1..] == parts[1..];
      assert ([c] + parts[0]) + [sep] + Join(parts[1..], sep) == [c] + (parts[0] + [sep] + Join(parts[1..], sep));
    }
  }

  /** Joining the parts of a split gives back the original string. */
  lemma {:induction false} JoinSplit(s: string, sep: char)
    ensures Join(Split(s, sep), sep) == s
    decreases |s|
  {
    if s == [] {
    } else if s[0] == sep {
      JoinSplit(s[1..], sep);
      assert s == [sep] + s[1..];
    } else {
      JoinSplit(s[1..], sep);
      JoinPrepend(s[0], Split(s[1..], sep), sep);
      assert s == [s[0]] + s[1..];
    }
  }

  /** A run without the separator, followed by the separator, splits off as the first part. */
  lemma {:induction false} SplitAfterRun(a: string, b: string, sep: char)
    requires sep !in a
    ensures Split(a + [sep] + b, sep) == [a] + Split(b, sep)
    decreases |a|
  {
    var s := a + [sep] + b;
    if a == [] {
      assert s == [sep] + b;
      assert s[1..] == b;
    } else {
      assert s[0] == a[0] != sep;
      assert s[1..] == a[1..] + [sep] + b;
      SplitAfterRun(a[1..], b, sep);
      var rest := Split(s[1..], sep);
      assert rest == [a[1..]] + Split(b, sep);
      assert [a[0]] + a[1..] == a;
      assert Split(s, sep) == [[s[0]] + rest[0]] + rest[1..];
    }
  }

  /** A string without the separator is its own single part. */
  lemma {:induction false} SplitRun(a: string, sep: char)
    requires sep !in a
    ensures Split(a, sep) == [a]
    decreases |a|
  {
    if a != [] {
      SplitRun(a[1..], sep);
      assert [a[0]] + a[1..] == a;
    }
  }

  /** Splitting the join of separator-free parts gives back exactly those parts. */
  lemma {:induction false} SplitJoin(parts: seq<string>, sep: char)
    requires |parts| >= 1
    requires forall i :: 0 <= i < |parts| ==> sep !in parts[i]
    ensures Split(Join(parts, sep), sep) == parts
    decreases |parts|
  {
    if |parts| == 1 {
      SplitRun(parts[0], sep);
    } else {
      SplitJoin(parts[1..], sep);
      SplitAfterRun(parts[0], Join(parts[1..], sep), sep);
      assert [parts[0]] + parts[1..] == parts;
    }
  }

  /**
   * The `sender` of a received message: `topic.split('/')[1]`, which is `undefined`
   * when the topic has no separator.
   */
  function Sender(topic: string): (r: Option<string>)
    ensures r.None? <==> Separator !in topic
    ensures r.Some? ==> Separator !in r.value
  {
    var parts := Split(topic, Separator);
    SplitParts(topic, Separator);
    if |parts| >= 2 then Some(parts[1]) else None
  }

  /**
   * The sender is the segment between the first and the second separator (or the end
   * of the topic): `first/second` and `first/second/...` both give `second`.
   */
  lemma SenderOf(first: string, second: string, rest: string)
    requires Separator !in first && Separator !in second
    requires rest == [] || rest[0] == Separator
    ensures Sender(first + [Separator] + second + rest) == Some(second)
  {
    var topic := first + [Separator] + second + rest;
    assert topic == first + [Separator] + (second + rest);
    SplitAfterRun(first, second + rest, Separator);
    if rest == [] {
      assert second + rest == second;
      SplitRun(second, Separator);
    } else {
      assert second + rest == second + [Separator] + rest[1..];
      SplitAfterRun(second, rest[1..], Separator);
    }
  }
}
