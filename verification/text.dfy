/**
 * The Python string handling the tool relies on, `sep.join(parts)` and
 * `filter(None, parts)` over strings, together with `s.split("\n")`, which
 * the tool does not call: it is how a reader takes a newline-joined report
 * apart again.
 */
module Text {

  /** Python's `sep.join(parts)`. */
  function Join(parts: seq<string>, sep: string): string
  {
    if |parts| == 0 then ""
    else if |parts| == 1 then parts[0]
    else parts[0] + sep + Join(parts[1..], sep)
  }

  /**
   * Python's `list(filter(None, parts))` on strings: the empty string is the
   * only falsy string, so exactly the non-empty parts survive, in order.
   */
  function NonEmpty(parts: seq<string>): (kept: seq<string>)
    ensures |kept| <= |parts|
    ensures forall i :: 0 <= i < |kept| ==> kept[i] != ""
    ensures forall s :: s in kept <==> s in parts && s != ""
  {
    if parts == [] then []
    else if parts[0] == "" then NonEmpty(parts[1..])
    else [parts[0]] + NonEmpty(parts[1..])
  }

  /** Filtering keeps every non-empty part as often as it occurs, and drops every empty one. */
  lemma {:induction false} NonEmptyCounts(parts: seq<string>)
    ensures multiset(NonEmpty(parts)) == multiset(parts)["" := 0]
  {
    if parts != [] {
      NonEmptyCounts(parts[1..]);
      assert parts == [parts[0]] + parts[1..];
    }
  }

  /** A single part is kept exactly when it is non-empty. */
  lemma NonEmptySingle(s: string)
    ensures NonEmpty([s]) == if s == "" then [] else [s]
  {
    assert [s][1..] == [];
  }

  /** Filtering keeps order: filtering a concatenation concatenates the filtered halves. */
  lemma {:induction false} NonEmptyAppend(a: seq<string>, b: seq<string>)
    ensures NonEmpty(a + b) == NonEmpty(a) + NonEmpty(b)
  {
    if a == [] {
      assert a + b == b;
    } else {
      assert (a + b)[0] == a[0];
      assert (a + b)[1..] == a[1..] + b;
      NonEmptyAppend(a[1..], b);
      if a[0] != "" {
        assert NonEmpty(a + b) == [a[0]] + NonEmpty(a[1..] + b);
        assert NonEmpty(a) == [a[0]] + NonEmpty(a[1..]);
      }
    }
  }

  /**
   * Joining what `filter(None, [a, b])` keeps: both parts around the
   * separator, the one non-empty part alone, or the empty string.
   */
  lemma JoinNonEmptyPair(a: string, b: string, sep: string)
    ensures a != "" && b != "" ==> Join(NonEmpty([a, b]), sep) == a + sep + b
    ensures a != "" && b == "" ==> Join(NonEmpty([a, b]), sep) == a
    ensures a == "" && b != "" ==> Join(NonEmpty([a, b]), sep) == b
    ensures a == "" && b == "" ==> Join(NonEmpty([a, b]), sep) == ""
  {
  }

  /**
   * Python's `s.split("\n")`: the pieces between newlines. There is always at
   * least one piece, and no piece holds a newline.
   */
  function Split(s: string): (lines: seq<string>)
    ensures |lines| >= 1
    ensures forall i :: 0 <= i < |lines| ==> '\n' !in lines[i]
  {
    if s == [] then [""]
    else if s[0] == '\n' then [""] + Split(s[1..])
    else
      var rest := Split(s[1..]);
      [[s[0]] + rest[0]] + rest[1..]
  }

  /** A text without a newline splits into itself alone. */
  lemma {:induction false} SplitSingle(a: string)
    requires '\n' !in a
    ensures Split(a) == [a]
  {
    if a != [] {
      SplitSingle(a[1..]);
      assert [a[0]] + a[1..] == a;
    }
  }

  /** Splitting at the first newline peels off the text before it. */
  lemma {:induction false} SplitFirst(a: string, t: string)
    requires '\n' !in a
    ensures Split(a + "\n" + t) == [a] + Split(t)
  {
    if a == [] {
      assert a + "\n" + t == "\n" + t;
      assert ("\n" + t)[1..] == t;
    } else {
      var s := a + "\n" + t;
      assert s[0] == a[0];
      assert s[1..] == a[1..] + "\n" + t;
      SplitFirst(a[1..], t);
      assert [a[0]] + a[1..] == a;
    }
  }

  /**
   * Reading back a newline-joined text: when no part holds a newline,
   * `"\n".join(parts).split("\n") == parts`.
   */
  lemma {:induction false} SplitJoin(parts: seq<string>)
    requires |parts| >= 1
    requires forall i :: 0 <= i < |parts| ==> '\n' !in parts[i]
    ensures Split(Join(parts, "\n")) == parts
  {
    if |parts| == 1 {
      SplitSingle(parts[0]);
    } else {
      SplitJoin(parts[1..]);
      SplitFirst(parts[0], Join(parts[1..], "\n"));
      assert [parts[0]] + parts[1..] == parts;
    }
  }

  /**
   * The other direction of the round trip: joining the pieces of any text
   * with newlines gives the text back, so `Split` loses nothing.
   */
  lemma {:induction false} JoinSplit(s: string)
    ensures Join(Split(s), "\n") == s
  {
    if s != [] {
      JoinSplit(s[1..]);
      var rest := Split(s[1..]);
      if s[0] == '\n' {
        assert ([""] + rest)[1..] == rest;
        assert s == "\n" + s[1..];
      } else if |rest| == 1 {
        assert Join(Split(s), "\n") == [s[0]] + rest[0];
        assert s == [s[0]] + s[1..];
      } else {
        var head := [s[0]] + rest[0];
        assert ([head] + rest[1..])[1..] == rest[1..];
        assert Join(Split(s), "\n") == head + "\n" + Join(rest[1..], "\n");
        assert s[1..] == rest[0] + "\n" + Join(rest[1..], "\n");
        assert s == [s[0]] + s[1..];
      }
    }
  }

  /**
   * The first part opens the joined text, and when more parts follow, the
   * separator comes right after it.
   */
  lemma JoinStartsWithFirst(parts: seq<string>, sep: string)
    requires |parts| >= 1
    ensures parts[0] <= Join(parts, sep)
    ensures |parts| > 1 ==> parts[0] + sep <= Join(parts, sep)
  {
  }
}
