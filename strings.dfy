/**
 * The part of Go's `strings` package that the remote-name derivation uses:
 * `strings.Split` with a one-character separator, together with the reference
 * definitions (count, first index, longest stop-free prefix, joining) that
 * pin down what it returns.
 */
module GoStrings {

  /** Number of occurrences of `c` in `s`. */
  function Count(s: string, c: char): nat
  {
    if s == [] then 0 else (if s[0] == c then 1 else 0) + Count(s[1..], c)
  }

  lemma {:induction false} CountPositive(s: string, c: char)
    ensures Count(s, c) > 0 <==> c in s
  {
    if s != [] {
      CountPositive(s[1..], c);
      assert s == [s[0]] + s[1..];
    }
  }

  /**
   * Index of the first `c` in `s`, or -1 when there is none (`strings.IndexByte`).
   */
  function IndexOf(s: string, c: char): (i: int)
    ensures i == -1 <==> c !in s
    ensures i != -1 ==> 0 <= i < |s| && s[i] == c && c !in s[..i]
  {
    if s == [] then -1
    else if s[0] == c then 0
    else
      var j := IndexOf(s[1..], c);
      if j == -1 then -1 else j + 1
  }

  /** The longest prefix of `s` holding none of the characters in `stops`. */
  function TakeUntil(s: string, stops: set<char>): (p: string)
    ensures p <= s
    ensures forall i :: 0 <= i < |p| ==> p[i] !in stops
    ensures |p| < |s| ==> s[|p|] in stops
  {
    if s == [] || s[0] in stops then []
    else [s[0]] + TakeUntil(s[1..], stops)
  }

  /**
   * `strings.Split(s, string(sep))`: the fields between the occurrences of
   * `sep`. There is always one field more than there are separators, and no
   * field holds the separator.
   */
  function Split(s: string, sep: char): (fields: seq<string>)
    ensures |fields| == Count(s, sep) + 1
    ensures forall i :: 0 <= i < |fields| ==> sep !in fields[i]
  {
    if s == [] then [[]]
    else
      var rest := Split(s[1..], sep);
      if s[0] == sep then [[]] + rest
      else [[s[0]] + rest[0]] + rest[1..]
  }

  /** `strings.Join(fields, string(sep))`: the inverse of `Split`. */
  function JoinFields(fields: seq<string>, sep: char): string
  {
    if fields == [] then []
    else if |fields| == 1 then fields[0]
    else fields[0] + [sep] + JoinFields(fields[1..], sep)
  }

  /** Splitting and joining again gives back the original text. */
  lemma {:induction false} JoinSplit(s: string, sep: char)
    ensures JoinFields(Split(s, sep), sep) == s
  {
    if s != [] {
      var rest := Split(s[1..], sep);
      JoinSplit(s[1..], sep);
      if s[0] == sep {
        assert s == [sep] + s[1..];
      } else if |rest| == 1 {
        assert s == [s[0]] + rest[0];
      } else {
        var tail := rest[1..];
        assert JoinFields(rest, sep) == rest[0] + [sep] + JoinFields(tail, sep);
        assert ([[s[0]] + rest[0]] + tail)[1..] == tail;
        assert s == [s[0]] + s[1..];
      }
    }
  }

  /** Text without the separator is a single field. */
  lemma {:induction false} SplitWithoutSep(s: string, sep: char)
    requires sep !in s
    ensures Split(s, sep) == [s]
  {
    if s != [] {
      SplitWithoutSep(s[1..], sep);
      assert s == [s[0]] + s[1..];
    }
  }

  /** A first field free of the separator is cut off at the first separator. */
  lemma {:induction false} SplitAtFirstSep(a: string, sep: char, b: string)
    requires sep !in a
    ensures Split(a + [sep] + b, sep) == [a] + Split(b, sep)
  {
    if a == [] {
      assert ([] + [sep] + b)[1..] == b;
    } else {
      var s := a + [sep] + b;
      assert s[1..] == a[1..] + [sep] + b;
      SplitAtFirstSep(a[1..], sep, b);
      assert [s[0]] + a[1..] == a;
    }
  }

  /** Joining separator-free fields and splitting again gives back the fields. */
  lemma {:induction false} SplitJoin(fields: seq<string>, sep: char)
    requires |fields| >= 1
    requires forall i :: 0 <= i < |fields| ==> sep !in fields[i]
    ensures Split(JoinFields(fields, sep), sep) == fields
  {
    if |fields| == 1 {
      SplitWithoutSep(fields[0], sep);
    } else {
      SplitJoin(fields[1..], sep);
      SplitAtFirstSep(fields[0], sep, JoinFields(fields[1..], sep));
      assert fields == [fields[0]] + fields[1..];
    }
  }

  /** The first field is the text before the first separator. */
  lemma {:induction false} FirstField(s: string, sep: char)
    ensures Split(s, sep)[0] == TakeUntil(s, {sep})
  {
    if s != [] && s[0] != sep {
      FirstField(s[1..], sep);
    }
  }

  /**
   * The second field exists exactly when there is a separator, and is the
   * text after the first separator up to the next one.
   */
  lemma {:induction false} SecondField(s: string, sep: char)
    requires sep in s
    ensures |Split(s, sep)| >= 2
    ensures Split(s, sep)[1] == TakeUntil(s[IndexOf(s, sep) + 1..], {sep})
  {
    CountPositive(s, sep);
    if s[0] == sep {
      FirstField(s[1..], sep);
    } else {
      assert sep in s[1..] by {
        var k := IndexOf(s, sep);
        assert s[k] == s[1..][k - 1];
      }
      SecondField(s[1..], sep);
      assert s[IndexOf(s, sep) + 1..] == s[1..][IndexOf(s[1..], sep) + 1..];
    }
  }

  /** Cutting at `a` and then at `b` is the same as cutting at either. */
  lemma {:induction false} TakeUntilTwice(s: string, a: char, b: char)
    ensures TakeUntil(TakeUntil(s, {a}), {b}) == TakeUntil(s, {a, b})
  {
    if s != [] && s[0] != a && s[0] != b {
      TakeUntilTwice(s[1..], a, b);
      assert ([s[0]] + TakeUntil(s[1..], {a}))[1..] == TakeUntil(s[1..], {a});
    }
  }
}
