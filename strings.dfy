/** The part of Go's `strings` package that the sign-up domain check relies
    on: `strings.Split` with a one-character separator, and its inverse
    `strings.Join`. */
module Strings {

  /** Number of occurrences of `c` in `s`. */
  function Count(s: string, c: char): nat
  {
    if s == [] then 0 else (if s[0] == c then 1 else 0) + Count(s[1..], c)
  }

  /** `strings.Split(s, string(sep))`: the pieces of `s` between the
      occurrences of `sep`, in order. As in Go, splitting the empty string
      yields one empty piece, never an empty list. */
  function Split(s: string, sep: char): (tokens: seq<string>)
    ensures |tokens| >= 1
    ensures s == [] ==> tokens == [""]
  {
    if s == [] then [""]
    else
      var rest := Split(s[1..], sep);
      if s[0] == sep then [""] + rest
      else [[s[0]] + rest[0]] + rest[1..]
  }

  /** `strings.Join(tokens, string(sep))`, restricted to non-empty lists,
      which is all `Split` produces (Go's Join of an empty list is `""`). */
  function Join(tokens: seq<string>, sep: char): string
    requires |tokens| >= 1
  {
    if |tokens| == 1 then tokens[0] else tokens[0] + [sep] + Join(tokens[1..], sep)
  }

  /** Splitting yields one more piece than there are separators. */
  lemma {:induction false} SplitLength(s: string, sep: char)
    ensures |Split(s, sep)| == Count(s, sep) + 1
  {
    if s != [] {
      SplitLength(s[1..], sep);
    }
  }

  /** No piece contains the separator. */
  lemma {:induction false} SplitTokensOmitSeparator(s: string, sep: char)
    ensures forall k :: 0 <= k < |Split(s, sep)| ==> sep !in Split(s, sep)[k]
  {
    if s != [] {
      SplitTokensOmitSeparator(s[1..], sep);
      var rest := Split(s[1..], sep);
      if s[0] != sep {
        var first := [s[0]] + rest[0];
        assert sep !in rest[0];
        assert sep !in first;
        assert Split(s, sep) == [first] + rest[1..];
      }
    }
  }

  /** Joining the pieces with the separator gives back the original string. */
  lemma {:induction false} JoinSplit(s: string, sep: char)
    ensures Join(Split(s, sep), sep) == s
  {
    if s != [] {
      JoinSplit(s[1..], sep);
      var rest := Split(s[1..], sep);
      if s[0] == sep {
        assert Split(s, sep) == [""] + rest;
        assert ([""] + rest)[1..] == rest;
        assert s == [sep] + s[1..];
      } else {
        var tokens := [[s[0]] + rest[0]] + rest[1..];
        assert Split(s, sep) == tokens;
        if |rest| == 1 {
          assert s == [s[0]] + s[1..];
        } else {
          assert tokens[1..] == rest[1..];
          assert Join(rest, sep) == rest[0] + [sep] + Join(rest[1..], sep);
          assert s == [s[0]] + s[1..];
        }
      }
    }
  }

  /** Splitting `t + w`, where `t` holds no separator, glues `t` onto the
      first piece of `w`. */
  lemma {:induction false} SplitSeparatorFreePrefix(t: string, w: string, sep: char)
    requires sep !in t
    ensures Split(t + w, sep) == [t + Split(w, sep)[0]] + Split(w, sep)[1..]
  {
    if t == [] {
      var pieces := Split(w, sep);
      assert t + w == w;
      assert t + pieces[0] == pieces[0];
      assert pieces == [pieces[0]] + pieces[1..];
    } else {
      var pieces := Split(w, sep);
      SplitSeparatorFreePrefix(t[1..], w, sep);
      var rest := Split(t[1..] + w, sep);
      assert rest == [t[1..] + pieces[0]] + pieces[1..];
      assert (t + w)[0] == t[0];
      assert (t + w)[1..] == t[1..] + w;
      assert Split(t + w, sep) == [[t[0]] + rest[0]] + rest[1..];
      assert rest[1..] == pieces[1..];
      assert [t[0]] + rest[0] == t + pieces[0];
    }
  }

  /** Splitting a join of separator-free pieces gives back those pieces. */
  lemma {:induction false} SplitJoin(tokens: seq<string>, sep: char)
    requires |tokens| >= 1
    requires forall k :: 0 <= k < |tokens| ==> sep !in tokens[k]
    ensures Split(Join(tokens, sep), sep) == tokens
  {
    if |tokens| == 1 {
      SplitSeparatorFreePrefix(tokens[0], "", sep);
      assert tokens[0] + "" == tokens[0];
    } else {
      var rest := Join(tokens[1..], sep);
      SplitJoin(tokens[1..], sep);
      SplitSeparatorFreePrefix(tokens[0], [sep] + rest, sep);
      assert tokens[0] + [sep] + rest == tokens[0] + ([sep] + rest);
      assert ([sep] + rest)[0] == sep;
      assert ([sep] + rest)[1..] == rest;
      assert Split([sep] + rest, sep) == [""] + tokens[1..];
      assert tokens[0] + "" == tokens[0];
      assert tokens == [tokens[0]] + tokens[1..];
    }
  }
}
