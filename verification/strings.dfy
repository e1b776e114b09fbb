/** The few Python string operations the executor uses: `str.split` on one
    separator character, `sep.join`, `str.startswith` and substring `in`. */
module PyStrings {

  /** `s.startswith(p)` */
  predicate StartsWith(s: string, p: string) {
    |p| <= |s| && s[..|p|] == p
  }

  /** `sub in s` for strings: `sub` occurs somewhere in `s`. */
  predicate Contains(s: string, sub: string) {
    StartsWith(s, sub) || (s != [] && Contains(s[1..], sub))
  }

  /** `s.split(sep)`: the maximal separator-free pieces of `s`, always at least one. */
  function Split(s: string, sep: char): (parts: seq<string>)
    ensures |parts| >= 1
  {
    if s == [] then [""]
    else
      var rest := Split(s[1..], sep);
      if s[0] == sep then [""] + rest
      else [[s[0]] + rest[0]] + rest[1..]
  }

  /** `sep.join(parts)` for a non-empty list of parts. */
  function Join(parts: seq<string>, sep: char): string
    requires |parts| >= 1
  {
    if |parts| == 1 then parts[0]
    else parts[0] + [sep] + Join(parts[1..], sep)
  }

  /** The concatenation of every word followed by one `sep`. */
  function Terminated(words: seq<string>, sep: char): string {
    if words == [] then []
    else Terminated(words[..|words| - 1], sep) + words[|words| - 1] + [sep]
  }

  /** No piece of a split holds the separator. */
  lemma {:induction false} SplitPieces(s: string, sep: char)
    ensures forall k :: 0 <= k < |Split(s, sep)| ==> sep !in Split(s, sep)[k]
  {
    if s != [] {
      SplitPieces(s[1..], sep);
      var rest := Split(s[1..], sep);
      if s[0] != sep {
        assert sep !in rest[0];
        assert forall x :: x in [s[0]] + rest[0] ==> x == s[0] || x in rest[0];
      }
    }
  }

  /** Joining the pieces of a split gives the string back. */
  lemma {:induction false} JoinSplit(s: string, sep: char)
    ensures Join(Split(s, sep), sep) == s
  {
    if s != [] {
      JoinSplit(s[1..], sep);
      var rest := Split(s[1..], sep);
      if s[0] == sep {
        assert ([""] + rest)[1..] == rest;
      } else {
        var parts := [[s[0]] + rest[0]] + rest[1..];
        if |rest| > 1 {
          assert parts[1..] == rest[1..];
        }
      }
      assert [s[0]] + s[1..] == s;
    }
  }

  /** A string without the separator splits into itself. */
  lemma {:induction false} SplitNoSep(s: string, sep: char)
    requires sep !in s
    ensures Split(s, sep) == [s]
  {
    if s != [] {
      SplitNoSep(s[1..], sep);
      assert [s[0]] + s[1..] == s;
    }
  }

  /** A separator-free prefix followed by a separator is the first piece. */
  lemma {:induction false} SplitPrefix(p: string, s: string, sep: char)
    requires sep !in p
    ensures Split(p + [sep] + s, sep) == [p] + Split(s, sep)
  {
    var t := p + [sep] + s;
    if p == [] {
      assert t[1..] == s;
    } else {
      SplitPrefix(p[1..], s, sep);
      assert t[1..] == p[1..] + [sep] + s;
      assert [p[0]] + p[1..] == p;
    }
  }

  /** Joining one more part at the end. */
  lemma {:induction false} JoinSnoc(parts: seq<string>, x: string, sep: char)
    requires |parts| >= 1
    ensures Join(parts + [x], sep) == Join(parts, sep) + [sep] + x
  {
    if |parts| > 1 {
      JoinSnoc(parts[1..], x, sep);
      assert (parts + [x])[1..] == parts[1..] + [x];
    } else {
      assert (parts + [x])[1..] == [x];
    }
  }

  /** Joining two non-empty lists one after the other. */
  lemma {:induction false} JoinAppend(a: seq<string>, b: seq<string>, sep: char)
    requires |a| >= 1 && |b| >= 1
    ensures Join(a + b, sep) == Join(a, sep) + [sep] + Join(b, sep)
  {
    if |a| == 1 {
      assert (a + b)[1..] == b;
    } else {
      JoinAppend(a[1..], b, sep);
      assert (a + b)[1..] == a[1..] + b;
    }
  }

  /** Splitting a join of separator-free parts gives the parts back. */
  lemma {:induction false} SplitJoin(parts: seq<string>, sep: char)
    requires |parts| >= 1
    requires forall k :: 0 <= k < |parts| ==> sep !in parts[k]
    ensures Split(Join(parts, sep), sep) == parts
  {
    if |parts| == 1 {
      SplitNoSep(parts[0], sep);
    } else {
      SplitJoin(parts[1..], sep);
      SplitPrefix(parts[0], Join(parts[1..], sep), sep);
      assert [parts[0]] + parts[1..] == parts;
    }
  }

  /** The terminated words followed by a join of more words are one join. */
  lemma {:induction false} TerminatedJoin(words: seq<string>, rest: seq<string>, sep: char)
    requires |rest| >= 1
    ensures Terminated(words, sep) + Join(rest, sep) == Join(words + rest, sep)
  {
    if words != [] {
      var init := words[..|words| - 1];
      var last := words[|words| - 1];
      assert ([last] + rest)[1..] == rest;
      TerminatedJoin(init, [last] + rest, sep);
      assert init + ([last] + rest) == words + rest;
      calc {
        Terminated(words, sep) + Join(rest, sep);
        Terminated(init, sep) + last + [sep] + Join(rest, sep);
        Terminated(init, sep) + (last + [sep] + Join(rest, sep));
        Terminated(init, sep) + Join([last] + rest, sep);
      }
    } else {
      assert words + rest == rest;
    }
  }

  /** An occurrence at index `i` is an occurrence. */
  lemma {:induction false} ContainsAt(s: string, sub: string, i: nat)
    requires i <= |s| && StartsWith(s[i..], sub)
    ensures Contains(s, sub)
  {
    if i > 0 {
      ContainsAt(s[1..], sub, i - 1);
      assert s[1..][i - 1..] == s[i..];
    }
  }

  /** An occurrence stays an occurrence when text is added on either side. */
  lemma {:induction false} ContainsInfix(p: string, s: string, q: string, sub: string)
    requires Contains(s, sub)
    ensures Contains(p + s + q, sub)
    decreases |s|
  {
    if StartsWith(s, sub) {
      assert (p + s + q)[|p|..][..|sub|] == s[..|sub|];
      ContainsAt(p + s + q, sub, |p|);
    } else {
      ContainsInfix(p + [s[0]], s[1..], q, sub);
      assert p + [s[0]] + s[1..] + q == p + s + q;
    }
  }

  // ---------------------------------------------------------------------------
  // List filtering (a list comprehension with a condition)

  /** The elements of `s` that `keep` accepts, in their order. */
  function Filter(keep: string -> bool, s: seq<string>): seq<string>
  {
    if s == [] then []
    else Filter(keep, s[..|s| - 1]) + (if keep(s[|s| - 1]) then [s[|s| - 1]] else [])
  }

  /** The filtered list holds exactly the accepted elements. */
  lemma {:induction false} FilterMembers(keep: string -> bool, s: seq<string>)
    ensures forall x :: x in Filter(keep, s) <==> x in s && keep(x)
  {
    if s != [] {
      FilterMembers(keep, s[..|s| - 1]);
      assert s == s[..|s| - 1] + [s[|s| - 1]];
    }
  }

  lemma FilterSnoc(keep: string -> bool, s: seq<string>, x: string)
    ensures Filter(keep, s + [x]) == Filter(keep, s) + (if keep(x) then [x] else [])
  {
    assert (s + [x])[..|s|] == s;
  }

  lemma {:induction false} FilterAppend(keep: string -> bool, s: seq<string>, t: seq<string>)
    ensures Filter(keep, s + t) == Filter(keep, s) + Filter(keep, t)
  {
    if t == [] {
      assert s + t == s;
    } else {
      var t', x := t[..|t| - 1], t[|t| - 1];
      var e := if keep(x) then [x] else [];
      assert t == t' + [x];
      assert s + t == (s + t') + [x];
      calc {
        Filter(keep, s + t);
        { FilterSnoc(keep, s + t', x); }
        Filter(keep, s + t') + e;
        { FilterAppend(keep, s, t'); }
        (Filter(keep, s) + Filter(keep, t')) + e;
        Filter(keep, s) + (Filter(keep, t') + e);
        { FilterSnoc(keep, t', x); }
        Filter(keep, s) + Filter(keep, t);
      }
    }
  }

  /** Filtering ignores an element the filter rejects. */
  lemma FilterSkip(keep: string -> bool, pre: seq<string>, a: string, post: seq<string>)
    requires !keep(a)
    ensures Filter(keep, pre + [a] + post) == Filter(keep, pre + post)
  {
    FilterAppend(keep, pre + [a], post);
    FilterAppend(keep, pre, post);
    FilterSnoc(keep, pre, a);
  }

}
