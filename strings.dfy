/**
 * The two string operations the core relies on: Python's `sep.join(parts)`
 * and `s.split(c)` for a one-character separator, and the action-call
 * syntax `name(arg1, arg2, ...)` that task skeletons and primitives use.
 */
module Strings {

  /** `sep.join(parts)`. */
  function Join(parts: seq<string>, sep: string): string
  {
    if |parts| == 0 then ""
    else if |parts| == 1 then parts[0]
    else parts[0] + sep + Join(parts[1..], sep)
  }

  /** `s.split(c)`: the pieces between occurrences of `c`, always at least one. */
  function Split(s: string, c: char): (parts: seq<string>)
    ensures |parts| >= 1
    ensures forall i :: 0 <= i < |parts| ==> c !in parts[i]
  {
    if s == [] then [""]
    else
      var rest := Split(s[1..], c);
      if s[0] == c then [""] + rest
      else [[s[0]] + rest[0]] + rest[1..]
  }

  /** The action-call string `f"{name}({', '.join(args)})"`. */
  function Call(name: string, args: seq<string>): string
  {
    name + "(" + Join(args, ", ") + ")"
  }

  /** A call string starts with its name followed by '('. */
  lemma CallStartsWithName(name: string, args: seq<string>)
    ensures var s := Call(name, args);
      |s| > |name| && s[..|name|] == name && s[|name|] == '('
  {
  }

  /** Joining the pieces of a split with the same separator gives back the string. */
  lemma {:induction false} JoinSplit(s: string, c: char)
    ensures Join(Split(s, c), [c]) == s
  {
    if s != [] {
      var rest := Split(s[1..], c);
      JoinSplit(s[1..], c);
      if s[0] == c {
        assert Split(s, c) == [""] + rest;
        assert ([""] + rest)[1..] == rest;
      } else {
        var parts := [[s[0]] + rest[0]] + rest[1..];
        assert Split(s, c) == parts;
        if |rest| == 1 {
          assert Join(rest, [c]) == rest[0];
        } else {
          assert parts[1..] == rest[1..];
          assert Join(rest, [c]) == rest[0] + [c] + Join(rest[1..], [c]);
        }
      }
    }
  }

  /** Splitting a string that does not contain the separator gives it back whole. */
  lemma {:induction false} SplitWithout(s: string, c: char)
    requires c !in s
    ensures Split(s, c) == [s]
  {
    if s != [] {
      SplitWithout(s[1..], c);
      assert [s[0]] + s[1..] == s;
    }
  }

  /** A separator after a separator-free prefix ends the first piece there. */
  lemma {:induction false} SplitAfter(p: string, c: char, t: string)
    requires c !in p
    ensures Split(p + [c] + t, c) == [p] + Split(t, c)
  {
    if p == [] {
      assert [] + [c] + t == [c] + t;
      assert ([c] + t)[1..] == t;
    } else {
      SplitAfter(p[1..], c, t);
      var s := p + [c] + t;
      assert s[0] == p[0];
      assert s[1..] == p[1..] + [c] + t;
      assert [p[0]] + p[1..] == p;
    }
  }

  /** Splitting a join of separator-free pieces gives back the pieces. */
  lemma {:induction false} SplitJoin(parts: seq<string>, c: char)
    requires |parts| >= 1
    requires forall i :: 0 <= i < |parts| ==> c !in parts[i]
    ensures Split(Join(parts, [c]), c) == parts
  {
    if |parts| == 1 {
      SplitWithout(parts[0], c);
    } else {
      SplitJoin(parts[1..], c);
      SplitAfter(parts[0], c, Join(parts[1..], [c]));
      assert [parts[0]] + parts[1..] == parts;
    }
  }

  /** Separator-free, non-empty arguments joined with ", " cannot be read two ways. */
  lemma {:induction false} JoinInjective(a: seq<string>, b: seq<string>)
    requires forall i :: 0 <= i < |a| ==> a[i] != "" && ',' !in a[i]
    requires forall i :: 0 <= i < |b| ==> b[i] != "" && ',' !in b[i]
    requires Join(a, ", ") == Join(b, ", ")
    ensures a == b
  {
    if |a| == 0 || |b| == 0 {
      if |a| != 0 {
        JoinStartsWith(a);
      } else if |b| != 0 {
        JoinStartsWith(b);
      }
    } else if |a| == 1 && |b| == 1 {
    } else if |a| == 1 {
      JoinCommaAt(b);
    } else if |b| == 1 {
      JoinCommaAt(a);
    } else {
      var s := Join(a, ", ");
      JoinCommaAt(a);
      JoinCommaAt(b);
      if |a[0]| == |b[0]| {
        assert a[0] == s[..|a[0]|] == b[0];
        var k := |a[0]| + 2;
        assert Join(a[1..], ", ") == s[k..] == Join(b[1..], ", ");
        JoinInjective(a[1..], b[1..]);
        assert a == [a[0]] + a[1..];
        assert b == [b[0]] + b[1..];
      }
    }
  }

  /** A join starts with its first piece. */
  lemma JoinStartsWith(a: seq<string>)
    requires |a| >= 1
    ensures |Join(a, ", ")| >= |a[0]| && Join(a, ", ")[..|a[0]|] == a[0]
  {
  }

  /** In a join of two or more pieces, a comma follows the first piece. */
  lemma JoinCommaAt(a: seq<string>)
    requires |a| >= 2
    ensures |Join(a, ", ")| > |a[0]| + 1
    ensures Join(a, ", ")[..|a[0]|] == a[0] && Join(a, ", ")[|a[0]|] == ','
    ensures Join(a, ", ")[|a[0]| + 2..] == Join(a[1..], ", ")
  {
    var s := Join(a, ", ");
    assert s == a[0] + ", " + Join(a[1..], ", ");
  }

  /**
   * The call string names its primitive and its arguments unambiguously: a
   * name without '(' and arguments that are non-empty and free of ','
   * are recovered from `Call(name, args)`.
   */
  lemma CallInjective(n1: string, a1: seq<string>, n2: string, a2: seq<string>)
    requires '(' !in n1 && '(' !in n2
    requires forall i :: 0 <= i < |a1| ==> a1[i] != "" && ',' !in a1[i]
    requires forall i :: 0 <= i < |a2| ==> a2[i] != "" && ',' !in a2[i]
    requires Call(n1, a1) == Call(n2, a2)
    ensures n1 == n2 && a1 == a2
  {
    var s := Call(n1, a1);
    assert s[|n1|] == '(' && s[|n2|] == '(';
    assert n1 == s[..|n1|] == n2;
    var j1 := Join(a1, ", ");
    var j2 := Join(a2, ", ");
    assert s[|n1| + 1..|s| - 1] == j1;
    assert s[|n2| + 1..|s| - 1] == j2;
    JoinInjective(a1, a2);
  }
}
