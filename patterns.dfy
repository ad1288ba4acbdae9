/**
 * Anchored regular expressions of the shape `^c1{m1,n1}c2{m2,n2}...$`, where
 * every ci is a character class: the only shape the validated input formats
 * use. Alternatives (`a|b`, `x?`) are written as a disjunction of such
 * sequences by the patterns themselves.
 */
module Patterns {

  import Text

  /** `cls{lo,hi}` */
  datatype Atom = Atom(lo: nat, hi: nat, cls: char -> bool)

  /** `cls{n}` */
  function Exactly(n: nat, cls: char -> bool): Atom {
    Atom(n, n, cls)
  }

  /** A literal character. */
  function Lit(c: char): Atom {
    Atom(1, 1, x => x == c)
  }

  predicate AllIn(s: string, cls: char -> bool) {
    forall i :: 0 <= i < |s| ==> cls(s[i])
  }

  /** `^p$` matches all of `s`; a repetition may take any count in its range. */
  predicate Matches(s: string, p: seq<Atom>)
    decreases |p|
  {
    if p == [] then s == []
    else
      exists k :: p[0].lo <= k <= p[0].hi && k <= |s| && AllIn(s[..k], p[0].cls) && Matches(s[k..], p[1..])
  }

  predicate Fixed(p: seq<Atom>) {
    forall i :: 0 <= i < |p| ==> p[i].lo == p[i].hi
  }

  /** The class each position of a fixed-length pattern must belong to. */
  function Expand(p: seq<Atom>): seq<char -> bool>
    requires Fixed(p)
  {
    if p == [] then [] else Text.Repeat(p[0].cls, p[0].lo) + Expand(p[1..])
  }

  /** A fixed-length pattern matches exactly the strings whose every character is in its position's class. */
  lemma {:induction false} MatchesPointwise(s: string, p: seq<Atom>)
    requires Fixed(p)
    ensures Matches(s, p) <==> |s| == |Expand(p)| && forall i :: 0 <= i < |s| ==> Expand(p)[i](s[i])
    decreases |p|
  {
    if p != [] {
      var n := p[0].lo;
      var e := Expand(p);
      assert Fixed(p[1..]) by {
        forall i | 0 <= i < |p| - 1 ensures p[1..][i].lo == p[1..][i].hi {
          assert p[1..][i] == p[i + 1];
        }
      }
      var tail := Expand(p[1..]);
      assert e == Text.Repeat(p[0].cls, n) + tail;
      if n <= |s| {
        MatchesPointwise(s[n..], p[1..]);
      }
      if Matches(s, p) {
        var k :| p[0].lo <= k <= p[0].hi && k <= |s| && AllIn(s[..k], p[0].cls) && Matches(s[k..], p[1..]);
        assert k == n;
        forall i | 0 <= i < |s| ensures e[i](s[i]) {
          if i < n {
            assert s[..k][i] == s[i];
          } else {
            assert s[n..][i - n] == s[i];
          }
        }
      }
      if |s| == |e| && forall i :: 0 <= i < |s| ==> e[i](s[i]) {
        assert AllIn(s[..n], p[0].cls) by {
          forall i | 0 <= i < n ensures p[0].cls(s[..n][i]) {
            assert e[i] == p[0].cls;
          }
        }
        forall i | 0 <= i < |s| - n ensures tail[i](s[n..][i]) {
          assert e[n + i] == tail[i];
        }
        assert Matches(s, p);
      }
    }
  }

  /** A single repetition matches exactly the strings of allowed length drawn from its class. */
  lemma SingleAtom(s: string, a: Atom)
    ensures Matches(s, [a]) <==> a.lo <= |s| <= a.hi && AllIn(s, a.cls)
  {
    var p := [a];
    assert p[1..] == [];
    if a.lo <= |s| <= a.hi && AllIn(s, a.cls) {
      assert s[..|s|] == s;
      assert s[|s|..] == [];
    }
  }

  /** One step of a match: the count the first repetition takes. */
  lemma FirstStep(s: string, p: seq<Atom>) returns (k: nat)
    requires p != [] && Matches(s, p)
    ensures p[0].lo <= k <= p[0].hi && k <= |s| && AllIn(s[..k], p[0].cls) && Matches(s[k..], p[1..])
  {
    k :| p[0].lo <= k <= p[0].hi && k <= |s| && AllIn(s[..k], p[0].cls) && Matches(s[k..], p[1..]);
  }

  /** Expanding a fixed pattern one repetition at a time. */
  lemma ExpandCons(a: Atom, p: seq<Atom>)
    requires a.lo == a.hi && Fixed(p)
    ensures Fixed([a] + p)
    ensures Expand([a] + p) == Text.Repeat(a.cls, a.lo) + Expand(p)
  {
    var q := [a] + p;
    assert q[1..] == p;
  }

  /** Expanding two fixed patterns one after the other concatenates their position classes. */
  lemma {:induction false} ExpandAppend(p: seq<Atom>, q: seq<Atom>)
    requires Fixed(p) && Fixed(q)
    ensures Fixed(p + q)
    ensures Expand(p + q) == Expand(p) + Expand(q)
  {
    if p == [] {
      assert p + q == q;
    } else {
      assert (p + q)[1..] == p[1..] + q;
      ExpandAppend(p[1..], q);
    }
  }

  /** A literal string as a pattern, one character at a time. */
  function Literal(t: string): (p: seq<Atom>)
    ensures |p| == |t|
  {
    if t == [] then [] else [Lit(t[0])] + Literal(t[1..])
  }

  lemma MatchesLitCons(s: string, c: char, q: seq<Atom>)
    ensures Matches(s, [Lit(c)] + q) <==> |s| >= 1 && s[0] == c && Matches(s[1..], q)
  {
    var p := [Lit(c)] + q;
    assert p[0] == Lit(c) && p[1..] == q;
    if Matches(s, p) {
      var k := FirstStep(s, p);
      assert k == 1 && s[..1][0] == s[0];
    }
    if |s| >= 1 && s[0] == c && Matches(s[1..], q) {
      assert AllIn(s[..1], p[0].cls);
    }
  }

  /** A pattern that starts with a literal matches what starts with that literal and matches the rest. */
  lemma {:induction false} MatchesAfterLiteral(s: string, t: string, q: seq<Atom>)
    ensures Matches(s, Literal(t) + q) <==> |t| <= |s| && s[..|t|] == t && Matches(s[|t|..], q)
    decreases |t|
  {
    if t == [] {
      assert Literal(t) + q == q;
      assert s[..0] == t && s[0..] == s;
    } else {
      assert Literal(t) + q == [Lit(t[0])] + (Literal(t[1..]) + q);
      MatchesLitCons(s, t[0], Literal(t[1..]) + q);
      if |s| >= 1 {
        MatchesAfterLiteral(s[1..], t[1..], q);
        if |t| <= |s| {
          assert s[1..][|t| - 1..] == s[|t|..];
          assert s[..|t|] == [s[0]] + s[1..][..|t| - 1];
        }
      }
    }
  }
}
