/** The few Python string operations the lineage model relies on:
    `Option`, `str(int)`, `"|".join(parts)`, the ordering of `str` values
    and `sorted(...)` of a set of names. */
module Text {

  datatype Option<+T> = None | Some(value: T)

  /** The characters of `s`, as a set. */
  function Chars(s: string): set<char> {
    set i | 0 <= i < |s| :: s[i]
  }

  /** The elements of a sequence of names, as a set. */
  function Elements(s: seq<string>): set<string> {
    set i | 0 <= i < |s| :: s[i]
  }

  // ---------------------------------------------------------------------
  // str(n) for a non-negative integer

  function DigitChar(d: nat): (c: char)
    requires d < 10
    ensures '0' <= c <= '9'
  {
    ['0', '1', '2', '3', '4', '5', '6', '7', '8', '9'][d]
  }

  /** Decimal rendering of `n`, as Python's `str(n)`: no sign, no leading
      zero, only digits. */
  function NatToString(n: nat): (r: string)
    ensures |r| > 0
    ensures forall i :: 0 <= i < |r| ==> '0' <= r[i] <= '9'
    ensures |r| > 1 ==> r[0] != '0'
    ensures |r| == 1 <==> n < 10
  {
    if n < 10 then [DigitChar(n)] else NatToString(n / 10) + [DigitChar(n % 10)]
  }

  lemma DigitCharInjective(a: nat, b: nat)
    requires a < 10 && b < 10 && DigitChar(a) == DigitChar(b)
    ensures a == b
  {
  }

  /** Different numbers never render to the same text. */
  lemma {:induction false} NatToStringInjective(a: nat, b: nat)
    requires NatToString(a) == NatToString(b)
    ensures a == b
  {
    var ra, rb := NatToString(a), NatToString(b);
    if a < 10 {
      DigitCharInjective(a, b);
    } else {
      var pa, pb := NatToString(a / 10), NatToString(b / 10);
      assert ra == pa + [DigitChar(a % 10)];
      assert rb == pb + [DigitChar(b % 10)];
      assert pa == ra[..|ra| - 1];
      assert pb == rb[..|rb| - 1];
      NatToStringInjective(a / 10, b / 10);
      assert ra[|ra| - 1] == rb[|rb| - 1];
      DigitCharInjective(a % 10, b % 10);
    }
  }

  // ---------------------------------------------------------------------
  // sep.join(parts)

  /** Python's `sep.join(parts)` with a one-character separator. */
  function Join(sep: char, parts: seq<string>): (r: string)
    ensures |parts| == 1 ==> r == parts[0]
  {
    if |parts| == 0 then ""
    else if |parts| == 1 then parts[0]
    else parts[0] + [sep] + Join(sep, parts[1..])
  }

  /** The length of a join: every part plus one separator between neighbours. */
  lemma {:induction false} JoinLength(sep: char, parts: seq<string>)
    requires |parts| > 0
    ensures |Join(sep, parts)| == TotalLength(parts) + |parts| - 1
  {
    if |parts| > 1 {
      JoinLength(sep, parts[1..]);
    }
  }

  function TotalLength(parts: seq<string>): nat {
    if parts == [] then 0 else |parts[0]| + TotalLength(parts[1..])
  }

  /** A join of parts free of the separator has the separator exactly at
      the part boundaries; in particular it contains the separator iff
      there are at least two parts. */
  lemma {:induction false} JoinSeparatorFree(sep: char, parts: seq<string>)
    requires forall i :: 0 <= i < |parts| ==> sep !in Chars(parts[i])
    ensures (sep in Chars(Join(sep, parts))) <==> |parts| > 1
  {
    if |parts| > 1 {
      var r := Join(sep, parts);
      assert r[|parts[0]|] == sep;
    } else if |parts| == 1 {
      assert Join(sep, parts) == parts[0];
    }
  }

  /** Splitting at the first separator: `a + sep + x == b + sep + y` with
      separator-free `a`, `b` forces `a == b` and `x == y`. */
  lemma FirstSeparator(sep: char, a: string, x: string, b: string, y: string)
    requires sep !in Chars(a) && sep !in Chars(b)
    requires a + [sep] + x == b + [sep] + y
    ensures a == b && x == y
  {
    var l, r := a + [sep] + x, b + [sep] + y;
    assert forall i :: 0 <= i < |a| ==> l[i] == a[i] && a[i] in Chars(a);
    assert forall i :: 0 <= i < |b| ==> r[i] == b[i] && b[i] in Chars(b);
    assert l[|a|] == sep && r[|b|] == sep;
    assert |a| == |b|;
    assert a == l[..|a|] == r[..|b|] == b;
    assert x == l[|a| + 1..] == r[|b| + 1..] == y;
  }

  /** Joining is unambiguous for separator-free parts: equal joins of
      non-empty part lists come from equal part lists. */
  lemma {:induction false} JoinInjective(sep: char, p: seq<string>, q: seq<string>)
    requires |p| > 0 && |q| > 0
    requires forall i :: 0 <= i < |p| ==> sep !in Chars(p[i])
    requires forall i :: 0 <= i < |q| ==> sep !in Chars(q[i])
    requires Join(sep, p) == Join(sep, q)
    ensures p == q
  {
    if |p| == 1 && |q| == 1 {
    } else if |p| == 1 {
      JoinSeparatorFree(sep, q);
    } else if |q| == 1 {
      JoinSeparatorFree(sep, p);
    } else {
      FirstSeparator(sep, p[0], Join(sep, p[1..]), q[0], Join(sep, q[1..]));
      JoinInjective(sep, p[1..], q[1..]);
      assert p == [p[0]] + p[1..];
      assert q == [q[0]] + q[1..];
    }
  }

  // ---------------------------------------------------------------------
  // The ordering of Python `str` values

  /** Python's `a < b` on `str`: code-point lexicographic order, a proper
      prefix before its extensions. */
  predicate Below(a: string, b: string) {
    if |a| == 0 then |b| > 0
    else if |b| == 0 then false
    else if a[0] != b[0] then a[0] < b[0]
    else Below(a[1..], b[1..])
  }

  lemma {:induction false} BelowIrreflexive(a: string)
    ensures !Below(a, a)
  {
    if |a| > 0 {
      BelowIrreflexive(a[1..]);
    }
  }

  lemma {:induction false} BelowTransitive(a: string, b: string, c: string)
    requires Below(a, b) && Below(b, c)
    ensures Below(a, c)
  {
    if |a| > 0 && |b| > 0 && |c| > 0 && a[0] == b[0] && b[0] == c[0] {
      BelowTransitive(a[1..], b[1..], c[1..]);
    }
  }

  lemma {:induction false} BelowTotal(a: string, b: string)
    requires a != b
    ensures Below(a, b) || Below(b, a)
  {
    if |a| > 0 && |b| > 0 && a[0] == b[0] {
      assert a == [a[0]] + a[1..];
      assert b == [b[0]] + b[1..];
      BelowTotal(a[1..], b[1..]);
    }
  }

  lemma BelowAsymmetric(a: string, b: string)
    requires Below(a, b)
    ensures !Below(b, a)
  {
    if Below(b, a) {
      BelowTransitive(a, b, a);
      BelowIrreflexive(a);
    }
  }

  // ---------------------------------------------------------------------
  // sorted(set_of_names)

  ghost predicate StrictlySorted(s: seq<string>) {
    forall i, j :: 0 <= i < j < |s| ==> Below(s[i], s[j])
  }

  /** Inserts `x` into a strictly sorted list, keeping it strictly sorted
      and free of duplicates. */
  function InsertSorted(x: string, s: seq<string>): (r: seq<string>)
    requires StrictlySorted(s)
    ensures StrictlySorted(r)
    ensures Elements(r) == Elements(s) + {x}
    ensures |r| <= |s| + 1
  {
    if s == [] then
      ElementsCons(x, []);
      [x]
    else if x == s[0] then
      ElementsCons(s[0], s[1..]);
      assert [s[0]] + s[1..] == s;
      s
    else if Below(x, s[0]) then
      InsertFront(x, s);
      [x] + s
    else
      BelowTotal(x, s[0]);
      var tail := InsertSorted(x, s[1..]);
      InsertBehind(x, s, tail);
      [s[0]] + tail
  }

  lemma ElementsCons(a: string, t: seq<string>)
    ensures Elements([a] + t) == {a} + Elements(t)
  {
    var r := [a] + t;
    forall y | y in Elements(r) ensures y in {a} + Elements(t) {
      var k :| 0 <= k < |r| && r[k] == y;
      if k > 0 { assert t[k - 1] == y; }
    }
    forall y | y in Elements(t) ensures y in Elements(r) {
      var k :| 0 <= k < |t| && t[k] == y;
      assert r[k + 1] == y;
    }
    assert r[0] == a;
  }

  lemma InsertFront(x: string, s: seq<string>)
    requires StrictlySorted(s) && s != [] && Below(x, s[0])
    ensures StrictlySorted([x] + s) && Elements([x] + s) == Elements(s) + {x}
  {
    var r := [x] + s;
    forall j | 0 < j < |r| ensures Below(x, r[j]) {
      if j > 1 { BelowTransitive(x, s[0], s[j - 1]); }
    }
    ElementsCons(x, s);
  }

  lemma InsertBehind(x: string, s: seq<string>, tail: seq<string>)
    requires StrictlySorted(s) && s != [] && Below(s[0], x)
    requires StrictlySorted(tail) && Elements(tail) == Elements(s[1..]) + {x}
    ensures StrictlySorted([s[0]] + tail) && Elements([s[0]] + tail) == Elements(s) + {x}
  {
    ElementsCons(s[0], tail);
    ElementsCons(s[0], s[1..]);
    assert [s[0]] + s[1..] == s;
    forall j | 0 <= j < |tail| ensures Below(s[0], tail[j]) {
      assert tail[j] in Elements(tail);
      if tail[j] != x {
        var k :| 0 <= k < |s[1..]| && s[1..][k] == tail[j];
        assert s[k + 1] == tail[j];
      }
    }
  }

  /** Python's `sorted(set(xs))`: the names of `xs` in ascending order,
      each once. */
  function SortedDistinct(xs: seq<string>): (r: seq<string>)
    ensures StrictlySorted(r)
    ensures Elements(r) == Elements(xs)
  {
    if xs == [] then []
    else
      var r := InsertSorted(xs[|xs| - 1], SortedDistinct(xs[..|xs| - 1]));
      assert Elements(xs) == Elements(xs[..|xs| - 1]) + {xs[|xs| - 1]} by {
        forall y | y in Elements(xs) ensures y in Elements(xs[..|xs| - 1]) + {xs[|xs| - 1]} {
          var k :| 0 <= k < |xs| && xs[k] == y;
          if k < |xs| - 1 { assert xs[..|xs| - 1][k] == y; }
        }
      }
      r
  }

  lemma ElementsEmpty(s: seq<string>)
    ensures Elements(s) == {} <==> s == []
  {
    if s != [] {
      assert s[0] in Elements(s);
    }
  }

  /** A strictly sorted list is determined by its elements: whatever
      produced it, `sorted` of a set has exactly one possible result. */
  lemma {:induction false} StrictlySortedUnique(a: seq<string>, b: seq<string>)
    requires StrictlySorted(a) && StrictlySorted(b)
    requires Elements(a) == Elements(b)
    ensures a == b
  {
    ElementsEmpty(a);
    ElementsEmpty(b);
    if a == [] {
    } else {
      // the least elements agree
      if a[0] != b[0] {
        assert a[0] in Elements(b);
        var i :| 0 <= i < |b| && b[i] == a[0];
        assert b[0] in Elements(a);
        var j :| 0 <= j < |a| && a[j] == b[0];
        assert i > 0 && j > 0;
        assert Below(b[0], a[0]) && Below(a[0], b[0]);
        BelowAsymmetric(a[0], b[0]);
        assert false;
      }
      assert Elements(a[1..]) == Elements(a) - {a[0]} by {
        forall y | y in Elements(a[1..]) ensures y in Elements(a) - {a[0]} {
          var k :| 0 <= k < |a[1..]| && a[1..][k] == y;
          assert Below(a[0], a[k + 1]);
          BelowIrreflexive(a[0]);
        }
        forall y | y in Elements(a) - {a[0]} ensures y in Elements(a[1..]) {
          var k :| 0 <= k < |a| && a[k] == y;
          assert a[1..][k - 1] == y;
        }
      }
      assert Elements(b[1..]) == Elements(b) - {b[0]} by {
        forall y | y in Elements(b[1..]) ensures y in Elements(b) - {b[0]} {
          var k :| 0 <= k < |b[1..]| && b[1..][k] == y;
          assert Below(b[0], b[k + 1]);
          BelowIrreflexive(b[0]);
        }
        forall y | y in Elements(b) - {b[0]} ensures y in Elements(b[1..]) {
          var k :| 0 <= k < |b| && b[k] == y;
          assert b[1..][k - 1] == y;
        }
      }
      StrictlySortedUnique(a[1..], b[1..]);
      assert a == [a[0]] + a[1..];
      assert b == [b[0]] + b[1..];
    }
  }
}
