/** Strings as the gate stores them: the key order of its sorted maps, and byte lengths. */
module Text {

  /** Lexicographic order by code point, which is the order of UTF-8 bytes. */
  predicate Le(a: string, b: string) {
    a == "" || (b != "" && (a[0] < b[0] || (a[0] == b[0] && Le(a[1..], b[1..]))))
  }

  /** One string comes before another if it is its beginning, or has the smaller character where they first differ. */
  lemma {:induction false} LeMeans(a: string, b: string)
    ensures Le(a, b) <==> a <= b || exists i :: DifferAt(a, b, i) && a[i] < b[i]
  {
    if a != "" && b != "" && a[0] == b[0] {
      LeMeans(a[1..], b[1..]);
      assert a <= b <==> a[1..] <= b[1..] by { assert a == [a[0]] + a[1..] && b == [b[0]] + b[1..]; }
      if i :| DifferAt(a, b, i) && a[i] < b[i] { DifferTails(a, b, i - 1); }
      if i :| DifferAt(a[1..], b[1..], i) && a[1..][i] < b[1..][i] {
        DifferTails(a, b, i);
        assert DifferAt(a, b, i + 1);
      }
    } else if a != "" && b != "" {
      assert DifferAt(a, b, 0);
      FirstDiffers(a, b);
    }
  }

  ghost predicate DifferAt(a: string, b: string, i: int) {
    0 <= i < |a| && i < |b| && a[..i] == b[..i] && a[i] != b[i]
  }

  lemma FirstDiffers(a: string, b: string)
    requires a != "" && b != ""
    ensures forall i :: DifferAt(a, b, i) && a[0] != b[0] ==> i == 0
  {
    forall i | 0 < i <= |a| && i <= |b| && a[..i] == b[..i] ensures a[0] == b[0] {
      assert a[..i][0] == a[0] && b[..i][0] == b[0];
    }
  }

  lemma DifferTails(a: string, b: string, i: int)
    requires a != "" && b != "" && a[0] == b[0]
    ensures DifferAt(a, b, i + 1) && i >= 0 <==> DifferAt(a[1..], b[1..], i)
  {
    if 0 <= i < |a| - 1 && i < |b| - 1 {
      assert a[..i + 1] == [a[0]] + a[1..][..i] && b[..i + 1] == [b[0]] + b[1..][..i];
    }
  }

  lemma LeTotal(a: string, b: string)
    ensures Le(a, b) || Le(b, a)
  {}

  lemma {:induction false} LeAntisymmetric(a: string, b: string)
    requires Le(a, b) && Le(b, a)
    ensures a == b
  {
    if a != "" {
      LeAntisymmetric(a[1..], b[1..]);
      assert a == [a[0]] + a[1..] && b == [b[0]] + b[1..];
    }
  }

  lemma {:induction false} LeTransitive(a: string, b: string, c: string)
    requires Le(a, b) && Le(b, c)
    ensures Le(a, c)
  {
    if a != "" && a[0] == b[0] == c[0] {
      LeTransitive(a[1..], b[1..], c[1..]);
    }
  }

  ghost predicate IsLeast(m: string, s: set<string>) {
    m in s && forall t :: t in s ==> Le(m, t)
  }

  lemma {:induction false} LeastExists(s: set<string>) returns (m: string)
    requires s != {}
    ensures IsLeast(m, s)
  {
    var x :| x in s;
    m := x;
    LeTotal(x, x);
    var rest := s - {x};
    assert forall t :: t in s ==> t == x || t in rest;
    if rest != {} {
      var n := LeastExists(rest);
      LeTotal(x, n);
      if Le(x, n) {
        forall t | t in rest ensures Le(x, t) { LeTransitive(x, n, t); }
      } else {
        m := n;
      }
    }
  }

  /** The first key a sorted map yields. */
  function Least(s: set<string>): (m: string)
    requires s != {}
    ensures m in s && forall t :: t in s ==> Le(m, t)
  {
    assert exists m :: m in s && forall t :: t in s ==> Le(m, t) by {
      var m := LeastExists(s);
    }
    assert forall a, b :: a in s && b in s && Le(a, b) && Le(b, a) ==> a == b by {
      forall a, b | a in s && b in s && Le(a, b) && Le(b, a) ensures a == b { LeAntisymmetric(a, b); }
    }
    var m :| m in s && forall t :: t in s ==> Le(m, t);
    m
  }

  /** The keys of a sorted map in iteration order. */
  function Sorted(s: set<string>): (r: seq<string>)
    ensures |r| == |s| && forall k :: k in r <==> k in s
    decreases |s|
  {
    if s == {} then []
    else
      var m := Least(s);
      [m] + Sorted(s - {m})
  }

  lemma {:induction false} SortedAscends(s: set<string>, i: nat, j: nat)
    requires i < j < |Sorted(s)|
    ensures Le(Sorted(s)[i], Sorted(s)[j]) && Sorted(s)[i] != Sorted(s)[j]
    decreases |s|
  {
    var m := Least(s);
    var rest := Sorted(s - {m});
    if i == 0 {
      assert rest[j - 1] in rest;
    } else {
      SortedAscends(s - {m}, i - 1, j - 1);
    }
  }

  /** The keys an in-order loop has visited after `i` steps. */
  ghost function Visited(s: set<string>, i: nat): set<string>
    requires i <= |s|
  {
    set k | k in Sorted(s)[..i]
  }

  lemma VisitedEnds(s: set<string>)
    ensures Visited(s, 0) == {} && Visited(s, |s|) == s
  {
    assert Sorted(s)[..|s|] == Sorted(s);
  }

  lemma VisitedStep(s: set<string>, i: nat)
    requires i < |s|
    ensures Sorted(s)[i] in s && Sorted(s)[i] !in Visited(s, i)
    ensures Visited(s, i + 1) == Visited(s, i) + {Sorted(s)[i]}
  {
    hide Sorted;
    hide Le;
    var r := Sorted(s);
    assert r[i] in r && r[..i + 1] == r[..i] + [r[i]];
    if r[i] in r[..i] {
      var j :| 0 <= j < i && r[j] == r[i];
      SortedAscends(s, j, i);
    }
  }

  /** A character takes one byte below 0x80, two below 0x800, three below 0x10000, and four above; a text the sum. */
  lemma {:induction false} Utf8Adds(a: string, b: string, c: char)
    ensures Utf8Length(a + b) == Utf8Length(a) + Utf8Length(b)
    ensures Utf8Length([c]) == 1 + (if c as int >= 0x80 then 1 else 0) + (if c as int >= 0x800 then 1 else 0)
                               + (if c as int >= 0x1_0000 then 1 else 0)
  {
    assert [c][1..] == "";
    if a == "" {
      assert a + b == b;
    } else {
      assert (a + b)[1..] == a[1..] + b;
      Utf8Adds(a[1..], b, c);
    }
  }

  /** Length in bytes of the UTF-8 encoding. */
  function Utf8Length(s: string): nat {
    if s == "" then 0
    else
      var c := s[0] as int;
      (if c < 0x80 then 1 else if c < 0x800 then 2 else if c < 0x1_0000 then 3 else 4) + Utf8Length(s[1..])
  }
}
