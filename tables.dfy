/**
 * The identifier and literal tables: a text is numbered the first time it is
 * recorded, with one more than the table's current size, and keeps its number.
 */
module SymbolTables {

  type Table = map<string, nat>

  /** Records x: a new text gets the next number, a known text leaves the table as it is. */
  function Intern(m: Table, x: string): (r: Table)
    ensures r.Keys == m.Keys + {x}
    ensures forall y :: y in m ==> r[y] == m[y]
    ensures x !in m ==> r[x] == |m| + 1 && |r| == |m| + 1
    ensures x in m ==> |r| == |m|
  {
    if x in m then m else m[x := |m| + 1]
  }

  /** Writing back the value a key already has leaves a map as it is. */
  lemma WriteBackSame(m: map<string, nat>, k: string, v: nat)
    requires k in m && m[k] == v
    ensures m[k := v] == m
  {
  }

  /** Records each text of xs in order. */
  function InternAll(m: Table, xs: seq<string>): (r: Table)
    ensures r.Keys == m.Keys + set x | x in xs
    ensures forall y :: y in m ==> r[y] == m[y]
    decreases |xs|
  {
    if xs == [] then m else InternAll(Intern(m, xs[0]), xs[1..])
  }

  predicate NoDuplicates(d: seq<string>) {
    forall i, j :: 0 <= i < j < |d| ==> d[i] != d[j]
  }

  /** The table that numbers the distinct texts of d 1, 2, 3, ... in the order of d. */
  function Numbering(d: seq<string>): (m: Table)
    requires NoDuplicates(d)
    ensures m.Keys == set x | x in d
    ensures |m| == |d|
    ensures forall i :: 0 <= i < |d| ==> m[d[i]] == i + 1
    decreases |d|
  {
    if d == [] then map[]
    else
      var front, last := d[..|d| - 1], d[|d| - 1];
      SplitLast(d, front, last);
      NumberingExtend(front, last, Numbering(front));
      Numbering(front)[last := |d|]
  }

  /** A sequence without duplicates is its front and its last text, which the front lacks. */
  lemma {:induction false} SplitLast(d: seq<string>, front: seq<string>, last: string)
    requires NoDuplicates(d) && d != [] && front == d[..|d| - 1] && last == d[|d| - 1]
    ensures d == front + [last] && NoDuplicates(front) && last !in front
  {
    assert d == front + [last];
    forall i | 0 <= i < |front| ensures front[i] == d[i] && front[i] != last {
      assert front[i] == d[i];
    }
  }

  /** Numbering one more text after front: the new text gets |front| + 1. */
  lemma {:induction false} NumberingExtend(front: seq<string>, last: string, m: Table)
    requires last !in front
    requires m.Keys == (set x | x in front) && |m| == |front|
    requires forall i :: 0 <= i < |front| ==> m[front[i]] == i + 1
    ensures var d, r := front + [last], m[last := |front| + 1];
      && r.Keys == (set x | x in d)
      && |r| == |d|
      && forall i :: 0 <= i < |d| ==> r[d[i]] == i + 1
  {
    var d, r := front + [last], m[last := |front| + 1];
    assert r.Keys == (set x | x in d) by {
      assert forall x :: x in d <==> x in front || x == last;
    }
    forall i | 0 <= i < |d| ensures r[d[i]] == i + 1 {
      if i < |front| {
        assert d[i] == front[i] && d[i] != last;
      }
    }
  }

  /** seen, extended by the texts of xs not seen before, in the order they first occur. */
  function FirstSeen(seen: seq<string>, xs: seq<string>): (d: seq<string>)
    requires NoDuplicates(seen)
    ensures NoDuplicates(d)
    ensures seen <= d
    ensures (set x | x in d) == (set x | x in seen) + (set x | x in xs)
    decreases |xs|
  {
    if xs == [] then seen
    else if xs[0] in seen then FirstSeen(seen, xs[1..])
    else FirstSeen(seen + [xs[0]], xs[1..])
  }

  /** The values of a table are exactly 1..|m|, each used once. */
  ghost predicate Numbered(m: Table) {
    && (forall v :: v in m.Values <==> 1 <= v <= |m|)
    && (forall x, y :: x in m && y in m && x != y ==> m[x] != m[y])
  }

  lemma {:induction false} InternNumbered(m: Table, x: string)
    requires Numbered(m)
    ensures Numbered(Intern(m, x))
  {
    if x !in m {
      var r := Intern(m, x);
      forall v ensures v in r.Values <==> 1 <= v <= |r| {
        if v in r.Values {
          var y :| y in r && r[y] == v;
          if y != x { assert v in m.Values; }
        }
        if 1 <= v <= |m| {
          assert v in m.Values;
          var y :| y in m && m[y] == v;
          assert r[y] == v;
        }
        if v == |r| { assert r[x] == v; }
      }
      forall y, z | y in r && z in r && y != z ensures r[y] != r[z] {
        if y != x && z != x {
        } else if y == x {
          assert r[z] in m.Values;
        } else {
          assert r[y] in m.Values;
        }
      }
    }
  }

  /** Recording never renumbers: the table stays 1..n without duplicates. */
  lemma {:induction false} InternAllNumbered(m: Table, xs: seq<string>)
    requires Numbered(m)
    ensures Numbered(InternAll(m, xs))
    decreases |xs|
  {
    if xs != [] {
      InternNumbered(m, xs[0]);
      InternAllNumbered(Intern(m, xs[0]), xs[1..]);
    }
  }

  /** Recording a text the numbering already has changes nothing. */
  lemma {:induction false} InternKnown(d: seq<string>, x: string)
    requires NoDuplicates(d) && x in d
    ensures Intern(Numbering(d), x) == Numbering(d)
  {
  }

  /** Recording a new text into a first-seen numbering numbers it next. */
  lemma {:induction false} InternNew(d: seq<string>, x: string)
    requires NoDuplicates(d) && x !in d
    ensures NoDuplicates(d + [x]) && Intern(Numbering(d), x) == Numbering(d + [x])
  {
    var d' := d + [x];
    NoDuplicatesSnoc(d, x);
    assert d'[..|d'| - 1] == d;
  }

  lemma {:induction false} NoDuplicatesSnoc(d: seq<string>, x: string)
    requires NoDuplicates(d) && x !in d
    ensures NoDuplicates(d + [x])
  {
    var d' := d + [x];
    forall i, j | 0 <= i < j < |d'| ensures d'[i] != d'[j] {
      assert d'[i] == d[i];
      if j < |d| { assert d'[j] == d[j]; }
    }
  }

  /** Recording x into a first-seen numbering gives the numbering with x added if it is new. */
  lemma {:induction false} InternFirst(seen: seq<string>, x: string)
    requires NoDuplicates(seen)
    ensures var seen' := if x in seen then seen else seen + [x];
      && NoDuplicates(seen') && Intern(Numbering(seen), x) == Numbering(seen')
  {
    if x in seen {
      InternKnown(seen, x);
    } else {
      InternNew(seen, x);
    }
  }

  /** Recording a sequence of texts into a first-seen numbering gives the first-seen numbering. */
  lemma {:induction false} InternAllNumbering(seen: seq<string>, xs: seq<string>)
    requires NoDuplicates(seen)
    ensures InternAll(Numbering(seen), xs) == Numbering(FirstSeen(seen, xs))
    decreases |xs|
  {
    if xs != [] {
      var seen' := if xs[0] in seen then seen else seen + [xs[0]];
      InternFirst(seen, xs[0]);
      InternAllNumbering(seen', xs[1..]);
    }
  }

  /** Starting from an empty table, text x gets 1 + the number of distinct texts seen before it. */
  lemma {:induction false} FreshNumbering(xs: seq<string>)
    ensures NoDuplicates(FirstSeen([], xs))
    ensures InternAll(map[], xs) == Numbering(FirstSeen([], xs))
  {
    assert Numbering([]) == map[];
    InternAllNumbering([], xs);
  }

  /** Recording a one-text sequence is recording that text. */
  lemma {:induction false} InternNone(m: Table)
    ensures InternAll(m, []) == m
  {
  }

  lemma {:induction false} InternOne(m: Table, x: string)
    ensures InternAll(m, [x]) == Intern(m, x)
  {
    assert [x][1..] == [];
  }

  /** Recording texts one after the other is recording their concatenation. */
  lemma {:induction false} InternAllAppend(m: Table, xs: seq<string>, ys: seq<string>)
    ensures InternAll(m, xs + ys) == InternAll(InternAll(m, xs), ys)
    decreases |xs|
  {
    if xs == [] {
      assert xs + ys == ys;
    } else {
      var zs := xs + ys;
      assert zs != [] && zs[0] == xs[0] && zs[1..] == xs[1..] + ys;
      calc {
        InternAll(m, zs);
        InternAll(Intern(m, xs[0]), xs[1..] + ys);
        { InternAllAppend(Intern(m, xs[0]), xs[1..], ys); }
        InternAll(InternAll(Intern(m, xs[0]), xs[1..]), ys);
      }
    }
  }
}
