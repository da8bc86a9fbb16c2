/** The cell swap of the KLayout operations script (`swap_cells` and
    `__do_cell_swap` in siliconcompiler/tools/klayout/klayout_operations.py)
    over an abstract cell graph: a layout is a set of cells, each holding
    instances that place other cells. The walk starts at the top cell,
    redirects every instance of the old cell to the new cell, descends into
    every other instance once, and counts the redirected instances; the old
    cell is then deleted. */
module CellSwap {
  import opened Wrappers

  /** The instances of a cell, each given by the index of the cell it places. */
  type Instances = seq<nat>

  /** How many instances place cell `c`. */
  function Occurrences(insts: Instances, c: nat): nat
  {
    if insts == [] then 0 else (if insts[0] == c then 1 else 0) + Occurrences(insts[1..], c)
  }

  /** The instances with every one that placed `oldCell` now placing `newCell`. */
  function Redirect(insts: Instances, oldCell: nat, newCell: nat): (r: Instances)
    ensures |r| == |insts|
    ensures forall k :: 0 <= k < |insts| ==> r[k] == if insts[k] == oldCell then newCell else insts[k]
  {
    seq(|insts|, k requires 0 <= k < |insts| => if insts[k] == oldCell then newCell else insts[k])
  }

  /** Redirecting moves every instance of the old cell to the new one:
      none is left, and the new cell gains exactly as many. */
  lemma {:induction false} RedirectMovesCount(insts: Instances, oldCell: nat, newCell: nat)
    requires oldCell != newCell
    ensures Occurrences(Redirect(insts, oldCell, newCell), oldCell) == 0
    ensures Occurrences(Redirect(insts, oldCell, newCell), newCell) == Occurrences(insts, oldCell) + Occurrences(insts, newCell)
  {
    if insts != [] {
      assert Redirect(insts, oldCell, newCell)[1..] == Redirect(insts[1..], oldCell, newCell);
      RedirectMovesCount(insts[1..], oldCell, newCell);
    }
  }

  /** The instances with every one that placed `c` removed, in order:
      every other cell is placed as often as before. */
  function RemoveAll(insts: Instances, c: nat): (r: Instances)
    ensures c !in r
    ensures forall x :: x in r ==> x in insts
    ensures forall y :: Occurrences(r, y) == if y == c then 0 else Occurrences(insts, y)
  {
    if insts == [] then []
    else if insts[0] == c then RemoveAll(insts[1..], c)
    else
      var rest := RemoveAll(insts[1..], c);
      assert ([insts[0]] + rest)[1..] == rest;
      [insts[0]] + rest
  }

  /** Removing from two runs of instances one after the other keeps their
      order: the kept instances of the first come before those of the
      second. */
  lemma {:induction false} RemoveAllAppend(a: Instances, b: Instances, c: nat)
    ensures RemoveAll(a + b, c) == RemoveAll(a, c) + RemoveAll(b, c)
  {
    if a == [] {
      assert a + b == b;
    } else {
      assert (a + b)[0] == a[0] && (a + b)[1..] == a[1..] + b;
      RemoveAllAppend(a[1..], b, c);
    }
  }

  /** The layout after `delete_cell(c)`: the cell is gone, and so is every
      instance that placed it. */
  function DeleteCell(cells: map<nat, Instances>, c: nat): (r: map<nat, Instances>)
    ensures r.Keys == cells.Keys - {c}
    ensures forall x :: x in r ==> c !in r[x]
    ensures forall x :: x in r ==> r[x] == RemoveAll(cells[x], c)
  {
    map x | x in cells && x != c :: RemoveAll(cells[x], c)
  }

  /** The cell names once cell `c` is deleted. */
  function DeleteName(names: map<string, nat>, c: nat): (r: map<string, nat>)
    ensures forall n :: n in r <==> n in names && names[n] != c
    ensures forall n :: n in r ==> r[n] == names[n]
  {
    map n | n in names && names[n] != c :: names[n]
  }

  /** The cells after the cells in `visited` have had their instances
      redirected and no other cell was touched. */
  function Walked(cells: map<nat, Instances>, visited: seq<nat>, oldCell: nat, newCell: nat): (r: map<nat, Instances>)
    ensures r.Keys == cells.Keys
  {
    map c | c in cells :: if c in visited then Redirect(cells[c], oldCell, newCell) else cells[c]
  }

  /** The number of redirected instances: those that placed `oldCell` in
      each visited cell. */
  function Replaced(cells: map<nat, Instances>, visited: seq<nat>, oldCell: nat): nat
  {
    if visited == [] then 0
    else (if visited[0] in cells then Occurrences(cells[visited[0]], oldCell) else 0)
         + Replaced(cells, visited[1..], oldCell)
  }

  predicate Distinct(xs: seq<nat>)
  {
    forall i, j :: 0 <= i < j < |xs| ==> xs[i] != xs[j]
  }

  /** Every instance of a visited cell that did not place `oldCell` leads to
      a cell in `reached`: the walk descended into it. */
  predicate Closed(cells: map<nat, Instances>, visited: seq<nat>, reached: seq<nat>, oldCell: nat)
  {
    forall c, k :: c in visited && c in cells && 0 <= k < |cells[c]| && cells[c][k] != oldCell ==> cells[c][k] in reached
  }

  /** Cell `b` is placed in cell `a` by an instance that does not place
      `oldCell`: one the walk descends through. */
  predicate PlacesOther(cells: map<nat, Instances>, a: nat, b: nat, oldCell: nat)
  {
    a in cells && b != oldCell && b in cells[a]
  }

  /** Every visited cell after the first was reached through an instance,
      not of the old cell, of a cell visited before it. */
  predicate Reached(cells: map<nat, Instances>, visited: seq<nat>, oldCell: nat)
  {
    forall i :: 0 < i < |visited| ==> exists j :: 0 <= j < i && PlacesOther(cells, visited[j], visited[i], oldCell)
  }

  /** A run reached from a cell of a closed run stays inside it. */
  lemma {:induction false} ReachedWithin(cells: map<nat, Instances>, v: seq<nat>, w: seq<nat>, oldCell: nat, i: nat)
    requires |v| > 0 && v[0] in w && Reached(cells, v, oldCell) && Closed(cells, w, w, oldCell)
    requires i < |v|
    ensures v[i] in w
    decreases i
  {
    if i > 0 {
      var j :| 0 <= j < i && PlacesOther(cells, v[j], v[i], oldCell);
      ReachedWithin(cells, v, w, oldCell, j);
      var k :| 0 <= k < |cells[v[j]]| && cells[v[j]][k] == v[i];
    }
  }

  /** The count does not depend on the order in which the cells were
      visited. */
  lemma {:induction false} ReplacedSameCells(cells: map<nat, Instances>, a: seq<nat>, b: seq<nat>, oldCell: nat)
    requires Distinct(a) && Distinct(b) && forall x :: x in a <==> x in b
    ensures Replaced(cells, a, oldCell) == Replaced(cells, b, oldCell)
    decreases |a|
  {
    FirstIsMember(b);
    if a != [] {
      assert a[0] in b;
      var p :| 0 <= p < |b| && b[p] == a[0];
      ReplacedWithout(cells, b, p, oldCell);
      RestDistinct(b, p);
      RestMembers(a, b, p);
      ReplacedSameCells(cells, a[1..], b[..p] + b[p + 1..], oldCell);
    }
  }

  lemma FirstIsMember(b: seq<nat>)
    ensures b != [] ==> b[0] in b
  {
  }

  /** The count over a run is the count of one of its cells plus the count
      over the others. */
  lemma ReplacedWithout(cells: map<nat, Instances>, b: seq<nat>, p: nat, oldCell: nat)
    requires p < |b|
    ensures Replaced(cells, b, oldCell)
         == Replaced(cells, [b[p]], oldCell) + Replaced(cells, b[..p] + b[p + 1..], oldCell)
  {
    assert b == b[..p] + ([b[p]] + b[p + 1..]);
    ReplacedAppend(cells, b[..p], [b[p]] + b[p + 1..], oldCell);
    ReplacedAppend(cells, [b[p]], b[p + 1..], oldCell);
    ReplacedAppend(cells, b[..p], b[p + 1..], oldCell);
  }

  /** A distinct sequence without one element stays distinct. */
  lemma RestDistinct(b: seq<nat>, p: nat)
    requires Distinct(b) && p < |b|
    ensures Distinct(b[..p] + b[p + 1..])
  {
    var rest := b[..p] + b[p + 1..];
    forall i, j | 0 <= i < j < |rest|
      ensures rest[i] != rest[j]
    {
      var bi := if i < p then i else i + 1;
      var bj := if j < p then j else j + 1;
      assert rest[i] == b[bi] && rest[j] == b[bj];
    }
  }

  /** Two distinct sequences with the same elements, less the first of one
      and that element in the other, have the same elements. */
  lemma RestMembers(a: seq<nat>, b: seq<nat>, p: nat)
    requires Distinct(a) && Distinct(b) && |a| > 0 && p < |b| && b[p] == a[0]
    requires forall x :: x in a <==> x in b
    ensures forall y :: y in a[1..] <==> y in b[..p] + b[p + 1..]
  {
    forall y
      ensures y in a[1..] <==> y in b[..p] + b[p + 1..]
    {
      RestMember(a, b, p, y);
    }
  }

  lemma RestMember(a: seq<nat>, b: seq<nat>, p: nat, y: nat)
    requires Distinct(a) && Distinct(b) && |a| > 0 && p < |b| && b[p] == a[0]
    requires forall x :: x in a <==> x in b
    ensures y in a[1..] <==> y in b[..p] + b[p + 1..]
  {
    var rest := b[..p] + b[p + 1..];
    if y in a[1..] {
      var i :| 0 <= i < |a| - 1 && a[1..][i] == y;
      assert a[i + 1] == y && y != a[0];
      assert y in b;
      var q :| 0 <= q < |b| && b[q] == y;
      if q < p {
        assert rest[q] == y;
      } else {
        assert rest[q - 1] == y;
      }
    }
    if y in rest {
      var q :| 0 <= q < |rest| && rest[q] == y;
      var bq := if q < p then q else q + 1;
      assert b[bq] == y && bq != p;
      assert y in a;
      var i :| 0 <= i < |a| && a[i] == y;
      assert i != 0;
      assert a[1..][i - 1] == y;
    }
  }

  /** The walk's outcome is determined: two runs from the same top cell,
      each visiting cells only through instances not of the old cell and
      each closed under those instances, visit the same cells, leave the
      same layout and count the same redirections, whatever their order. */
  lemma WalkDetermined(cells: map<nat, Instances>, v1: seq<nat>, v2: seq<nat>, oldCell: nat, newCell: nat)
    requires |v1| > 0 && |v2| > 0 && v1[0] == v2[0]
    requires Distinct(v1) && Reached(cells, v1, oldCell) && Closed(cells, v1, v1, oldCell)
    requires Distinct(v2) && Reached(cells, v2, oldCell) && Closed(cells, v2, v2, oldCell)
    ensures forall x :: x in v1 <==> x in v2
    ensures Walked(cells, v1, oldCell, newCell) == Walked(cells, v2, oldCell, newCell)
    ensures Replaced(cells, v1, oldCell) == Replaced(cells, v2, oldCell)
  {
    forall x | x in v1
      ensures x in v2
    {
      var i :| 0 <= i < |v1| && v1[i] == x;
      ReachedWithin(cells, v1, v2, oldCell, i);
    }
    forall x | x in v2
      ensures x in v1
    {
      var i :| 0 <= i < |v2| && v2[i] == x;
      ReachedWithin(cells, v2, v1, oldCell, i);
    }
    ReplacedSameCells(cells, v1, v2, oldCell);
    var w1, w2 := Walked(cells, v1, oldCell, newCell), Walked(cells, v2, oldCell, newCell);
    forall c | c in cells
      ensures w1[c] == w2[c]
    {
    }
  }

  /** A descent keeps every cell visited so far reached: the first cell it
      adds is the instance's own cell, placed by `parent`, and the others
      were reached inside the descent, through cells it had not touched. */
  lemma ReachedDescend(start: map<nat, Instances>, cur: map<nat, Instances>, parent: nat, j: nat,
                       checked: seq<nat>, out: seq<nat>, grown: seq<nat>, oldCell: nat)
    requires |out| > |checked| && out[|checked|] == parent
    requires parent in start && j < |start[parent]| && start[parent][j] != oldCell
    requires Reached(start, out[|checked|..], oldCell)
    requires |grown| >= |out| && grown[..|out|] == out
    requires |grown| > |out| ==> grown[|out|] == start[parent][j]
    requires Reached(cur, grown[|out|..], oldCell)
    requires forall x :: x in grown[|out|..] ==> x in start && x in cur && cur[x] == start[x]
    ensures Reached(start, grown[|checked|..], oldCell)
  {
    var v, added, w := out[|checked|..], grown[|out|..], grown[|checked|..];
    forall i | 0 < i < |w|
      ensures exists j' :: 0 <= j' < i && PlacesOther(start, w[j'], w[i], oldCell)
    {
      if i < |v| {
        assert w[i] == v[i];
        var j' :| 0 <= j' < i && PlacesOther(start, v[j'], v[i], oldCell);
        assert w[j'] == v[j'];
      } else if i == |v| {
        assert w[0] == parent && w[i] == start[parent][j];
        assert start[parent][j] in start[parent];
        assert PlacesOther(start, w[0], w[i], oldCell);
      } else {
        var a := i - |v|;
        assert w[i] == added[a];
        var j' :| 0 <= j' < a && PlacesOther(cur, added[j'], added[a], oldCell);
        assert added[j'] in added;
        assert w[|v| + j'] == added[j'];
        assert PlacesOther(start, w[|v| + j'], w[i], oldCell);
      }
    }
  }

  /** Walking two disjoint runs of cells one after the other is walking them
      together. */
  lemma WalkedCompose(cells: map<nat, Instances>, a: seq<nat>, b: seq<nat>, oldCell: nat, newCell: nat)
    requires forall x :: x in b ==> x !in a
    ensures Walked(Walked(cells, a, oldCell, newCell), b, oldCell, newCell) == Walked(cells, a + b, oldCell, newCell)
  {
    var lhs := Walked(Walked(cells, a, oldCell, newCell), b, oldCell, newCell);
    var rhs := Walked(cells, a + b, oldCell, newCell);
    forall c | c in cells
      ensures lhs[c] == rhs[c]
    {
      assert c in a + b <==> c in a || c in b;
    }
  }

  /** The count over two runs of cells adds up. */
  lemma {:induction false} ReplacedAppend(cells: map<nat, Instances>, a: seq<nat>, b: seq<nat>, oldCell: nat)
    ensures Replaced(cells, a + b, oldCell) == Replaced(cells, a, oldCell) + Replaced(cells, b, oldCell)
  {
    if a != [] {
      assert (a + b)[1..] == a[1..] + b;
      ReplacedAppend(cells, a[1..], b, oldCell);
    } else {
      assert a + b == b;
    }
  }

  /** The count only looks at the visited cells. */
  lemma {:induction false} ReplacedAgree(c1: map<nat, Instances>, c2: map<nat, Instances>, visited: seq<nat>, oldCell: nat)
    requires forall x :: x in visited ==> (x in c1 <==> x in c2) && (x in c1 ==> c1[x] == c2[x])
    ensures Replaced(c1, visited, oldCell) == Replaced(c2, visited, oldCell)
  {
    if visited != [] {
      ReplacedAgree(c1, c2, visited[1..], oldCell);
    }
  }

  /** Counting instances of a prefix one more element at a time. */
  lemma {:induction false} OccurrencesPrefix(insts: Instances, j: nat, c: nat)
    requires j < |insts|
    ensures Occurrences(insts[..j + 1], c) == Occurrences(insts[..j], c) + (if insts[j] == c then 1 else 0)
    decreases j
  {
    if j > 0 {
      assert insts[..j + 1][1..] == insts[1..][..j];
      assert insts[..j][1..] == insts[1..][..j - 1];
      OccurrencesPrefix(insts[1..], j - 1, c);
    }
  }

  /** Every instance places a cell of the layout. */
  predicate PlacesExisting(cells: map<nat, Instances>)
  {
    forall c, k :: c in cells && 0 <= k < |cells[c]| ==> cells[c][k] in cells
  }

  /** The unvisited cells shrink once `parent`, unvisited before, is visited. */
  lemma UnvisitedShrinks(keys: set<nat>, checked: seq<nat>, grown: seq<nat>, parent: nat)
    requires |grown| >= |checked| && grown[..|checked|] == checked
    requires parent in keys && parent !in checked && parent in grown
    ensures keys - (set x | x in grown) < keys - (set x | x in checked)
  {
    forall x | x in checked
      ensures x in grown
    {
      var p :| 0 <= p < |checked| && checked[p] == x;
      assert grown[p] == x;
    }
    assert parent in keys - (set x | x in checked);
    assert parent !in keys - (set x | x in grown);
  }

  /** The state of the walk in `parent` after its first `j` instances:
      `checked` grown by `parent` and then by the cells visited below it, the
      cells below redirected, the first `j` instances of `parent`
      redirected, the count of the redirections so far, and every instance
      so far not redirected descended into. */
  predicate Progress(start: map<nat, Instances>, cur: map<nat, Instances>, parent: nat, j: nat,
                     checked: seq<nat>, out: seq<nat>, count: nat, oldCell: nat, newCell: nat)
  {
    && parent in start && j <= |start[parent]|
    && |out| > |checked| && out[..|checked|] == checked && out[|checked|] == parent && Distinct(out)
    && (forall x :: x in out[|checked| + 1..] ==> x in start && x != parent)
    && cur == Walked(start, out[|checked| + 1..], oldCell, newCell)
                [parent := Redirect(start[parent][..j], oldCell, newCell) + start[parent][j..]]
    && count == Occurrences(start[parent][..j], oldCell) + Replaced(start, out[|checked| + 1..], oldCell)
    && Closed(start, out[|checked| + 1..], out, oldCell)
    && (forall k :: 0 <= k < j && start[parent][k] != oldCell ==> start[parent][k] in out)
  }

  lemma ProgressStart(start: map<nat, Instances>, parent: nat, checked: seq<nat>, oldCell: nat, newCell: nat)
    requires parent in start && parent !in checked && Distinct(checked)
    ensures Progress(start, start, parent, 0, checked, checked + [parent], 0, oldCell, newCell)
  {
    var out := checked + [parent];
    assert out[..|checked|] == checked;
    assert out[|checked| + 1..] == [];
    assert Redirect(start[parent][..0], oldCell, newCell) + start[parent][0..] == start[parent];
    assert Walked(start, [], oldCell, newCell) == start;
  }

  /** An instance of the old cell is redirected and counted. */
  lemma ProgressRedirect(start: map<nat, Instances>, cur: map<nat, Instances>, parent: nat, j: nat,
                         checked: seq<nat>, out: seq<nat>, count: nat, oldCell: nat, newCell: nat)
    requires Progress(start, cur, parent, j, checked, out, count, oldCell, newCell)
    requires j < |start[parent]| && start[parent][j] == oldCell
    ensures parent in cur && j < |cur[parent]|
    ensures var next: Instances := cur[parent][j := newCell];
      Progress(start, cur[parent := next], parent, j + 1, checked, out, count + 1, oldCell, newCell)
  {
    var insts := start[parent];
    OccurrencesPrefix(insts, j, oldCell);
    assert Redirect(insts[..j + 1], oldCell, newCell) + insts[j + 1..]
        == (Redirect(insts[..j], oldCell, newCell) + insts[j..])[j := newCell];
  }

  /** Deleting a cell keeps every remaining instance placing an existing
      cell. */
  lemma DeleteKeepsPlaces(cells: map<nat, Instances>, c: nat)
    requires PlacesExisting(cells)
    ensures PlacesExisting(DeleteCell(cells, c))
  {
    var r := DeleteCell(cells, c);
    forall x, k | x in r && 0 <= k < |r[x]|
      ensures r[x][k] in r
    {
      assert r[x][k] in RemoveAll(cells[x], c);
    }
  }

  /** The `j`-th instance of `parent` is still the one it started with, and
      its cell exists. */
  lemma ProgressInstance(start: map<nat, Instances>, cur: map<nat, Instances>, parent: nat, j: nat,
                         checked: seq<nat>, out: seq<nat>, count: nat, oldCell: nat, newCell: nat)
    requires Progress(start, cur, parent, j, checked, out, count, oldCell, newCell)
    requires j < |start[parent]| && PlacesExisting(cur)
    ensures parent in cur && j < |cur[parent]| && cur[parent][j] == start[parent][j] && cur[parent][j] in cur
  {
    var insts := start[parent];
    assert cur[parent] == Redirect(insts[..j], oldCell, newCell) + insts[j..];
    assert cur[parent][j] == insts[j..][0];
  }

  /** Pointing one instance at an existing cell keeps every instance
      placing an existing cell. */
  lemma RedirectKeepsPlaces(cur: map<nat, Instances>, parent: nat, j: nat, newCell: nat)
    requires PlacesExisting(cur) && newCell in cur && parent in cur && j < |cur[parent]|
    ensures var next: Instances := cur[parent][j := newCell];
      PlacesExisting(cur[parent := next])
  {
  }

  /** What a sequence extended by `grown[|out|..]` keeps and gains. */
  lemma Extension(out: seq<nat>, grown: seq<nat>)
    requires |grown| >= |out| && grown[..|out|] == out && Distinct(grown)
    ensures forall x :: x in out ==> x in grown
    ensures forall x :: x in grown[|out|..] ==> x !in out
  {
    forall x | x in out
      ensures x in grown
    {
      var p :| 0 <= p < |out| && out[p] == x;
      assert grown[p] == x;
    }
    forall x | x in grown[|out|..]
      ensures x !in out
    {
      var p :| 0 <= p < |grown| - |out| && grown[|out|..][p] == x;
      assert grown[|out| + p] == x;
      forall q | 0 <= q < |out|
        ensures out[q] != x
      {
        assert grown[q] == out[q];
      }
    }
  }

  /** The cells of a descent, walked on top of those walked before. */
  lemma WalkStep(start: map<nat, Instances>, cur: map<nat, Instances>, parent: nat, partial: Instances,
                 mine: seq<nat>, added: seq<nat>, oldCell: nat, newCell: nat)
    requires parent !in mine && parent !in added && forall x :: x in added ==> x !in mine
    requires cur == Walked(start, mine, oldCell, newCell)[parent := partial]
    requires parent in start
    ensures Walked(cur, added, oldCell, newCell) == Walked(start, mine + added, oldCell, newCell)[parent := partial]
  {
    WalkedCompose(start, mine, added, oldCell, newCell);
    var lhs := Walked(cur, added, oldCell, newCell);
    var rhs := Walked(start, mine + added, oldCell, newCell)[parent := partial];
    forall c | c in start
      ensures lhs[c] == rhs[c]
    {
    }
    assert lhs == rhs;
  }

  /** An instance of another cell is descended into: the cells that visit
      newly visits are redirected and counted, and the instance's cell is
      visited. */
  lemma ProgressDescend(start: map<nat, Instances>, cur: map<nat, Instances>, parent: nat, j: nat,
                        checked: seq<nat>, out: seq<nat>, count: nat, oldCell: nat, newCell: nat,
                        grown: seq<nat>, after: map<nat, Instances>, r: nat)
    requires Progress(start, cur, parent, j, checked, out, count, oldCell, newCell)
    requires j < |start[parent]| && start[parent][j] != oldCell
    requires |grown| >= |out| && grown[..|out|] == out && Distinct(grown) && start[parent][j] in grown
    requires forall x :: x in grown[|out|..] ==> x in cur
    requires after == Walked(cur, grown[|out|..], oldCell, newCell)
    requires r == Replaced(cur, grown[|out|..], oldCell)
    requires Closed(cur, grown[|out|..], grown, oldCell)
    ensures Progress(start, after, parent, j + 1, checked, grown, count + r, oldCell, newCell)
    ensures forall x :: x in grown[|out|..] ==> x in start && x in cur && cur[x] == start[x]
  {
    var insts := start[parent];
    var added := grown[|out|..];
    var mine := out[|checked| + 1..];
    Extension(out, grown);
    assert grown[..|checked|] == checked;
    assert grown[|checked|] == parent;
    assert grown[|checked| + 1..] == mine + added;
    assert parent !in mine && parent in out;
    assert forall x :: x in mine ==> x in out;
    AddedUntouched(start, cur, parent, mine, added, oldCell, newCell, Redirect(insts[..j], oldCell, newCell) + insts[j..]);
    ReplacedAgree(cur, start, added, oldCell);
    ReplacedAppend(start, mine, added, oldCell);
    OccurrencesPrefix(insts, j, oldCell);
    RedirectSkips(insts, j, oldCell, newCell);
    WalkStep(start, cur, parent, Redirect(insts[..j], oldCell, newCell) + insts[j..], mine, added, oldCell, newCell);
    ClosedStep(start, cur, mine, added, out, grown, oldCell);
  }

  /** Passing over an instance of another cell changes nothing. */
  lemma RedirectSkips(insts: Instances, j: nat, oldCell: nat, newCell: nat)
    requires j < |insts| && insts[j] != oldCell
    ensures Redirect(insts[..j + 1], oldCell, newCell) + insts[j + 1..] == Redirect(insts[..j], oldCell, newCell) + insts[j..]
  {
  }

  /** The cells a descent visits were untouched before it. */
  lemma AddedUntouched(start: map<nat, Instances>, cur: map<nat, Instances>, parent: nat,
                       mine: seq<nat>, added: seq<nat>, oldCell: nat, newCell: nat, partial: Instances)
    requires cur == Walked(start, mine, oldCell, newCell)[parent := partial]
    requires forall x :: x in added ==> x in cur && x !in mine && x != parent
    ensures forall x :: x in added ==> x in start && x in cur && cur[x] == start[x]
  {
  }

  /** Closure over the cells visited before and during a descent. */
  lemma ClosedStep(start: map<nat, Instances>, cur: map<nat, Instances>, mine: seq<nat>, added: seq<nat>,
                   out: seq<nat>, grown: seq<nat>, oldCell: nat)
    requires Closed(start, mine, out, oldCell)
    requires Closed(cur, added, grown, oldCell)
    requires forall x :: x in added ==> x in start && x in cur && cur[x] == start[x]
    requires forall x :: x in out ==> x in grown
    ensures Closed(start, mine + added, grown, oldCell)
  {
    forall c, k | c in mine + added && c in start && 0 <= k < |start[c]| && start[c][k] != oldCell
      ensures start[c][k] in grown
    {
      assert c in mine || c in added;
      if c in added {
        assert cur[c] == start[c];
      } else {
        assert start[c][k] in out;
      }
    }
  }

  /** Once every instance of `parent` is handled, the walk from `parent` is
      done. */
  lemma ProgressDone(start: map<nat, Instances>, cur: map<nat, Instances>, parent: nat,
                     checked: seq<nat>, out: seq<nat>, count: nat, oldCell: nat, newCell: nat)
    requires parent in start
    requires Progress(start, cur, parent, |start[parent]|, checked, out, count, oldCell, newCell)
    ensures cur == Walked(start, out[|checked|..], oldCell, newCell)
    ensures count == Replaced(start, out[|checked|..], oldCell)
    ensures Closed(start, out[|checked|..], out, oldCell)
  {
    var insts := start[parent];
    var mine := out[|checked| + 1..];
    assert insts[..|insts|] == insts && insts[|insts|..] == [];
    assert out[|checked|..] == [parent] + mine;
    assert Redirect(insts[..|insts|], oldCell, newCell) + insts[|insts|..] == Redirect(insts, oldCell, newCell);
    var whole := Walked(start, [parent] + mine, oldCell, newCell);
    forall c | c in start
      ensures cur[c] == whole[c]
    {
      assert c in [parent] + mine <==> c == parent || c in mine;
    }
    assert cur == whole;
    assert Replaced(start, [parent] + mine, oldCell) == Occurrences(insts, oldCell) + Replaced(start, mine, oldCell);
    forall c, k | c in [parent] + mine && c in start && 0 <= k < |start[c]| && start[c][k] != oldCell
      ensures start[c][k] in out
    {
      assert c == parent || c in mine;
    }
  }

  /** A layout: its cells by index with their instances, the index of each
      cell name, and the top cell. */
  class Layout {
    var cells: map<nat, Instances>
    var names: map<string, nat>
    var top: nat

    /** The top cell, every named cell and every placed cell exist. */
    predicate Valid()
      reads this
    {
      && top in cells
      && (forall n :: n in names ==> names[n] in cells)
      && PlacesExisting(cells)
    }

    /** A layout read in: its top cell, named cells and placed cells
        exist. */
    constructor (cells: map<nat, Instances>, names: map<string, nat>, top: nat)
      requires top in cells && (forall n :: n in names ==> names[n] in cells) && PlacesExisting(cells)
      ensures this.cells == cells && this.names == names && this.top == top
      ensures Valid()
    {
      this.cells := cells;
      this.names := names;
      this.top := top;
    }

    /** `swap_cells`: when both names are cells of the layout, walks from
        the top cell with nothing visited, redirecting the instances of the
        old cell to the new one in every cell the walk reaches, then deletes
        the old cell. The walk reaches the top cell and every cell placed by
        a reached cell through an instance not of the old cell. When either
        name is missing, the layout is returned as it was. */
    method SwapCells(oldName: string, newName: string)
      returns (replacements: Option<nat>, ghost visited: seq<nat>)
      requires Valid()
      modifies this
      ensures oldName !in old(names) || newName !in old(names) ==>
        replacements.None? && cells == old(cells) && names == old(names) && top == old(top)
      ensures oldName in old(names) && newName in old(names) ==>
        var oldCell, newCell := old(names)[oldName], old(names)[newName];
        && replacements == Some(Replaced(old(cells), visited, oldCell))
        && old(top) in visited && Distinct(visited)
        && (forall x :: x in visited ==> x in old(cells))
        && visited[0] == old(top) && Reached(old(cells), visited, oldCell)
        && Closed(old(cells), visited, visited, oldCell)
        && cells == DeleteCell(Walked(old(cells), visited, oldCell, newCell), oldCell)
        && names == DeleteName(old(names), oldCell)
        && top == old(top)
        && (top != oldCell ==> Valid())
    {
      if oldName !in names {
        return None, [];
      }
      if newName !in names {
        return None, [];
      }
      var oldCell, newCell := names[oldName], names[newName];
      var count, checked := DoCellSwap(top, oldCell, newCell, []);
      assert checked[0..] == checked;
      ghost var walked := cells;
      cells := DeleteCell(cells, oldCell);
      names := DeleteName(names, oldCell);
      if top != oldCell {
        DeleteKeepsPlaces(walked, oldCell);
      }
      return Some(count), checked;
    }

    /** The cells not yet visited. */
    function Unvisited(checked: seq<nat>): set<nat>
      reads this
    {
      cells.Keys - set x | x in checked
    }

    /** `__do_cell_swap`: visits `parent` unless already visited, redirects
        its instances of `oldCell` to `newCell` and descends into its other
        instances. `checked` is extended, never shortened, by the cells
        visited now; exactly those cells have their instances redirected;
        every other instance of theirs was descended into; and the count is
        the number of instances of `oldCell` they held. */
    method DoCellSwap(parent: nat, oldCell: nat, newCell: nat, checked: seq<nat>)
      returns (replacements: nat, checkedOut: seq<nat>)
      requires Valid() && parent in cells && newCell in cells && Distinct(checked)
      modifies this
      decreases Unvisited(checked), 0
      ensures Valid()
      ensures names == old(names) && top == old(top)
      ensures |checkedOut| >= |checked| && checkedOut[..|checked|] == checked
      ensures parent in checkedOut && Distinct(checkedOut)
      ensures parent in checked ==> checkedOut == checked && replacements == 0
      ensures parent !in checked ==> |checkedOut| > |checked| && checkedOut[|checked|] == parent
      ensures Reached(old(cells), checkedOut[|checked|..], oldCell)
      ensures forall x :: x in checkedOut[|checked|..] ==> x in cells
      ensures cells == Walked(old(cells), checkedOut[|checked|..], oldCell, newCell)
      ensures replacements == Replaced(old(cells), checkedOut[|checked|..], oldCell)
      ensures Closed(old(cells), checkedOut[|checked|..], checkedOut, oldCell)
    {
      if parent in checked {
        assert checked[|checked|..] == [];
        assert cells == Walked(cells, [], oldCell, newCell);
        return 0, checked;
      }
      ghost var start := cells;
      checkedOut := checked + [parent];
      replacements := 0;
      var insts := cells[parent];
      ProgressStart(start, parent, checked, oldCell, newCell);
      assert checkedOut[|checked|..] == [parent];
      var j := 0;
      while j < |insts|
        invariant 0 <= j <= |insts| && insts == start[parent] && start == old(cells)
        invariant Valid() && names == old(names) && top == old(top) && cells.Keys == start.Keys
        invariant Progress(start, cells, parent, j, checked, checkedOut, replacements, oldCell, newCell)
        invariant Reached(start, checkedOut[|checked|..], oldCell)
      {
        UnvisitedShrinks(cells.Keys, checked, checkedOut, parent);
        replacements, checkedOut := SwapInstance(start, parent, j, oldCell, newCell, checked, checkedOut, replacements);
        j := j + 1;
      }
      ProgressDone(start, cells, parent, checked, checkedOut, replacements, oldCell, newCell);
    }

    /** The body of the loop over the instances of `parent`: the `j`-th
        instance is redirected when it places `oldCell`, and descended into
        otherwise. */
    method SwapInstance(ghost start: map<nat, Instances>, parent: nat, j: nat, oldCell: nat, newCell: nat,
                        checked: seq<nat>, out: seq<nat>, count: nat)
      returns (count': nat, out': seq<nat>)
      requires Valid() && newCell in cells && cells.Keys == start.Keys
      requires Progress(start, cells, parent, j, checked, out, count, oldCell, newCell)
      requires Reached(start, out[|checked|..], oldCell)
      requires j < |start[parent]|
      modifies this
      decreases Unvisited(out), 1
      ensures Valid() && names == old(names) && top == old(top) && cells.Keys == start.Keys
      ensures Progress(start, cells, parent, j + 1, checked, out', count', oldCell, newCell)
      ensures Reached(start, out'[|checked|..], oldCell)
    {
      ProgressInstance(start, cells, parent, j, checked, out, count, oldCell, newCell);
      var inst := cells[parent][j];
      if inst == oldCell {
        ProgressRedirect(start, cells, parent, j, checked, out, count, oldCell, newCell);
        RedirectKeepsPlaces(cells, parent, j, newCell);
        var redirected: Instances := cells[parent][j := newCell];
        cells := cells[parent := redirected];
        return count + 1, out;
      }
      ghost var beforeCall := cells;
      var r, grown := DoCellSwap(inst, oldCell, newCell, out);
      ProgressDescend(start, beforeCall, parent, j, checked, out, count, oldCell, newCell, grown, cells, r);
      ReachedDescend(start, beforeCall, parent, j, checked, out, grown, oldCell);
      return count + r, grown;
    }
  }
}
