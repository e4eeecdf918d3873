/** Radial binning of a square 2D power spectrum into a 1D profile indexed by integer
    wavenumber (PowerSpectrumAnalysis.wavenumber_spectrum). */
module Binning {
  import opened Base
  import opened Stats

  /** A 2D numpy array: `rows` x `cols` reals, stored row by row. */
  datatype Grid = Grid(rows: nat, cols: nat, cells: seq<seq<real>>) {
    predicate Valid() {
      |cells| == rows && forall i :: 0 <= i < |cells| ==> |cells[i]| == cols
    }
  }

  /** The radial profile: one aggregated value per wavenumber, and the bin edges. */
  datatype Profile = Profile(amplitudes: seq<real>, edges: seq<nat>)

  /** One cell of the flattened spectrum paired with the bin it is allocated to
      (the 0-based bin, i.e. np.digitize's index minus one). */
  datatype Entry = Entry(bin: nat, value: real)

  /** One group produced by grouping the sorted (bin, value) pairs by bin. */
  datatype Group = Group(key: nat, values: seq<real>)

  // ---------------------------------------------------------------------------
  // Truncation to an odd side length

  /** An even-sided square spectrum loses its last row and its last column; an odd one
      is left alone. */
  function Truncate(g: Grid): (t: Grid)
    requires g.Valid() && g.rows == g.cols
    ensures t.Valid() && t.rows == t.cols
    ensures g.rows % 2 == 1 ==> t == g
    ensures g.rows % 2 == 0 && g.rows > 0 ==> t.rows == g.rows - 1
    ensures g.rows == 0 ==> t.rows == 0
    ensures forall i, j :: 0 <= i < t.rows && 0 <= j < t.cols ==> t.cells[i][j] == g.cells[i][j]
  {
    if g.rows % 2 == 1 || g.rows == 0 then g
    else Grid(g.rows - 1, g.cols - 1, seq(g.rows - 1, i requires 0 <= i < g.rows - 1 => g.cells[i][..g.cols - 1]))
  }

  /** The side length after truncation is odd, unless the spectrum is empty. */
  lemma TruncatedSideOdd(g: Grid)
    requires g.Valid() && g.rows == g.cols && g.rows > 0
    ensures Truncate(g).rows % 2 == 1
    ensures Truncate(g).rows == if g.rows % 2 == 0 then g.rows - 1 else g.rows
  {
  }

  // ---------------------------------------------------------------------------
  // Bin allocation (np.digitize against the integer edges 0..h)

  function Square(x: int): nat {
    if x < 0 then (-x) * (-x) else x * x
  }

  lemma SquareMonotone(a: nat, b: nat)
    requires a <= b
    ensures Square(a) <= Square(b)
  {
  }

  /** The number of edges 0, 1, ..., n-1 that do not exceed sqrt(d2), i.e. the edges e
      with e*e <= d2. Edge 0 always counts. */
  function EdgesAtOrBelow(d2: nat, n: nat): (c: nat)
    ensures c <= n
    ensures n > 0 ==> c >= 1
  {
    if n == 0 then 0 else EdgesAtOrBelow(d2, n - 1) + (if Square(n - 1) <= d2 then 1 else 0)
  }

  lemma {:induction false} EdgesAllCounted(d2: nat, n: nat)
    requires n > 0 && Square(n - 1) <= d2
    ensures EdgesAtOrBelow(d2, n) == n
  {
    if n > 1 {
      SquareMonotone(n - 2, n - 1);
      EdgesAllCounted(d2, n - 1);
    }
  }

  /** The edges counted are exactly the first c ones: edge e < n lies at or below the
      distance iff e is among the first EdgesAtOrBelow(d2, n). */
  lemma {:induction false} EdgesAtOrBelowExact(d2: nat, n: nat, e: nat)
    requires e < n
    ensures e < EdgesAtOrBelow(d2, n) <==> Square(e) <= d2
  {
    if Square(n - 1) <= d2 {
      EdgesAllCounted(d2, n);
      SquareMonotone(e, n - 1);
    } else if e < n - 1 {
      EdgesAtOrBelowExact(d2, n - 1, e);
    }
  }

  /** The 0-based bin of a cell whose squared distance from the centre is d2, when the
      edges are 0..h: np.digitize returns the count of edges not above the distance. */
  function Bin(d2: nat, h: nat): (b: nat)
    ensures b <= h
  {
    EdgesAtOrBelow(d2, h + 1) - 1
  }

  /** Bin membership: a cell is in bin b < h iff b <= dist < b+1, and in the last bin h
      iff dist >= h; so the corners of the square all fall in the last bin. */
  lemma BinMembership(d2: nat, h: nat, b: nat)
    requires b <= h
    ensures Bin(d2, h) <= h
    ensures Bin(d2, h) == b <==>
      (b < h && Square(b) <= d2 < Square(b + 1)) || (b == h && Square(h) <= d2)
  {
    EdgesAtOrBelowExact(d2, h + 1, b);
    if b < h {
      EdgesAtOrBelowExact(d2, h + 1, b + 1);
    }
  }

  function SquaredNorm(x: int, y: int): nat {
    Square(x) + Square(y)
  }

  /** The bin of array cell (i, j) of a side 2h+1 spectrum, whose coordinates relative to
      the central DC cell are (i - h, j - h) (np.mgrid[-h:h+1, -h:h+1]). */
  function CellBin(i: nat, j: nat, h: nat): (b: nat)
    ensures b <= h
    ensures b < h ==> Square(b) <= SquaredNorm(i - h, j - h) < Square(b + 1)
    ensures b == h ==> Square(h) <= SquaredNorm(i - h, j - h)
    ensures i == h && j == h ==> b == 0
  {
    var d2 := SquaredNorm(i - h, j - h);
    BinMembership(d2, h, 0);
    BinMembership(d2, h, Bin(d2, h));
    Bin(d2, h)
  }

  /** Row i of the flattened spectrum, each value inverted (1 - v) and paired with its bin. */
  function RowAllocation(t: Grid, h: nat, i: nat): (row: seq<Entry>)
    requires t.Valid() && i < t.rows
    ensures |row| == t.cols
    ensures forall j :: 0 <= j < |row| ==> row[j].bin <= h
  {
    seq(t.cols, j requires 0 <= j < t.cols => Entry(CellBin(i, j, h), 1.0 - t.cells[i][j]))
  }

  /** The first n rows of the spectrum, flattened row by row and zipped with the bins. */
  function Allocation(t: Grid, h: nat, n: nat): (a: seq<Entry>)
    requires t.Valid() && n <= t.rows
    ensures |a| == n * t.cols
  {
    if n == 0 then [] else Allocation(t, h, n - 1) + RowAllocation(t, h, n - 1)
  }

  lemma {:induction false} AllocationContains(t: Grid, h: nat, n: nat, i: nat, j: nat)
    requires t.Valid() && n <= t.rows && i < n && j < t.cols
    ensures Entry(CellBin(i, j, h), 1.0 - t.cells[i][j]) in Allocation(t, h, n)
  {
    if i < n - 1 {
      AllocationContains(t, h, n - 1, i, j);
    } else {
      assert RowAllocation(t, h, i)[j] == Entry(CellBin(i, j, h), 1.0 - t.cells[i][j]);
    }
  }

  lemma {:induction false} AllocationBinsBounded(t: Grid, h: nat, n: nat)
    requires t.Valid() && n <= t.rows
    ensures forall k :: 0 <= k < |Allocation(t, h, n)| ==> Allocation(t, h, n)[k].bin <= h
  {
    if n > 0 {
      AllocationBinsBounded(t, h, n - 1);
      var i := n - 1;
      forall j | 0 <= j < t.cols ensures CellBin(i, j, h) <= h {
        BinMembership(SquaredNorm(i - h, j - h), h, 0);
      }
    }
  }

  lemma {:induction false} AllocationValues(t: Grid, h: nat, n: nat, c: real)
    requires t.Valid() && n <= t.rows
    requires forall i, j :: 0 <= i < t.rows && 0 <= j < t.cols ==> t.cells[i][j] == c
    ensures forall k :: 0 <= k < |Allocation(t, h, n)| ==> Allocation(t, h, n)[k].value == 1.0 - c
  {
    if n > 0 {
      AllocationValues(t, h, n - 1, c);
    }
  }

  // ---------------------------------------------------------------------------
  // Grouping by bin

  /** The values allocated to bin b, in flattened order. */
  function Members(a: seq<Entry>, b: nat): (m: seq<real>)
    ensures |m| <= |a|
  {
    if |a| == 0 then []
    else (if a[0].bin == b then [a[0].value] else []) + Members(a[1..], b)
  }

  /** Every value grouped under bin b comes from an entry allocated to bin b. */
  lemma {:induction false} MembersSound(a: seq<Entry>, b: nat, v: real)
    requires v in Members(a, b)
    ensures Entry(b, v) in a
  {
    var head: seq<real> := if a[0].bin == b then [a[0].value] else [];
    assert Members(a, b) == head + Members(a[1..], b);
    if v !in head {
      MembersSound(a[1..], b, v);
    }
  }

  lemma {:induction false} MembersContain(a: seq<Entry>, b: nat, e: Entry)
    requires e in a && e.bin == b
    ensures e.value in Members(a, b)
  {
    if a[0] != e {
      MembersContain(a[1..], b, e);
    }
  }

  lemma {:induction false} MembersValues(a: seq<Entry>, b: nat, c: real)
    requires forall k :: 0 <= k < |a| ==> a[k].value == c
    ensures forall k :: 0 <= k < |Members(a, b)| ==> Members(a, b)[k] == c
  {
    if |a| > 0 {
      MembersValues(a[1..], b, c);
    }
  }

  /** The total size of the groups of bins 0..n-1. */
  function GroupSizes(a: seq<Entry>, n: nat): nat {
    if n == 0 then 0 else GroupSizes(a, n - 1) + |Members(a, n - 1)|
  }

  lemma {:induction false} GroupSizesCons(a: seq<Entry>, n: nat)
    requires |a| > 0
    ensures GroupSizes(a, n) == GroupSizes(a[1..], n) + (if a[0].bin < n then 1 else 0)
  {
    if n > 0 {
      GroupSizesCons(a, n - 1);
      var head: seq<real> := if a[0].bin == n - 1 then [a[0].value] else [];
      assert Members(a, n - 1) == head + Members(a[1..], n - 1);
      assert |Members(a, n - 1)| == |head| + |Members(a[1..], n - 1)|;
    }
  }

  /** The bins partition the cells: when every cell's bin is below n, the groups of
      bins 0..n-1 hold exactly as many values as there are cells. */
  lemma {:induction false} GroupsPartition(a: seq<Entry>, n: nat)
    requires forall k :: 0 <= k < |a| ==> a[k].bin < n
    ensures GroupSizes(a, n) == |a|
  {
    if |a| == 0 {
      GroupSizesEmpty(a, n);
    } else {
      GroupSizesCons(a, n);
      GroupsPartition(a[1..], n);
    }
  }

  lemma {:induction false} GroupSizesEmpty(a: seq<Entry>, n: nat)
    requires |a| == 0
    ensures GroupSizes(a, n) == 0
  {
    if n > 0 {
      GroupSizesEmpty(a, n - 1);
    }
  }

  /** itertools.groupby over the sorted (bin, value) pairs, restricted to the bins 0..n-1:
      one group per bin that received a value, in increasing bin order, holding that
      bin's values in ascending order. Bins without values produce no group. */
  function GroupBins(a: seq<Entry>, n: nat): (r: seq<Group>)
    ensures |r| <= n
  {
    if n == 0 then []
    else
      var m := Members(a, n - 1);
      GroupBins(a, n - 1) + (if |m| == 0 then [] else [Group(n - 1, Sort(m))])
  }

  /** With no empty bin, there is one group per bin and group b holds bin b's values. */
  lemma {:induction false} GroupBinsComplete(a: seq<Entry>, n: nat)
    requires forall b :: 0 <= b < n ==> |Members(a, b)| > 0
    ensures |GroupBins(a, n)| == n
    ensures forall b :: 0 <= b < n ==> GroupBins(a, n)[b] == Group(b, Sort(Members(a, b)))
  {
    if n > 0 {
      GroupBinsComplete(a, n - 1);
      var prev := GroupBins(a, n - 1);
      GroupBinsStep(a, n);
      forall b | 0 <= b < n ensures GroupBins(a, n)[b] == Group(b, Sort(Members(a, b))) {
        if b < n - 1 {
          assert GroupBins(a, n)[b] == prev[b];
        }
      }
    }
  }

  lemma GroupBinsStep(a: seq<Entry>, n: nat)
    requires n > 0 && |Members(a, n - 1)| > 0
    ensures GroupBins(a, n) == GroupBins(a, n - 1) + [Group(n - 1, Sort(Members(a, n - 1)))]
  {
  }

  /** An empty bin loses its group, so fewer than n groups come out. */
  lemma {:induction false} GroupBinsIncomplete(a: seq<Entry>, n: nat, b: nat)
    requires b < n && |Members(a, b)| == 0
    ensures |GroupBins(a, n)| < n
  {
    var prev := GroupBins(a, n - 1);
    if b < n - 1 {
      GroupBinsIncomplete(a, n - 1, b);
    } else {
      assert GroupBins(a, n) == prev;
    }
  }

  // ---------------------------------------------------------------------------
  // The binning operation

  /** The integer edges 0..h. */
  function Edges(h: nat): (r: seq<nat>)
    ensures |r| == h + 1
    ensures forall e :: 0 <= e <= h ==> r[e] == e
  {
    seq(h + 1, e requires 0 <= e <= h => e)
  }

  /** The half side h = N/2 of the truncated spectrum. */
  function HalfSide(g: Grid): nat
    requires g.Valid() && g.rows == g.cols
  {
    Truncate(g).rows / 2
  }

  /** The (inverted) values of the cells of the truncated spectrum that fall in bin b, in
      flattened order. */
  function BinCells(g: Grid, b: nat): seq<real>
    requires g.Valid() && g.rows == g.cols
  {
    var t := Truncate(g);
    Members(Allocation(t, t.rows / 2, t.rows), b)
  }

  /** The cell at offset (b, 0) from the centre lies in bin b, for every b in 0..h. */
  lemma AxisCellBin(h: nat, b: nat)
    requires b <= h
    ensures CellBin(h + b, h, h) == b
  {
    assert SquaredNorm(h + b - h, h - h) == Square(b);
    BinMembership(Square(b), h, b);
    if b < h {
      assert Square(b) < Square(b + 1);
    }
  }

  /** No bin of an odd-sided spectrum N = 2h+1 is empty: bin b holds the cell at offset
      (b, 0) from the centre. */
  lemma {:induction false} NoEmptyBinsOdd(t: Grid, b: nat)
    requires t.Valid() && t.rows == t.cols && t.rows % 2 == 1
    requires b <= t.rows / 2
    ensures 1.0 - t.cells[t.rows / 2 + b][t.rows / 2] in Members(Allocation(t, t.rows / 2, t.rows), b)
  {
    var h := t.rows / 2;
    assert t.rows == 2 * h + 1;
    var e := Entry(b, 1.0 - t.cells[h + b][h]);
    var alloc := Allocation(t, h, t.rows);
    AxisCellBin(h, b);
    AllocationContains(t, h, t.rows, h + b, h);
    assert e in alloc;
    MembersContain(alloc, b, e);
  }

  /** No bin is empty: for the truncated odd side N = 2h+1, the cell at offset (b, 0) from
      the centre lies in bin b, for every b in 0..h. */
  lemma NoEmptyBins(g: Grid, b: nat)
    requires g.Valid() && g.rows == g.cols && g.rows > 0
    requires b <= HalfSide(g)
    ensures 1.0 - Truncate(g).cells[HalfSide(g) + b][HalfSide(g)] in BinCells(g, b)
  {
    TruncatedSideOdd(g);
    NoEmptyBinsOdd(Truncate(g), b);
  }

  lemma {:induction false} AllBinsNonEmpty(t: Grid)
    requires t.Valid() && t.rows == t.cols && t.rows % 2 == 1
    ensures forall b :: 0 <= b <= t.rows / 2 ==> |Members(Allocation(t, t.rows / 2, t.rows), b)| > 0
  {
    forall b | 0 <= b <= t.rows / 2 ensures |Members(Allocation(t, t.rows / 2, t.rows), b)| > 0 {
      NoEmptyBinsOdd(t, b);
    }
  }

  /** wavenumber_spectrum: the aggregated value of every wavenumber bin 0..h together
      with the edges 0..h. */
  function WavenumberSpectrum(g: Grid, agg: seq<real> -> real): (r: Result<Profile, Error>)
    requires g.Valid()
    ensures r.Failure? <==> g.rows != g.cols || g.rows == 0
    ensures g.rows != g.cols ==> r == Failure(NotSquare)
    ensures g.rows == g.cols == 0 ==> r == Failure(EmptySpectrum)
    ensures r.Success? ==>
      && |r.value.amplitudes| == HalfSide(g) + 1
      && r.value.edges == Edges(HalfSide(g))
      && forall b :: 0 <= b <= HalfSide(g) ==> r.value.amplitudes[b] == agg(Sort(BinCells(g, b)))
  {
    if g.rows != g.cols then Failure(NotSquare)
    else
      var t := Truncate(g);
      if t.rows == 0 then Failure(EmptySpectrum)
      else
        var h := t.rows / 2;
        var alloc := Allocation(t, h, t.rows);
        var groups := GroupBins(alloc, h + 1);
        TruncatedSideOdd(g);
        AllBinsNonEmpty(t);
        GroupBinsComplete(alloc, h + 1);
        if |groups| != h + 1 then Failure(EmptyBin)
        else
          Success(Profile(seq(h + 1, k requires 0 <= k < |groups| => agg(groups[k].values)), Edges(h)))
  }

  /** Under the default aggregation each bin's value is the mean of 1 - v over exactly
      that bin's cells; the ascending order they reach np.mean in does not matter. */
  lemma MeanProfile(g: Grid, b: nat)
    requires g.Valid() && g.rows == g.cols && g.rows > 0
    requires b <= HalfSide(g)
    ensures WavenumberSpectrum(g, Mean).Success?
    ensures WavenumberSpectrum(g, Mean).value.amplitudes[b] == Mean(BinCells(g, b))
  {
    MeanSort(BinCells(g, b));
  }

  /** A constant spectrum c yields the value 1 - c in every bin under the mean. */
  lemma ConstantSpectrum(g: Grid, c: real)
    requires g.Valid() && g.rows == g.cols && g.rows > 0
    requires forall i, j :: 0 <= i < g.rows && 0 <= j < g.cols ==> g.cells[i][j] == c
    ensures WavenumberSpectrum(g, Mean).Success?
    ensures forall b :: 0 <= b < |WavenumberSpectrum(g, Mean).value.amplitudes| ==>
      WavenumberSpectrum(g, Mean).value.amplitudes[b] == 1.0 - c
  {
    var t := Truncate(g);
    var h := t.rows / 2;
    TruncatedSideOdd(g);
    AllocationValues(t, h, t.rows, c);
    AllBinsNonEmpty(t);
    forall b | 0 <= b <= h ensures WavenumberSpectrum(g, Mean).value.amplitudes[b] == 1.0 - c {
      MeanProfile(g, b);
      MembersValues(Allocation(t, h, t.rows), b, 1.0 - c);
      MeanOfConstant(BinCells(g, b), 1.0 - c);
    }
  }

  /** Every cell of the truncated N x N spectrum lands in exactly one bin: the bins'
      cell counts add up to N * N. */
  lemma BinsPartitionCells(g: Grid)
    requires g.Valid() && g.rows == g.cols
    ensures GroupSizes(Allocation(Truncate(g), HalfSide(g), Truncate(g).rows), HalfSide(g) + 1)
      == Truncate(g).rows * Truncate(g).rows
  {
    var t := Truncate(g);
    var h := t.rows / 2;
    AllocationBinsBounded(t, h, t.rows);
    GroupsPartition(Allocation(t, h, t.rows), h + 1);
  }
}
