// The window grid of the umbrella-sampling driver: a linear window index is
// split into a (psi, phi) pair of grid indices, row-major with phi varying
// fastest, and each axis is a half-open linspace over [-pi, pi).

module WindowGrid {

  /** One sampling window, identified by its grid index on each dihedral axis. */
  datatype Window = Window(psiIndex: nat, phiIndex: nat)

  /** `w` lies on the `m` x `m` grid. */
  predicate InGrid(w: Window, m: nat)
  {
    w.psiIndex < m && w.phiIndex < m
  }

  /** The linear index of a window: inverse of `Decompose`. */
  function Compose(w: Window, m: nat): nat
  {
    w.psiIndex * m + w.phiIndex
  }

  /** `psi_index = idx // M`, `phi_index = idx % M`. */
  function Decompose(idx: nat, m: nat): (w: Window)
    requires 0 < m
    ensures w.phiIndex < m
    ensures Compose(w, m) == idx
  {
    Window(idx / m, idx % m)
  }

  /** A larger factor adds at least one more `m`. */
  lemma {:induction false} MulGap(a: nat, b: nat, m: nat)
    ensures a < b ==> a * m + m <= b * m
    decreases b
  {
    if a + 1 < b {
      MulGap(a, b - 1, m);
      assert (b - 1) * m + m == b * m;
    } else if a + 1 == b {
      assert (b - 1) * m + m == b * m;
    }
  }

  /** Division is determined by any quotient/remainder pair with the remainder in range. */
  lemma DivModUnique(n: nat, m: nat, q: nat, r: nat)
    requires r < m && n == q * m + r
    ensures n / m == q && n % m == r
  {
    MulGap(n / m, q, m);
    MulGap(q, n / m, m);
  }

  /** Every index below M*M decomposes onto the grid. */
  lemma DecomposeInGrid(idx: nat, m: nat)
    requires idx < m * m
    ensures 0 < m && InGrid(Decompose(idx, m), m)
  {
  }

  /** Composing then decomposing a grid window gives it back, and its index is below M*M. */
  lemma DecomposeCompose(w: Window, m: nat)
    requires InGrid(w, m)
    ensures Compose(w, m) < m * m
    ensures Decompose(Compose(w, m), m) == w
  {
    DivModUnique(Compose(w, m), m, w.psiIndex, w.phiIndex);
    MulGap(w.psiIndex, m, m);
  }

  /**
   * Row-major order by counting: the first M indices are row 0, and every
   * index M further along is the same column one row down.
   */
  function WindowAt(idx: nat, m: nat): Window
    requires 0 < m
    decreases idx
  {
    if idx < m then Window(0, idx)
    else
      var w := WindowAt(idx - m, m);
      Window(w.psiIndex + 1, w.phiIndex)
  }

  /** The split by division and remainder is exactly row-major order. */
  lemma {:induction false} WindowAtDecompose(idx: nat, m: nat)
    requires 0 < m
    ensures WindowAt(idx, m) == Decompose(idx, m)
    decreases idx
  {
    if idx < m {
      DivModUnique(idx, m, 0, idx);
    } else {
      WindowAtDecompose(idx - m, m);
      var w := Decompose(idx - m, m);
      assert (w.psiIndex + 1) * m == w.psiIndex * m + m;
      DivModUnique(idx, m, w.psiIndex + 1, w.phiIndex);
    }
  }

  /** The windows the main loop visits, in visiting order. */
  function Windows(m: nat): seq<Window>
  {
    if m == 0 then [] else seq(m * m, idx requires 0 <= idx < m * m => WindowAt(idx, m))
  }

  /** Window `idx` of the loop is the one `Decompose` computes from `idx`. */
  lemma WindowsIndex(m: nat, idx: nat)
    requires idx < m * m
    ensures 0 < m && idx < |Windows(m)| && Windows(m)[idx] == Decompose(idx, m)
    ensures InGrid(Windows(m)[idx], m)
  {
    DecomposeInGrid(idx, m);
    WindowAtDecompose(idx, m);
  }

  /** The loop visits exactly M*M windows: every grid window, once each. */
  lemma WindowsAreGrid(m: nat)
    ensures |Windows(m)| == m * m
    ensures forall w :: w in Windows(m) <==> InGrid(w, m)
    ensures forall i, j :: 0 <= i < j < |Windows(m)| ==> Windows(m)[i] != Windows(m)[j]
  {
    var ws := Windows(m);
    forall w | w in ws ensures InGrid(w, m) {
      var i :| 0 <= i < |ws| && ws[i] == w;
      WindowsIndex(m, i);
    }
    forall w | InGrid(w, m) ensures w in ws {
      DecomposeCompose(w, m);
      WindowsIndex(m, Compose(w, m));
      assert ws[Compose(w, m)] == w;
    }
    forall i, j | 0 <= i < j < |ws| ensures ws[i] != ws[j] {
      WindowsIndex(m, i);
      WindowsIndex(m, j);
    }
  }

  /** Row-major order: phi advances, and wraps to 0 while psi advances. */
  lemma RowMajorNext(idx: nat, m: nat)
    requires idx + 1 < m * m
    ensures 0 < m
    ensures var w, v := Decompose(idx, m), Decompose(idx + 1, m);
      if w.phiIndex < m - 1 then v == Window(w.psiIndex, w.phiIndex + 1)
      else v == Window(w.psiIndex + 1, 0)
  {
    DecomposeInGrid(idx, m);
    var w := Decompose(idx, m);
    if w.phiIndex < m - 1 {
      DivModUnique(idx + 1, m, w.psiIndex, w.phiIndex + 1);
    } else {
      assert idx + 1 == (w.psiIndex + 1) * m + 0;
      DivModUnique(idx + 1, m, w.psiIndex + 1, 0);
    }
  }

  /**
   * `numpy.linspace(start, stop, num, endpoint=False)` over exact reals:
   * point i is start + i * (stop - start) / num.
   */
  function Linspace(start: real, stop: real, num: nat): seq<real>
  {
    seq(num, i requires 0 <= i < num => start + (i as real) * ((stop - start) / (num as real)))
  }

  /**
   * The grid over a half-open interval starts at `start`, is uniformly spaced by
   * (stop - start) / num and stays strictly below `stop`, so it is periodic.
   */
  lemma LinspaceHalfOpen(start: real, stop: real, num: nat)
    requires start < stop && 0 < num
    ensures var g := Linspace(start, stop, num);
      |g| == num && g[0] == start &&
      (forall i :: 0 <= i < num ==> start <= g[i] < stop) &&
      (forall i :: 0 <= i < num - 1 ==> g[i + 1] - g[i] == (stop - start) / (num as real))
  {
    var g := Linspace(start, stop, num);
    var h := (stop - start) / (num as real);
    assert h * (num as real) == stop - start;
    forall i | 0 <= i < num ensures start <= g[i] < stop {
      assert (i as real) <= (num as real) - 1.0;
      assert (i as real) * h <= ((num as real) - 1.0) * h;
    }
  }
}
