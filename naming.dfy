// Per-window trajectory file names: `traj_psi_{psi_index}_phi_{phi_index}.dcd`
// under ./output/traj/, with each index rendered the way a Python f-string
// renders a non-negative int (shortest decimal, no leading zeros).

module TrajectoryNaming {
  import opened WindowGrid

  predicate IsDigit(c: char)
  {
    '0' <= c <= '9'
  }

  predicate AllDigits(s: string)
  {
    forall i :: 0 <= i < |s| ==> IsDigit(s[i])
  }

  function DigitChar(d: nat): (c: char)
    requires d < 10
    ensures IsDigit(c) && c as int - '0' as int == d
  {
    ('0' as int + d) as char
  }

  /** The decimal rendering of `n`, most significant digit first. */
  function Decimal(n: nat): string
    decreases n
  {
    if n < 10 then [DigitChar(n)] else Decimal(n / 10) + [DigitChar(n % 10)]
  }

  /** The rendering is non-empty, all digits, and has no leading zero unless `n` is 0. */
  lemma {:induction false} DecimalDigits(n: nat)
    ensures |Decimal(n)| > 0 && AllDigits(Decimal(n))
    ensures Decimal(n)[0] == '0' ==> n == 0
    decreases n
  {
    if n >= 10 {
      DecimalDigits(n / 10);
      assert Decimal(n)[0] == Decimal(n / 10)[0];
    }
  }

  /** The value a digit string denotes. */
  function DecimalValue(s: string): nat
    requires AllDigits(s)
  {
    if s == [] then 0 else 10 * DecimalValue(s[..|s| - 1]) + (s[|s| - 1] as int - '0' as int)
  }

  /** Reading back the rendering of `n` gives `n`. */
  lemma {:induction false} DecimalRoundTrip(n: nat)
    ensures AllDigits(Decimal(n)) && DecimalValue(Decimal(n)) == n
    decreases n
  {
    DecimalDigits(n);
    if n >= 10 {
      var s := Decimal(n);
      assert s[..|s| - 1] == Decimal(n / 10);
      DecimalRoundTrip(n / 10);
    }
  }

  /** Distinct numbers render to distinct strings. */
  lemma DecimalInjective(a: nat, b: nat)
    ensures Decimal(a) == Decimal(b) ==> a == b
  {
    DecimalRoundTrip(a);
    DecimalRoundTrip(b);
  }

  const TrajectoryDir: string := "./output/traj/"
  const PsiTag: string := "traj_psi_"
  const PhiTag: string := "_phi_"
  const Extension: string := ".dcd"

  /** The path of the trajectory file written for window `w`. */
  function TrajectoryPath(w: Window): string
  {
    TrajectoryDir + PsiTag + Decimal(w.psiIndex) + PhiTag + Decimal(w.phiIndex) + Extension
  }

  /**
   * A digit string followed by a separator that starts with a non-digit is
   * split unambiguously.
   */
  lemma SplitAtSeparator(a: string, b: string, c: string, d: string, sep: string)
    requires AllDigits(a) && AllDigits(c)
    requires |sep| > 0 && !IsDigit(sep[0])
    requires a + sep + b == c + sep + d
    ensures a == c && b == d
  {
    var x := a + sep + b;
    assert x[|a|] == sep[0] && x[|c|] == sep[0];
    assert a == x[..|a|] == c;
    assert b == x[|a| + |sep|..] == d;
  }

  /**
   * Two names built as prefix, digits, separator, digits, suffix are equal only
   * when both digit strings are.
   */
  lemma JoinInjective(prefix: string, a: string, b: string, c: string, d: string, sep: string, suffix: string)
    requires AllDigits(a) && AllDigits(b) && AllDigits(c) && AllDigits(d)
    requires |sep| > 0 && !IsDigit(sep[0])
    requires prefix + a + sep + b + suffix == prefix + c + sep + d + suffix
    ensures a == c && b == d
  {
    var x, y := prefix + a + sep + b + suffix, prefix + c + sep + d + suffix;
    assert x[|prefix|..|x| - |suffix|] == a + sep + b;
    assert y[|prefix|..|y| - |suffix|] == c + sep + d;
    SplitAtSeparator(a, b, c, d, sep);
  }

  /** Distinct windows get distinct trajectory files. */
  lemma TrajectoryPathInjective(w: Window, v: Window)
    ensures TrajectoryPath(w) == TrajectoryPath(v) ==> w == v
  {
    if TrajectoryPath(w) == TrajectoryPath(v) {
      DecimalDigits(w.psiIndex);
      DecimalDigits(w.phiIndex);
      DecimalDigits(v.psiIndex);
      DecimalDigits(v.phiIndex);
      JoinInjective(TrajectoryDir + PsiTag, Decimal(w.psiIndex), Decimal(w.phiIndex),
                    Decimal(v.psiIndex), Decimal(v.phiIndex), PhiTag, Extension);
      DecimalInjective(w.psiIndex, v.psiIndex);
      DecimalInjective(w.phiIndex, v.phiIndex);
    }
  }
}
