/** The OKR card (OKRPanel.tsx): the completion flag and the key-result
    check marks. */
module OKRPanel {
  import opened Base
  import opened Entities
  import opened Engine

  /** `okr.progress >= 100` (OKRPanel.tsx:34). */
  predicate IsComplete(o: OKR) {
    o.progress >= 100.0
  }

  /** Key result `i` is ticked as written (OKRPanel.tsx:72):
      `progress > (i + 1) * (100 / keyResults.length)`. */
  predicate Ticked(o: OKR, i: nat)
    requires i < |o.keyResults|
  {
    o.progress > (i + 1) as real * (100.0 / |o.keyResults| as real)
  }

  /** `(i + 1) * (100 / n)` times `n` is `(i + 1) * 100`. */
  lemma StepTimesCount(n: nat, i: nat)
    requires n > 0
    ensures (i + 1) as real * (100.0 / n as real) * n as real == (i + 1) as real * 100.0
  {
    var q := 100.0 / n as real;
    assert q * n as real == 100.0;
    calc {
      (i + 1) as real * q * n as real;
      (i + 1) as real * (q * n as real);
    }
  }

  lemma ScaleStrict(x: real, y: real, n: real)
    requires n > 0.0
    ensures x > y <==> x * n > y * n
    ensures x >= y <==> x * n >= y * n
  {
    if x > y {
      assert (x - y) * n > 0.0;
    }
    if x * n > y * n {
      assert (x - y) * n > 0.0;
    }
  }

  /** The tick rule without division: key result `i` of `n` is ticked
      exactly when `progress * n > (i + 1) * 100`. */
  lemma TickedIff(o: OKR, i: nat)
    requires i < |o.keyResults|
    ensures Ticked(o, i) <==> o.progress * |o.keyResults| as real > (i + 1) as real * 100.0
  {
    var n := |o.keyResults|;
    StepTimesCount(n, i);
    ScaleStrict(o.progress, (i + 1) as real * (100.0 / n as real), n as real);
  }

  /** Ticked key results form a prefix of the list. */
  lemma TickedPrefix(o: OKR, i: nat, j: nat)
    requires j <= i < |o.keyResults| && Ticked(o, i)
    ensures Ticked(o, j)
  {
    var n := |o.keyResults|;
    TickedIff(o, i);
    TickedIff(o, j);
  }

  /** The last key result is ticked only above 100 percent. */
  lemma LastTickedIff(o: OKR)
    requires |o.keyResults| > 0
    ensures Ticked(o, |o.keyResults| - 1) <==> o.progress > 100.0
  {
    var n := |o.keyResults|;
    TickedIff(o, n - 1);
    ScaleStrict(o.progress, 100.0, n as real);
  }

  /** As written, a complete OKR at exactly 100 shows its last key result unticked. */
  lemma CompleteButLastUnticked()
    ensures var o := OKR("1", "Launch", ["a", "b", "c"], 100.0, "ceo");
      IsComplete(o) && !Ticked(o, 2)
  {
    LastTickedIff(OKR("1", "Launch", ["a", "b", "c"], 100.0, "ceo"));
  }

  /** The session caps every OKR at 100, so as written no last key result
      is ever ticked. */
  lemma SessionNeverTicksLast(c: Company, k: nat)
    requires Inv(c) && k < |c.okrs| && |c.okrs[k].keyResults| > 0
    ensures !Ticked(c.okrs[k], |c.okrs[k].keyResults| - 1)
  {
    LastTickedIff(c.okrs[k]);
  }

  /** The evidently intended rule: a key result counts as met once the
      progress has reached its share. */
  predicate Met(o: OKR, i: nat)
    requires i < |o.keyResults|
  {
    o.progress >= (i + 1) as real * (100.0 / |o.keyResults| as real)
  }

  lemma MetIff(o: OKR, i: nat)
    requires i < |o.keyResults|
    ensures Met(o, i) <==> o.progress * |o.keyResults| as real >= (i + 1) as real * 100.0
  {
    var n := |o.keyResults|;
    StepTimesCount(n, i);
    ScaleStrict(o.progress, (i + 1) as real * (100.0 / n as real), n as real);
  }

  /** Under the intended rule the last key result is met exactly when the
      OKR is complete, the met ones form a prefix, and a complete OKR has
      every key result met. */
  lemma MetMatchesCompletion(o: OKR, i: nat, j: nat)
    requires j <= i < |o.keyResults|
    ensures Met(o, |o.keyResults| - 1) <==> IsComplete(o)
    ensures Met(o, i) ==> Met(o, j)
    ensures IsComplete(o) ==> Met(o, i)
  {
    var n := |o.keyResults|;
    MetIff(o, n - 1);
    MetIff(o, i);
    MetIff(o, j);
    ScaleStrict(o.progress, 100.0, n as real);
  }
}
