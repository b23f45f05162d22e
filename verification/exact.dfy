/** R1, R2 and R3 together are exactly what agreement needs, and R3 only from five nodes on. */
module ExactCondition {
  import opened Protocol
  import opened Agreement
  import opened SmallGroups
  import WithoutR1
  import WithoutR2
  import WithoutR3

  ghost predicate Disagreement(w: World, i: nat, j: nat, k: nat) {
    && i in w && j in w
    && k < |w[i].executed| && k < |w[j].executed|
    && w[i].executed[k] != w[j].executed[k]
  }

  ghost predicate Contradicts(size: nat, c: Cluster, g: Guards, w: World, i: nat, j: nat, k: nat) {
    |c.members| <= size && R5(c) && Reachable(c, g, w) && Disagreement(w, i, j, k)
  }

  /** In no group of at most `size` nodes and no reachable state did two nodes execute different
      values for an instance. */
  ghost predicate AlwaysAgree(size: nat, g: Guards) {
    forall c, w, i, j, k :: !Contradicts(size, c, g, w, i, j, k)
  }

  /** What groups of at most `size` nodes need. */
  predicate Enough(size: nat, g: Guards) {
    g.r1 && g.r2 && (size >= 5 ==> g.r3)
  }

  predicate AsMuch(g: Guards, h: Guards) {
    (g.r1 ==> h.r1) && (g.r2 ==> h.r2) && (g.r3 ==> h.r3)
  }

  /** A run that respects more respects less. */
  lemma WeakerReaches(c: Cluster, w: World, g: Guards, h: Guards)
    requires R5(c) && Reachable(c, h, w) && AsMuch(g, h)
    ensures Reachable(c, g, w)
  {
    var ws :| IsRun(c, ws, h) && ws[|ws| - 1] == w;
    forall t: nat | t + 1 < |ws| ensures StepAt(c, ws, g, t) {
      assert StepAt(c, ws, h, t);
      var s :| Enabled(c, ws[t], s) && Guarded(c, ws[t], s, h) && ws[t + 1] == Apply(c, ws[t], s);
      assert Guarded(c, ws[t], s, g);
    }
    assert IsRun(c, ws, g);
  }

  lemma FullAgrees(c: Cluster, w: World, i: nat, j: nat, k: nat)
    requires Reachable(c, FULL, w)
    ensures !Disagreement(w, i, j, k)
  {
    var ws :| IsRun(c, ws, FULL) && ws[|ws| - 1] == w;
    if Disagreement(w, i, j, k) {
      SameValueLearned(c, ws, |ws| - 1, |ws| - 1, i, j, k);
    }
  }

  lemma EnoughAgrees(size: nat, c: Cluster, g: Guards, w: World, i: nat, j: nat, k: nat)
    requires |c.members| <= size && R5(c) && Reachable(c, g, w) && Enough(size, g)
    ensures !Disagreement(w, i, j, k)
  {
    if !g.r3 {
      var ws :| IsRun(c, ws, g) && ws[|ws| - 1] == w;
      SmallGroupNeedsNoR3(c, ws);
    }
    FullAgrees(c, w, i, j, k);
  }

  lemma MissingOneDisagrees(size: nat, g: Guards)
    requires size >= 3 && !Enough(size, g)
    ensures !AlwaysAgree(size, g)
  {
    if !g.r1 {
      var w := WithoutR1.Disagree();
      WeakerReaches(WithoutR1.GROUP, w, g, WithoutR1.GUARDS);
      assert Contradicts(size, WithoutR1.GROUP, g, w, 1, 3, 0);
    } else if !g.r2 {
      var w := WithoutR2.Disagree();
      WeakerReaches(WithoutR2.GROUP, w, g, WithoutR2.GUARDS);
      assert Contradicts(size, WithoutR2.GROUP, g, w, 1, 2, 0);
    } else {
      var w := WithoutR3.Disagree();
      WeakerReaches(WithoutR3.GROUP, w, g, WithoutR3.GUARDS);
      assert Contradicts(size, WithoutR3.GROUP, g, w, 1, 2, 0);
    }
  }

  /** For every bound of at least three on the size of groups, and every choice among R1, R2 and R3:
      all runs of such groups agree exactly if R1 and R2 are among them, and R3 too unless the bound
      is below five. */
  lemma AgreementUpTo(size: nat, g: Guards)
    requires size >= 3
    ensures AlwaysAgree(size, g) <==> Enough(size, g)
  {
    if Enough(size, g) {
      forall c, w, i, j, k ensures !Contradicts(size, c, g, w, i, j, k) {
        if Contradicts(size, c, g, w, i, j, k) {
          EnoughAgrees(size, c, g, w, i, j, k);
        }
      }
    } else {
      MissingOneDisagrees(size, g);
    }
  }

  /** So all runs of all groups agree exactly if all three are respected. */
  lemma AgreementIffGuarded(g: Guards)
    ensures (forall size: nat :: AlwaysAgree(size, g)) <==> g.Full()
  {
    AgreementUpTo(5, g);
    if g.Full() {
      forall size: nat, c, w, i, j, k ensures !Contradicts(size, c, g, w, i, j, k) {
        if Contradicts(size, c, g, w, i, j, k) {
          EnoughAgrees(size, c, g, w, i, j, k);
        }
      }
    }
  }
}
