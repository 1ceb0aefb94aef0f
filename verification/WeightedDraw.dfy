/** The weighted random draw of model/balancer.go: subtract weights from a random number until it is negative. */
module WeightedDraw {
  import opened Options

  function Sum(ws: seq<nat>): nat {
    if ws == [] then 0 else ws[0] + Sum(ws[1..])
  }

  lemma {:induction false} SumConcat(a: seq<nat>, b: seq<nat>)
    ensures Sum(a + b) == Sum(a) + Sum(b)
  {
    if a == [] {
      assert a + b == b;
    } else {
      assert (a + b)[1..] == a[1..] + b;
      SumConcat(a[1..], b);
    }
  }

  /** The position reached with the random number r, or none if the list is used up first. */
  function Pick(ws: seq<nat>, r: int): (p: Option<nat>)
    ensures p.Some? ==> p.value < |ws|
  {
    if ws == [] then None
    else if r - ws[0] < 0 then Some(0)
    else match Pick(ws[1..], r - ws[0])
      case None => None
      case Some(i) => Some(i + 1)
  }

  /** Position i owns the random numbers between the sum of the weights before it and that sum plus its own. */
  lemma {:induction false} PickIsInterval(ws: seq<nat>, r: nat, i: nat)
    ensures Pick(ws, r) == Some(i) <==> i < |ws| && Sum(ws[..i]) <= r < Sum(ws[..i + 1])
    ensures Pick(ws, r) == None <==> r >= Sum(ws)
  {
    if ws != [] {
      if r >= ws[0] {
        PickIsInterval(ws[1..], r - ws[0], if i == 0 then 0 else i - 1);
      }
      if 0 < i < |ws| {
        assert ws[..i][1..] == ws[1..][..i - 1];
      }
      if i < |ws| {
        assert ws[..i + 1][1..] == ws[1..][..i];
      }
    }
  }

  /** How many random numbers below n select a position labelled x. */
  function Hits<L(==)>(labels: seq<L>, ws: seq<nat>, x: L, n: nat): nat
    requires |labels| == |ws|
  {
    if n == 0 then 0
    else
      var pick := Pick(ws, n - 1);
      Hits(labels, ws, x, n - 1) + (if pick.Some? && labels[pick.value] == x then 1 else 0)
  }

  /** The sum of the weights of the positions labelled x. */
  function WeightOf<L(==)>(labels: seq<L>, ws: seq<nat>, x: L): nat
    requires |labels| == |ws|
  {
    if labels == [] then 0
    else
      WeightOf(labels[..|labels| - 1], ws[..|ws| - 1], x) + (if labels[|labels| - 1] == x then ws[|ws| - 1] else 0)
  }

  lemma {:induction false} HitsOfPrefix<L>(labels: seq<L>, ws: seq<nat>, x: L, n: nat)
    requires |labels| == |ws| > 0 && n <= Sum(ws[..|ws| - 1])
    ensures Hits(labels, ws, x, n) == Hits(labels[..|labels| - 1], ws[..|ws| - 1], x, n)
  {
    if n > 0 {
      HitsOfPrefix(labels, ws, x, n - 1);
      var shorter, r := ws[..|ws| - 1], n - 1;
      PickIsInterval(shorter, r, 0);
      var i := Pick(shorter, r).value;
      PickIsInterval(shorter, r, i);
      PickIsInterval(ws, r, i);
      assert shorter[..i] == ws[..i] && shorter[..i + 1] == ws[..i + 1];
    }
  }

  lemma {:induction false} HitsOfLast<L>(labels: seq<L>, ws: seq<nat>, x: L, n: nat)
    requires |labels| == |ws| > 0 && Sum(ws[..|ws| - 1]) <= n <= Sum(ws)
    ensures Hits(labels, ws, x, n) == Hits(labels, ws, x, Sum(ws[..|ws| - 1]))
                                    + if labels[|labels| - 1] == x then n - Sum(ws[..|ws| - 1]) else 0
    decreases n
  {
    var last := |ws| - 1;
    if n > Sum(ws[..last]) {
      HitsOfLast(labels, ws, x, n - 1);
      assert ws[..last + 1] == ws;
      PickIsInterval(ws, n - 1, last);
    }
  }

  /** A label is selected by as many random numbers as its positions weigh together, listed twice counting twice. */
  lemma {:induction false} ShareOfLabel<L>(labels: seq<L>, ws: seq<nat>, x: L)
    requires |labels| == |ws|
    ensures Hits(labels, ws, x, Sum(ws)) == WeightOf(labels, ws, x)
    decreases |labels|
  {
    if labels != [] {
      var last := |ws| - 1;
      assert ws == ws[..last] + [ws[last]];
      SumConcat(ws[..last], [ws[last]]);
      assert Sum([ws[last]]) == ws[last];
      ShareOfLabel(labels[..last], ws[..last], x);
      HitsOfPrefix(labels, ws, x, Sum(ws[..last]));
      HitsOfLast(labels, ws, x, Sum(ws));
    }
  }

  lemma {:induction false} WeightOfDistinct<L>(labels: seq<L>, ws: seq<nat>, i: nat)
    requires |labels| == |ws| && i < |ws| && forall a, b | 0 <= a < b < |labels| :: labels[a] != labels[b]
    ensures WeightOf(labels, ws, labels[i]) == ws[i]
    decreases |labels|
  {
    var last := |labels| - 1;
    if i < last {
      WeightOfDistinct(labels[..last], ws[..last], i);
    } else {
      WeightOfAbsent(labels[..last], ws[..last], labels[last]);
    }
  }

  lemma {:induction false} WeightOfAbsent<L>(labels: seq<L>, ws: seq<nat>, x: L)
    requires |labels| == |ws| && x !in labels
    ensures WeightOf(labels, ws, x) == 0
    decreases |labels|
  {
    if labels != [] {
      WeightOfAbsent(labels[..|labels| - 1], ws[..|ws| - 1], x);
    }
  }

  /**
   Every random number below the total selects exactly one position, and the position labelled x is
   selected by as many of them as it weighs.
   */
  lemma ShareOfPosition<L>(labels: seq<L>, ws: seq<nat>, i: nat)
    requires |labels| == |ws| && i < |ws| && forall a, b | 0 <= a < b < |labels| :: labels[a] != labels[b]
    ensures Hits(labels, ws, labels[i], Sum(ws)) == ws[i]
    ensures forall r: nat :: r < Sum(ws) <==> Pick(ws, r).Some?
  {
    ShareOfLabel(labels, ws, labels[i]);
    WeightOfDistinct(labels, ws, i);
    forall r: nat {
      PickIsInterval(ws, r, i);
    }
  }
}
