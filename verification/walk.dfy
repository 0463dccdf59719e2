/**
 * The breadth-first, de-duplicating walk both Model constructors make over
 * the tensor graph (MetalTensors/Model.cs and MetalTensors.iOS/Model.cs),
 * the lists it collects, and what is proved about them: every tensor
 * reachable from the outputs is handled exactly once, the first round
 * handles the distinct outputs in order, and each collected list holds
 * the distinct picks of the handled tensors in the order they were met.
 */
module Walk {
  import opened Common
  import opened Graph

  // ---------------------------------------------------------------- distinct lists

  predicate Distinct<X(==)>(s: seq<X>)
  {
    forall i, j :: 0 <= i < j < |s| ==> s[i] != s[j]
  }

  /** The first occurrences of the elements of s, in order. */
  function Dedup<X(==)>(s: seq<X>): (r: seq<X>)
    ensures |r| <= |s|
    decreases |s|
  {
    if s == [] then []
    else
      var d := Dedup(s[..|s| - 1]);
      if s[|s| - 1] in s[..|s| - 1] then d else d + [s[|s| - 1]]
  }

  lemma {:induction false} DedupMembers<X>(s: seq<X>)
    ensures forall x :: x in Dedup(s) <==> x in s
    ensures Distinct(Dedup(s))
    decreases |s|
  {
    if s != [] {
      var p := s[..|s| - 1];
      DedupMembers(p);
      assert s == p + [s[|s| - 1]];
    }
  }

  /** The first element of a non-empty list is the first of its distinct elements. */
  lemma {:induction false} DedupFirst<X>(s: seq<X>)
    requires |s| > 0
    ensures |Dedup(s)| > 0 && Dedup(s)[0] == s[0]
    decreases |s|
  {
    if |s| > 1 {
      var p := s[..|s| - 1];
      DedupFirst(p);
      assert p[0] == s[0];
    }
  }

  /** A list without repetitions has as many elements as its set. */
  lemma {:induction false} DistinctCardinality<X>(s: seq<X>)
    requires Distinct(s)
    ensures |set x | x in s| == |s|
    decreases |s|
  {
    if s != [] {
      var p := s[..|s| - 1];
      DistinctCardinality(p);
      assert (set x | x in s) == (set x | x in p) + {s[|s| - 1]};
    }
  }

  /** The set of a list's elements. */
  function Elems<X>(s: seq<X>): set<X>
  {
    set x | x in s
  }

  /** Handling more of R leaves strictly less of it to handle. */
  lemma SmallerRemainder<X>(R: set<X>, hs0: set<X>, hs: set<X>)
    requires hs0 <= hs <= R && hs != hs0
    ensures R - hs < R - hs0
  {
    var x :| x in hs && x !in hs0;
    assert x in R - hs0 && x !in R - hs;
  }

  // ---------------------------------------------------------------- collected lists

  /**
   * The list a `if (!list.Contains (v)) list.Add (v)` step builds over the
   * handled tensors, where pick says what (if anything) a tensor contributes.
   */
  function Collect<X(==)>(s: seq<Tensor>, pick: Tensor -> Option<X>): (r: seq<X>)
    decreases |s|
  {
    if s == [] then []
    else
      var r := Collect(s[..|s| - 1], pick);
      var p := pick(s[|s| - 1]);
      if p.Some? && p.value !in r then r + [p.value] else r
  }

  /** One more handled tensor adds its pick unless the list already holds it. */
  lemma CollectSnoc<X>(s: seq<Tensor>, t: Tensor, pick: Tensor -> Option<X>)
    ensures Collect(s + [t], pick) ==
      (if pick(t).Some? && pick(t).value !in Collect(s, pick) then Collect(s, pick) + [pick(t).value]
       else Collect(s, pick))
  {
    assert (s + [t])[..|s|] == s;
  }

  /** A collected list holds exactly the picks of the tensors, each once. */
  lemma {:induction false} CollectMembers<X>(s: seq<Tensor>, pick: Tensor -> Option<X>)
    ensures forall i :: 0 <= i < |s| && pick(s[i]).Some? ==> pick(s[i]).value in Collect(s, pick)
    ensures forall k :: 0 <= k < |Collect(s, pick)| ==>
      exists i :: 0 <= i < |s| && pick(s[i]) == Some(Collect(s, pick)[k])
    ensures Distinct(Collect(s, pick))
    decreases |s|
  {
    if s != [] {
      var p := s[..|s| - 1];
      CollectMembers(p, pick);
      var c := Collect(p, pick);
      forall i | 0 <= i < |s| && pick(s[i]).Some?
        ensures pick(s[i]).value in Collect(s, pick)
      {
        if i < |p| {
          assert p[i] == s[i];
        }
      }
      forall k | 0 <= k < |Collect(s, pick)|
        ensures exists i :: 0 <= i < |s| && pick(s[i]) == Some(Collect(s, pick)[k])
      {
        if k < |c| {
          assert Collect(s, pick)[k] == c[k];
          var i :| 0 <= i < |p| && pick(p[i]) == Some(c[k]);
          assert s[i] == p[i];
        } else {
          var i := |s| - 1;
          assert 0 <= i < |s| && pick(s[i]) == Some(Collect(s, pick)[k]);
        }
      }
      forall i, j | 0 <= i < j < |Collect(s, pick)|
        ensures Collect(s, pick)[i] != Collect(s, pick)[j]
      {
        if j >= |c| {
          assert Collect(s, pick)[i] == c[i];
        }
      }
    } else {
      assert Collect(s, pick) == [];
    }
  }

  /** Over a list of tensors whose picks are exactly S, the collected list holds each member of S once. */
  lemma CollectExactly<X>(s: seq<Tensor>, pick: Tensor -> Option<X>, S: set<X>)
    requires forall t :: t in Elems(s) && pick(t).Some? ==> pick(t).value in S
    requires forall y :: y in S ==> exists t :: t in Elems(s) && pick(t) == Some(y)
    ensures Elems(Collect(s, pick)) == S && |Collect(s, pick)| == |S|
  {
    CollectMembers(s, pick);
    var c := Collect(s, pick);
    forall y | y in Elems(c)
      ensures y in S
    {
      var k :| 0 <= k < |c| && c[k] == y;
      var i :| 0 <= i < |s| && pick(s[i]) == Some(c[k]);
      assert s[i] in Elems(s);
    }
    forall y | y in S
      ensures y in Elems(c)
    {
      var t :| t in Elems(s) && pick(t) == Some(y);
      var i :| 0 <= i < |s| && s[i] == t;
    }
    DistinctCardinality(c);
  }

  /** Sources: the tensors without inputs. */
  function SourcePick(t: Tensor): Option<Tensor>
  {
    if Inputs(t) == [] then Some(t) else None
  }

  /** Layers (main tree): the layer of a layer tensor and the base model of a model tensor. */
  function LayerPick(t: Tensor): Option<Layer>
  {
    match t.kind
    case LayerKind(l, _) => Some(l)
    case ModelKind(b, _, _, _) => Some(b)
    case _ => None
  }

  /** Submodels (main tree): the base model of a model tensor. */
  function SubmodelPick(t: Tensor): Option<Layer>
  {
    match t.kind
    case ModelKind(b, _, _, _) => Some(b)
    case _ => None
  }

  /** Inputs (iOS tree): the input tensors. */
  function InputPick(t: Tensor): Option<Tensor>
  {
    if t.kind.InputKind? then Some(t) else None
  }

  /** Labels (iOS tree): the labels tensors. */
  function LabelsPick(t: Tensor): Option<Tensor>
  {
    if t.kind.LabelsKind? then Some(t) else None
  }

  /** Layers (iOS tree): only the layer of a layer tensor. */
  function IosLayerPick(t: Tensor): Option<Layer>
  {
    if t.kind.LayerKind? then Some(t.kind.layer) else None
  }

  // ---------------------------------------------------------------- reachability

  /** Whatever a reachable tensor reaches is reachable. */
  lemma {:induction false} ReachTransitive(o: Tensor, x: Tensor)
    requires x in Reach(o)
    ensures Reach(x) <= Reach(o)
    decreases o
  {
    if x != o {
      var ins := Inputs(o);
      ReachOfInputs(o);
      ReachAllMembers(ins, x);
      var i :| 0 <= i < |ins| && x in Reach(ins[i]);
      ReachTransitive(ins[i], x);
      ReachAllContains(ins, i);
    }
  }

  /** The inputs of a tensor reachable from ts are reachable from ts. */
  lemma ReachClosed(ts: seq<Tensor>, t: Tensor, j: int)
    requires t in ReachAll(ts) && 0 <= j < |Inputs(t)|
    ensures Inputs(t)[j] in ReachAll(ts)
  {
    ReachAllMembers(ts, t);
    var i :| 0 <= i < |ts| && t in Reach(ts[i]);
    ReachTransitive(ts[i], t);
    InputsReachable(t, j);
    ReachOfInputs(Inputs(t)[j]);
    ReachAllContains(ts, i);
  }

  /** The roots are reachable. */
  lemma RootsReachable(ts: seq<Tensor>)
    ensures forall i :: 0 <= i < |ts| ==> ts[i] in ReachAll(ts)
  {
    forall i | 0 <= i < |ts|
      ensures ts[i] in ReachAll(ts)
    {
      ReachOfInputs(ts[i]);
      ReachAllContains(ts, i);
    }
  }

  // ---------------------------------------------------------------- the walk's invariant

  /**
   * The state of the walk while it goes through `current` at position k:
   * handled lists hs without repetition; everything seen lies in R; every
   * input of a handled tensor and every output is handled or still waiting
   * (in current from k on, or in next); during the first round handled is
   * the distinct outputs met so far, afterwards it starts with all of them;
   * and a round that handles nothing new (hs0 is the handled set at its
   * start) queues nothing.
   */
  ghost predicate WalkInv(outputs: seq<Tensor>, R: set<Tensor>, handled: seq<Tensor>, hs: set<Tensor>,
                          current: seq<Tensor>, k: int, next: seq<Tensor>, firstRound: bool, hs0: set<Tensor>)
  {
    && 0 <= k <= |current|
    && (forall x :: x in hs ==> x in handled)
    && (forall i :: 0 <= i < |handled| ==> handled[i] in hs)
    && Distinct(handled)
    && hs <= R
    && (forall i :: 0 <= i < |current| ==> current[i] in R)
    && (forall i :: 0 <= i < |next| ==> next[i] in R)
    && (forall x, j :: x in hs && 0 <= j < |Inputs(x)| ==>
          Inputs(x)[j] in hs || Inputs(x)[j] in current[k..] || Inputs(x)[j] in next)
    && (forall i :: 0 <= i < |outputs| ==> outputs[i] in hs || outputs[i] in current[k..] || outputs[i] in next)
    && (firstRound ==> current == outputs && handled == Dedup(outputs[..k]))
    && (!firstRound ==> Dedup(outputs) <= handled)
    && hs0 <= hs && (hs == hs0 ==> next == [])
  }

  /** The walk starts with the outputs as the current round and nothing handled. */
  lemma WalkStart(outputs: seq<Tensor>)
    ensures WalkInv(outputs, ReachAll(outputs), [], {}, outputs, 0, [], true, {})
  {
    RootsReachable(outputs);
  }

  /** current[k] was handled before: passing over it keeps the invariant. */
  lemma WalkSkip(outputs: seq<Tensor>, R: set<Tensor>, handled: seq<Tensor>, hs: set<Tensor>,
                 current: seq<Tensor>, k: int, next: seq<Tensor>, firstRound: bool, hs0: set<Tensor>)
    requires WalkInv(outputs, R, handled, hs, current, k, next, firstRound, hs0)
    requires k < |current| && current[k] in hs
    ensures WalkInv(outputs, R, handled, hs, current, k + 1, next, firstRound, hs0)
  {
    forall y | y in current[k..]
      ensures y in hs || y in current[k + 1..]
    {
      var i :| k <= i < |current| && y == current[i];
      if i > k {
        assert current[k + 1..][i - k - 1] == y;
      }
    }
    if firstRound {
      DedupMembers(outputs[..k]);
      assert outputs[..k + 1] == outputs[..k] + [outputs[k]];
      assert outputs[..k + 1][..k] == outputs[..k];
    }
  }

  /** current[k] is new: handling it and queueing its inputs keeps the invariant. */
  lemma WalkHandle(outputs: seq<Tensor>, R: set<Tensor>, handled: seq<Tensor>, hs: set<Tensor>,
                   current: seq<Tensor>, k: int, next: seq<Tensor>, firstRound: bool, hs0: set<Tensor>)
    requires R == ReachAll(outputs)
    requires WalkInv(outputs, R, handled, hs, current, k, next, firstRound, hs0)
    requires k < |current| && current[k] !in hs
    ensures WalkInv(outputs, R, handled + [current[k]], hs + {current[k]}, current, k + 1,
                    next + Inputs(current[k]), firstRound, hs0)
  {
    var t := current[k];
    var next' := next + Inputs(t);
    QueuedReachable(outputs, next, t);
    PassCurrent(current, k);
    HandledInputsWaiting(hs, t, current, k, next);
    HandledSnoc(handled, hs, t);
    OutputsWaiting(outputs, hs, t, current, k, next);
    if firstRound {
      DedupMembers(outputs[..k]);
      assert outputs[..k + 1] == outputs[..k] + [outputs[k]];
      assert outputs[..k + 1][..k] == outputs[..k];
    } else {
      PrefixGrows(Dedup(outputs), handled, t);
    }
  }

  /** Once t is handled and its inputs queued, every input of a handled tensor is still handled or waiting. */
  lemma HandledInputsWaiting(hs: set<Tensor>, t: Tensor, current: seq<Tensor>, k: int, next: seq<Tensor>)
    requires 0 <= k < |current| && t == current[k]
    requires forall y :: y in current[k..] ==> y == t || y in current[k + 1..]
    requires forall x, j :: x in hs && 0 <= j < |Inputs(x)| ==>
      Inputs(x)[j] in hs || Inputs(x)[j] in current[k..] || Inputs(x)[j] in next
    ensures forall x, j :: x in hs + {t} && 0 <= j < |Inputs(x)| ==>
      Inputs(x)[j] in hs + {t} || Inputs(x)[j] in current[k + 1..] || Inputs(x)[j] in next + Inputs(t)
  {
    forall x, j | x in hs + {t} && 0 <= j < |Inputs(x)|
      ensures Inputs(x)[j] in hs + {t} || Inputs(x)[j] in current[k + 1..] || Inputs(x)[j] in next + Inputs(t)
    {
      if x == t {
        assert (next + Inputs(t))[|next| + j] == Inputs(t)[j];
      }
    }
  }

  /** Handling a tensor not handled before keeps the handled list and set in step, without repetition. */
  lemma HandledSnoc(handled: seq<Tensor>, hs: set<Tensor>, t: Tensor)
    requires (forall x :: x in hs ==> x in handled) && (forall i :: 0 <= i < |handled| ==> handled[i] in hs)
    requires Distinct(handled) && t !in hs
    ensures forall x :: x in hs + {t} ==> x in handled + [t]
    ensures forall i :: 0 <= i < |handled + [t]| ==> (handled + [t])[i] in hs + {t}
    ensures Distinct(handled + [t])
  {
    forall i, j | 0 <= i < j < |handled + [t]|
      ensures (handled + [t])[i] != (handled + [t])[j]
    {
      assert (handled + [t])[i] == handled[i];
    }
  }

  /** Every output is still handled or waiting once current[k] is handled and its inputs queued. */
  lemma OutputsWaiting(outputs: seq<Tensor>, hs: set<Tensor>, t: Tensor, current: seq<Tensor>, k: int, next: seq<Tensor>)
    requires 0 <= k < |current| && t == current[k]
    requires forall y :: y in current[k..] ==> y == t || y in current[k + 1..]
    requires forall i :: 0 <= i < |outputs| ==> outputs[i] in hs || outputs[i] in current[k..] || outputs[i] in next
    ensures forall i :: 0 <= i < |outputs| ==>
      outputs[i] in hs + {t} || outputs[i] in current[k + 1..] || outputs[i] in next + Inputs(t)
  {
  }

  /** A prefix of a list is a prefix of the list with one more element. */
  lemma PrefixGrows(p: seq<Tensor>, s: seq<Tensor>, t: Tensor)
    requires p <= s
    ensures p <= s + [t]
  {
    assert (s + [t])[..|p|] == s[..|p|];
  }

  /** The inputs of a reachable tensor, queued after reachable tensors, keep the queue reachable. */
  lemma QueuedReachable(outputs: seq<Tensor>, next: seq<Tensor>, t: Tensor)
    requires t in ReachAll(outputs) && forall i :: 0 <= i < |next| ==> next[i] in ReachAll(outputs)
    ensures forall i :: 0 <= i < |next + Inputs(t)| ==> (next + Inputs(t))[i] in ReachAll(outputs)
  {
    forall i | 0 <= i < |next + Inputs(t)|
      ensures (next + Inputs(t))[i] in ReachAll(outputs)
    {
      if i >= |next| {
        assert (next + Inputs(t))[i] == Inputs(t)[i - |next|];
        ReachClosed(outputs, t, i - |next|);
      }
    }
  }

  /** What waits from position k on is current[k] or waits from k + 1 on. */
  lemma PassCurrent(current: seq<Tensor>, k: int)
    requires 0 <= k < |current|
    ensures forall y :: y in current[k..] ==> y == current[k] || y in current[k + 1..]
  {
    forall y | y in current[k..]
      ensures y == current[k] || y in current[k + 1..]
    {
      var i :| k <= i < |current| && y == current[i];
      if i > k {
        assert current[k + 1..][i - k - 1] == y;
      }
    }
  }

  /** The end of a round: the queued tensors become the next round. */
  lemma WalkRound(outputs: seq<Tensor>, R: set<Tensor>, handled: seq<Tensor>, hs: set<Tensor>,
                  current: seq<Tensor>, next: seq<Tensor>, firstRound: bool, hs0: set<Tensor>)
    requires WalkInv(outputs, R, handled, hs, current, |current|, next, firstRound, hs0)
    ensures WalkInv(outputs, R, handled, hs, next, 0, [], false, hs)
    ensures hs0 <= hs && (hs == hs0 ==> next == [])
  {
    assert current[|current|..] == [];
    assert next[0..] == next;
    if firstRound {
      assert outputs[..|outputs|] == outputs;
    }
  }

  /** When nothing is waiting, the handled tensors are exactly those reachable from the outputs. */
  lemma WalkDone(outputs: seq<Tensor>, handled: seq<Tensor>, hs: set<Tensor>)
    requires WalkInv(outputs, ReachAll(outputs), handled, hs, [], 0, [], false, hs)
    ensures Elems(handled) == ReachAll(outputs)
  {
    forall x | x in ReachAll(outputs)
      ensures x in hs
    {
      ReachAllMembers(outputs, x);
      var i :| 0 <= i < |outputs| && x in Reach(outputs[i]);
      ClosedSetHoldsReach(hs, outputs[i]);
    }
  }
}
