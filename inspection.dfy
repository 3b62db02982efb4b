/**
 * What a `TypeInspector.inspect` call does, seen from its consumer: it walks
 * the elements of a class (constructor parameters, fields or record
 * components) in order, and for each one either skips it, hands a builder to
 * the consumer, or throws and stops.
 */
module Inspection {
  import opened Wrappers
  import opened Reflection
  import opened Errors
  import opened PropertyAnalysis

  /**
   * A builder as an inspector hands it over: the classes it names (its declared
   * type and, when set, its intrinsic type) lie in `classes`, and the analyzer's
   * part (argument factory, converter, nested flag) is still unset.
   */
  predicate DraftInside(d: Draft, classes: set<JClass>)
  {
    && d.propertyType.Some? && d.propertyType.value in classes
    && (d.intrinsicType.Some? ==> d.intrinsicType.value in classes)
    && d.factory.None? && d.valueConverter.None? && !d.nested
  }

  /** The outcome of one element. */
  datatype Step = Skip | Yield(draft: Draft) | Fail(error: Error)

  /** The builders handed to the consumer, in order, and the exception that ended the walk, if any. */
  datatype Inspection = Inspection(yielded: seq<Draft>, failure: Option<Error>)

  function Prepend(ds: seq<Draft>, r: Inspection): Inspection
  {
    Inspection(ds + r.yielded, r.failure)
  }

  /** The walk over the elements' outcomes: everything up to the first failure. */
  function Run(steps: seq<Step>): Inspection
  {
    if |steps| == 0 then Inspection([], None)
    else
      match steps[0]
      case Fail(e) => Inspection([], Some(e))
      case Skip => Run(steps[1..])
      case Yield(d) => Prepend([d], Run(steps[1..]))
  }

  /** Where the walk stops: the first failing element, or the end. */
  function Stop(steps: seq<Step>): (k: nat)
    ensures k <= |steps|
    ensures forall i :: 0 <= i < k ==> !steps[i].Fail?
    ensures k < |steps| ==> steps[k].Fail?
  {
    if |steps| == 0 then 0
    else if steps[0].Fail? then 0
    else 1 + Stop(steps[1..])
  }

  /** The builders of the yielding elements, in element order. */
  function Drafts(steps: seq<Step>): (ds: seq<Draft>)
    ensures |ds| <= |steps|
  {
    if |steps| == 0 then []
    else if steps[0].Yield? then [steps[0].draft] + Drafts(steps[1..])
    else Drafts(steps[1..])
  }

  lemma {:induction false} DraftsAppend(a: seq<Step>, b: seq<Step>)
    ensures Drafts(a + b) == Drafts(a) + Drafts(b)
  {
    if |a| > 0 {
      assert (a + b)[1..] == a[1..] + b;
      DraftsAppend(a[1..], b);
    } else {
      assert a + b == b;
    }
  }

  /**
   * The consumer receives exactly one builder per yielding element before the
   * first failure, in element order; the walk fails exactly when some element
   * fails, and then with the first such element's exception.
   */
  lemma {:induction false} RunCharacterisation(steps: seq<Step>)
    ensures Run(steps).yielded == Drafts(steps[..Stop(steps)])
    ensures Run(steps).failure.Some? <==> Stop(steps) < |steps|
    ensures Stop(steps) < |steps| ==> Run(steps).failure == Some(steps[Stop(steps)].error)
  {
    if |steps| > 0 && !steps[0].Fail? {
      RunCharacterisation(steps[1..]);
      assert steps[..Stop(steps)] == [steps[0]] + steps[1..][..Stop(steps[1..])];
    }
  }

  /** Without a failing element every yielding element reaches the consumer. */
  lemma NoFailureYieldsAll(steps: seq<Step>)
    requires forall i :: 0 <= i < |steps| ==> !steps[i].Fail?
    ensures Run(steps) == Inspection(Drafts(steps), None)
  {
    RunCharacterisation(steps);
    assert steps[..|steps|] == steps;
  }

  /** Each builder the consumer receives comes from a yielding element before the stop. */
  lemma {:induction false} YieldedComeFromSteps(steps: seq<Step>, j: nat)
    requires j < |Run(steps).yielded|
    ensures exists i :: 0 <= i < Stop(steps) && steps[i] == Yield(Run(steps).yielded[j])
  {
    if steps[0].Yield? && j == 0 {
      assert steps[0] == Yield(Run(steps).yielded[0]);
    } else {
      var k := if steps[0].Yield? then j - 1 else j;
      YieldedComeFromSteps(steps[1..], k);
      var i :| 0 <= i < Stop(steps[1..]) && steps[1..][i] == Yield(Run(steps[1..]).yielded[k]);
      assert steps[i + 1] == Yield(Run(steps).yielded[j]);
    }
  }

  /** One iteration of an inspection loop: how the walk over the rest proceeds from element `i`. */
  lemma Advance(steps: seq<Step>, i: nat, yielded: seq<Draft>)
    requires i < |steps| && Run(steps) == Prepend(yielded, Run(steps[i..]))
    ensures steps[i].Fail? ==> Run(steps) == Inspection(yielded, Some(steps[i].error))
    ensures steps[i].Skip? ==> Run(steps) == Prepend(yielded, Run(steps[i + 1..]))
    ensures steps[i].Yield? ==> Run(steps) == Prepend(yielded + [steps[i].draft], Run(steps[i + 1..]))
  {
    assert steps[i..][1..] == steps[i + 1..];
  }

  /** The end of an inspection loop that met no failure. */
  lemma Finish(steps: seq<Step>, yielded: seq<Draft>)
    requires Run(steps) == Prepend(yielded, Run(steps[|steps|..]))
    ensures Run(steps) == Inspection(yielded, None)
  {
    assert steps[|steps|..] == [];
  }

  /** The walk can be split at any element: what was yielded so far, then the walk over the rest. */
  lemma RunStep(steps: seq<Step>, i: nat)
    requires i < |steps|
    ensures Run(steps[i..]) == match steps[i]
                               case Fail(e) => Inspection([], Some(e))
                               case Skip => Run(steps[i + 1..])
                               case Yield(d) => Prepend([d], Run(steps[i + 1..]))
  {
    assert steps[i..][1..] == steps[i + 1..];
  }

  /**
   * When element `i` can only yield a builder with index `base + i`, the
   * consumer receives the indices in strictly increasing order.
   */
  lemma {:induction false} IndexedRunIncreasing(steps: seq<Step>, base: nat)
    requires forall i :: 0 <= i < |steps| && steps[i].Yield? ==> steps[i].draft.index == Some(base + i)
    ensures forall j :: 0 <= j < |Run(steps).yielded| ==>
              Run(steps).yielded[j].index.Some? && Run(steps).yielded[j].index.value >= base
    ensures forall j, j' :: 0 <= j < j' < |Run(steps).yielded| ==>
              Run(steps).yielded[j].index.value < Run(steps).yielded[j'].index.value
  {
    if |steps| > 0 && !steps[0].Fail? {
      assert forall i :: 0 <= i < |steps[1..]| && steps[1..][i].Yield? ==>
               steps[1..][i].draft.index == Some(base + 1 + i) by {
        forall i | 0 <= i < |steps[1..]| && steps[1..][i].Yield?
          ensures steps[1..][i].draft.index == Some(base + 1 + i)
        {
          assert steps[1..][i] == steps[i + 1];
        }
      }
      IndexedRunIncreasing(steps[1..], base + 1);
    }
  }
}
