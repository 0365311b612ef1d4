/** The FAQ modal's accordion: the list of open entries and its toggle. */
module FaqModal {
  import opened ListOps

  /** The number of questions the modal lists. */
  const FaqCount: int := 10

  /** FAQModal's `openItems`. */
  class Accordion {
    var openItems: seq<int>

    /** No entry is recorded as open twice. */
    predicate Valid()
      reads this
    {
      NoDuplicates(openItems)
    }

    /** Every open entry is one of the listed questions. */
    predicate OpensListedOnly()
      reads this
    {
      forall k :: 0 <= k < |openItems| ==> 0 <= openItems[k] < FaqCount
    }

    /** An entry's answer is shown (and its chevron points up) exactly when it is open. */
    predicate ShowsAnswer(index: int)
      reads this
    {
      index in openItems
    }

    constructor ()
      ensures openItems == [] && Valid() && OpensListedOnly()
      ensures forall i :: !ShowsAnswer(i)
    {
      openItems := [];
    }

    /**
     * toggleItem: an open entry closes and a closed one opens, every other
     * entry keeps its state, and the list stays duplicate-free.
     */
    method ToggleItem(index: int)
      requires Valid()
      modifies this`openItems
      ensures openItems == Toggle(old(openItems), index) && Valid()
      ensures old(OpensListedOnly()) && 0 <= index < FaqCount ==> OpensListedOnly()
      ensures ShowsAnswer(index) <==> !old(ShowsAnswer(index))
      ensures forall i :: i != index ==> (ShowsAnswer(i) <==> old(ShowsAnswer(i)))
    {
      TogglePreservesNoDuplicates(openItems, index);
      ToggleMembership(openItems, index);
      openItems := Toggle(openItems, index);
    }
  }

  /** Opening and closing entries in turn. */
  method AccordionScenario()
  {
    var a := new Accordion();
    a.ToggleItem(3);
    a.ToggleItem(5);
    assert a.ShowsAnswer(3) && a.ShowsAnswer(5) && !a.ShowsAnswer(4);
    a.ToggleItem(3);
    assert !a.ShowsAnswer(3) && a.ShowsAnswer(5);
  }
}
