/** The subscriber registry: the concurrent bag of subscribers (a multiset of
    references, since a bag keeps no order) and the `Subscription` handed back by
    `Subscribe` (BrokerClient.cs). */
module Registry {
  import opened Errors
  import opened Observers

  /** The bag holds each subscriber at most once. `Subscribe` keeps this invariant. */
  predicate NoDuplicates(items: multiset<Observer>)
  {
    forall o :: o in items ==> items[o] == 1
  }

  /** `after` is `before` with exactly one element, any one, taken out. */
  predicate TakesOne(before: multiset<Observer>, after: multiset<Observer>)
  {
    exists x :: x in before && after == before - multiset{x}
  }

  /** `ConcurrentBag<IBrokerObserver>`. */
  class ObserverBag {
    var items: multiset<Observer>

    constructor ()
      ensures items == multiset{}
    {
      items := multiset{};
    }

    /** `Contains`. */
    method Contains(o: Observer) returns (b: bool)
      ensures b <==> o in items
    {
      b := o in items;
    }

    /** `Add`: one more occurrence of `o`, whether or not it is already there. */
    method Add(o: Observer)
      modifies this
      ensures items == old(items) + multiset{o}
    {
      items := items + multiset{o};
    }

    /** `TryTake`: fails on an empty bag; otherwise removes and returns one element,
        which one being up to the bag. */
    method TryTake() returns (r: Option<Observer>)
      modifies this
      ensures old(items) == multiset{} ==> r.None? && items == old(items)
      ensures old(items) != multiset{} ==>
        r.Some? && r.value in old(items) && items == old(items) - multiset{r.value}
    {
      if items == multiset{} {
        return None;
      }
      var x :| x in items;
      items := items - multiset{x};
      return Some(x);
    }

    /** Removal of one occurrence of a chosen element, which the bag itself does not
        offer; used by `Subscription.DisposeOwn`. */
    method Remove(o: Observer)
      modifies this
      ensures items == old(items) - multiset{o}
    {
      items := items - multiset{o};
    }

    /** `ToList`: a fresh list holding exactly the bag's elements, in some order. */
    method ToList() returns (s: seq<Observer>)
      ensures multiset(s) == items
    {
      s := [];
      var rest := items;
      while rest != multiset{}
        invariant multiset(s) + rest == items
        decreases |rest|
      {
        var x :| x in rest;
        s := s + [x];
        rest := rest - multiset{x};
      }
    }
  }

  /** The handle returned by `Subscribe`, bound to one subscriber of one bag. */
  class Subscription {
    const registry: ObserverBag
    const observer: Observer
    var disposed: bool

    constructor (registry: ObserverBag, observer: Observer)
      ensures this.registry == registry && this.observer == observer && !disposed
    {
      this.registry := registry;
      this.observer := observer;
      disposed := false;
    }

    /** `Dispose()` as written: the first call, when its subscriber is in the bag, takes
        one element out with `TryTake`, which need not be its own subscriber. Any other
        call only marks the handle disposed. */
    method Dispose()
      modifies this, registry
      ensures disposed
      ensures !old(disposed) && observer in old(registry.items) ==> TakesOne(old(registry.items), registry.items)
      ensures old(disposed) || observer !in old(registry.items) ==> registry.items == old(registry.items)
    {
      if !disposed {
        var present := registry.Contains(observer);
        if present {
          var removing := registry.TryTake();
        }
        disposed := true;
      }
    }

    /** `Dispose()` as evidently intended: the first call removes its own subscriber. */
    method DisposeOwn()
      modifies this, registry
      ensures disposed
      ensures !old(disposed) ==> registry.items == old(registry.items) - multiset{observer}
      ensures old(disposed) ==> registry.items == old(registry.items)
    {
      if !disposed {
        var present := registry.Contains(observer);
        if present {
          registry.Remove(observer);
        }
        disposed := true;
      }
    }
  }

  // ---------------------------------------------------------------------------
  // Properties

  /** Taking one element out shrinks the bag by exactly one and adds nothing. */
  lemma TakesOneShrinksByOne(before: multiset<Observer>, after: multiset<Observer>)
    requires TakesOne(before, after)
    ensures |after| == |before| - 1
    ensures after <= before
  {
    var x :| x in before && after == before - multiset{x};
    assert before == after + multiset{x};
  }

  /** Taking any one element out of a bag without duplicates leaves it without
      duplicates, so the written `Dispose` keeps the invariant `Subscribe` keeps, even
      when it takes out the wrong subscriber. */
  lemma TakesOnePreservesNoDuplicates(before: multiset<Observer>, after: multiset<Observer>)
    requires TakesOne(before, after) && NoDuplicates(before)
    ensures NoDuplicates(after)
  {
    var x :| x in before && after == before - multiset{x};
    forall o | o in after
      ensures after[o] == 1
    {
      assert before[o] == 1;
    }
  }

  /** Found defect: `Dispose` as written may take out another subscriber and leave its
      own one registered. */
  lemma DisposeMayRemoveAnother(own: Observer, other: Observer)
    requires own != other
    ensures TakesOne(multiset{own, other}, multiset{own})
  {
    assert multiset{own} == multiset{own, other} - multiset{other};
  }

  /** The corrected disposal removes its subscriber for good from a bag without
      duplicates, shrinks the bag by one, and keeps it free of duplicates. */
  lemma DisposeOwnRemovesSubscriber(items: multiset<Observer>, o: Observer)
    requires NoDuplicates(items) && o in items
    ensures o !in items - multiset{o}
    ensures |items - multiset{o}| == |items| - 1
    ensures NoDuplicates(items - multiset{o})
  {
    assert items == (items - multiset{o}) + multiset{o};
  }
}
