/** The data-entry wizard's tab strip (`components/TabSection.tsx`): the
    active tab and the set of tabs whose form reported completion. */
module Tabs {

  /** The five tab ids, in display order. */
  const TabIds: seq<string> := ["diamond-details", "certification", "pricing", "inventory", "supplier"]

  /** What `markTabComplete` does to the set. */
  function Mark(done: set<string>, id: string): (r: set<string>)
    ensures id in r && done <= r
    ensures r - done <= {id}
  {
    done + {id}
  }

  /** Marking the same tab twice is the same as marking it once. */
  lemma MarkIdempotent(done: set<string>, id: string)
    ensures Mark(Mark(done, id), id) == Mark(done, id)
  {
  }

  /** The order tabs are marked in does not matter. */
  lemma MarkCommutes(done: set<string>, a: string, b: string)
    ensures Mark(Mark(done, a), b) == Mark(Mark(done, b), a)
  {
  }

  /** Marking a sequence of tabs in order. */
  function MarkAll(done: set<string>, ids: seq<string>): set<string>
    decreases |ids|
  {
    if ids == [] then done else MarkAll(Mark(done, ids[0]), ids[1..])
  }

  /** Whatever is marked, nothing is ever removed, and the set gains exactly
      the ids marked. */
  lemma {:induction false} MarkAllGrows(done: set<string>, ids: seq<string>)
    ensures done <= MarkAll(done, ids)
    ensures forall t :: t in MarkAll(done, ids) <==> t in done || t in ids
    decreases |ids|
  {
    if ids != [] {
      MarkAllGrows(Mark(done, ids[0]), ids[1..]);
      assert forall t :: t in ids <==> t == ids[0] || t in ids[1..];
    }
  }

  class TabSection {
    var activeTab: string
    var completedTabs: set<string>

    constructor ()
      ensures activeTab == "diamond-details" && completedTabs == {}
    {
      activeTab := "diamond-details";
      completedTabs := {};
    }

    /** `markTabComplete`: adds the id; nothing else changes. */
    method MarkTabComplete(id: string)
      modifies this`completedTabs
      ensures completedTabs == Mark(old(completedTabs), id)
      ensures ShowsCheck(id)
      ensures forall t :: t != id ==> (ShowsCheck(t) <==> old(ShowsCheck(t)))
    {
      completedTabs := completedTabs + {id};
    }

    /** Switching tabs is allowed whatever is completed, and does not touch
        the completed set. */
    method SetActiveTab(id: string)
      modifies this`activeTab
      ensures activeTab == id
    {
      activeTab := id;
    }

    /** A tab shows its check mark exactly when its id has been marked. */
    predicate ShowsCheck(id: string)
      reads this
    {
      id in completedTabs
    }
  }
}
