/**
 * The two stores the views write to: the SwiftData model context, as the
 * sequence of `Item` objects inserted into it, and the app's documents
 * directory, as a map from file name to the bytes written there.
 */
module Store {
  import opened Items

  class ModelContext {
    var items: seq<Item>

    constructor ()
      ensures items == []
    {
      items := [];
    }

    /** Every stored item satisfies the claim coupling. */
    predicate AllCoupled()
      reads this, items
    {
      forall i :: 0 <= i < |items| ==> items[i].ClaimCoupled()
    }

    /**
     * `modelContext.insert`: the object joins the context once; inserting an
     * object already registered adds no copy. The order of `items` is this
     * model's own choice, as a context has none.
     */
    method Insert(item: Item)
      modifies this
      ensures items == if item in old(items) then old(items) else old(items) + [item]
    {
      if item !in items {
        items := items + [item];
      }
    }
  }

  class Documents {
    var files: map<string, seq<bv8>>

    constructor ()
      ensures files == map[]
    {
      files := map[];
    }
  }
}
