/** The global store (src/store/index.ts): two fields, each with a setter. */
module Store {
  import opened Wrappers
  import opened ProjectTypes

  class AppStore {
    var breakdown: Option<Breakdown>
    var projectDescription: string

    /** The initial state: no breakdown, empty description. */
    constructor ()
      ensures breakdown == None && projectDescription == ""
    {
      breakdown := None;
      projectDescription := "";
    }

    /** `set({ breakdown })`: replaces the breakdown, keeps the description. */
    method SetBreakdown(b: Option<Breakdown>)
      modifies this`breakdown
      ensures breakdown == b
      ensures projectDescription == old(projectDescription)
    {
      breakdown := b;
    }

    /** `set({ projectDescription })`: replaces the description, keeps the breakdown. */
    method SetProjectDescription(d: string)
      modifies this`projectDescription
      ensures projectDescription == d
      ensures breakdown == old(breakdown)
    {
      projectDescription := d;
    }
  }

  /** Of two breakdowns set one after the other, the second is kept; the description is untouched. */
  method SetBreakdownLastWins(store: AppStore, first: Option<Breakdown>, second: Option<Breakdown>)
    modifies store
    ensures store.breakdown == second && store.projectDescription == old(store.projectDescription)
  {
    store.SetBreakdown(first);
    store.SetBreakdown(second);
  }

  /** The two setters touch different fields, so the order of two calls does not matter. */
  method SetBothFields(store: AppStore, b: Option<Breakdown>, d: string, breakdownFirst: bool)
    modifies store
    ensures store.breakdown == b && store.projectDescription == d
  {
    if breakdownFirst {
      store.SetBreakdown(b);
      store.SetProjectDescription(d);
    } else {
      store.SetProjectDescription(d);
      store.SetBreakdown(b);
    }
  }
}
