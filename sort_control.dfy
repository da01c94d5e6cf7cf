/**
 * The sort controls of the admin orders, admin drivers and status pages:
 * each page keeps a `sortOption` and a `sortOrder` in state, and its
 * `handleSort(option)` flips the order when the chosen option is the current
 * one and otherwise selects the option in ascending order. The preset
 * buttons set both directly.
 */
module SortControl {
  import opened Sorting

  /** The state `handleSort(chosen)` leads to from `(option, order)`. */
  function Toggle<O(==)>(option: O, order: Direction, chosen: O): (r: (O, Direction))
    ensures r.0 == chosen
    ensures chosen == option ==> r.1 == Flip(order)
    ensures chosen != option ==> r.1 == Asc
  {
    if chosen == option then (option, Flip(order)) else (chosen, Asc)
  }

  /**
   * Choosing the same option twice in a row restores the order the first
   * choice found (for the current option) or ends descending (for a new one).
   */
  lemma {:induction false} ToggleTwice<O>(option: O, order: Direction, chosen: O)
    ensures var once := Toggle(option, order, chosen);
      var twice := Toggle(once.0, once.1, chosen);
      && twice.0 == chosen
      && (chosen == option ==> twice.1 == order)
      && (chosen != option ==> twice.1 == Desc)
  {
    var once := Toggle(option, order, chosen);
    assert once.0 == chosen;
    if chosen == option {
      assert Flip(Flip(order)) == order;
    }
  }

  class SortState<O(==)> {
    var option: O
    var order: Direction

    constructor(option: O, order: Direction)
      ensures this.option == option && this.order == order
    {
      this.option := option;
      this.order := order;
    }

    /** `handleSort(chosen)`. */
    method HandleSort(chosen: O)
      modifies this
      ensures (option, order) == Toggle(old(option), old(order), chosen)
    {
      if option == chosen {
        order := Flip(order);
      } else {
        option := chosen;
        order := Asc;
      }
    }

    /** A preset button: `setSortOption(option); setSortOrder(order)`. */
    method Preset(option: O, order: Direction)
      modifies this
      ensures this.option == option && this.order == order
    {
      this.option := option;
      this.order := order;
    }
  }
}
