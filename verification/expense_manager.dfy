/**
 * The `useExpenseManager` hook (src/hooks/use-expense-manager.tsx): two editable lists, one of
 * expenses and one of savings goals, whose new entries are numbered by the list's length.
 * Numbering by length keeps identifiers distinct while entries are only added, but an addition
 * after a removal can reuse an identifier still in the list (`RemovalThenAddRepeatsId`).
 */
module ExpenseManager {
  import opened Seqs
  import opened Text

  /** An entry of either list: identifier, name and the amount as typed. */
  datatype Item = Item(id: string, name: string, amount: string)

  function ItemId(item: Item): string { item.id }

  /** `String(list.length + 1)`: the identifier given to the next entry. */
  function NextId(list: seq<Item>): string {
    NatToString(|list| + 1)
  }

  /** The entry appended by `addExpense` / `addGoal`: the next identifier, the default name and no amount. */
  function NewItem(list: seq<Item>, defaultName: string): (item: Item)
    ensures item.id == NextId(list) && item.name == defaultName && item.amount == ""
  {
    Item(NextId(list), defaultName, "")
  }

  /** Identifiers are "1", "2", … in list order, as they are while entries are only ever added. */
  predicate NumberedByPosition(list: seq<Item>) {
    forall i :: 0 <= i < |list| ==> list[i].id == NatToString(i + 1)
  }

  /** Entries numbered by position have distinct identifiers. */
  lemma NumberedIsDistinct(list: seq<Item>)
    requires NumberedByPosition(list)
    ensures DistinctBy(list, ItemId)
  {
    forall i, j | 0 <= i < j < |list| ensures ItemId(list[i]) != ItemId(list[j]) {
      if list[i].id == list[j].id {
        NatToStringInjective(i + 1, j + 1);
      }
    }
  }

  /**
   * For a list with distinct identifiers, an addition keeps them distinct exactly when the
   * length-based identifier is not already in use.
   */
  lemma AddDistinctIffFresh(list: seq<Item>, defaultName: string)
    requires DistinctBy(list, ItemId)
    ensures DistinctBy(list + [NewItem(list, defaultName)], ItemId) <==> !HasKey(list, ItemId, NextId(list))
  {
    var item := NewItem(list, defaultName);
    var r := list + [item];
    if HasKey(list, ItemId, NextId(list)) {
      var i :| 0 <= i < |list| && ItemId(list[i]) == NextId(list);
      assert r[i] == list[i] && r[|list|] == item;
    } else {
      AppendFreshDistinct(list, ItemId, item);
    }
  }

  /**
   * The starting expense list ["1"], one addition ("2"), removal of "1" and another addition:
   * the new entry is numbered "2" again, so two entries share an identifier.
   */
  lemma RemovalThenAddRepeatsId()
    ensures var start := [Item("1", "Rent", "")];
      var added := start + [NewItem(start, "New Expense")];
      var removed := WithoutKey(added, ItemId, "1");
      var again := removed + [NewItem(removed, "New Expense")];
      && DistinctBy(added, ItemId)
      && |again| == 2
      && again[0].id == "2" && again[1].id == "2"
      && !DistinctBy(again, ItemId)
  {
    var start := [Item("1", "Rent", "")];
    var added := start + [NewItem(start, "New Expense")];
    assert NatToString(2) == "2";
    assert added == [Item("1", "Rent", ""), Item("2", "New Expense", "")];
    var removed := WithoutKey(added, ItemId, "1");
    var second := [Item("2", "New Expense", "")];
    assert added[1..] == second && second[1..] == [];
    assert WithoutKey(second, ItemId, "1") == second by {
      assert ItemId(second[0]) != "1";
      assert WithoutKey(second[1..], ItemId, "1") == [];
    }
    assert removed == second;
  }

  /** An update that changes the name only. */
  function Rename(name: string): Item -> Item {
    (item: Item) => item.(name := name)
  }

  /** An update that changes the amount only. */
  function Reprice(amount: string): Item -> Item {
    (item: Item) => item.(amount := amount)
  }

  /**
   * An update by identifier rewrites one field of the matching entries only, keeps every
   * identifier and the length, and so keeps identifiers distinct.
   */
  lemma UpdateIsLocal(list: seq<Item>, id: string, name: string, amount: string)
    requires DistinctBy(list, ItemId)
    ensures var r := UpdateWhere(list, ItemId, id, Rename(name));
      && |r| == |list|
      && (forall i :: 0 <= i < |r| ==> r[i].id == list[i].id && r[i].amount == list[i].amount)
      && (forall i :: 0 <= i < |r| ==> r[i].name == if list[i].id == id then name else list[i].name)
      && DistinctBy(r, ItemId)
    ensures var r := UpdateWhere(list, ItemId, id, Reprice(amount));
      && |r| == |list|
      && (forall i :: 0 <= i < |r| ==> r[i].id == list[i].id && r[i].name == list[i].name)
      && (forall i :: 0 <= i < |r| ==> r[i].amount == if list[i].id == id then amount else list[i].amount)
      && DistinctBy(r, ItemId)
  {
    UpdateWhereDistinct(list, ItemId, id, Rename(name));
    UpdateWhereDistinct(list, ItemId, id, Reprice(amount));
  }

  /** The two lists of the hook. */
  class Manager {
    var expenses: seq<Item>
    var goals: seq<Item>

    constructor ()
      ensures expenses == [Item("1", "Rent", "")]
      ensures goals == [Item("1", "Emergency Fund", "")]
      ensures NumberedByPosition(expenses) && NumberedByPosition(goals)
    {
      expenses := [Item("1", "Rent", "")];
      goals := [Item("1", "Emergency Fund", "")];
    }

    /** `addExpense`: appends "New Expense" with the next length-based identifier. */
    method AddExpense()
      modifies this
      ensures expenses == old(expenses) + [NewItem(old(expenses), "New Expense")]
      ensures old(NumberedByPosition(expenses)) ==> NumberedByPosition(expenses)
      ensures goals == old(goals)
    {
      expenses := expenses + [NewItem(expenses, "New Expense")];
    }

    /** `updateExpenseName`: renames every expense with that identifier. */
    method UpdateExpenseName(id: string, name: string)
      modifies this
      ensures expenses == UpdateWhere(old(expenses), ItemId, id, Rename(name))
      ensures goals == old(goals)
    {
      expenses := UpdateWhere(expenses, ItemId, id, Rename(name));
    }

    /** `updateExpenseAmount`: sets the amount of every expense with that identifier. */
    method UpdateExpenseAmount(id: string, amount: string)
      modifies this
      ensures expenses == UpdateWhere(old(expenses), ItemId, id, Reprice(amount))
      ensures goals == old(goals)
    {
      expenses := UpdateWhere(expenses, ItemId, id, Reprice(amount));
    }

    /** `removeExpense`: drops every expense with that identifier; the list may become empty. */
    method RemoveExpense(id: string)
      modifies this
      ensures expenses == WithoutKey(old(expenses), ItemId, id)
      ensures !HasKey(expenses, ItemId, id)
      ensures goals == old(goals)
    {
      expenses := WithoutKey(expenses, ItemId, id);
    }

    /** `addGoal`: appends "New Savings Goal" with the next length-based identifier. */
    method AddGoal()
      modifies this
      ensures goals == old(goals) + [NewItem(old(goals), "New Savings Goal")]
      ensures old(NumberedByPosition(goals)) ==> NumberedByPosition(goals)
      ensures expenses == old(expenses)
    {
      goals := goals + [NewItem(goals, "New Savings Goal")];
    }

    method UpdateGoalName(id: string, name: string)
      modifies this
      ensures goals == UpdateWhere(old(goals), ItemId, id, Rename(name))
      ensures expenses == old(expenses)
    {
      goals := UpdateWhere(goals, ItemId, id, Rename(name));
    }

    method UpdateGoalAmount(id: string, amount: string)
      modifies this
      ensures goals == UpdateWhere(old(goals), ItemId, id, Reprice(amount))
      ensures expenses == old(expenses)
    {
      goals := UpdateWhere(goals, ItemId, id, Reprice(amount));
    }

    method RemoveGoal(id: string)
      modifies this
      ensures goals == WithoutKey(old(goals), ItemId, id)
      ensures !HasKey(goals, ItemId, id)
      ensures expenses == old(expenses)
    {
      goals := WithoutKey(goals, ItemId, id);
    }
  }
}
