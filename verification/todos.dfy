/**
 * The in-memory to-do list: adding an item, rendering the list as the
 * `get_todo_list` tool's reply, and clearing it.
 */
module Todos {
  import opened Text

  /** A to-do item; `createdAt` is the creation timestamp as text. */
  datatype TodoItem = TodoItem(id: nat, content: string, createdAt: string, completed: bool)

  /** Items are numbered 1, 2, 3, ... in list order. */
  predicate Numbered(items: seq<TodoItem>)
  {
    forall i :: 0 <= i < |items| ==> items[i].id == i + 1
  }

  const EmptyListing: string := "待办事项列表为空"
  const ListingHeader: string := "您的待办事项:\n"

  /** The line that lists one item: status mark, id, content. */
  function Line(t: TodoItem): string
  {
    [if t.completed then '✓' else '○'] + " " + Decimal(t.id) + ". " + t.content + "\n"
  }

  /** The lines of the items, one per item, in list order. */
  function Lines(items: seq<TodoItem>): string
  {
    if items == [] then "" else Lines(items[..|items| - 1]) + Line(items[|items| - 1])
  }

  /** The reply of the `get_todo_list` tool. */
  function Listing(items: seq<TodoItem>): (text: string)
    ensures text == EmptyListing <==> items == []
    ensures items != [] ==> text == ListingHeader + Lines(items)
  {
    if items == [] then EmptyListing
    else
      var text := ListingHeader + Lines(items);
      assert text[0] != EmptyListing[0];
      text
  }

  /** Listing a concatenation lists the first part, then the second. */
  lemma {:induction false} LinesConcat(a: seq<TodoItem>, b: seq<TodoItem>)
    ensures Lines(a + b) == Lines(a) + Lines(b)
    decreases |b|
  {
    if b == [] {
      assert a + b == a;
    } else {
      var n := |b| - 1;
      LinesConcat(a, b[..n]);
      assert (a + b)[..|a + b| - 1] == a + b[..n];
      assert (a + b)[|a + b| - 1] == b[n];
      calc {
        Lines(a + b);
        Lines(a + b[..n]) + Line(b[n]);
        (Lines(a) + Lines(b[..n])) + Line(b[n]);
        Lines(a) + (Lines(b[..n]) + Line(b[n]));
        Lines(a) + Lines(b);
      }
    }
  }

  /** A non-empty listing is the header followed by each item's line in list order. */
  lemma ListingInOrder(items: seq<TodoItem>, k: int)
    requires 0 <= k < |items|
    ensures Listing(items) == ListingHeader + Lines(items[..k]) + Line(items[k]) + Lines(items[k + 1..])
  {
    LinesConcat(items[..k], [items[k]]);
    LinesConcat(items[..k] + [items[k]], items[k + 1..]);
    assert items[..k] + [items[k]] + items[k + 1..] == items;
    assert Lines([items[k]]) == Line(items[k]) by {
      assert [items[k]][..0] == [];
    }
  }

  /** Adding an item adds its line at the end of the listing. */
  lemma ListingAfterAdd(items: seq<TodoItem>, t: TodoItem)
    ensures Listing(items + [t]) == (if items == [] then ListingHeader else Listing(items)) + Line(t)
  {
    var grown := items + [t];
    assert grown[..|items|] == items && grown[|items|] == t;
    assert Lines(grown) == Lines(items) + Line(t);
    if items == [] {
      calc {
        Listing(grown);
        ListingHeader + Lines(grown);
        ListingHeader + ("" + Line(t));
        ListingHeader + Line(t);
      }
    } else {
      calc {
        Listing(grown);
        ListingHeader + Lines(grown);
        ListingHeader + (Lines(items) + Line(t));
        (ListingHeader + Lines(items)) + Line(t);
        Listing(items) + Line(t);
      }
    }
  }

  /** The to-do list the `add_todo` and `get_todo_list` tools work on. */
  class TodoList {
    var items: seq<TodoItem>

    ghost predicate Valid()
      reads this
    {
      Numbered(items)
    }

    constructor ()
      ensures Valid() && items == []
    {
      items := [];
    }

    /** Appends a new open item numbered one past the current length. */
    method AddTodo(content: string, createdAt: string) returns (reply: string)
      requires Valid()
      modifies this
      ensures Valid()
      ensures items == old(items) + [TodoItem(|old(items)| + 1, content, createdAt, false)]
      ensures reply == "已添加待办事项: " + content
    {
      var todo := TodoItem(|items| + 1, content, createdAt, false);
      items := items + [todo];
      reply := "已添加待办事项: " + content;
    }

    /** Renders the list: the fixed empty text, or the header and one line per item. */
    method GetTodoList() returns (text: string)
      ensures text == Listing(items)
    {
      if items == [] {
        return EmptyListing;
      }
      text := ListingHeader;
      for i := 0 to |items|
        invariant text == ListingHeader + Lines(items[..i])
      {
        assert items[..i + 1][..i] == items[..i];
        text := text + Line(items[i]);
      }
      assert items[..|items|] == items;
    }

    /** Empties the list and reports how many items it held. */
    method ClearTodos() returns (count: nat, message: string)
      modifies this
      ensures Valid() && items == []
      ensures count == |old(items)|
      ensures message == "已清空 " + Decimal(count) + " 个待办事项"
    {
      count := |items|;
      items := [];
      message := "已清空 " + Decimal(count) + " 个待办事项";
    }
  }
}
