/** The state of the history page of frontend/src/components/History.jsx:
    the list of stored predictions and the error line. Loading replaces
    the list or sets the error; deleting asks for confirmation and, once
    the server has deleted the record, filters it out of the list. The
    asynchronous requests are parameters giving their outcome. */
module HistoryView {
  import opened Values

  /** A stored prediction as the page holds it; only the id takes part in
      the logic, the level is what the label is computed from. */
  datatype Item = Item(id: string, level: JsValue)

  /** `prev.filter((item) => item._id !== id)`. */
  function RemoveId(items: seq<Item>, id: string): (r: seq<Item>)
    ensures |r| <= |items|
    ensures forall k :: 0 <= k < |r| ==> r[k].id != id
    ensures forall k :: 0 <= k < |items| && items[k].id != id ==> items[k] in r
  {
    if items == [] then []
    else if items[0].id != id then [items[0]] + RemoveId(items[1..], id)
    else RemoveId(items[1..], id)
  }

  class HistoryPage {
    var history: seq<Item>
    var error: JsValue

    constructor()
      ensures history == [] && error == JsStr("")
    {
      history := [];
      error := JsStr("");
    }

    /** loadHistory: replaces the list with the fetched one, or sets the
        error to the server's message or the fallback; never both. */
    method LoadHistory(outcome: Response<seq<Item>>)
      modifies this
      ensures outcome.Succeeded? ==> history == outcome.data && error == old(error)
      ensures outcome.Failed? ==>
        history == old(history) && error == Or(outcome.error, JsStr("Failed to load history"))
    {
      match outcome
      case Succeeded(data) =>
        history := data;
      case Failed(e) =>
        error := Or(e, JsStr("Failed to load history"));
    }

    /** handleDelete: nothing happens unless the confirmation returns
        true; then a successful delete filters the record out and a failed
        one sets the error and keeps the list. */
    method HandleDelete(id: string, confirmed: bool, outcome: Response<()>)
      modifies this
      ensures !confirmed ==> history == old(history) && error == old(error)
      ensures confirmed && outcome.Succeeded? ==> history == RemoveId(old(history), id) && error == old(error)
      ensures confirmed && outcome.Failed? ==>
        history == old(history) && error == Or(outcome.error, JsStr("Failed to delete history item"))
    {
      if confirmed {
        match outcome
        case Succeeded(_) =>
          history := RemoveId(history, id);
        case Failed(e) =>
          error := Or(e, JsStr("Failed to delete history item"));
      }
    }
  }

  /** Filtering distributes over concatenation, so the remaining items
      keep their relative order. */
  lemma {:induction false} RemoveIdAppend(a: seq<Item>, b: seq<Item>, id: string)
    ensures RemoveId(a + b, id) == RemoveId(a, id) + RemoveId(b, id)
  {
    if a == [] {
      assert a + b == b;
    } else {
      assert (a + b)[1..] == a[1..] + b;
      RemoveIdAppend(a[1..], b, id);
    }
  }

  /** Exactly the items with that id are removed: the others are all kept
      and nothing else is added. */
  lemma {:induction false} RemoveIdMembers(items: seq<Item>, id: string, x: Item)
    ensures x in RemoveId(items, id) <==> x in items && x.id != id
  {
    if items != [] {
      RemoveIdMembers(items[1..], id, x);
      assert items == [items[0]] + items[1..];
    }
  }

  /** A list without that id is left exactly as it was. */
  lemma {:induction false} RemoveIdAbsent(items: seq<Item>, id: string)
    requires forall k :: 0 <= k < |items| ==> items[k].id != id
    ensures RemoveId(items, id) == items
  {
    if items != [] {
      RemoveIdAbsent(items[1..], id);
    }
  }

  /** Deleting the same id twice removes nothing more. */
  lemma RemoveIdIdempotent(items: seq<Item>, id: string)
    ensures RemoveId(RemoveId(items, id), id) == RemoveId(items, id)
  {
    RemoveIdAbsent(RemoveId(items, id), id);
  }
}
