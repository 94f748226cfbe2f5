/** The orders page script (`012static_js_orders.js`): its status lookups,
    the fallback image and amount, the update-button rule, the date-range
    field, and the bulk actions over the ticked orders. */
module OrdersUi {
  import opened Text
  import opened Numbers
  import opened Js
  import opened Query
  import opened Wrappers
  import SP = SearchParams
  import Py
  import Models
  import Utils

  // ---------------------------------------------------------------------------
  // Lookups

  const IconTable: map<string, string> :=
    map["pending" := "clock", "processing" := "cogs", "completed" := "check-circle",
        "cancelled" := "times-circle", "delivered" := "truck"]

  const BadgeTable: map<string, string> :=
    map["pending" := "bg-warning", "processing" := "bg-info", "completed" := "bg-success",
        "cancelled" := "bg-danger", "delivered" := "bg-primary"]

  lemma {:induction false} TablesWellFormed()
    ensures forall k :: k in IconTable ==> IsWord(k) && IconTable[k] != ""
    ensures forall k :: k in BadgeTable ==> IsWord(k) && BadgeTable[k] != ""
  {
    assert "pending"[0] == 'p' && "processing"[0] == 'p' && "completed"[0] == 'c';
  }

  /** `getStatusIcon(status)`. */
  function StatusIcon(status: JsValue): (r: Property)
    ensures status.Str? && status.s in IconTable ==> r == Own(IconTable[status.s])
    ensures r.Inherited? <==> status.Str? && status.s !in IconTable && IsPrototypeMember(status.s)
    ensures r.Own? ==> r.text == "question-circle" || r.text in IconTable.Values
  {
    TablesWellFormed();
    Lookup(IconTable, status, "question-circle")
  }

  /** `getStatusBadgeClass(status)`. */
  function StatusBadgeClass(status: JsValue): (r: Property)
    ensures status == Str("delivered") ==> r == Own("bg-primary")
    ensures status.Str? && status.s in BadgeTable ==> r == Own(BadgeTable[status.s])
    ensures r.Inherited? <==> status.Str? && status.s !in BadgeTable && IsPrototypeMember(status.s)
    ensures r.Own? ==> r.text == "bg-secondary" || r.text in BadgeTable.Values
  {
    TablesWellFormed();
    Lookup(BadgeTable, status, "bg-secondary")
  }

  /** The page shows the same icon as the server for every status text
      that is not an Object.prototype member name. */
  lemma {:induction false} IconAgreesWithServer(status: string)
    requires !IsPrototypeMember(status)
    ensures StatusIcon(Str(status)) == Own(Models.OrderStatusIcon(Models.OrderOf(map["status" := Py.PyStr(status)])))
  {
  }

  /** The page's badge is the server's with a `bg-` prefix for four
      statuses; a delivered order is primary on the page but success on the
      server. */
  lemma {:induction false} BadgeAgainstServer(status: string)
    requires status in BadgeTable && status != "delivered"
    ensures StatusBadgeClass(Str(status)) == Own("bg-" + Utils.StatusBadgeClass(Py.PyStr(status)))
    ensures StatusBadgeClass(Str("delivered")) == Own("bg-primary")
    ensures Utils.StatusBadgeClass(Py.PyStr("delivered")) == "success"
  {
  }

  /** `getDefaultImage(itemType)`. */
  function DefaultImage(itemType: JsValue): (url: string)
    ensures url == Models.SampleService <==> itemType == Str("service")
    ensures url == Models.SampleService || url == Models.SampleFood
  {
    if itemType == Str("service") then Models.SampleService else Models.SampleFood
  }

  /** The page's fallback image is the one the server's item model uses. */
  lemma {:induction false} DefaultImageAgreesWithServer(itemType: string)
    ensures DefaultImage(Str(itemType)) == Models.SampleImage(Py.PyStr(itemType))
  {
  }

  /** `formatCurrency(amount)`; `localeText` is `toLocaleString('en-IN')`
      with two fraction digits, which is not part of this model. */
  function FormatCurrency(amount: JsValue, localeText: Number -> string): (s: string)
    ensures amount.Undefined? || amount.Null? ==> s == Utils.FormatCurrency(None)
    ensures !(amount.Undefined? || amount.Null?) ==> s == Utils.Rupee + localeText(ParseFloatValue(amount))
  {
    if amount.Undefined? || amount.Null? then "\U{20B9}0.00"
    else "\U{20B9}" + localeText(ParseFloatValue(amount))
  }

  /** The "Update Status" button of the order details: hidden for the two
      final statuses, and so, among the statuses of the icon table, shown
      exactly for the three that can still change. */
  function ShowUpdateButton(status: JsValue): (shown: bool)
    ensures shown <==> status != Str("cancelled") && status != Str("delivered")
    ensures status.Str? && status.s in IconTable ==> (shown <==> status.s in {"pending", "processing", "completed"})
  {
    !(status == Str("cancelled")) && !(status == Str("delivered"))
  }

  // ---------------------------------------------------------------------------
  // The date-range field

  /** A range the picker writes as `start to end` splits into its two
      dates when neither holds a space. */
  lemma {:induction false} RangeSplits(start: string, end: string)
    requires Free(start, ' ') && Free(end, ' ')
    ensures Split(start + " to " + end, " to ") == [start, end]
  {
    assert FirstAt(" to ", 0, ' ');
    SplitJoin([start, end], " to ", 0, ' ');
    assert Join([start, end], " to ") == start + " to " + Join([end], " to ");
  }

  /** A single date, without a space, does not split. */
  lemma {:induction false} SingleDateDoesNotSplit(date: string)
    requires Free(date, ' ')
    ensures Split(date, " to ") == [date]
  {
    assert FirstAt(" to ", 0, ' ');
    SplitFree(date, " to ", 0, ' ');
  }

  // ---------------------------------------------------------------------------
  // Bulk actions

  datatype Checkbox = Checkbox(checked: bool, value: string)

  /** A request the page sends to the server. */
  datatype Request = DeleteOrders(ids: seq<string>) | BulkStatus(ids: seq<string>, status: string)

  /** The values of the ticked boxes, in page order. */
  function CheckedValues(boxes: seq<Checkbox>): (r: seq<string>)
    ensures |r| <= |boxes|
  {
    if boxes == [] then []
    else CheckedValues(boxes[..|boxes| - 1]) + (if boxes[|boxes| - 1].checked then [boxes[|boxes| - 1].value] else [])
  }

  /** Every ticked box's value is selected, and every selected value is a
      ticked box's. */
  lemma {:induction false} CheckedValuesExact(boxes: seq<Checkbox>)
    ensures forall i :: 0 <= i < |boxes| && boxes[i].checked ==> boxes[i].value in CheckedValues(boxes)
    ensures forall v :: v in CheckedValues(boxes) ==> exists i :: 0 <= i < |boxes| && boxes[i].checked && boxes[i].value == v
    decreases |boxes|
  {
    if boxes != [] {
      var init := boxes[..|boxes| - 1];
      CheckedValuesExact(init);
      forall i | 0 <= i < |init|
        ensures init[i] == boxes[i]
      {
      }
    }
  }

  const ExportOrdersBase: string := "/orders/export?"

  /** The export query: `export=csv`, then the ids joined by commas. */
  function ExportOrdersParams(ids: seq<string>): seq<Param>
  {
    [Param("export", "csv"), Param("ids", Join(ids, ","))]
  }

  /** The export query built with `URLSearchParams`. */
  method ExportQuery(ids: seq<string>) returns (query: seq<Param>)
    ensures query == ExportOrdersParams(ids)
  {
    var params := new SP.SearchParams([]);
    params.Set("export", "csv");
    SP.SetTwoOnEmpty("export", "csv", "ids", Join(ids, ","));
    params.Set("ids", Join(ids, ","));
    query := params.list;
  }

  /** `exportSelectedOrders(orderIds)`: the address of the export window. */
  method ExportSelectedOrders(ids: seq<string>) returns (url: string)
    ensures url == ExportOrdersBase + SP.Serialize(ExportOrdersParams(ids))
  {
    var query := ExportQuery(ids);
    url := ExportOrdersBase + SP.Serialize(query);
  }

  /** The server reads the export query back into the ids the page sent,
      when the ids are non-empty and hold no comma. */
  lemma {:induction false} ExportReadsBack(ids: seq<string>)
    requires |ids| >= 1 && forall i :: 0 <= i < |ids| ==> Free(ids[i], ',')
    ensures var q := SP.Serialize(ExportOrdersParams(ids));
            SP.Decoded(ParseQuery(q)) == Some(ExportOrdersParams(ids))
            && Split(ExportOrdersParams(ids)[1].value, ",") == ids
  {
    SP.SerializeReadsBack(ExportOrdersParams(ids));
    assert FirstAt(",", 0, ',');
    SplitJoin(ids, ",", 0, ',');
  }

  /** The requests a bulk action sends: a delete only once confirmed,
      nothing for an export, and otherwise a status change to the action's
      value. */
  function BulkRequests(action: string, selected: seq<string>, confirmed: bool): (r: seq<Request>)
    ensures |r| <= 1
    ensures r != [] <==> (action == "delete" ==> confirmed) && action != "export"
    ensures r != [] ==> r[0].ids == selected
    ensures action == "delete" && confirmed ==> r == [DeleteOrders(selected)]
    ensures r != [] && action != "delete" ==> r == [BulkStatus(selected, action)]
    ensures r != [] ==> (r[0].DeleteOrders? <==> action == "delete")
  {
    if action == "delete" then (if confirmed then [DeleteOrders(selected)] else [])
    else if action == "export" then []
    else [BulkStatus(selected, action)]
  }

  /** The windows a bulk action opens, each given by its query: the export
      window, for an export. */
  function BulkWindows(action: string, selected: seq<string>): (r: seq<seq<Param>>)
    ensures r != [] <==> action == "export"
    ensures r != [] ==> r == [ExportOrdersParams(selected)]
  {
    if action == "export" then [ExportOrdersParams(selected)] else []
  }

  /** The orders page: the bulk-action select, the order checkboxes, the
      date fields, and what the page has sent and shown so far, with the
      query of each export window it opened (at `ExportOrdersBase`). */
  class OrdersPage {
    var bulkAction: string
    var checkboxes: array<Checkbox>
    var startDate: string
    var endDate: string
    var requests: seq<Request>
    var warnings: seq<string>
    var windows: seq<seq<Param>>

    constructor (boxes: array<Checkbox>)
      ensures checkboxes == boxes && bulkAction == "" && requests == [] && warnings == [] && windows == []
    {
      checkboxes := boxes;
      bulkAction := "";
      startDate := "";
      endDate := "";
      requests := [];
      warnings := [];
      windows := [];
    }

    /** `getSelectedOrders()`: the values of the ticked boxes, pushed in
        page order. */
    method GetSelectedOrders() returns (selected: seq<string>)
      ensures selected == CheckedValues(checkboxes[..])
    {
      selected := [];
      var i := 0;
      while i < checkboxes.Length
        invariant 0 <= i <= checkboxes.Length
        invariant selected == CheckedValues(checkboxes[..i])
      {
        assert checkboxes[..i + 1][..i] == checkboxes[..i];
        if checkboxes[i].checked {
          selected := selected + [checkboxes[i].value];
        }
        i := i + 1;
      }
      assert checkboxes[..i] == checkboxes[..];
    }

    /** `handleBulkAction()`. `confirmed` is the user's answer to the
        delete confirmation. */
    method HandleBulkAction(confirmed: bool)
      modifies this
      ensures checkboxes == old(checkboxes) && startDate == old(startDate) && endDate == old(endDate)
      ensures var action, selected := old(bulkAction), CheckedValues(checkboxes[..]);
              if action == "" then
                unchanged(this)
              else if selected == [] then
                warnings == old(warnings) + ["Please select at least one order"]
                && bulkAction == action && requests == old(requests) && windows == old(windows)
              else
                bulkAction == "" && warnings == old(warnings)
                && requests == old(requests) + BulkRequests(action, selected, confirmed)
                && windows == old(windows) + BulkWindows(action, selected)
    {
      var action := bulkAction;
      if action == "" {
        return;
      }
      var selected := GetSelectedOrders();
      if |selected| == 0 {
        warnings := warnings + ["Please select at least one order"];
        return;
      }
      Dispatch(action, selected, confirmed);
      bulkAction := "";
    }

    /** The action taken on a non-empty selection. */
    method Dispatch(action: string, selected: seq<string>, confirmed: bool)
      modifies this
      ensures requests == old(requests) + BulkRequests(action, selected, confirmed)
      ensures windows == old(windows) + BulkWindows(action, selected)
      ensures bulkAction == old(bulkAction) && checkboxes == old(checkboxes) && warnings == old(warnings)
      ensures startDate == old(startDate) && endDate == old(endDate)
    {
      if action == "export" {
        var query := ExportQuery(selected);
        windows := windows + [query];
      }
      requests := requests + BulkRequests(action, selected, confirmed);
    }

    /** The date-range picker's change handler: both dates are written only
        when the text splits on " to " into exactly two parts. */
    method OnRangeChange(dateStr: string)
      modifies this
      ensures var dates := Split(dateStr, " to ");
              if |dates| == 2 then startDate == dates[0] && endDate == dates[1]
              else startDate == old(startDate) && endDate == old(endDate)
      ensures bulkAction == old(bulkAction) && checkboxes == old(checkboxes) && requests == old(requests)
      ensures warnings == old(warnings) && windows == old(windows)
    {
      var dates := Split(dateStr, " to ");
      if |dates| == 2 {
        startDate := dates[0];
        endDate := dates[1];
      }
    }
  }
}
