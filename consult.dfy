/** The invoice listing component: its view state, the handlers that update
    it in sequence, and the completions of its two awaited API calls, which
    arrive here as method parameters. */
module ConsultView {

  import opened Outcomes
  import opened Invoices
  import opened Report

  /** The fields of the shared application context that the listing writes:
      the confirmation modal flag, the month the chart shows, and the
      category totals per month. The provider that creates them is not part
      of this model; the listing receives them as they are. */
  class AppContext {
    var modal: bool
    var currentMonth: string
    var invoiceDataByMonth: map<string, map<string, int>>
  }

  /** The year every month query is made in. */
  const QueryYear := "2024"

  /** The effect's guard and the query key: a fetch is made only for a
      selected month, and its key is "2024-" followed by the month value. */
  function QueryKey(month: string): (key: Option<string>)
    ensures key.Some? <==> month != ""
    ensures key.Some? ==> |key.value| == |month| + 5 && key.value[..5] == "2024-" && key.value[5..] == month
  {
    if month != "" then Some(QueryYear + "-" + month) else None
  }

  const FetchErrorText := "Error al consultar facturas. Por favor, inténtelo de nuevo más tarde."
  const DeleteErrorText := "Error al eliminar factura. Por favor, inténtelo de nuevo más tarde."
  const DeleteSuccessText := "Factura eliminada exitosamente."

  /** The arguments of `deleteInvoice`. */
  datatype DeleteRequest = DeleteRequest(invoiceId: string, fileKey: string)

  /** `invoiceToDelete && fileKeyToDelete`: both staged values are set and
      non-empty (JavaScript treats the empty string as false). */
  predicate Staged(id: Option<string>, fileKey: Option<string>): (r: bool)
    ensures r ==> id.Some? && fileKey.Some?
    ensures id == Some("") || fileKey == Some("") ==> !r
  {
    id.Some? && id.value != "" && fileKey.Some? && fileKey.value != ""
  }

  /** A month fetch in flight: the effect that starts it closes over the
      month and the selected category of the render it runs after, and its
      completion uses those, whatever the state is by then. */
  datatype PendingFetch = PendingFetch(key: string, month: string, category: string)

  /** A deletion in flight: the `confirmDelete` that was clicked closes over
      the staged values and the visible list of its render; its completion
      filters that list. */
  datatype PendingDelete = PendingDelete(request: DeleteRequest, visible: seq<Invoice>)

  class InvoiceConsult {
    var month: string
    var selectedCategory: string
    var invoices: seq<Invoice>
    var filteredInvoices: seq<Invoice>
    var totalAmount: int
    var invoiceToDelete: Option<string>
    var fileKeyToDelete: Option<string>
    const context: AppContext

    /** The view's invariant, kept by every handler and every completion:
        the displayed total is the sum over the visible list. */
    ghost predicate Valid()
      reads this
    {
      totalAmount == Total(filteredInvoices)
    }

    /** The view agrees with its selectors: every visible invoice belongs to
        the month list, and with a category selected every visible invoice
        is in that category. A category change always restores it; a
        completion whose closure saw other values can break it. */
    ghost predicate Consistent()
      reads this
    {
      && Valid()
      && (forall i | 0 <= i < |filteredInvoices| :: filteredInvoices[i] in invoices)
      && (selectedCategory != "" ==>
            forall i | 0 <= i < |filteredInvoices| :: filteredInvoices[i].category == selectedCategory)
    }

    constructor (context: AppContext)
      ensures Consistent()
      ensures this.context == context
      ensures month == "" && selectedCategory == ""
      ensures invoices == [] && filteredInvoices == [] && totalAmount == 0
      ensures invoiceToDelete == None && fileKeyToDelete == None
    {
      month := "";
      selectedCategory := "";
      invoices := [];
      filteredInvoices := [];
      totalAmount := 0;
      invoiceToDelete := None;
      fileKeyToDelete := None;
      this.context := context;
    }

    /** `setFilteredInvoices` followed by the total effect: the total is
        recomputed whenever the visible list changes. */
    method SetFilteredInvoices(xs: seq<Invoice>)
      modifies this`filteredInvoices, this`totalAmount
      ensures filteredInvoices == xs && totalAmount == Total(xs)
    {
      filteredInvoices := xs;
      var total := 0;
      for i := 0 to |xs|
        invariant total == Total(xs[..i])
      {
        assert xs[..i + 1][..i] == xs[..i];
        total := total + xs[i].value;
      }
      assert xs[..|xs|] == xs;
      totalAmount := total;
    }

    /** `handleMonthChange` and the month effect: the month is stored, and
        when the value changed to a selected month the effect starts a fetch
        that closes over that month and the category selected now. */
    method HandleMonthChange(selected: string) returns (fetch: Option<PendingFetch>)
      requires Valid()
      modifies this`month
      ensures Valid() && (old(Consistent()) ==> Consistent())
      ensures month == selected
      ensures fetch.Some? <==> selected != old(month) && selected != ""
      ensures fetch.Some? ==> fetch.value == PendingFetch(QueryKey(selected).value, selected, selectedCategory)
    {
      var changed := selected != month;
      month := selected;
      var key := QueryKey(month);
      if changed && key.Some? {
        fetch := Some(PendingFetch(key.value, month, selectedCategory));
      } else {
        fetch := None;
      }
    }

    /** The completion of `getInvoices` for a fetch. On success the month
        list is the sorted transform of the records, the visible list is that
        list filtered with the category the fetch closed over, and the
        month's category totals are pushed to the context under the month
        the fetch closed over. On failure the lists are kept and the failure
        is reported. The view stays consistent when the category did not
        change while the fetch was in flight. */
    method CompleteFetch(fetch: PendingFetch, response: Response<seq<RawInvoice>>) returns (reaction: Option<Reaction>)
      requires Valid()
      modifies this`invoices, this`filteredInvoices, this`totalAmount, context
      ensures Valid()
      ensures month == old(month) && selectedCategory == old(selectedCategory)
      ensures invoiceToDelete == old(invoiceToDelete) && fileKeyToDelete == old(fileKeyToDelete)
      ensures context.modal == old(context.modal)
      ensures response.Ok? ==>
        && invoices == PrepareMonth(response.value)
        && filteredInvoices == FilterByCategory(invoices, fetch.category)
        && context.invoiceDataByMonth == old(context.invoiceDataByMonth)[fetch.month := CategoryTotals(invoices)]
        && context.currentMonth == fetch.month
        && reaction == None
        && (fetch.category == selectedCategory ==> Consistent())
      ensures response.Err? ==>
        && invoices == old(invoices)
        && filteredInvoices == old(filteredInvoices)
        && totalAmount == old(totalAmount)
        && context.invoiceDataByMonth == old(context.invoiceDataByMonth)
        && context.currentMonth == old(context.currentMonth)
        && reaction == Some(FailureReaction(response.error, FetchErrorText))
        && (old(Consistent()) ==> Consistent())
    {
      match response
      case Ok(records) =>
        StoreMonth(fetch, PrepareMonth(records));
        reaction := None;
      case Err(e) =>
        reaction := Some(FailureReaction(e, FetchErrorText));
    }

    /** The success path of the fetch completion, given the sorted month list. */
    method StoreMonth(fetch: PendingFetch, sorted: seq<Invoice>)
      requires Valid()
      modifies this`invoices, this`filteredInvoices, this`totalAmount, context`invoiceDataByMonth, context`currentMonth
      ensures Valid()
      ensures invoices == sorted
      ensures filteredInvoices == FilterByCategory(sorted, fetch.category)
      ensures context.invoiceDataByMonth == old(context.invoiceDataByMonth)[fetch.month := CategoryTotals(sorted)]
      ensures context.currentMonth == fetch.month
      ensures fetch.category == selectedCategory ==> Consistent()
    {
      invoices := sorted;
      FilterStaysInList(sorted, fetch.category);
      SetFilteredInvoices(FilterByCategory(sorted, fetch.category));
      context.invoiceDataByMonth := context.invoiceDataByMonth[fetch.month := CategoryTotals(sorted)];
      context.currentMonth := fetch.month;
    }

    /** `handleCategoryChange`: the visible list is always refiltered from
        the full month list, not from the current visible list. */
    method HandleCategoryChange(category: string)
      requires Valid()
      modifies this`selectedCategory, this`filteredInvoices, this`totalAmount
      ensures Consistent()
      ensures selectedCategory == category
      ensures filteredInvoices == FilterByCategory(invoices, category)
    {
      selectedCategory := category;
      FilterStaysInList(invoices, category);
      SetFilteredInvoices(FilterByCategory(invoices, category));
    }

    /** `handleDelete`: stage the id and the file key and open the modal. */
    method HandleDelete(id: string, fileKey: string)
      requires Valid()
      modifies this`invoiceToDelete, this`fileKeyToDelete, context`modal
      ensures Valid() && (old(Consistent()) ==> Consistent())
      ensures invoiceToDelete == Some(id) && fileKeyToDelete == Some(fileKey)
      ensures context.modal
    {
      invoiceToDelete := Some(id);
      fileKeyToDelete := Some(fileKey);
      context.modal := true;
    }

    /** The "Volver" button: it only closes the modal; the staged values stay. */
    method CancelDelete()
      requires Valid()
      modifies context`modal
      ensures Valid() && (old(Consistent()) ==> Consistent())
      ensures !context.modal
    {
      context.modal := false;
    }

    /** The click on "Eliminar" (`confirmDelete` up to its `await`). Nothing
        happens unless both staged values are set. Otherwise the modal
        closes and the delete request is made, closing over the staged
        values and the visible list as they are now. */
    method ConfirmDelete() returns (pending: Option<PendingDelete>)
      requires Valid()
      modifies context`modal
      ensures Valid() && (old(Consistent()) ==> Consistent())
      ensures pending.Some? <==> Staged(invoiceToDelete, fileKeyToDelete)
      ensures pending.Some? ==>
        && pending.value == PendingDelete(DeleteRequest(invoiceToDelete.value, fileKeyToDelete.value), filteredInvoices)
        && !context.modal
      ensures pending.None? ==> context.modal == old(context.modal)
    {
      if !Staged(invoiceToDelete, fileKeyToDelete) {
        pending := None;
        return;
      }
      context.modal := false;
      pending := Some(PendingDelete(DeleteRequest(invoiceToDelete.value, fileKeyToDelete.value), filteredInvoices));
    }

    /** The completion of `deleteInvoice` (`confirmDelete` after its
        `await`). On success the visible list becomes the list the click
        closed over without the invoices with the deleted id (the month list
        keeps them); on failure the failure is reported. Either way the
        staged values are cleared. When nothing changed the visible list
        while the request was in flight, the view stays consistent. */
    method CompleteDelete(pending: PendingDelete, response: Response<()>) returns (reaction: Reaction)
      requires Valid()
      modifies this`filteredInvoices, this`totalAmount, this`invoiceToDelete, this`fileKeyToDelete
      ensures Valid()
      ensures invoiceToDelete == None && fileKeyToDelete == None
      ensures response.Ok? ==>
        && filteredInvoices == WithoutId(pending.visible, pending.request.invoiceId)
        && reaction == Reaction(SuccessToast(DeleteSuccessText), None)
      ensures response.Err? ==>
        && filteredInvoices == old(filteredInvoices) && totalAmount == old(totalAmount)
        && reaction == FailureReaction(response.error, DeleteErrorText)
      ensures old(Consistent()) && pending.visible == old(filteredInvoices) ==> Consistent()
    {
      ghost var before := filteredInvoices;
      match response {
        case Ok(_) =>
          var kept := WithoutId(pending.visible, pending.request.invoiceId);
          RemovalStaysInList(pending.visible, pending.request.invoiceId);
          SetFilteredInvoices(kept);
          if old(Consistent()) && pending.visible == before {
            forall i | 0 <= i < |kept|
              ensures kept[i] in invoices
              ensures selectedCategory != "" ==> kept[i].category == selectedCategory
            {
              var j :| 0 <= j < |before| && before[j] == kept[i];
            }
          }
          reaction := Reaction(SuccessToast(DeleteSuccessText), None);
        case Err(e) =>
          reaction := FailureReaction(e, DeleteErrorText);
      }
      invoiceToDelete := None;
      fileKeyToDelete := None;
    }

    /** `generateReport`; the button is disabled while the visible list is
        empty. */
    method GenerateReport() returns (ops: seq<DrawOp>)
      requires Valid() && filteredInvoices != []
      ensures ops == ReportPlan(month, selectedCategory, filteredInvoices, totalAmount)
    {
      ops := RenderReport(month, selectedCategory, filteredInvoices, totalAmount);
    }
  }

  /** A deletion followed by a category change: the deleted invoice is gone
      from the visible list after the deletion, yet every invoice with the
      deleted id that the month list holds in the chosen category is visible
      again after the category change, because refiltering starts from the
      month list, which the deletion never touched. */
  method DeleteThenChangeCategory(view: InvoiceConsult, response: Response<()>, category: string)
    requires view.Valid() && response.Ok?
    requires Staged(view.invoiceToDelete, view.fileKeyToDelete)
    modifies view, view.context
    ensures view.Consistent()
    ensures forall inv | inv in old(view.invoices) && inv.id == old(view.invoiceToDelete).value
                         && (category == "" || inv.category == category) ::
              inv in view.filteredInvoices
  {
    var pending := view.ConfirmDelete();
    var _ := view.CompleteDelete(pending.value, response);
    view.HandleCategoryChange(category);
    FilterKeepsCategory(view.invoices, category);
  }

  /** A category change while a month fetch is in flight: the completion
      filters the new month list with the category the fetch closed over,
      not the one now selected. With "all categories" selected when the
      month changed, the whole month is listed under the category just
      chosen. */
  method ChangeCategoryDuringFetch(view: InvoiceConsult, selected: string, category: string,
                                   response: Response<seq<RawInvoice>>)
    requires view.Valid() && selected != view.month && selected != "" && response.Ok?
    modifies view, view.context
    ensures view.Valid()
    ensures view.month == selected && view.selectedCategory == category
    ensures view.invoices == PrepareMonth(response.value)
    ensures view.filteredInvoices == FilterByCategory(view.invoices, old(view.selectedCategory))
    ensures old(view.selectedCategory) == "" ==> view.filteredInvoices == view.invoices
  {
    var fetch := view.HandleMonthChange(selected);
    view.HandleCategoryChange(category);
    var _ := view.CompleteFetch(fetch.value, response);
  }

  /** Filtering takes invoices from the list only, and only of the category. */
  lemma FilterStaysInList(xs: seq<Invoice>, category: string)
    ensures forall i | 0 <= i < |FilterByCategory(xs, category)| :: FilterByCategory(xs, category)[i] in xs
  {
    var r := FilterByCategory(xs, category);
    if category != "" {
      OfCategoryCounts(xs, category);
      forall i | 0 <= i < |r| ensures r[i] in xs {
        assert r[i] in multiset(r);
      }
    }
  }

  /** Filtering keeps every invoice of the category, and every invoice for
      the empty category. */
  lemma FilterKeepsCategory(xs: seq<Invoice>, category: string)
    ensures forall inv | inv in xs && (category == "" || inv.category == category) ::
              inv in FilterByCategory(xs, category)
  {
    if category != "" {
      OfCategoryCounts(xs, category);
      forall inv | inv in xs && inv.category == category
        ensures inv in FilterByCategory(xs, category)
      {
        assert multiset(FilterByCategory(xs, category))[inv] == multiset(xs)[inv] > 0;
      }
    }
  }

  /** Removal takes invoices from the list only. */
  lemma RemovalStaysInList(xs: seq<Invoice>, id: string)
    ensures forall i | 0 <= i < |WithoutId(xs, id)| :: WithoutId(xs, id)[i] in xs
  {
    var r := WithoutId(xs, id);
    WithoutIdCounts(xs, id);
    forall i | 0 <= i < |r| ensures r[i] in xs {
      assert r[i] in multiset(r);
    }
  }
}
