/** The three list screens that also change records: purchase orders, users and invoices.
    Each holds a list controller plus the modal and waiting flags its handlers set. A handler's
    request is not modelled; its response, and the list that the following refetch returns,
    are parameters. The commission and provider screens are a bare ListController built with
    CommissionHaystacks or ProviderHaystacks. */
module Screens {
  import opened Filtering
  import opened Records
  import opened Forms
  import opened ListView

  class PurchaseOrderScreen {
    const list: ListController<PurchaseOrder>
    var providers: seq<Provider>
    var selectedPurchaseOrderId: int
    var selectedPurchaseOrderFile: string
    var selectedProvider: Option<Provider>
    var isModalOpen: bool
    var isProviderModalOpen: bool
    var waitingResponse: bool

    ghost predicate Valid()
      reads this, list
    {
      list.Valid() && list.Settled() && list.haystacks == OrderHaystacks
    }

    constructor ()
      ensures Valid() && fresh(list)
      ensures list.collection == [] && list.searchTerm == "" && list.currentPage == 1
      ensures providers == [] && selectedPurchaseOrderId == 0 && selectedPurchaseOrderFile == ""
      ensures selectedProvider == None && !isModalOpen && !isProviderModalOpen && !waitingResponse
    {
      list := new ListController(OrderHaystacks);
      providers, selectedPurchaseOrderId, selectedPurchaseOrderFile := [], 0, "";
      selectedProvider := None;
      isModalOpen, isProviderModalOpen, waitingResponse := false, false, false;
    }

    /** The provider list for the send-to-provider drop-down: replaced on success, kept on
        failure. */
    method FetchProviders(r: FetchResult<Provider>)
      modifies this`providers
      ensures providers == if r.Fetched? then r.data else old(providers)
    {
      if r.Fetched? {
        providers := r.data;
      }
    }

    /** The shared tail of approving and cancelling an order: on a 2xx response the orders are
        fetched again; otherwise the list is left as it was. */
    method CompleteStatusChange(response: Response, refetch: FetchResult<PurchaseOrder>)
      requires Valid()
      modifies list
      ensures Valid()
      ensures IsOk(response) && refetch.Fetched? ==>
        list.collection == refetch.data && list.filtered == Filter(refetch.data, list.searchTerm, OrderHaystacks) &&
        list.currentPage == 1
      ensures !IsOk(response) || refetch.FetchFailed? ==> unchanged(list)
      ensures list.searchTerm == old(list.searchTerm)
    {
      if IsOk(response) {
        list.Refresh(refetch);
      }
    }

    /** The pencil button's handler (the button itself is commented out on this screen). */
    method OpenUpdateModal(id: int)
      modifies this`selectedPurchaseOrderId, this`isModalOpen
      ensures selectedPurchaseOrderId == id && isModalOpen
    {
      selectedPurchaseOrderId := id;
      isModalOpen := true;
    }

    /** Submitting the update-amount form: nothing is sent unless the amount and the selected
        id are truthy; once sent, a 2xx response closes the form, clears the waiting flag and
        refetches, and any other outcome leaves the waiting flag set. */
    method SubmitAmountForm(amountField: string, response: Response, refetch: FetchResult<PurchaseOrder>)
      returns (sent: Option<AmountUpdate>)
      requires Valid() && isModalOpen
      modifies this`isModalOpen, this`waitingResponse, list
      ensures Valid()
      ensures sent == AmountSubmission(amountField, selectedPurchaseOrderId)
      ensures sent.None? ==> isModalOpen && waitingResponse == old(waitingResponse) && unchanged(list)
      ensures sent.Some? ==> isModalOpen == !IsOk(response) && waitingResponse == !IsOk(response)
      ensures sent.Some? && IsOk(response) && refetch.Fetched? ==>
        list.collection == refetch.data && list.filtered == Filter(refetch.data, list.searchTerm, OrderHaystacks) &&
        list.currentPage == 1
      ensures sent.None? || !IsOk(response) || refetch.FetchFailed? ==> unchanged(list)
    {
      sent := AmountSubmission(amountField, selectedPurchaseOrderId);
      if sent.Some? {
        waitingResponse := true;
        if IsOk(response) {
          isModalOpen := false;
          waitingResponse := false;
          list.Refresh(refetch);
        }
      }
    }

    /** The send-to-provider button: remembers the order and its file and opens the form. */
    method OpenProviderModal(id: int, fileUrl: string)
      modifies this`selectedPurchaseOrderId, this`selectedPurchaseOrderFile, this`isProviderModalOpen
      ensures selectedPurchaseOrderId == id && selectedPurchaseOrderFile == fileUrl && isProviderModalOpen
    {
      selectedPurchaseOrderId, selectedPurchaseOrderFile := id, fileUrl;
      isProviderModalOpen := true;
    }

    /** The provider drop-down's onChange: the first fetched provider with the chosen id, or
        none. */
    method ChooseProvider(choice: Option<int>)
      modifies this`selectedProvider
      ensures selectedProvider == FindProvider(providers, choice)
    {
      selectedProvider := FindProvider(providers, choice);
    }

    /** Submitting the send-to-provider form: nothing is sent unless a provider is chosen and
        the order id and file are truthy; once sent, the form closes at once, and a 2xx
        response clears the waiting flag and refetches the orders. */
    method SubmitProviderForm(response: Response, refetch: FetchResult<PurchaseOrder>)
      returns (sent: Option<ProviderDispatch>)
      requires Valid() && isProviderModalOpen
      modifies this`isProviderModalOpen, this`waitingResponse, list
      ensures Valid()
      ensures sent == ProviderSubmission(selectedProvider, selectedPurchaseOrderId, selectedPurchaseOrderFile)
      ensures sent.None? ==> isProviderModalOpen && waitingResponse == old(waitingResponse) && unchanged(list)
      ensures sent.Some? ==> !isProviderModalOpen && waitingResponse == !IsOk(response)
      ensures sent.Some? && IsOk(response) && refetch.Fetched? ==>
        list.collection == refetch.data && list.filtered == Filter(refetch.data, list.searchTerm, OrderHaystacks) &&
        list.currentPage == 1
      ensures sent.None? || !IsOk(response) || refetch.FetchFailed? ==> unchanged(list)
    {
      sent := ProviderSubmission(selectedProvider, selectedPurchaseOrderId, selectedPurchaseOrderFile);
      if sent.Some? {
        waitingResponse := true;
        isProviderModalOpen := false;
        if IsOk(response) {
          waitingResponse := false;
          list.Refresh(refetch);
        }
      }
    }
  }

  class UserScreen {
    const list: ListController<User>
    var isModalOpen: bool
    var selectedUserId: int
    var isSuccess: bool
    var waitingResponse: bool

    ghost predicate Valid()
      reads this, list
    {
      list.Valid() && list.Settled() && list.haystacks == UserHaystacks
    }

    constructor ()
      ensures Valid() && fresh(list)
      ensures list.collection == [] && list.searchTerm == "" && list.currentPage == 1
      ensures !isModalOpen && selectedUserId == 0 && !isSuccess && !waitingResponse
    {
      list := new ListController(UserHaystacks);
      isModalOpen, selectedUserId, isSuccess, waitingResponse := false, 0, false, false;
    }

    /** The create-order button of an active user: remembers the user and opens the form. */
    method OpenCreateOrderModal(userId: int)
      modifies this`selectedUserId, this`isModalOpen
      ensures selectedUserId == userId && isModalOpen
    {
      selectedUserId := userId;
      isModalOpen := true;
    }

    /** Submitting the create-order form (shown while the modal is open and no success is
        displayed; its button is disabled while waiting): nothing is sent without a file and a
        user id; once sent, a 2xx response shows the success state and clears the waiting flag,
        any other outcome leaves the waiting flag set. The user list is not refetched. */
    method SubmitCreateOrderForm(file: Option<string>, description: string, amountField: string, response: Response)
      returns (sent: Option<OrderForm>)
      requires Valid() && isModalOpen && !isSuccess && !waitingResponse
      modifies this`isSuccess, this`waitingResponse
      ensures Valid() && isModalOpen
      ensures sent == CreateOrderSubmission(file, selectedUserId, description, amountField)
      ensures sent.None? ==> !isSuccess && !waitingResponse
      ensures sent.Some? ==> isSuccess == IsOk(response) && waitingResponse == !IsOk(response)
    {
      sent := CreateOrderSubmission(file, selectedUserId, description, amountField);
      if sent.Some? {
        waitingResponse := true;
        if IsOk(response) {
          isSuccess := true;
          waitingResponse := false;
        }
      }
    }

    /** The shared body of activating and deactivating a user: the list is refetched only on a
        2xx response; a 404 and every other failure leave it unchanged. */
    method ToggleUserStatus(response: Response, refetch: FetchResult<User>) returns (outcome: ToggleOutcome)
      requires Valid()
      modifies list
      ensures Valid()
      ensures outcome == ClassifyToggle(response)
      ensures outcome == Toggled && refetch.Fetched? ==>
        list.collection == refetch.data && list.filtered == Filter(refetch.data, list.searchTerm, UserHaystacks) &&
        list.currentPage == 1
      ensures outcome != Toggled || refetch.FetchFailed? ==> unchanged(list)
    {
      outcome := ClassifyToggle(response);
      if outcome == Toggled {
        list.Refresh(refetch);
      }
    }
  }

  class InvoiceScreen {
    const list: ListController<Invoice>
    var selectedInvoiceId: int
    var isModalOpen: bool

    ghost predicate Valid()
      reads this, list
    {
      list.Valid() && list.Settled() && list.haystacks == InvoiceHaystacks
    }

    constructor ()
      ensures Valid() && fresh(list)
      ensures list.collection == [] && list.searchTerm == "" && list.currentPage == 1
      ensures selectedInvoiceId == 0 && !isModalOpen
    {
      list := new ListController(InvoiceHaystacks);
      selectedInvoiceId, isModalOpen := 0, false;
    }

    /** The shared tail of approving and cancelling an invoice: refetch on a 2xx response. */
    method CompleteStatusChange(response: Response, refetch: FetchResult<Invoice>)
      requires Valid()
      modifies list
      ensures Valid()
      ensures IsOk(response) && refetch.Fetched? ==>
        list.collection == refetch.data && list.filtered == Filter(refetch.data, list.searchTerm, InvoiceHaystacks) &&
        list.currentPage == 1
      ensures !IsOk(response) || refetch.FetchFailed? ==> unchanged(list)
    {
      if IsOk(response) {
        list.Refresh(refetch);
      }
    }

    /** The pencil button, offered on every invoice. */
    method OpenUpdateModal(id: int)
      modifies this`selectedInvoiceId, this`isModalOpen
      ensures selectedInvoiceId == id && isModalOpen
    {
      selectedInvoiceId := id;
      isModalOpen := true;
    }

    /** Submitting the update-amount form: nothing is sent unless the amount and the selected
        invoice id are truthy; a 2xx response closes the form and refetches. */
    method SubmitAmountForm(amountField: string, response: Response, refetch: FetchResult<Invoice>)
      returns (sent: Option<AmountUpdate>)
      requires Valid() && isModalOpen
      modifies this`isModalOpen, list
      ensures Valid()
      ensures sent == AmountSubmission(amountField, selectedInvoiceId)
      ensures isModalOpen == !(sent.Some? && IsOk(response))
      ensures sent.Some? && IsOk(response) && refetch.Fetched? ==>
        list.collection == refetch.data && list.filtered == Filter(refetch.data, list.searchTerm, InvoiceHaystacks) &&
        list.currentPage == 1
      ensures sent.None? || !IsOk(response) || refetch.FetchFailed? ==> unchanged(list)
    {
      sent := AmountSubmission(amountField, selectedInvoiceId);
      if sent.Some? && IsOk(response) {
        isModalOpen := false;
        list.Refresh(refetch);
      }
    }
  }
}
