/** The local checks the list screens run before sending a request, and how they read the
    response that comes back. JavaScript truthiness is spelled out: a form field is falsy only
    when empty (so "0" passes), a numeric id only when 0, a file or provider only when absent. */
module Forms {
  import opened Records

  datatype Option<T> = None | Some(value: T)

  /** The response a handler awaited: an HTTP status, or a request that failed outright. */
  datatype Response = Status(code: int) | NetworkError

  /** `response.ok`: a 2xx status. */
  predicate IsOk(r: Response)
    ensures IsOk(r) <==> r.Status? && r.code / 100 == 2
  {
    r.Status? && 200 <= r.code <= 299
  }

  /** The body of an update-amount request and the record it addresses. */
  datatype AmountUpdate = AmountUpdate(id: int, amount: string)

  /** The update-amount form of the purchase order and invoice screens:
      `amount = field.value || null`, submitted only when both the amount and the selected id
      are truthy. */
  function AmountSubmission(amountField: string, id: int): (r: Option<AmountUpdate>)
    ensures r.Some? <==> amountField != "" && id != 0
    ensures r.Some? ==> r.value.id == id && r.value.amount == amountField
  {
    if amountField != "" && id != 0 then Some(AmountUpdate(id, amountField)) else None
  }

  /** Nothing is sent while no record is selected (the selected id starts at 0), and an amount
      of "0" is sent, since a non-empty string is truthy. */
  lemma AmountSubmissionEdges(amountField: string, id: int)
    ensures AmountSubmission(amountField, 0) == None
    ensures AmountSubmission("", id) == None
    ensures id != 0 ==> AmountSubmission("0", id) == Some(AmountUpdate(id, "0"))
  {
  }

  /** What send-to-provider posts: the provider's e-mail, the order id and its file URL. */
  datatype ProviderDispatch = ProviderDispatch(email: string, orderId: int, fileUrl: string)

  /** The send-to-provider form: submitted only when a provider is selected and the order id
      and file URL are truthy; the provider's contact e-mail is what is sent. */
  function ProviderSubmission(provider: Option<Provider>, orderId: int, fileUrl: string): (r: Option<ProviderDispatch>)
    ensures r.Some? <==> provider.Some? && orderId != 0 && fileUrl != ""
    ensures r.Some? ==> r.value == ProviderDispatch(provider.value.contactEmail, orderId, fileUrl)
  {
    if provider.Some? && orderId != 0 && fileUrl != "" then
      Some(ProviderDispatch(provider.value.contactEmail, orderId, fileUrl))
    else None
  }

  /** The provider drop-down: `providers.find(p => p.id === parseInt(value))`, the first
      provider with that id, or none (also for the placeholder, whose value is not a number). */
  function FindProvider(ps: seq<Provider>, id: Option<int>): (r: Option<Provider>)
    ensures r.None? <==> id.None? || forall k :: 0 <= k < |ps| ==> ps[k].id != id.value
    ensures r.Some? ==> exists k :: 0 <= k < |ps| && ps[k] == r.value && r.value.id == id.value &&
                                    forall j :: 0 <= j < k ==> ps[j].id != id.value
  {
    if id.None? || ps == [] then None
    else if ps[0].id == id.value then Some(ps[0])
    else
      var r := FindProvider(ps[1..], id);
      if r.Some? then
        var k :| 0 <= k < |ps[1..]| && ps[1..][k] == r.value && r.value.id == id.value &&
                 forall j :: 0 <= j < k ==> ps[1..][j].id != id.value;
        assert ps[k + 1] == r.value;
        r
      else r
  }

  /** The multipart form that creates a purchase order for a user. */
  datatype OrderForm = OrderForm(userId: int, file: string, description: string, amount: string)

  /** Creating a purchase order from the users screen: both the form and the handler stop when
      the file or the user id is missing; an empty amount is sent as 0. */
  function CreateOrderSubmission(file: Option<string>, userId: int, description: string, amountField: string): (r: Option<OrderForm>)
    ensures r.Some? <==> file.Some? && userId != 0
    ensures r.Some? ==> r.value.userId == userId && r.value.file == file.value && r.value.description == description
    ensures r.Some? ==> r.value.amount != "" && (amountField != "" ==> r.value.amount == amountField)
    ensures r.Some? && amountField == "" ==> r.value.amount == "0"
  {
    if file.None? || userId == 0 then None
    else Some(OrderForm(userId, file.value, description, if amountField != "" then amountField else "0"))
  }

  /** How the activate and deactivate handlers read the response: success, a 404 for an
      unknown user, or any other failure. */
  datatype ToggleOutcome = Toggled | UserNotFound | ToggleFailed

  function ClassifyToggle(r: Response): (o: ToggleOutcome)
    ensures o == Toggled <==> IsOk(r)
    ensures o == UserNotFound <==> r == Status(404)
  {
    if IsOk(r) then Toggled else if r.Status? && r.code == 404 then UserNotFound else ToggleFailed
  }
}
