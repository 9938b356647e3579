/** The records the five list screens show, reduced to the fields the screens read, and the
    searchable fields each screen lower-cases and compares against the search term. */
module Records {
  import opened Text
  import opened Filtering

  /** The user nested in a purchase order or an invoice. */
  datatype UserRef = UserRef(name: string, email: string)

  /** A purchase order; `fileUrl` is "" when the order has no file (null in the API). */
  datatype PurchaseOrder = PurchaseOrder(id: int, description: string, status: string, fileUrl: string, user: UserRef)

  datatype Invoice = Invoice(id: int, status: string, user: UserRef)

  datatype User = User(id: int, name: string, email: string, status: string)

  /** `commission_percentage` arrives from the API as a decimal string. */
  datatype Commission = Commission(id: int, purchaseOrderId: int, commissionPercentage: string)

  datatype Provider = Provider(id: int, name: string, contactEmail: string)

  /** Purchase orders: description, status, user name and user e-mail, each lower-cased. */
  function OrderHaystacks(o: PurchaseOrder): (r: seq<string>)
    ensures |r| == 4 && forall i :: 0 <= i < |r| ==> NoUpper(r[i])
    ensures |r[0]| == |o.description| && |r[1]| == |o.status|
    ensures |r[2]| == |o.user.name| && |r[3]| == |o.user.email|
  {
    LowerHasNoUpper(o.description); LowerHasNoUpper(o.status);
    LowerHasNoUpper(o.user.name); LowerHasNoUpper(o.user.email);
    [Lower(o.description), Lower(o.status), Lower(o.user.name), Lower(o.user.email)]
  }

  /** Users: name and e-mail, lower-cased. */
  function UserHaystacks(u: User): (r: seq<string>)
    ensures |r| == 2 && forall i :: 0 <= i < |r| ==> NoUpper(r[i])
    ensures |r[0]| == |u.name| && |r[1]| == |u.email|
  {
    LowerHasNoUpper(u.name); LowerHasNoUpper(u.email);
    [Lower(u.name), Lower(u.email)]
  }

  /** Invoices: status, user name and user e-mail, lower-cased. */
  function InvoiceHaystacks(i: Invoice): (r: seq<string>)
    ensures |r| == 3 && forall k :: 0 <= k < |r| ==> NoUpper(r[k])
    ensures |r[0]| == |i.status| && |r[1]| == |i.user.name| && |r[2]| == |i.user.email|
  {
    LowerHasNoUpper(i.status); LowerHasNoUpper(i.user.name); LowerHasNoUpper(i.user.email);
    [Lower(i.status), Lower(i.user.name), Lower(i.user.email)]
  }

  /** Commissions: the purchase order id printed in decimal (not lower-cased) and the
      lower-cased percentage. */
  function CommissionHaystacks(c: Commission): (r: seq<string>)
    ensures |r| == 2 && forall i :: 0 <= i < |r| ==> NoUpper(r[i])
    ensures |r[0]| >= 1 && (r[0][0] == '-' <==> c.purchaseOrderId < 0)
    ensures var digits := if c.purchaseOrderId < 0 then r[0][1..] else r[0];
      && (forall i :: 0 <= i < |digits| ==> IsDigit(digits[i]))
      && DecimalValue(digits) == if c.purchaseOrderId < 0 then -c.purchaseOrderId else c.purchaseOrderId
    ensures |r[1]| == |c.commissionPercentage|
  {
    LowerHasNoUpper(c.commissionPercentage);
    [IntToDecimal(c.purchaseOrderId), Lower(c.commissionPercentage)]
  }

  /** Providers: name and contact e-mail, lower-cased. */
  function ProviderHaystacks(p: Provider): (r: seq<string>)
    ensures |r| == 2 && forall i :: 0 <= i < |r| ==> NoUpper(r[i])
    ensures |r[0]| == |p.name| && |r[1]| == |p.contactEmail|
  {
    LowerHasNoUpper(p.name); LowerHasNoUpper(p.contactEmail);
    [Lower(p.name), Lower(p.contactEmail)]
  }

  /** An order is kept iff the lower-cased term occurs in its lower-cased description, status,
      user name or user e-mail. */
  lemma OrderKeptIff(orders: seq<PurchaseOrder>, term: string, k: nat)
    requires k < |orders|
    ensures orders[k] in Filter(orders, term, OrderHaystacks) <==>
      var o, t := orders[k], Lower(term);
      Contains(Lower(o.description), t) || Contains(Lower(o.status), t) ||
      Contains(Lower(o.user.name), t) || Contains(Lower(o.user.email), t)
  {
    var o, t := orders[k], Lower(term);
    var h := OrderHaystacks(o);
    assert Matches(o, term, OrderHaystacks) <==>
      Contains(h[0], t) || Contains(h[1], t) || Contains(h[2], t) || Contains(h[3], t);
    KeptIffMatches(orders, term, OrderHaystacks, k);
  }

  /** A user is kept iff the lower-cased term occurs in the lower-cased name or e-mail. */
  lemma UserKeptIff(users: seq<User>, term: string, k: nat)
    requires k < |users|
    ensures users[k] in Filter(users, term, UserHaystacks) <==>
      Contains(Lower(users[k].name), Lower(term)) || Contains(Lower(users[k].email), Lower(term))
  {
    var u, t := users[k], Lower(term);
    var h := UserHaystacks(u);
    assert Matches(u, term, UserHaystacks) <==> Contains(h[0], t) || Contains(h[1], t);
    KeptIffMatches(users, term, UserHaystacks, k);
  }

  /** An invoice is kept iff the lower-cased term occurs in its lower-cased status, user name
      or user e-mail. */
  lemma InvoiceKeptIff(invoices: seq<Invoice>, term: string, k: nat)
    requires k < |invoices|
    ensures invoices[k] in Filter(invoices, term, InvoiceHaystacks) <==>
      var i, t := invoices[k], Lower(term);
      Contains(Lower(i.status), t) || Contains(Lower(i.user.name), t) || Contains(Lower(i.user.email), t)
  {
    var i, t := invoices[k], Lower(term);
    var h := InvoiceHaystacks(i);
    assert Matches(i, term, InvoiceHaystacks) <==> Contains(h[0], t) || Contains(h[1], t) || Contains(h[2], t);
    KeptIffMatches(invoices, term, InvoiceHaystacks, k);
  }

  /** A commission is kept iff the lower-cased term occurs in the decimal purchase order id or
      in the lower-cased percentage. The id string has no letters, so leaving it un-lowered
      still makes the comparison case-insensitive. */
  lemma CommissionKeptIff(commissions: seq<Commission>, term: string, k: nat)
    requires k < |commissions|
    ensures commissions[k] in Filter(commissions, term, CommissionHaystacks) <==>
      var c, t := commissions[k], Lower(term);
      Contains(IntToDecimal(c.purchaseOrderId), t) || Contains(Lower(c.commissionPercentage), t)
    ensures Lower(IntToDecimal(commissions[k].purchaseOrderId)) == IntToDecimal(commissions[k].purchaseOrderId)
  {
    var c, t := commissions[k], Lower(term);
    var h := CommissionHaystacks(c);
    assert Matches(c, term, CommissionHaystacks) <==> Contains(h[0], t) || Contains(h[1], t);
    KeptIffMatches(commissions, term, CommissionHaystacks, k);
    DecimalIsCaseless(c.purchaseOrderId);
  }

  /** A provider is kept iff the lower-cased term occurs in the lower-cased name or contact
      e-mail. */
  lemma ProviderKeptIff(providers: seq<Provider>, term: string, k: nat)
    requires k < |providers|
    ensures providers[k] in Filter(providers, term, ProviderHaystacks) <==>
      Contains(Lower(providers[k].name), Lower(term)) || Contains(Lower(providers[k].contactEmail), Lower(term))
  {
    var p, t := providers[k], Lower(term);
    var h := ProviderHaystacks(p);
    assert Matches(p, term, ProviderHaystacks) <==> Contains(h[0], t) || Contains(h[1], t);
    KeptIffMatches(providers, term, ProviderHaystacks, k);
  }

  /** With an empty search box every purchase order is listed, in order. */
  lemma OrdersEmptyTermKeepsAll(orders: seq<PurchaseOrder>)
    ensures Filter(orders, "", OrderHaystacks) == orders
  {
    FilterEmptyTermKeepsAll(orders, OrderHaystacks);
  }

  /** Searching "pend" over orders whose statuses are pending, approved and cancelled (and
      whose other fields do not contain "pend") keeps only the pending one. */
  lemma PendSearchKeepsPendingOrders(u: UserRef)
    requires !Contains(Lower(u.name), "pend") && !Contains(Lower(u.email), "pend")
    ensures
      var p := PurchaseOrder(1, "", "pending", "", u);
      var a := PurchaseOrder(2, "", "approved", "", u);
      var c := PurchaseOrder(3, "", "cancelled", "", u);
      Filter([p, a, c], "pend", OrderHaystacks) == [p]
  {
    var p := PurchaseOrder(1, "", "pending", "", u);
    var a := PurchaseOrder(2, "", "approved", "", u);
    var c := PurchaseOrder(3, "", "cancelled", "", u);
    assert NoUpper("pending") && NoUpper("approved") && NoUpper("cancelled");
    assert 'n' !in "approved" && 'p' !in "cancelled";
    StatusSearch(p, u, "pending", 'x');
    StatusSearch(a, u, "approved", 'n');
    StatusSearch(c, u, "cancelled", 'p');
    KeepsFirstOfThree(p, a, c, "pend");
  }

  lemma KeepsFirstOfThree(p: PurchaseOrder, a: PurchaseOrder, c: PurchaseOrder, term: string)
    requires Matches(p, term, OrderHaystacks)
    requires !Matches(a, term, OrderHaystacks) && !Matches(c, term, OrderHaystacks)
    ensures Filter([p, a, c], term, OrderHaystacks) == [p]
  {
    FilterSingle(p, term, OrderHaystacks);
    FilterSingle(a, term, OrderHaystacks);
    FilterSingle(c, term, OrderHaystacks);
    FilterAppend([a], [c], term, OrderHaystacks);
    assert [a] + [c] == [a, c];
    FilterAppend([p], [a, c], term, OrderHaystacks);
    assert [p] + [a, c] == [p, a, c];
  }

  /** Whether an order with an empty description and the given lower-case status matches
      "pend": it does for "pending", and it does not for a status lacking one of the letters
      of "pend" (`missing`). */
  lemma StatusSearch(o: PurchaseOrder, u: UserRef, status: string, missing: char)
    requires o.description == "" && o.status == status && o.user == u && NoUpper(status)
    requires !Contains(Lower(u.name), "pend") && !Contains(Lower(u.email), "pend")
    requires status == "pending" || (missing in "pend" && missing !in status)
    ensures Matches(o, "pend", OrderHaystacks) <==> status == "pending"
  {
    var t := Lower("pend");
    assert t == "pend";
    LowerFixesCaseless(status);
    var h := OrderHaystacks(o);
    assert h == [Lower(""), status, Lower(u.name), Lower(u.email)];
    LacksLetter("", "pend", 'p');
    if status == "pending" {
      assert StartsWith(status, "pend");
      assert Contains(h[1], t);
    } else {
      LacksLetter(status, "pend", missing);
    }
  }

  /** A string lacking one of the letters of n does not contain n. */
  lemma LacksLetter(h: string, n: string, c: char)
    requires c in n && c !in h
    ensures !Contains(h, n)
  {
    ContainsIffOccurs(h, n);
  }
}
