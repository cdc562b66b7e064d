/** The customer list screen (`src/components/CustomerManager.js`): a local
    list edited through a form. Submitting either merges the form into the
    customer being edited or appends a new customer; deleting asks for
    confirmation first. `Date.now()` is the `freshId` argument and the answer
    to `window.confirm` the `confirmed` argument. */
module CustomerManager {
  import opened Common

  datatype Customer = Customer(
    id: int, name: string, phone: string, email: string,
    points: int, discount: real, history: seq<string>)

  datatype CustomerForm = CustomerForm(name: string, phone: string, email: string)

  const BlankCustomerForm := CustomerForm("", "", "")

  /** The component's state; `editingId` is `null` outside edit mode. */
  datatype CustomerScreen = CustomerScreen(
    customers: seq<Customer>, form: CustomerForm, editingId: Option<int>, selected: Option<Customer>)

  predicate UniqueCustomerIds(cs: seq<Customer>) {
    forall i, j :: 0 <= i < j < |cs| ==> cs[i].id != cs[j].id
  }

  function CustomerIds(cs: seq<Customer>): set<int> {
    set c | c in cs :: c.id
  }

  /** `{ ...c, ...form }`. */
  function MergeForm(c: Customer, form: CustomerForm): Customer {
    c.(name := form.name, phone := form.phone, email := form.email)
  }

  function ApplyForm(cs: seq<Customer>, id: int, form: CustomerForm): (r: seq<Customer>)
    ensures |r| == |cs|
    ensures forall i :: 0 <= i < |r| ==> r[i] == if cs[i].id == id then MergeForm(cs[i], form) else cs[i]
  {
    seq(|cs|, i requires 0 <= i < |cs| => if cs[i].id == id then MergeForm(cs[i], form) else cs[i])
  }

  function NotCustomer(id: int): Customer -> bool {
    (c: Customer) => c.id != id
  }

  /** `handleSubmit`: with a (truthy) `editingId` the form is merged into that
      customer; otherwise a customer with no points, no discount and no history
      is appended. Either way the form is cleared and edit mode ends. */
  function SubmitCustomer(s: CustomerScreen, freshId: int): (r: CustomerScreen)
    ensures r.form == BlankCustomerForm && r.editingId.None? && r.selected == s.selected
  {
    var customers :=
      if TruthyInt(s.editingId) then ApplyForm(s.customers, s.editingId.value, s.form)
      else s.customers + [Customer(freshId, s.form.name, s.form.phone, s.form.email, 0, 0.0, [])];
    CustomerScreen(customers, BlankCustomerForm, None, s.selected)
  }

  /** `handleEdit`: load the customer into the form and enter edit mode. */
  function EditCustomer(s: CustomerScreen, c: Customer): (r: CustomerScreen)
    ensures r.form == CustomerForm(c.name, c.phone, c.email) && r.editingId == Some(c.id)
    ensures r.customers == s.customers && r.selected == s.selected
  {
    s.(form := CustomerForm(c.name, c.phone, c.email), editingId := Some(c.id))
  }

  /** `handleDelete`: when confirmed, drop the customers with that id and clear
      the selection if it is one of them. */
  function DeleteCustomer(s: CustomerScreen, id: int, confirmed: bool): (r: CustomerScreen)
    ensures !confirmed ==> r == s
    ensures confirmed ==> forall c :: c in r.customers <==> c in s.customers && c.id != id
    ensures confirmed ==> Subsequence(r.customers, s.customers)
    ensures confirmed ==>
      r.selected == if s.selected.Some? && s.selected.value.id == id then None else s.selected
    ensures r.form == s.form && r.editingId == s.editingId
  {
    if !confirmed then s
    else
      var selected := if s.selected.Some? && s.selected.value.id == id then None else s.selected;
      FilterSubsequence(s.customers, NotCustomer(id));
      s.(customers := Filter(s.customers, NotCustomer(id)), selected := selected)
  }

  /** Edit mode rewrites name, phone and email of the edited customer only and
      keeps its points, discount and history. */
  lemma SubmitEditFacts(s: CustomerScreen, freshId: int)
    requires TruthyInt(s.editingId)
    ensures var r := SubmitCustomer(s, freshId);
      && |r.customers| == |s.customers|
      && forall i :: 0 <= i < |r.customers| ==>
           var (c, d) := (s.customers[i], r.customers[i]);
           && d.id == c.id && d.points == c.points && d.discount == c.discount && d.history == c.history
           && (c.id == s.editingId.value ==> d.name == s.form.name && d.phone == s.form.phone && d.email == s.form.email)
           && (c.id != s.editingId.value ==> d == c)
  {
  }

  /** Add mode appends exactly one customer, starting from nothing, and keeps
      ids unique when the fresh id is new. */
  lemma SubmitAddFacts(s: CustomerScreen, freshId: int)
    requires !TruthyInt(s.editingId)
    ensures var r := SubmitCustomer(s, freshId);
      && r.customers[..|s.customers|] == s.customers
      && r.customers == s.customers + [Customer(freshId, s.form.name, s.form.phone, s.form.email, 0, 0.0, [])]
      && (UniqueCustomerIds(s.customers) && freshId !in CustomerIds(s.customers) ==> UniqueCustomerIds(r.customers))
  {
    var r := SubmitCustomer(s, freshId);
    if UniqueCustomerIds(s.customers) && freshId !in CustomerIds(s.customers) {
      forall i | 0 <= i < |s.customers| ensures s.customers[i].id != freshId {
        assert s.customers[i] in s.customers;
      }
    }
  }

  /** Editing a listed customer and submitting the form untouched leaves the
      list as it was. */
  lemma EditSubmitRoundTrip(s: CustomerScreen, c: Customer, freshId: int)
    requires c in s.customers && UniqueCustomerIds(s.customers) && c.id != 0
    ensures SubmitCustomer(EditCustomer(s, c), freshId).customers == s.customers
  {
    var e := EditCustomer(s, c);
    var r := SubmitCustomer(e, freshId);
    forall i | 0 <= i < |s.customers| ensures r.customers[i] == s.customers[i] {
      if s.customers[i].id == c.id {
        var k :| 0 <= k < |s.customers| && s.customers[k] == c;
        assert k == i;
      }
    }
  }

  /** Deleting the customer just added under a new id restores the list. */
  lemma AddDeleteRoundTrip(s: CustomerScreen, freshId: int)
    requires !TruthyInt(s.editingId) && freshId !in CustomerIds(s.customers)
    ensures DeleteCustomer(SubmitCustomer(s, freshId), freshId, true).customers == s.customers
  {
    var added := SubmitCustomer(s, freshId).customers;
    assert forall c :: c in s.customers ==> c.id != freshId;
    FilterDropsOne(added, NotCustomer(freshId), |s.customers|);
    assert added[..|s.customers|] + added[|s.customers| + 1..] == s.customers;
  }

  /** A confirmed delete keeps the other customers in their order. */
  lemma DeleteKeepsOrder(s: CustomerScreen, id: int, i: nat)
    requires UniqueCustomerIds(s.customers) && i < |s.customers| && s.customers[i].id == id
    ensures DeleteCustomer(s, id, true).customers == s.customers[..i] + s.customers[i + 1..]
  {
    FilterDropsOne(s.customers, NotCustomer(id), i);
  }
}
