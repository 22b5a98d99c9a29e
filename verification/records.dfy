/** The persisted document and the records it holds. Every field of the
    document is optional because a parsed file may lack any of them. A field
    that is present has the type written here: JSON whose fields have other
    types (`"expenses": "x"`, an expense without `amount`) has no `Document`
    to stand for it. */
module Records {
  import opened Common

  datatype Settings = Settings(currency: string)

  datatype Category = Category(id: string, name: string, icon: string)

  /** `kind` is the record's `type` field ('cash' or 'card'; nothing checks it). */
  datatype PaymentMethod = PaymentMethod(id: string, name: string, icon: string, kind: string)

  /** One recorded expense. `amount` is the number the add-expense form
      parsed; `paymentMethod` is the chosen method's name; `date` is the text
      the form held (a `YYYY-MM-DD` day by default); `createdAt` is an ISO
      timestamp. */
  datatype Expense = Expense(
    id: string,
    amount: real,
    categoryId: string,
    paymentMethod: string,
    description: string,
    location: string,
    date: string,
    createdAt: string)

  /** The fields a caller hands to `addExpense`. An `id` given here wins over
      the minted one; a caller's `createdAt` would always be overwritten, so
      it is not a field. */
  datatype ExpenseFields = ExpenseFields(
    id: Option<string>,
    amount: real,
    categoryId: string,
    paymentMethod: string,
    description: string,
    location: string,
    date: string)

  /** The fields a caller hands to `addPaymentMethod`. */
  datatype PaymentMethodFields = PaymentMethodFields(id: Option<string>, name: string, icon: string, kind: string)

  datatype Document = Document(
    version: Option<string>,
    lastUpdated: Option<string>,
    settings: Option<Settings>,
    paymentMethods: Option<seq<PaymentMethod>>,
    categories: Option<seq<Category>>,
    expenses: Option<seq<Expense>>)

  /** `categories.find(c => c.id === id)`: the first category with that id. */
  function FindCategory(cats: seq<Category>, id: string): (r: Option<Category>)
    ensures r.None? <==> forall i :: 0 <= i < |cats| ==> cats[i].id != id
    ensures r.Some? ==> exists i :: 0 <= i < |cats| && cats[i] == r.value && cats[i].id == id
                                    && forall j :: 0 <= j < i ==> cats[j].id != id
    decreases |cats|
  {
    if |cats| == 0 then None
    else if cats[0].id == id then Some(cats[0])
    else
      var r := FindCategory(cats[1..], id);
      assert forall i :: 0 < i < |cats| ==> cats[i] == cats[1..][i - 1];
      r
  }

  /** The name of the category an expense's `categoryId` finds, if any: the
      key the home and reports screens total by. */
  function CategoryNameOf(cats: seq<Category>): Expense -> Option<string> {
    (e: Expense) => match FindCategory(cats, e.categoryId)
                    case None => None
                    case Some(c) => Some(c.name)
  }

  /** `expenses.reduce((s, e) => s + e.amount, 0)`: the amounts added left to right. */
  function SumAmounts(es: seq<Expense>): real
    decreases |es|
  {
    if |es| == 0 then 0.0 else SumAmounts(es[..|es| - 1]) + es[|es| - 1].amount
  }

  lemma {:induction false} SumAppend(a: seq<Expense>, b: seq<Expense>)
    ensures SumAmounts(a + b) == SumAmounts(a) + SumAmounts(b)
    decreases |b|
  {
    if |b| > 0 {
      var b' := b[..|b| - 1];
      assert (a + b)[..|a + b| - 1] == a + b';
      SumAppend(a, b');
    } else {
      assert a + b == a;
    }
  }

  lemma SumCons(e: Expense, es: seq<Expense>)
    ensures SumAmounts([e] + es) == e.amount + SumAmounts(es)
  {
    SumAppend([e], es);
    assert [e][..0] == [];
  }
}
