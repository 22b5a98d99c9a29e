/** Properties that relate several store operations: what a later load sees
    after a save, an add, or an export followed by an import. They assume
    the codec round-trips (`RoundTrips`), the one fact about
    `JSON.stringify`/`JSON.parse` the model relies on. */
module StorageLaws {
  import opened Common
  import opened Strings
  import opened Records
  import opened Storage

  /** The data file, present or not, can be read and written. */
  predicate Writable(disk: Disk, env: Env) {
    DataPath(env) !in disk.readOnly && DataPath(env) !in disk.unreadable
  }

  /** The data file exists and can be read and written. */
  predicate Healthy(disk: Disk, env: Env) {
    DataPath(env) in disk.files && Writable(disk, env)
  }

  /** On first run the default document is written, and a later load reads
      back that same document, first-run timestamp included. */
  lemma FirstRunPersistsDefault(disk: Disk, env: Env, now: Clock, later: Clock)
    requires RoundTrips(env.codec)
    requires DataPath(env) !in disk.files
    requires DataPath(env) !in disk.readOnly && DataPath(env) !in disk.unreadable
    ensures LoadData(disk, env, now).value == DefaultData(now)
    ensures Healthy(LoadData(disk, env, now).disk, env)
    ensures LoadData(LoadData(disk, env, now).disk, env, later).value == DefaultData(now)
  {
  }

  /** A data file that cannot be parsed yields a default document and is
      left on disk untouched; the next add then overwrites it with that
      default document plus the new expense, so its prior content is lost. */
  lemma CorruptFileReplacedOnAdd(disk: Disk, env: Env, now: Clock, later: Clock, fields: ExpenseFields)
    requires RoundTrips(env.codec) && Healthy(disk, env)
    requires env.codec.parse(disk.files[DataPath(env)]).None?
    ensures LoadData(disk, env, now) == Step(DefaultData(now), disk)
    ensures LoadData(AddExpense(disk, env, now, fields).disk, env, later).value
            == DefaultData(now).(expenses := Some([MintExpense(fields, now)]))
  {
    var saved := DefaultData(now).(expenses := Some([MintExpense(fields, now)]));
    assert DefaultData(now).expenses.value == [];
    assert [MintExpense(fields, now)] + [] == [MintExpense(fields, now)];
    assert AddExpense(disk, env, now, fields).disk == SaveData(disk, env, now, saved).disk;
    assert Stamped(saved, now) == saved;
  }

  /** Saving and then loading gives back the saved document with only
      `lastUpdated` replaced by the save's clock reading. */
  lemma SaveThenLoad(disk: Disk, env: Env, now: Clock, later: Clock, d: Document)
    requires RoundTrips(env.codec)
    requires DataPath(env) !in disk.readOnly && DataPath(env) !in disk.unreadable
    ensures SaveData(disk, env, now, d).value
    ensures var loaded := LoadData(SaveData(disk, env, now, d).disk, env, later).value;
            && loaded.lastUpdated == Some(now.iso)
            && loaded.(lastUpdated := d.lastUpdated) == d
  {
  }

  /** After a successful add the new record sits at index 0, each earlier
      expense has moved up one position, and the categories, payment
      methods, settings and version are as before. */
  lemma AddExpenseThenLoad(disk: Disk, env: Env, now: Clock, later: Clock, fields: ExpenseFields)
    requires RoundTrips(env.codec) && Writable(disk, env)
    requires LoadData(disk, env, now).value.expenses.Some?
    ensures var before := LoadData(disk, env, now).value;
            var added := AddExpense(disk, env, now, fields);
            var after := LoadData(added.disk, env, later).value;
            && added.value == Some(MintExpense(fields, now))
            && after.expenses.Some?
            && |after.expenses.value| == |before.expenses.value| + 1
            && after.expenses.value[0] == MintExpense(fields, now)
            && (forall i :: 0 <= i < |before.expenses.value| ==>
                  after.expenses.value[i + 1] == before.expenses.value[i])
            && after.categories == before.categories
            && after.paymentMethods == before.paymentMethods
            && after.settings == before.settings
            && after.version == before.version
            && after.lastUpdated == Some(now.iso)
  {
    var loaded := LoadData(disk, env, now);
    var e := MintExpense(fields, now);
    var d := loaded.value.(expenses := Some([e] + loaded.value.expenses.value));
    assert AddExpense(disk, env, now, fields).disk == SaveData(loaded.disk, env, now, d).disk;
    SaveThenLoad(loaded.disk, env, now, later, d);
  }

  /** After a successful add the new method is last, the earlier ones keep
      their positions, and every other field is as before. */
  lemma AddPaymentMethodThenLoad(disk: Disk, env: Env, now: Clock, later: Clock, fields: PaymentMethodFields)
    requires RoundTrips(env.codec) && Writable(disk, env)
    requires LoadData(disk, env, now).value.paymentMethods.Some?
    ensures var before := LoadData(disk, env, now).value;
            var added := AddPaymentMethod(disk, env, now, fields);
            var after := LoadData(added.disk, env, later).value;
            && added.value == Some(MintPaymentMethod(fields, now))
            && after.paymentMethods == Some(before.paymentMethods.value + [MintPaymentMethod(fields, now)])
            && after.expenses == before.expenses
            && after.categories == before.categories
            && after.settings == before.settings
            && after.version == before.version
  {
  }

  /** The first add on a fresh store: the load writes the default document,
      and the add saves it with the new record as its only expense. */
  lemma FirstAddOnFreshStore(disk: Disk, env: Env, now: Clock, later: Clock, fields: ExpenseFields)
    requires RoundTrips(env.codec) && Writable(disk, env) && DataPath(env) !in disk.files
    ensures AddExpense(disk, env, now, fields).value == Some(MintExpense(fields, now))
    ensures LoadData(AddExpense(disk, env, now, fields).disk, env, later).value.expenses == Some([MintExpense(fields, now)])
  {
    FirstRunPersistsDefault(disk, env, now, later);
    AddExpenseThenLoad(disk, env, now, later, fields);
    assert DefaultData(now).expenses == Some([]);
    var after := LoadData(AddExpense(disk, env, now, fields).disk, env, later).value;
    assert |after.expenses.value| == 1 && after.expenses.value[0] == MintExpense(fields, now);
    assert after.expenses.value == [MintExpense(fields, now)];
  }

  /** After a successful add, `getExpenses` lists the new record ahead of
      the expenses it listed before, and reads without writing. */
  lemma AddExpenseThenGet(disk: Disk, env: Env, now: Clock, later: Clock, fields: ExpenseFields)
    requires RoundTrips(env.codec) && Writable(disk, env)
    requires GetExpenses(disk, env, now).value.Some?
    ensures var added := AddExpense(disk, env, now, fields);
            var got := GetExpenses(added.disk, env, later);
            && got.value == Some([MintExpense(fields, now)] + GetExpenses(disk, env, now).value.value)
            && got.disk == added.disk
  {
    AddExpenseThenLoad(disk, env, now, later, fields);
    var before := GetExpenses(disk, env, now).value.value;
    var after := GetExpenses(AddExpense(disk, env, now, fields).disk, env, later).value.value;
    assert after == [MintExpense(fields, now)] + before;
  }

  /** After a successful add, `getPaymentMethods` lists the earlier methods
      and then the new one, and reads without writing. */
  lemma AddPaymentMethodThenGet(disk: Disk, env: Env, now: Clock, later: Clock, fields: PaymentMethodFields)
    requires RoundTrips(env.codec) && Writable(disk, env)
    requires GetPaymentMethods(disk, env, now).value.Some?
    ensures var added := AddPaymentMethod(disk, env, now, fields);
            var got := GetPaymentMethods(added.disk, env, later);
            && got.value == Some(GetPaymentMethods(disk, env, now).value.value + [MintPaymentMethod(fields, now)])
            && got.disk == added.disk
  {
    AddPaymentMethodThenLoad(disk, env, now, later, fields);
  }

  /** `addExpense` called once per element of `batch`, the i-th call reading
      `clocks[i]`; the results in call order. */
  function AddAll(disk: Disk, env: Env, clocks: seq<Clock>, batch: seq<ExpenseFields>): (r: Step<seq<Option<Expense>>>)
    requires |clocks| == |batch|
    ensures |r.value| == |batch|
    decreases |batch|
  {
    if |batch| == 0 then Step([], disk)
    else
      var first := AddExpense(disk, env, clocks[0], batch[0]);
      var rest := AddAll(first.disk, env, clocks[1..], batch[1..]);
      Step([first.value] + rest.value, rest.disk)
  }

  function Reverse<T>(xs: seq<T>): (r: seq<T>)
    ensures |r| == |xs|
    ensures forall i :: 0 <= i < |xs| ==> r[i] == xs[|xs| - 1 - i]
    decreases |xs|
  {
    if |xs| == 0 then [] else Reverse(xs[1..]) + [xs[0]]
  }

  /** The records a batch of adds mints, in call order. */
  function Minted(clocks: seq<Clock>, batch: seq<ExpenseFields>): (r: seq<Expense>)
    requires |clocks| == |batch|
    ensures |r| == |batch|
    ensures forall i :: 0 <= i < |batch| ==> r[i] == MintExpense(batch[i], clocks[i])
  {
    seq(|batch|, i requires 0 <= i < |batch| => MintExpense(batch[i], clocks[i]))
  }

  /** One add on a healthy, parseable data file: the minted record comes
      back, the file stays healthy and now parses to the document with the
      record in front. */
  lemma AddOnParsedFile(disk: Disk, env: Env, now: Clock, fields: ExpenseFields, doc: Document)
    requires RoundTrips(env.codec) && Healthy(disk, env)
    requires env.codec.parse(disk.files[DataPath(env)]) == Some(doc) && doc.expenses.Some?
    ensures var added := AddExpense(disk, env, now, fields);
            && added.value == Some(MintExpense(fields, now))
            && Healthy(added.disk, env)
            && env.codec.parse(added.disk.files[DataPath(env)])
               == Some(Stamped(doc.(expenses := Some([MintExpense(fields, now)] + doc.expenses.value)), now))
  {
  }

  lemma ReverseMintedStep(clocks: seq<Clock>, batch: seq<ExpenseFields>, prior: seq<Expense>)
    requires |clocks| == |batch| > 0
    ensures Reverse(Minted(clocks[1..], batch[1..])) + ([MintExpense(batch[0], clocks[0])] + prior)
            == Reverse(Minted(clocks, batch)) + prior
  {
    var m := MintExpense(batch[0], clocks[0]);
    assert Minted(clocks, batch) == [m] + Minted(clocks[1..], batch[1..]);
    assert Reverse(Minted(clocks, batch)) == Reverse(Minted(clocks[1..], batch[1..])) + [m];
  }

  /** A run of adds leaves the expenses newest first: the records in reverse
      call order, followed by the expenses that were there before. */
  lemma {:induction false} AddAllNewestFirst(disk: Disk, env: Env, clocks: seq<Clock>, batch: seq<ExpenseFields>, doc: Document)
    requires RoundTrips(env.codec) && Healthy(disk, env)
    requires |clocks| == |batch|
    requires env.codec.parse(disk.files[DataPath(env)]) == Some(doc) && doc.expenses.Some?
    ensures var run := AddAll(disk, env, clocks, batch);
            && Healthy(run.disk, env)
            && env.codec.parse(run.disk.files[DataPath(env)]).Some?
            && env.codec.parse(run.disk.files[DataPath(env)]).value.expenses
               == Some(Reverse(Minted(clocks, batch)) + doc.expenses.value)
    decreases |batch|
  {
    if |batch| == 0 {
      assert Reverse(Minted(clocks, batch)) + doc.expenses.value == doc.expenses.value;
    } else {
      var first := AddExpense(disk, env, clocks[0], batch[0]);
      var m := MintExpense(batch[0], clocks[0]);
      AddOnParsedFile(disk, env, clocks[0], batch[0], doc);
      var next := Stamped(doc.(expenses := Some([m] + doc.expenses.value)), clocks[0]);
      AddAllNewestFirst(first.disk, env, clocks[1..], batch[1..], next);
      ReverseMintedStep(clocks, batch, doc.expenses.value);
    }
  }

  /** Every add of such a run returns its minted record. */
  lemma {:induction false} AddAllReturnsMinted(disk: Disk, env: Env, clocks: seq<Clock>, batch: seq<ExpenseFields>, doc: Document)
    requires RoundTrips(env.codec) && Healthy(disk, env)
    requires |clocks| == |batch|
    requires env.codec.parse(disk.files[DataPath(env)]) == Some(doc) && doc.expenses.Some?
    ensures forall i :: 0 <= i < |batch| ==>
              AddAll(disk, env, clocks, batch).value[i] == Some(MintExpense(batch[i], clocks[i]))
    decreases |batch|
  {
    if |batch| > 0 {
      var first := AddExpense(disk, env, clocks[0], batch[0]);
      var m := MintExpense(batch[0], clocks[0]);
      AddOnParsedFile(disk, env, clocks[0], batch[0], doc);
      var next := Stamped(doc.(expenses := Some([m] + doc.expenses.value)), clocks[0]);
      AddAllReturnsMinted(first.disk, env, clocks[1..], batch[1..], next);
      var rest := AddAll(first.disk, env, clocks[1..], batch[1..]);
      forall i | 0 <= i < |batch|
        ensures AddAll(disk, env, clocks, batch).value[i] == Some(MintExpense(batch[i], clocks[i]))
      {
        if i > 0 {
          assert AddAll(disk, env, clocks, batch).value[i] == rest.value[i - 1];
          assert batch[1..][i - 1] == batch[i] && clocks[1..][i - 1] == clocks[i];
        }
      }
    }
  }

  /** The same run seen through `loadData`. */
  lemma AddAllThenLoad(disk: Disk, env: Env, clocks: seq<Clock>, batch: seq<ExpenseFields>, later: Clock)
    requires RoundTrips(env.codec) && Healthy(disk, env)
    requires |clocks| == |batch|
    requires LoadData(disk, env, later).value.expenses.Some?
    requires env.codec.parse(disk.files[DataPath(env)]).Some?
    ensures forall i :: 0 <= i < |batch| ==>
              AddAll(disk, env, clocks, batch).value[i] == Some(MintExpense(batch[i], clocks[i]))
    ensures LoadData(AddAll(disk, env, clocks, batch).disk, env, later).value.expenses
            == Some(Reverse(Minted(clocks, batch)) + LoadData(disk, env, later).value.expenses.value)
  {
    AddAllNewestFirst(disk, env, clocks, batch, env.codec.parse(disk.files[DataPath(env)]).value);
    AddAllReturnsMinted(disk, env, clocks, batch, env.codec.parse(disk.files[DataPath(env)]).value);
  }

  /** Exporting a backup and importing that file restores the document seen
      at export time, with `lastUpdated` set by the import's save. */
  lemma ExportThenImport(disk: Disk, env: Env, t1: Clock, t2: Clock, t3: Clock)
    requires RoundTrips(env.codec)
    requires DataPath(env) !in disk.readOnly && DataPath(env) !in disk.unreadable
    requires BackupPath(env, t1) !in disk.readOnly && BackupPath(env, t1) !in disk.unreadable
    ensures var snapshot := LoadData(disk, env, t1).value;
            var exported := ExportBackup(disk, env, t1);
            && exported.value == Some(BackupPath(env, t1))
            && var imported := ImportBackup(exported.disk, env, t2, BackupPath(env, t1));
               && imported.value
               && LoadData(imported.disk, env, t3).value == Stamped(snapshot, t2)
  {
    BackupIsNotDataFile(env, t1);
  }
}
