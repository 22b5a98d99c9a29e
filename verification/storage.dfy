/** The local JSON document store of src/utils/storage.js as a state machine
    over an abstract disk. Every operation takes the disk, the platform
    environment and one clock reading, and returns its result together with
    the disk afterwards. Exceptions raised by the file system or by
    `JSON.parse` are caught at each operation's boundary exactly as in the
    source. */
module Storage {
  import opened Common
  import opened Strings
  import opened Records

  type Path = string

  /** The file system as the store sees it: file contents by path, paths
      whose `writeFile` throws, and paths whose `readFile` throws. */
  datatype Disk = Disk(files: map<Path, string>, readOnly: set<Path>, unreadable: set<Path>)

  /** One reading of the wall clock: `Date.now()` and `new Date().toISOString()`. */
  datatype Clock = Clock(millis: nat, iso: string)

  /** JSON text handling: compact `JSON.stringify`, pretty-printed
      `JSON.stringify(_, null, 2)`, and `JSON.parse` (`None` when the text
      does not parse, or parses to JSON no `Document` stands for). */
  datatype Codec = Codec(
    serialize: Document -> string,
    pretty: Document -> string,
    parse: string -> Option<Document>)

  /** `RNFS.DocumentDirectoryPath`, `RNFS.DownloadDirectoryPath` and the codec. */
  datatype Env = Env(documentDir: string, downloadDir: string, codec: Codec)

  /** The result of an operation and the disk it leaves behind. */
  datatype Step<+T> = Step(value: T, disk: Disk)

  /** Parsing what was serialized gives the document back, in either layout. */
  ghost predicate RoundTrips(c: Codec) {
    && (forall d :: c.parse(c.serialize(d)) == Some(d))
    && (forall d :: c.parse(c.pretty(d)) == Some(d))
  }

  function DataPath(env: Env): Path {
    env.documentDir + "/expense_data.json"
  }

  function BackupPath(env: Env, now: Clock): Path {
    env.downloadDir + "/expense_backup_" + Decimal(now.millis) + ".json"
  }

  /** A backup never lands on the primary data file: the character six from
      the end is a digit in a backup path and 'a' in the data path. */
  lemma BackupIsNotDataFile(env: Env, now: Clock)
    ensures BackupPath(env, now) != DataPath(env)
  {
    var b, d, n := BackupPath(env, now), DataPath(env), Decimal(now.millis);
    assert b[|b| - 6] == n[|n| - 1];
    assert d[|d| - 6] == 'a';
  }

  /** `RNFS.writeFile`: `None` when the write throws. */
  function WriteFile(disk: Disk, path: Path, text: string): (r: Option<Disk>)
    ensures r.None? <==> path in disk.readOnly
    ensures r.Some? ==> r.value.files == disk.files[path := text]
    ensures r.Some? ==> r.value.readOnly == disk.readOnly && r.value.unreadable == disk.unreadable
  {
    if path in disk.readOnly then None else Some(disk.(files := disk.files[path := text]))
  }

  /** `RNFS.readFile`: `None` when the read throws, which includes a missing file. */
  function ReadFile(disk: Disk, path: Path): (r: Option<string>)
    ensures r.Some? <==> path in disk.files && path !in disk.unreadable
    ensures r.Some? ==> r.value == disk.files[path]
  {
    if path in disk.files && path !in disk.unreadable then Some(disk.files[path]) else None
  }

  const DefaultCategories: seq<Category> := [
    Category("1", "Healthcare", "\U{1F3E5}"),
    Category("2", "Food", "\U{1F355}"),
    Category("3", "Grocery", "\U{1F6D2}"),
    Category("4", "Shopping", "\U{1F6CD}\U{FE0F}"),
    Category("5", "Transport", "\U{1F697}"),
    Category("6", "Bills", "\U{1F4A1}"),
    Category("7", "Entertainment", "\U{1F3AC}")
  ]

  const CashMethod: PaymentMethod := PaymentMethod("cash", "Cash", "\U{1F4B5}", "cash")

  /** `getDefaultData`: the first-run document, stamped with the clock. */
  function DefaultData(now: Clock): (d: Document)
    ensures d.categories.Some? && |d.categories.value| == 7
    ensures forall i :: 0 <= i < 7 ==> d.categories.value[i].id == Decimal(i + 1)
    ensures d.paymentMethods == Some([CashMethod]) && CashMethod.id == "cash" && CashMethod.kind == "cash"
    ensures d.expenses == Some([])
    ensures d.settings == Some(Settings("\U{20B9}"))
    ensures d.version == Some("1.0") && d.lastUpdated == Some(now.iso)
  {
    Document(
      version := Some("1.0"),
      lastUpdated := Some(now.iso),
      settings := Some(Settings("\U{20B9}")),
      paymentMethods := Some([CashMethod]),
      categories := Some(DefaultCategories),
      expenses := Some([]))
  }

  /** `loadData`. A missing data file is created with the default document
      (if that write throws, a default document is still returned). An
      existing file is parsed; if reading or parsing throws, a default
      document is returned and the file is left as it was. */
  function LoadData(disk: Disk, env: Env, now: Clock): (r: Step<Document>)
    ensures r.disk.readOnly == disk.readOnly && r.disk.unreadable == disk.unreadable
    ensures r.disk.files - {DataPath(env)} == disk.files - {DataPath(env)}
    ensures DataPath(env) in disk.files ==> r.disk == disk
    ensures DataPath(env) !in disk.files ==> r.value == DefaultData(now)
    ensures DataPath(env) !in disk.files && DataPath(env) !in disk.readOnly ==>
              r.disk.files == disk.files[DataPath(env) := env.codec.serialize(r.value)]
    ensures DataPath(env) !in disk.files && DataPath(env) in disk.readOnly ==> r.disk == disk
    ensures ReadFile(disk, DataPath(env)).Some? ==>
              r.value == env.codec.parse(disk.files[DataPath(env)]).GetOr(DefaultData(now))
    ensures DataPath(env) in disk.unreadable ==> r.value == DefaultData(now)
  {
    var path := DataPath(env);
    if path !in disk.files then
      var d := DefaultData(now);
      match WriteFile(disk, path, env.codec.serialize(d))
      case Some(written) => Step(d, written)
      case None => Step(DefaultData(now), disk)
    else
      match ReadFile(disk, path)
      case None => Step(DefaultData(now), disk)
      case Some(text) =>
        match env.codec.parse(text)
        case None => Step(DefaultData(now), disk)
        case Some(d) => Step(d, disk)
  }

  /** The document `saveData` writes: `{...data, lastUpdated: now}`. */
  function Stamped(d: Document, now: Clock): (s: Document)
    ensures s.lastUpdated == Some(now.iso)
    ensures s.(lastUpdated := d.lastUpdated) == d
  {
    d.(lastUpdated := Some(now.iso))
  }

  /** `saveData`: writes the stamped document over the data file and reports
      true, or reports false and leaves the disk alone when the write throws. */
  function SaveData(disk: Disk, env: Env, now: Clock, d: Document): (r: Step<bool>)
    ensures r.value <==> DataPath(env) !in disk.readOnly
    ensures r.value ==> r.disk == disk.(files := disk.files[DataPath(env) := env.codec.serialize(Stamped(d, now))])
    ensures !r.value ==> r.disk == disk
  {
    match WriteFile(disk, DataPath(env), env.codec.serialize(Stamped(d, now)))
    case Some(written) => Step(true, written)
    case None => Step(false, disk)
  }

  /** `{ id: 'exp_' + Date.now(), ...fields, createdAt: now }`. */
  function MintExpense(fields: ExpenseFields, now: Clock): (e: Expense)
    ensures e.id == (if fields.id.Some? then fields.id.value else "exp_" + Decimal(now.millis))
    ensures e.createdAt == now.iso
    ensures ExpenseFields(fields.id, e.amount, e.categoryId, e.paymentMethod, e.description, e.location, e.date) == fields
  {
    Expense(
      id := if fields.id.Some? then fields.id.value else "exp_" + Decimal(now.millis),
      amount := fields.amount,
      categoryId := fields.categoryId,
      paymentMethod := fields.paymentMethod,
      description := fields.description,
      location := fields.location,
      date := fields.date,
      createdAt := now.iso)
  }

  /** `addExpense`: loads, puts the minted record in front of the expenses,
      saves, and returns the record whatever the save reported. It returns
      `None` (the source's null) only when the loaded document has no
      expense list, because `unshift` then throws. */
  function AddExpense(disk: Disk, env: Env, now: Clock, fields: ExpenseFields): (r: Step<Option<Expense>>)
    ensures r.value.None? <==> LoadData(disk, env, now).value.expenses.None?
    ensures r.value.Some? ==> r.value.value == MintExpense(fields, now)
    ensures r.value.None? ==> r.disk == LoadData(disk, env, now).disk
    ensures DataPath(env) in disk.readOnly ==> r.disk == disk
    ensures r.disk.files - {DataPath(env)} == disk.files - {DataPath(env)}
  {
    var loaded := LoadData(disk, env, now);
    match loaded.value.expenses
    case None => Step(None, loaded.disk)
    case Some(es) =>
      var e := MintExpense(fields, now);
      var saved := SaveData(loaded.disk, env, now, loaded.value.(expenses := Some([e] + es)));
      Step(Some(e), saved.disk)
  }

  /** `getExpenses`: the loaded document's expense list (`None` when it has none). */
  function GetExpenses(disk: Disk, env: Env, now: Clock): (r: Step<Option<seq<Expense>>>)
    ensures r.value == LoadData(disk, env, now).value.expenses
    ensures r.disk == LoadData(disk, env, now).disk
    ensures DataPath(env) !in disk.files ==> r.value == Some([])
    ensures DataPath(env) in disk.files ==> r.disk == disk
  {
    var loaded := LoadData(disk, env, now);
    Step(loaded.value.expenses, loaded.disk)
  }

  /** `{ id: 'pm_' + Date.now(), ...fields }`. */
  function MintPaymentMethod(fields: PaymentMethodFields, now: Clock): (m: PaymentMethod)
    ensures m.id == (if fields.id.Some? then fields.id.value else "pm_" + Decimal(now.millis))
    ensures PaymentMethodFields(fields.id, m.name, m.icon, m.kind) == fields
  {
    PaymentMethod(
      id := if fields.id.Some? then fields.id.value else "pm_" + Decimal(now.millis),
      name := fields.name,
      icon := fields.icon,
      kind := fields.kind)
  }

  /** `addPaymentMethod`: like `addExpense`, but appends to the payment methods. */
  function AddPaymentMethod(disk: Disk, env: Env, now: Clock, fields: PaymentMethodFields): (r: Step<Option<PaymentMethod>>)
    ensures r.value.None? <==> LoadData(disk, env, now).value.paymentMethods.None?
    ensures r.value.Some? ==> r.value.value == MintPaymentMethod(fields, now)
    ensures r.value.None? ==> r.disk == LoadData(disk, env, now).disk
    ensures DataPath(env) in disk.readOnly ==> r.disk == disk
    ensures r.disk.files - {DataPath(env)} == disk.files - {DataPath(env)}
  {
    var loaded := LoadData(disk, env, now);
    match loaded.value.paymentMethods
    case None => Step(None, loaded.disk)
    case Some(ms) =>
      var m := MintPaymentMethod(fields, now);
      var saved := SaveData(loaded.disk, env, now, loaded.value.(paymentMethods := Some(ms + [m])));
      Step(Some(m), saved.disk)
  }

  /** `getPaymentMethods`: the loaded document's payment methods. */
  function GetPaymentMethods(disk: Disk, env: Env, now: Clock): (r: Step<Option<seq<PaymentMethod>>>)
    ensures r.value == LoadData(disk, env, now).value.paymentMethods
    ensures r.disk == LoadData(disk, env, now).disk
    ensures DataPath(env) !in disk.files ==> r.value == Some([CashMethod])
    ensures DataPath(env) in disk.files ==> r.disk == disk
  {
    var loaded := LoadData(disk, env, now);
    Step(loaded.value.paymentMethods, loaded.disk)
  }

  /** `exportBackup`: writes the loaded document, pretty-printed, to a
      time-stamped file in the download directory and returns its path, or
      `None` when that write throws. */
  function ExportBackup(disk: Disk, env: Env, now: Clock): (r: Step<Option<Path>>)
    ensures r.value.Some? <==> BackupPath(env, now) !in disk.readOnly
    ensures r.value.Some? ==> r.value.value == BackupPath(env, now)
                              && BackupPath(env, now) in r.disk.files
                              && r.disk.files[BackupPath(env, now)] == env.codec.pretty(LoadData(disk, env, now).value)
    ensures DataPath(env) in r.disk.files <==> DataPath(env) in LoadData(disk, env, now).disk.files
    ensures DataPath(env) in r.disk.files ==>
              r.disk.files[DataPath(env)] == LoadData(disk, env, now).disk.files[DataPath(env)]
    ensures forall p :: p != BackupPath(env, now) ==>
              (p in r.disk.files <==> p in LoadData(disk, env, now).disk.files)
    ensures forall p :: p != BackupPath(env, now) && p in r.disk.files ==>
              r.disk.files[p] == LoadData(disk, env, now).disk.files[p]
  {
    var loaded := LoadData(disk, env, now);
    var path := BackupPath(env, now);
    BackupIsNotDataFile(env, now);
    match WriteFile(loaded.disk, path, env.codec.pretty(loaded.value))
    case None => Step(None, loaded.disk)
    case Some(written) => Step(Some(path), written)
  }

  /** `importBackup`: reads and parses the file at `path` and saves it as the
      whole document. A read or parse failure reports false and touches
      nothing; otherwise it reports true whatever the save reported. */
  function ImportBackup(disk: Disk, env: Env, now: Clock, path: Path): (r: Step<bool>)
    ensures r.value <==> ReadFile(disk, path).Some? && env.codec.parse(disk.files[path]).Some?
    ensures !r.value ==> r.disk == disk
    ensures r.value ==> r.disk == SaveData(disk, env, now, env.codec.parse(disk.files[path]).value).disk
  {
    match ReadFile(disk, path)
    case None => Step(false, disk)
    case Some(text) =>
      match env.codec.parse(text)
      case None => Step(false, disk)
      case Some(d) => Step(true, SaveData(disk, env, now, d).disk)
  }
}
