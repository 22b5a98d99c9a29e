/** The payment-methods screen: the list it shows, the add form's
    visibility and its name field, and the add action. */
module PaymentMethodsForm {
  import opened Common
  import opened Strings
  import opened Records
  import opened Storage
  import opened StorageLaws

  /** `methods` is what the last load returned (`None` when the document
      had no list). */
  datatype Screen = Screen(methods: Option<seq<PaymentMethod>>, showAddForm: bool, newName: string)

  datatype Alert = EnterName | Added | AddFailed

  datatype AddOutcome = AddOutcome(screen: Screen, disk: Disk, alert: Alert)

  const CardIcon: string := "\U{1F4B3}"

  /** The header button shows or hides the form and keeps the typed name. */
  function ToggleForm(s: Screen): (r: Screen)
    ensures r.showAddForm != s.showAddForm
    ensures r.(showAddForm := s.showAddForm) == s
  {
    s.(showAddForm := !s.showAddForm)
  }

  /** The record handed to the store: the name exactly as typed, the card
      icon and the "card" type; the store mints the id. */
  function NewMethod(name: string): (x: PaymentMethodFields)
    ensures x.id.None? && x.name == name && x.icon == CardIcon && x.kind == "card"
  {
    PaymentMethodFields(None, name, CardIcon, "card")
  }

  /** `handleAddMethod`. A name that trims to nothing makes no store call.
      Otherwise `addPaymentMethod` is called; a record back empties and
      hides the form and reloads the list (read with the clock `later`),
      no record leaves the screen as it was. */
  function HandleAddMethod(s: Screen, disk: Disk, env: Env, now: Clock, later: Clock): (r: AddOutcome)
    ensures AllWhitespace(s.newName) ==> r == AddOutcome(s, disk, EnterName)
    ensures !AllWhitespace(s.newName) ==>
              (r.alert == Added <==> LoadData(disk, env, now).value.paymentMethods.Some?)
    ensures !AllWhitespace(s.newName) ==> r.disk == AddPaymentMethod(disk, env, now, NewMethod(s.newName)).disk
    ensures r.alert == Added ==> r.screen.newName == "" && !r.screen.showAddForm
    ensures r.alert == AddFailed ==> r.screen == s
  {
    TrimBlank(s.newName);
    if Trim(s.newName) == [] then AddOutcome(s, disk, EnterName)
    else
      var added := AddPaymentMethod(disk, env, now, NewMethod(s.newName));
      match added.value
      case Some(_) =>
        var reloaded := LoadData(added.disk, env, later);
        AddOutcome(Screen(reloaded.value.paymentMethods, false, ""), reloaded.disk, Added)
      case None => AddOutcome(s, added.disk, AddFailed)
  }

  /** On a healthy store, adding a non-blank name shows the earlier list
      with the new card method at the end, its name untrimmed. */
  lemma AddShowsNewMethod(s: Screen, disk: Disk, env: Env, now: Clock, later: Clock)
    requires !AllWhitespace(s.newName)
    requires RoundTrips(env.codec) && Writable(disk, env)
    requires LoadData(disk, env, now).value.paymentMethods.Some?
    ensures var before := LoadData(disk, env, now).value.paymentMethods.value;
            var r := HandleAddMethod(s, disk, env, now, later);
            && r.alert == Added
            && r.screen.methods == Some(before + [PaymentMethod("pm_" + Decimal(now.millis), s.newName, CardIcon, "card")])
  {
    AddPaymentMethodThenLoad(disk, env, now, later, NewMethod(s.newName));
  }

  /** Leading and trailing spaces do not make a name blank and are kept. */
  lemma PaddedNameKept(s: Screen, disk: Disk, env: Env, now: Clock, later: Clock)
    requires s.newName == " Card "
    requires RoundTrips(env.codec) && Writable(disk, env)
    requires LoadData(disk, env, now).value.paymentMethods.Some?
    ensures var r := HandleAddMethod(s, disk, env, now, later);
            && r.alert == Added && r.screen.methods.Some? && |r.screen.methods.value| > 0
            && r.screen.methods.value[|r.screen.methods.value| - 1].name == " Card "
  {
    assert s.newName[1] == 'C' && !IsWhitespace('C');
    assert !AllWhitespace(s.newName);
    AddShowsNewMethod(s, disk, env, now, later);
    var before := LoadData(disk, env, now).value.paymentMethods.value;
    var m := PaymentMethod("pm_" + Decimal(now.millis), s.newName, CardIcon, "card");
    assert (before + [m])[|before|] == m;
  }
}
