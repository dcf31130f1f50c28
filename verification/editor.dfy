/**
 * The record editor (src/ItemRegistry/ItemRegistry.js): the form state, the tab,
 * the pickers and their outside-press dismissal, loading a saved record into the
 * form, the submit pipeline that validates, resolves names to ids and issues one
 * insert or update, and the delete confirmation.
 *
 * The remote store is a parameter: a write is returned as a `Write` value and the
 * store's answer comes in as `storeFails`; a loaded record comes in as a response.
 */
module Editor {
  import opened Common
  import opened Currency

  /** The two tabs, 支出 (outgo) and 収入 (income). */
  datatype Tab = Outgo | Income

  /** A calendar day. How it is printed and sent (`toISOString`) is not modelled. */
  type Date = int

  /** A candidate row: `{outgo,income}_category_{id,name}` or `payment_method_{id,name}`. */
  datatype Candidate = Candidate(id: int, name: string)

  /** The three candidate lists the editor fetches. */
  datatype Candidates = Candidates(outgo: seq<Candidate>, income: seq<Candidate>, methods: seq<Candidate>)

  /** The seven columns written to `income_outgo_items`. */
  datatype ItemRow = ItemRow(
    amount: int,
    outgoCategoryId: Option<int>,
    incomeCategoryId: Option<int>,
    memo: string,
    date: Date,
    paymentMethodId: int,
    isOutgo: bool)

  /** A record as loaded by id, with the names of its embedded category and payment method. */
  datatype LoadedItem = LoadedItem(
    row: ItemRow,
    outgoCategoryName: Option<string>,
    incomeCategoryName: Option<string>,
    paymentMethodName: Option<string>)

  /** A write to `income_outgo_items`. */
  datatype Write = Insert(row: ItemRow) | Update(id: string, row: ItemRow) | Delete(id: string)

  /** Why a submit stops without writing. */
  datatype SubmitError =
    | MissingField           // amount, category or payment method not filled in
    | NonPositiveAmount      // the amount is 0 or less
    | CategoryNotFound       // no candidate has the name: `find(...)` is undefined and `[...]` throws
    | PaymentMethodNotFound  // likewise for the payment method
    | IdNotFound             // a candidate matched but its id is falsy (0)

  datatype Outcome = Ok(write: Write) | Err(error: SubmitError)

  /** The form fields the editor keeps in state. */
  datatype Form = Form(
    tab: Tab,
    amount: string,
    category: Option<string>,
    date: Date,
    paymentMethod: Option<string>,
    memo: string)

  /** The state when the editor opens: 支出, empty amount and memo, nothing selected, today. */
  function InitialForm(today: Date): (f: Form) {
    Form(Outgo, "", None, today, None, "")
  }

  function TabOf(isOutgo: bool): (t: Tab)
    ensures (t == Outgo) == isOutgo
  {
    if isOutgo then Outgo else Income
  }

  /** `selectableCatories`: the category list of the active tab. */
  function CategoryList(tab: Tab, c: Candidates): (cands: seq<Candidate>)
    ensures tab == Outgo ==> cands == c.outgo
    ensures tab == Income ==> cands == c.income
  {
    if tab == Outgo then c.outgo else c.income
  }

  /** A null or empty selection is falsy. */
  predicate Blank(s: Option<string>) {
    s.None? || s.value == ""
  }

  /** `!amount || !selectedCategory || !selectedPaymentMethod` */
  predicate RequiredMissing(f: Form) {
    f.amount == "" || Blank(f.category) || Blank(f.paymentMethod)
  }

  /** The amount text is empty or `parseInt` reads a number from it (never NaN). */
  predicate AmountParses(text: string) {
    text == "" || ParseInt(StripCommas(text)).Some?
  }

  /** `parseInt(amount.replace(/,/g, ""), 10)` */
  function AmountNumber(text: string): (n: int)
    requires text != "" && AmountParses(text)
  {
    ParseInt(StripCommas(text)).value
  }

  /** Candidate k is the first one named `name`. */
  predicate FirstMatch(cands: seq<Candidate>, name: string, k: int) {
    && 0 <= k < |cands|
    && cands[k].name == name
    && forall j :: 0 <= j < k ==> cands[j].name != name
  }

  /** `cands.find(c => c.name === name)`, as an index. */
  function FindFirst(cands: seq<Candidate>, name: string): (r: Option<nat>)
    ensures r.Some? ==> FirstMatch(cands, name, r.value)
    ensures r.None? ==> forall j :: 0 <= j < |cands| ==> cands[j].name != name
  {
    if cands == [] then None
    else if cands[0].name == name then Some(0)
    else match FindFirst(cands[1..], name) {
      case None => None
      case Some(k) => Some(k + 1)
    }
  }

  /** Direction and category columns agree: exactly the direction's category id is set. */
  predicate DirectionConsistent(row: ItemRow) {
    if row.isOutgo then row.outgoCategoryId.Some? && row.incomeCategoryId.None?
    else row.incomeCategoryId.Some? && row.outgoCategoryId.None?
  }

  function CategoryIdOf(row: ItemRow): (id: int)
    requires DirectionConsistent(row)
  {
    if row.isOutgo then row.outgoCategoryId.value else row.incomeCategoryId.value
  }

  /**
   * What `handleRegister` does with the form: the checks in their order, then the one
   * write. `itemId` present means update that record, absent means insert.
   */
  function Plan(f: Form, itemId: Option<string>, c: Candidates): (r: Outcome)
    requires AmountParses(f.amount)
    ensures RequiredMissing(f) ==> r == Err(MissingField)
    ensures !RequiredMissing(f) && AmountNumber(f.amount) <= 0 ==> r == Err(NonPositiveAmount)
    ensures !RequiredMissing(f) && AmountNumber(f.amount) > 0
            && (forall j :: 0 <= j < |CategoryList(f.tab, c)| ==> CategoryList(f.tab, c)[j].name != f.category.value)
            ==> r == Err(CategoryNotFound)
    ensures r.Ok? ==>
              && !RequiredMissing(f)
              && !r.write.Delete?
              && (r.write.Update? <==> itemId.Some?)
              && (r.write.Update? ==> r.write.id == itemId.value)
    ensures r.Ok? ==>
              var row := r.write.row;
              && DirectionConsistent(row)
              && row.isOutgo == (f.tab == Outgo)
              && row.amount == AmountNumber(f.amount) > 0
              && row.memo == f.memo
              && row.date == f.date
              && (exists k :: FirstMatch(CategoryList(f.tab, c), f.category.value, k)
                              && CategoryIdOf(row) == CategoryList(f.tab, c)[k].id != 0)
              && (exists k :: FirstMatch(c.methods, f.paymentMethod.value, k)
                              && row.paymentMethodId == c.methods[k].id != 0)
    ensures !RequiredMissing(f) && AmountNumber(f.amount) > 0
            && (exists k :: FirstMatch(CategoryList(f.tab, c), f.category.value, k) && CategoryList(f.tab, c)[k].id != 0)
            && (exists k :: FirstMatch(c.methods, f.paymentMethod.value, k) && c.methods[k].id != 0)
            ==> r.Ok?
  {
    if RequiredMissing(f) then Err(MissingField)
    else
      var n := AmountNumber(f.amount);
      if n <= 0 then Err(NonPositiveAmount)
      else
        var cands := CategoryList(f.tab, c);
        match FindFirst(cands, f.category.value) {
          case None => Err(CategoryNotFound)
          case Some(ci) =>
            match FindFirst(c.methods, f.paymentMethod.value) {
              case None => Err(PaymentMethodNotFound)
              case Some(pi) =>
                var categoryId, methodId := cands[ci].id, c.methods[pi].id;
                if categoryId == 0 || methodId == 0 then Err(IdNotFound)
                else
                  var row := ItemRow(
                    n,
                    if f.tab == Outgo then Some(categoryId) else None,
                    if f.tab == Income then Some(categoryId) else None,
                    f.memo,
                    f.date,
                    methodId,
                    f.tab == Outgo);
                  Ok(if itemId.Some? then Update(itemId.value, row) else Insert(row))
            }
        }
  }

  /** The tab buttons: set the tab and clear the category, even when the tab is already active. */
  function Switched(f: Form, t: Tab): (g: Form)
    ensures g.tab == t && g.category == None
    ensures g.(tab := f.tab, category := f.category) == f
    ensures RequiredMissing(g)
  {
    f.(tab := t, category := None)
  }

  /**
   * The effect that fills the form from the loaded record. It sets the amount and the
   * tab, then reads the category name through the tab the effect ran with, not the
   * record's direction: when that relation is null the read throws and the date,
   * memo and payment method are not set. A null payment method throws likewise,
   * after the date and memo are set.
   */
  function Hydrated(f: Form, item: LoadedItem): (g: Form)
    ensures g.tab == TabOf(item.row.isOutgo)
    ensures AmountParses(g.amount) && g.amount != "" && AmountNumber(g.amount) == item.row.amount
    ensures var name := if f.tab == Outgo then item.outgoCategoryName else item.incomeCategoryName;
            && (name.None? ==> g.(amount := f.amount, tab := f.tab) == f)
            && (name.Some? ==> g.category == name && g.date == item.row.date && g.memo == item.row.memo)
            && (name.Some? && item.paymentMethodName.Some? ==> g.paymentMethod == item.paymentMethodName)
            && (name.None? || item.paymentMethodName.None? ==> g.paymentMethod == f.paymentMethod)
  {
    ParseIntToString(item.row.amount);
    var f1 := f.(amount := IntToString(item.row.amount), tab := TabOf(item.row.isOutgo));
    var name := if f.tab == Outgo then item.outgoCategoryName else item.incomeCategoryName;
    if name.None? then f1
    else
      var f2 := f1.(category := name, date := item.row.date, memo := item.row.memo);
      if item.paymentMethodName.None? then f2 else f2.(paymentMethod := item.paymentMethodName)
  }

  /** The record as saved: its direction and category agree and its embedded names match its ids. */
  predicate WellFormed(item: LoadedItem) {
    && DirectionConsistent(item.row)
    && (item.outgoCategoryName.Some? <==> item.row.outgoCategoryId.Some?)
    && (item.incomeCategoryName.Some? <==> item.row.incomeCategoryId.Some?)
    && item.paymentMethodName.Some?
  }

  /** The name of the record's own category. */
  function OwnCategoryName(item: LoadedItem): (name: Option<string>) {
    if item.row.isOutgo then item.outgoCategoryName else item.incomeCategoryName
  }

  /** The form showing the record in full. */
  function ShownForm(item: LoadedItem): (f: Form) {
    Form(
      TabOf(item.row.isOutgo),
      IntToString(item.row.amount),
      OwnCategoryName(item),
      item.row.date,
      item.paymentMethodName,
      item.row.memo)
  }

  /** Loaded while the tab already shows the record's direction, the form shows the record, whatever it held. */
  lemma HydrateOnOwnTab(f: Form, item: LoadedItem)
    requires WellFormed(item) && f.tab == TabOf(item.row.isOutgo)
    ensures Hydrated(f, item) == ShownForm(item)
  {
  }

  /**
   * Loaded while the other tab is active, only the amount and the tab change: the
   * category, date, memo and payment method keep what the form held.
   */
  lemma HydrateOnOtherTab(f: Form, item: LoadedItem)
    requires WellFormed(item) && f.tab != TabOf(item.row.isOutgo)
    ensures Hydrated(f, item) == f.(amount := IntToString(item.row.amount), tab := TabOf(item.row.isOutgo))
    ensures Hydrated(f, item).category == f.category
  {
  }

  /**
   * Because the effect depends on the tab, a load that changed the tab is followed by
   * another; after it the form shows the record, whatever state the first load met.
   */
  lemma HydrateRerunShowsRecord(f: Form, item: LoadedItem)
    requires WellFormed(item)
    ensures Hydrated(f, item).tab == TabOf(item.row.isOutgo)
    ensures Hydrated(Hydrated(f, item), item) == ShownForm(item)
  {
    HydrateOnOwnTab(Hydrated(f, item), item);
  }

  /**
   * Editing a saved record, switching to the other tab re-runs the load, which puts
   * the record's tab back; that change runs it once more and the whole form is reset
   * to the record.
   */
  lemma SwitchTabWhileEditing(f: Form, item: LoadedItem, t: Tab)
    requires WellFormed(item) && f.tab == TabOf(item.row.isOutgo) && t != f.tab
    ensures Hydrated(Switched(f, t), item).tab == f.tab
    ensures Hydrated(Switched(f, t), item).category == None
    ensures Hydrated(Hydrated(Switched(f, t), item), item) == ShownForm(item)
  {
    HydrateOnOtherTab(Switched(f, t), item);
    HydrateRerunShowsRecord(Switched(f, t), item);
  }

  /**
   * Loading a saved record and submitting it untouched updates that record with the
   * values it already has, provided its names resolve back to its own ids.
   */
  lemma SubmitUnchangedRecord(item: LoadedItem, id: string, c: Candidates)
    requires WellFormed(item) && item.row.amount > 0
    requires OwnCategoryName(item).value != "" && item.paymentMethodName.value != ""
    requires exists k :: FirstMatch(CategoryList(TabOf(item.row.isOutgo), c), OwnCategoryName(item).value, k)
                         && CategoryList(TabOf(item.row.isOutgo), c)[k].id == CategoryIdOf(item.row) != 0
    requires exists k :: FirstMatch(c.methods, item.paymentMethodName.value, k)
                         && c.methods[k].id == item.row.paymentMethodId != 0
    ensures AmountParses(ShownForm(item).amount)
    ensures Plan(ShownForm(item), Some(id), c) == Ok(Update(id, item.row))
  {
    var f := ShownForm(item);
    ParseIntToString(item.row.amount);
    assert AmountNumber(f.amount) == item.row.amount;
    var r := Plan(f, Some(id), c);
    assert r.Ok?;
    var k1 :| FirstMatch(CategoryList(f.tab, c), f.category.value, k1) && CategoryIdOf(r.write.row) == CategoryList(f.tab, c)[k1].id;
    var k2 :| FirstMatch(CategoryList(f.tab, c), f.category.value, k2) && CategoryList(f.tab, c)[k2].id == CategoryIdOf(item.row);
    FirstMatchUnique(CategoryList(f.tab, c), f.category.value, k1, k2);
    var m1 :| FirstMatch(c.methods, f.paymentMethod.value, m1) && r.write.row.paymentMethodId == c.methods[m1].id;
    var m2 :| FirstMatch(c.methods, f.paymentMethod.value, m2) && c.methods[m2].id == item.row.paymentMethodId;
    FirstMatchUnique(c.methods, f.paymentMethod.value, m1, m2);
  }

  /** "0" is filled in, so it passes the first check, and is then refused as not positive. */
  lemma ZeroAmountRefused(f: Form, itemId: Option<string>, c: Candidates)
    requires f.amount == "0" && !Blank(f.category) && !Blank(f.paymentMethod)
    ensures AmountParses(f.amount) && !RequiredMissing(f)
    ensures Plan(f, itemId, c) == Err(NonPositiveAmount)
  {
    ParseDecimal(0);
    StripCommasNoCommas("0");
  }

  lemma FirstMatchUnique(cands: seq<Candidate>, name: string, k1: int, k2: int)
    requires FirstMatch(cands, name, k1) && FirstMatch(cands, name, k2)
    ensures k1 == k2
  {
  }

  /** A DOM node, and the nodes a rendered region contains (itself and its descendants). */
  type NodeId = nat

  /**
   * `useOutsideClick`: a press closes the control when its region is rendered
   * (`ref.current` is set) and does not contain the pressed node.
   */
  function Dismisses(region: Option<set<NodeId>>, target: NodeId): (closes: bool)
    ensures region.None? ==> !closes
    ensures region.Some? && target in region.value ==> !closes
    ensures region.Some? && target !in region.value ==> closes
  {
    region.Some? && target !in region.value
  }

  class RecordEditor {
    /** `useParams().itemId`: present when editing a saved record. */
    const itemId: Option<string>

    var activeTab: Tab
    var amount: string
    var selectedCategory: Option<string>
    var selectedDate: Date
    var selectedPaymentMethod: Option<string>
    var memo: string

    var isCategoryOpen: bool
    var isDatePickerOpen: bool
    var isPaymentMethodOpen: bool
    var isDeleteModalOpen: bool

    /** The `data` of the three candidate fetches. */
    var outgoCategories: seq<Candidate>
    var incomeCategories: seq<Candidate>
    var paymentMethods: seq<Candidate>

    /** Every way the amount is set leaves text that `parseInt` can read. */
    ghost predicate Valid()
      reads this`amount
    {
      AmountParses(amount)
    }

    function Snapshot(): (f: Form)
      reads this`activeTab, this`amount, this`selectedCategory, this`selectedDate,
            this`selectedPaymentMethod, this`memo
    {
      Form(activeTab, amount, selectedCategory, selectedDate, selectedPaymentMethod, memo)
    }

    function Lists(): (c: Candidates)
      reads this`outgoCategories, this`incomeCategories, this`paymentMethods
    {
      Candidates(outgoCategories, incomeCategories, paymentMethods)
    }

    function SelectableCategories(): (cands: seq<Candidate>)
      reads this`activeTab, this`outgoCategories, this`incomeCategories, this`paymentMethods
    {
      CategoryList(activeTab, Lists())
    }

    predicate AllClosed()
      reads this`isCategoryOpen, this`isDatePickerOpen, this`isPaymentMethodOpen, this`isDeleteModalOpen
    {
      !isCategoryOpen && !isDatePickerOpen && !isPaymentMethodOpen && !isDeleteModalOpen
    }

    constructor (itemId: Option<string>, today: Date)
      ensures Valid()
      ensures this.itemId == itemId
      ensures Snapshot() == InitialForm(today)
      ensures AllClosed()
      ensures Lists() == Candidates([], [], [])
    {
      this.itemId := itemId;
      activeTab, amount, selectedCategory := Outgo, "", None;
      selectedDate, selectedPaymentMethod, memo := today, None, "";
      isCategoryOpen, isDatePickerOpen, isPaymentMethodOpen, isDeleteModalOpen := false, false, false, false;
      outgoCategories, incomeCategories, paymentMethods := [], [], [];
    }

    /** A tab button: the candidate list becomes that tab's and the category is cleared. */
    method SwitchTab(t: Tab)
      modifies this`activeTab, this`selectedCategory
      ensures Snapshot() == Switched(old(Snapshot()), t)
      ensures SelectableCategories() == if t == Outgo then outgoCategories else incomeCategories
    {
      activeTab := t;
      selectedCategory := None;
    }

    /** Typing in the amount field stores the formatted text. */
    method EnterAmount(text: string)
      requires Valid()
      modifies this`amount
      ensures Valid()
      ensures amount == FormatCurrency(text)
      ensures AmountNumber(amount) == ValueOf(Digits(text))
    {
      amount := FormatCurrency(text);
      ParseFormatted(text);
    }

    method EnterMemo(text: string)
      modifies this`memo
      ensures memo == text
    {
      memo := text;
    }

    /** A press on a picker's header flips that picker. */
    method ToggleCategoryList()
      modifies this`isCategoryOpen
      ensures isCategoryOpen == !old(isCategoryOpen)
    {
      isCategoryOpen := !isCategoryOpen;
    }

    method ToggleDatePicker()
      modifies this`isDatePickerOpen
      ensures isDatePickerOpen == !old(isDatePickerOpen)
    {
      isDatePickerOpen := !isDatePickerOpen;
    }

    method TogglePaymentMethodList()
      modifies this`isPaymentMethodOpen
      ensures isPaymentMethodOpen == !old(isPaymentMethodOpen)
    {
      isPaymentMethodOpen := !isPaymentMethodOpen;
    }

    /** Choosing entry `i` of the open category list stores its name and closes that list only. */
    method ChooseCategory(i: nat)
      requires isCategoryOpen && i < |SelectableCategories()|
      modifies this`selectedCategory, this`isCategoryOpen
      ensures selectedCategory == Some(old(SelectableCategories())[i].name)
      ensures !isCategoryOpen
    {
      selectedCategory := Some(SelectableCategories()[i].name);
      isCategoryOpen := false;
    }

    method ChoosePaymentMethod(i: nat)
      requires isPaymentMethodOpen && i < |paymentMethods|
      modifies this`selectedPaymentMethod, this`isPaymentMethodOpen
      ensures selectedPaymentMethod == Some(paymentMethods[i].name)
      ensures !isPaymentMethodOpen
    {
      selectedPaymentMethod := Some(paymentMethods[i].name);
      isPaymentMethodOpen := false;
    }

    /** `handleDateChange` */
    method ChooseDate(d: Date)
      modifies this`selectedDate, this`isDatePickerOpen
      ensures selectedDate == d && !isDatePickerOpen
    {
      selectedDate := d;
      isDatePickerOpen := false;
    }

    /**
     * A mouse press anywhere: each of the three controls closes on its own, when its
     * region is rendered and does not contain the pressed node.
     */
    method PressAnywhere(target: NodeId, categoryRegion: Option<set<NodeId>>,
                         dateRegion: Option<set<NodeId>>, paymentRegion: Option<set<NodeId>>)
      modifies this`isCategoryOpen, this`isDatePickerOpen, this`isPaymentMethodOpen
      ensures isCategoryOpen == (old(isCategoryOpen) && !Dismisses(categoryRegion, target))
      ensures isDatePickerOpen == (old(isDatePickerOpen) && !Dismisses(dateRegion, target))
      ensures isPaymentMethodOpen == (old(isPaymentMethodOpen) && !Dismisses(paymentRegion, target))
    {
      if Dismisses(dateRegion, target) {
        isDatePickerOpen := false;
      }
      if Dismisses(categoryRegion, target) {
        isCategoryOpen := false;
      }
      if Dismisses(paymentRegion, target) {
        isPaymentMethodOpen := false;
      }
    }

    /** A candidate fetch delivers its rows. */
    method ReceiveCandidates(c: Candidates)
      modifies this`outgoCategories, this`incomeCategories, this`paymentMethods
      ensures Lists() == c
    {
      outgoCategories, incomeCategories, paymentMethods := c.outgo, c.income, c.methods;
    }

    /**
     * The record fetch resolves: an error (and, in create mode, the failed lookup of
     * an absent id) leaves the form alone; a record is loaded into it.
     */
    method ApplyLoadedItem(response: Option<LoadedItem>)
      requires Valid()
      modifies this`amount, this`activeTab, this`selectedCategory, this`selectedDate,
               this`memo, this`selectedPaymentMethod
      ensures Valid()
      ensures response.None? ==> Snapshot() == old(Snapshot())
      ensures response.Some? ==> Snapshot() == Hydrated(old(Snapshot()), response.value)
    {
      if response.Some? {
        var item := response.value;
        var tabAtFetch := activeTab;
        amount := IntToString(item.row.amount);
        ParseIntToString(item.row.amount);
        activeTab := TabOf(item.row.isOutgo);
        var name := if tabAtFetch == Outgo then item.outgoCategoryName else item.incomeCategoryName;
        if name.None? {
          return;
        }
        selectedCategory := name;
        selectedDate := item.row.date;
        memo := item.row.memo;
        if item.paymentMethodName.None? {
          return;
        }
        selectedPaymentMethod := item.paymentMethodName;
      }
    }

    /**
     * `handleRegister`: the guarded early returns, then one write. The store's answer
     * is `storeFails`; the editor navigates to the overview only when the write
     * succeeded. The form is left as it was either way.
     */
    method Register(storeFails: bool) returns (write: Option<Write>, navigated: bool)
      requires Valid()
      ensures Plan(Snapshot(), itemId, Lists()).Ok? ==> write == Some(Plan(Snapshot(), itemId, Lists()).write)
      ensures Plan(Snapshot(), itemId, Lists()).Err? ==> write == None
      ensures navigated <==> write.Some? && !storeFails
    {
      write, navigated := None, false;
      if amount == "" || Blank(selectedCategory) || Blank(selectedPaymentMethod) {
        return;
      }
      var amountNumber := AmountNumber(amount);
      if amountNumber <= 0 {
        return;
      }
      var cands := SelectableCategories();
      var ci := FindFirst(cands, selectedCategory.value);
      if ci.None? {
        return;
      }
      var pi := FindFirst(paymentMethods, selectedPaymentMethod.value);
      if pi.None? {
        return;
      }
      var categoryId, paymentMethodId := cands[ci.value].id, paymentMethods[pi.value].id;
      if categoryId == 0 || paymentMethodId == 0 {
        return;
      }
      var row := ItemRow(
        amountNumber,
        if activeTab == Outgo then Some(categoryId) else None,
        if activeTab == Income then Some(categoryId) else None,
        memo,
        selectedDate,
        paymentMethodId,
        activeTab == Outgo);
      if itemId.Some? {
        write := Some(Update(itemId.value, row));
      } else {
        write := Some(Insert(row));
      }
      navigated := !storeFails;
    }

    /** The delete button, shown only when editing a saved record. */
    method OpenDeleteModal()
      requires itemId.Some?
      modifies this`isDeleteModalOpen
      ensures isDeleteModalOpen
    {
      isDeleteModalOpen := true;
    }

    /** キャンセル in the confirmation: only the modal closes. */
    method CancelDelete()
      requires itemId.Some? && isDeleteModalOpen
      modifies this`isDeleteModalOpen
      ensures !isDeleteModalOpen
    {
      isDeleteModalOpen := false;
    }

    /**
     * 削除する in the confirmation: delete the record by id and navigate to the
     * overview unless the store fails; nothing in the editor changes.
     */
    method ConfirmDelete(storeFails: bool) returns (write: Write, navigated: bool)
      requires itemId.Some? && isDeleteModalOpen
      ensures write == Delete(itemId.value)
      ensures navigated == !storeFails
    {
      write := Delete(itemId.value);
      navigated := !storeFails;
    }
  }

  /** The amount "1,000" shown for the typed 1000 reads back as 1000. */
  lemma ThousandReadsBack()
    ensures AmountParses("1,000") && AmountNumber("1,000") == 1000
  {
    FormatThousand();
    ParseFormatted("1000");
  }

  /**
   * A new expense: 1000 typed on the 支出 tab shows as "1,000"; with 食費 and 現金
   * chosen, submitting inserts amount 1000, the outgo category's id, no income
   * category and the payment method's id.
   */
  lemma NewExpensePlan(today: Date, food: Candidate, cash: Candidate)
    requires food.name == "食費" && cash.name == "現金" && food.id != 0 && cash.id != 0
    ensures AmountParses("1,000")
    ensures Plan(Form(Outgo, "1,000", Some(food.name), today, Some(cash.name), ""), None, Candidates([food], [], [cash]))
            == Ok(Insert(ItemRow(1000, Some(food.id), None, "", today, cash.id, true)))
  {
    ThousandReadsBack();
    PlanInsertOneCandidate(Form(Outgo, "1,000", Some(food.name), today, Some(cash.name), ""), food, cash);
  }

  /** With one outgo category and one payment method, both chosen, submit inserts their ids. */
  lemma PlanInsertOneCandidate(f: Form, food: Candidate, cash: Candidate)
    requires f.tab == Outgo && f.category == Some(food.name) && f.paymentMethod == Some(cash.name)
    requires f.amount != "" && food.name != "" && cash.name != "" && food.id != 0 && cash.id != 0
    requires AmountParses(f.amount) && AmountNumber(f.amount) > 0
    ensures Plan(f, None, Candidates([food], [], [cash]))
            == Ok(Insert(ItemRow(AmountNumber(f.amount), Some(food.id), None, f.memo, f.date, cash.id, true)))
  {
    assert !RequiredMissing(f);
    assert FindFirst([food], food.name) == Some(0);
    assert FindFirst([cash], cash.name) == Some(0);
  }

  /** After choosing an outgo category, switching to 収入 leaves no category selected. */
  method SwitchClearsCategoryScenario(today: Date, food: Candidate) returns (chosen: Option<string>, afterSwitch: Option<string>)
    ensures chosen == Some(food.name) && afterSwitch == None
  {
    var e := new RecordEditor(None, today);
    e.ReceiveCandidates(Candidates([food], [], []));
    e.ToggleCategoryList();
    e.ChooseCategory(0);
    chosen := e.selectedCategory;
    e.SwitchTab(Income);
    assert e.SelectableCategories() == [];
    afterSwitch := e.selectedCategory;
  }

  /** Opening the delete confirmation and cancelling it leaves the form, the lists and the pickers as they were. */
  method CancelDeleteScenario(e: RecordEditor)
    requires e.itemId.Some?
    modifies e
    ensures e.Snapshot() == old(e.Snapshot()) && e.Lists() == old(e.Lists())
    ensures !e.isDeleteModalOpen
    ensures e.isCategoryOpen == old(e.isCategoryOpen)
    ensures e.isDatePickerOpen == old(e.isDatePickerOpen)
    ensures e.isPaymentMethodOpen == old(e.isPaymentMethodOpen)
  {
    e.OpenDeleteModal();
    e.CancelDelete();
  }
}
