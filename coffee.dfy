/** The coffee machine: a store of water, milk, beans, cups and money, and
    one round of the buy, fill or take action chosen by the user. */
module Coffee {
  import opened Text

  const BUY_ACTION_CODE: string := "buy"
  const FILL_ACTION_CODE: string := "fill"
  const TAKE_ACTION_CODE: string := "take"

  const ESPRESSO_NAME: string := "espresso"
  const LATTE_NAME: string := "latte"
  const CAPPUCCINO_NAME: string := "cappuccino"

  /** The actions offered by `start`, in the order they are listed. */
  const AVAILABLE_ACTIONS: seq<string> := [BUY_ACTION_CODE, FILL_ACTION_CODE, TAKE_ACTION_CODE]

  /** Amounts of the three ingredients, an immutable value. */
  datatype Ingredients = Ingredients(water: int, milk: int, coffeeBeans: int)

  /** A drink on offer: its name, its recipe and its price. */
  datatype CoffeeType = CoffeeType(name: string, ingredients: Ingredients, price: int)

  /** The machine's initial settings: stock, clean cups and money. */
  datatype CoffeeMachineInitState = CoffeeMachineInitState(ingredients: Ingredients, cups: int, incomeAmount: int)

  /** What the store holds at any moment; it has the same three parts as the initial settings. */
  type StoreContents = CoffeeMachineInitState

  /** Component-wise sum, as `addIngredients` forms it. */
  function Plus(a: Ingredients, b: Ingredients): Ingredients {
    Ingredients(a.water + b.water, a.milk + b.milk, a.coffeeBeans + b.coffeeBeans)
  }

  /** Component-wise difference, as `subIngredients` forms it. */
  function Minus(a: Ingredients, b: Ingredients): Ingredients {
    Ingredients(a.water - b.water, a.milk - b.milk, a.coffeeBeans - b.coffeeBeans)
  }

  /** Taking away what was just added restores the stock, and the other way round. */
  lemma MinusUndoesPlus(a: Ingredients, b: Ingredients)
    ensures Minus(Plus(a, b), b) == a
    ensures Plus(Minus(a, b), b) == a
  {
  }

  /** Adding is order-independent: two refills in either order leave the same stock. */
  lemma PlusCommutes(a: Ingredients, b: Ingredients, c: Ingredients)
    ensures Plus(Plus(a, b), c) == Plus(Plus(a, c), b)
  {
  }

  /** The store after selling one drink of type `t`: one cup fewer, the price
      earned and the recipe used up; nothing checks that the stock suffices. */
  function AfterBuy(st: StoreContents, t: CoffeeType): StoreContents {
    CoffeeMachineInitState(Minus(st.ingredients, t.ingredients), st.cups - 1, st.incomeAmount + t.price)
  }

  /** The store after a refill of `water`, `milk`, `beans` and `cups`. */
  function AfterFill(st: StoreContents, water: int, milk: int, beans: int, cups: int): StoreContents {
    CoffeeMachineInitState(Plus(st.ingredients, Ingredients(water, milk, beans)), st.cups + cups, st.incomeAmount)
  }

  /** The store after the money has been taken out. */
  function AfterTake(st: StoreContents): StoreContents {
    st.(incomeAmount := 0)
  }

  /** What `takeAction` says: the amount handed out. */
  function TakeReport(st: StoreContents): string {
    "I gave you $" + IntToString(st.incomeAmount)
  }

  /** A second take right after a first hands out nothing and reports $0. */
  lemma TakeTwiceReportsZero(st: StoreContents)
    ensures AfterTake(AfterTake(st)) == AfterTake(st)
    ensures TakeReport(AfterTake(st)) == "I gave you $0"
  {
    assert IntToString(0) == "0";
  }

  /** A take hands out exactly the income, and the amount reads back from the report. */
  lemma TakeReportsIncome(st: StoreContents)
    requires INT_MIN <= st.incomeAmount <= INT_MAX
    ensures |TakeReport(st)| > 12 && TakeReport(st)[..12] == "I gave you $"
    ensures ParseInt(TakeReport(st)[12..]) == Some(st.incomeAmount)
  {
    var report := TakeReport(st);
    assert report[12..] == IntToString(st.incomeAmount);
    ParseIntToString(st.incomeAmount);
  }

  /** A refill never touches the money, and a buy never lowers it for a drink with a non-negative price. */
  lemma FillKeepsIncome(st: StoreContents, water: int, milk: int, beans: int, cups: int, t: CoffeeType)
    ensures AfterFill(st, water, milk, beans, cups).incomeAmount == st.incomeAmount
    ensures t.price >= 0 ==> AfterBuy(st, t).incomeAmount >= st.incomeAmount
  {
  }

  /** Refilling exactly a drink's recipe and one cup, then selling that drink,
      leaves the stock as it was and adds the price to the income. */
  lemma FillThenBuy(st: StoreContents, t: CoffeeType)
    ensures var r := t.ingredients;
      var after := AfterBuy(AfterFill(st, r.water, r.milk, r.coffeeBeans, 1), t);
      after.ingredients == st.ingredients && after.cups == st.cups &&
      after.incomeAmount == st.incomeAmount + t.price
  {
    var r := t.ingredients;
    assert Ingredients(r.water, r.milk, r.coffeeBeans) == r;
    MinusUndoesPlus(st.ingredients, r);
  }

  /** Nothing stops a sale from an empty store: the counts go negative. */
  lemma BuyFromEmptyStore(t: CoffeeType)
    requires t.ingredients.water > 0
    ensures var st := AfterBuy(CoffeeMachineInitState(Ingredients(0, 0, 0), 0, 0), t);
      st.cups == -1 && st.ingredients.water < 0
  {
  }

  /** The six lines of the storage report, without their newlines. */
  function StorageLines(st: StoreContents): seq<string> {
    [ "The coffee machine has:",
      IntToString(st.ingredients.water) + " ml of water",
      IntToString(st.ingredients.milk) + " ml of milk",
      IntToString(st.ingredients.coffeeBeans) + " g of coffee beans",
      IntToString(st.cups) + " disposable cups",
      "$" + IntToString(st.incomeAmount) + " of money" ]
  }

  lemma IntToStringHasNoNewline(n: int)
    ensures '\n' !in IntToString(n)
  {
    var s := IntToString(n);
    assert forall i :: 0 <= i < |s| ==> s[i] != '\n';
  }

  /** `getStorageInfo`: exactly the six report lines, each ending in a
      newline, with the stock, cups and money written in decimal. */
  function StorageInfo(st: StoreContents): (info: string)
    ensures Split(info, '\n') == StorageLines(st) + [""]
    ensures |Split(info, '\n')| == 7
    ensures info[|info| - 1] == '\n'
  {
    StorageLinesHaveNoNewline(st);
    TerminatedEndsInNewline(StorageLines(st));
    SplitTerminated(StorageLines(st));
    Terminated(StorageLines(st))
  }

  lemma StorageLinesHaveNoNewline(st: StoreContents)
    ensures forall i :: 0 <= i < |StorageLines(st)| ==> '\n' !in StorageLines(st)[i]
  {
    var lines := StorageLines(st);
    assert '\n' !in lines[0];
    NumberLineHasNoNewline(st.ingredients.water, " ml of water");
    NumberLineHasNoNewline(st.ingredients.milk, " ml of milk");
    NumberLineHasNoNewline(st.ingredients.coffeeBeans, " g of coffee beans");
    NumberLineHasNoNewline(st.cups, " disposable cups");
    NumberLineHasNoNewline(st.incomeAmount, " of money");
    assert lines[5] == "$" + (IntToString(st.incomeAmount) + " of money");
  }

  lemma NumberLineHasNoNewline(n: int, suffix: string)
    requires forall i :: 0 <= i < |suffix| ==> suffix[i] != '\n'
    ensures '\n' !in IntToString(n) + suffix
  {
    IntToStringHasNoNewline(n);
  }

  /** The menu entry for the drink at index `i`: its 1-based number and name. */
  function MenuEntry(i: nat, t: CoffeeType): string {
    IntToString(i + 1) + " - " + t.name
  }

  function MenuEntries(types: seq<CoffeeType>): seq<string> {
    seq(|types|, i requires 0 <= i < |types| => MenuEntry(i, types[i]))
  }

  /** The choices `buyAction` accepts: the numbers `1` to `n` written out. */
  function TypeNumbers(n: nat): seq<string> {
    seq(n, i requires 0 <= i < n => IntToString(i + 1))
  }

  /** The drinks menu of `buyAction`: the entries separated by ", ". */
  function Menu(types: seq<CoffeeType>): string {
    Join(MenuEntries(types), ", ")
  }

  /** What `buyAction`'s loop has built after the first `i` drinks: their
      entries and, unless the last drink is done, the separator after them. */
  function MenuPrefix(types: seq<CoffeeType>, i: nat): string
    requires i <= |types|
  {
    if i == 0 then "" else Join(MenuEntries(types)[..i], ", ") + (if i < |types| then ", " else "")
  }

  lemma MenuPrefixStep(types: seq<CoffeeType>, i: nat)
    requires i < |types|
    ensures MenuPrefix(types, i + 1) ==
      MenuPrefix(types, i) + MenuEntry(i, types[i]) + (if i != |types| - 1 then ", " else "")
  {
    var entries := MenuEntries(types);
    var entry := MenuEntry(i, types[i]);
    assert entries[..i + 1] == entries[..i] + [entry];
    if i > 0 {
      JoinAppend(entries[..i], entry, ", ");
    } else {
      assert entries[..1] == [entry];
    }
  }

  lemma TypeNumbersStep(i: nat)
    ensures TypeNumbers(i + 1) == TypeNumbers(i) + [IntToString(i + 1)]
  {
  }

  lemma MenuPrefixAll(types: seq<CoffeeType>)
    ensures MenuPrefix(types, |types|) == Menu(types)
  {
    assert MenuEntries(types)[..|types|] == MenuEntries(types);
  }

  /** The menu starts with the first drink's entry and ends with the last
      drink's entry: there is no separator after the last drink. */
  lemma {:induction false} MenuShape(types: seq<CoffeeType>)
    requires |types| >= 1
    ensures var menu := Menu(types); var first := MenuEntry(0, types[0]);
      var last := MenuEntry(|types| - 1, types[|types| - 1]);
      |first| <= |menu| && menu[..|first|] == first &&
      |last| <= |menu| && menu[|menu| - |last|..] == last
    ensures |types| == 1 ==> Menu(types) == MenuEntry(0, types[0])
  {
    var entries := MenuEntries(types);
    JoinEnds(entries, ", ");
  }

  lemma {:induction false} JoinEnds(parts: seq<string>, sep: string)
    requires |parts| >= 1
    ensures var j := Join(parts, sep);
      |parts[0]| <= |j| && j[..|parts[0]|] == parts[0] &&
      |parts[|parts| - 1]| <= |j| && j[|j| - |parts[|parts| - 1]|..] == parts[|parts| - 1]
    decreases |parts|
  {
    if |parts| > 1 {
      var rest := Join(parts[1..], sep);
      JoinEnds(parts[1..], sep);
      var j := Join(parts, sep);
      assert j == parts[0] + (sep + rest);
      assert j[|j| - |parts[|parts| - 1]|..] == rest[|rest| - |parts[|parts| - 1]|..];
    }
  }

  /** The accepted choices are exactly the canonical decimal numbers `1` to
      `n`: each reads back as its number, and nothing else is accepted. */
  lemma TypeNumbersAccepted(n: nat, choice: string)
    requires n <= INT_MAX
    ensures choice in TypeNumbers(n) <==>
      ParseInt(choice).Some? && 1 <= ParseInt(choice).value <= n && IntToString(ParseInt(choice).value) == choice
  {
    var numbers := TypeNumbers(n);
    if choice in numbers {
      var i :| 0 <= i < n && numbers[i] == choice;
      ParseIntToString(i + 1);
    }
    if ParseInt(choice).Some? && 1 <= ParseInt(choice).value <= n && IntToString(ParseInt(choice).value) == choice {
      assert numbers[ParseInt(choice).value - 1] == choice;
    }
  }

  /** The prompt of `start`: the action codes joined by ", " in parentheses. */
  function ActionPrompt(): string {
    "Write action (" + Join(AVAILABLE_ACTIONS, ", ") + "):"
  }

  lemma ActionPromptText()
    ensures ActionPrompt() == "Write action (buy, fill, take):"
  {
    var rest := [FILL_ACTION_CODE, TAKE_ACTION_CODE];
    assert AVAILABLE_ACTIONS[1..] == rest && rest[1..] == [TAKE_ACTION_CODE];
    assert Join(rest, ", ") == "fill, take";
    assert Join(AVAILABLE_ACTIONS, ", ") == "buy, fill, take";
  }

  /** The four prompts of `fillAction`, in the order they are shown. */
  const FILL_PROMPTS: seq<string> := [
    "Write how many ml of water you want to add:",
    "Write how many ml of milk you want to add:",
    "Write how many grams of coffee beans you want to add:",
    "Write how many disposable cups you want to add:" ]

  /** One round of `start` with the user's answers given in advance: the
      chosen action and, for buy, the chosen number, for fill, the four amounts. */
  datatype Request =
    | BuyRequest(choice: string)
    | FillRequest(water: int, milk: int, beans: int, cups: int)
    | TakeRequest

  /** `CoffeeMachineStorage`: the machine's stock, cups and income, changed in place. */
  class CoffeeMachineStorage {
    var ingredients: Ingredients
    var cups: int
    var incomeAmount: int

    /** The current contents as a value. */
    function State(): StoreContents
      reads this
    {
      CoffeeMachineInitState(ingredients, cups, incomeAmount)
    }

    constructor (initState: CoffeeMachineInitState)
      ensures State() == initState
    {
      ingredients := initState.ingredients;
      cups := initState.cups;
      incomeAmount := initState.incomeAmount;
    }

    /** `addIngredients`: the stock becomes the component-wise sum; cups and money stay. */
    method AddIngredients(addIngredients: Ingredients)
      modifies this
      ensures ingredients == Plus(old(ingredients), addIngredients)
      ensures cups == old(cups) && incomeAmount == old(incomeAmount)
    {
      ingredients := Ingredients(
        ingredients.water + addIngredients.water,
        ingredients.milk + addIngredients.milk,
        ingredients.coffeeBeans + addIngredients.coffeeBeans);
    }

    /** `subIngredients`: the stock becomes the component-wise difference; cups and money stay. */
    method SubIngredients(subIngredients: Ingredients)
      modifies this
      ensures ingredients == Minus(old(ingredients), subIngredients)
      ensures cups == old(cups) && incomeAmount == old(incomeAmount)
    {
      ingredients := Ingredients(
        ingredients.water - subIngredients.water,
        ingredients.milk - subIngredients.milk,
        ingredients.coffeeBeans - subIngredients.coffeeBeans);
    }

    /** `getStorageInfo`: the report of the current contents. */
    function GetStorageInfo(): (info: string)
      reads this
      ensures Split(info, '\n') == StorageLines(State()) + [""]
    {
      StorageInfo(State())
    }
  }

  /** `CoffeeMachine`: the drinks on offer and the store they are made from. */
  class CoffeeMachine {
    const coffeeTypes: seq<CoffeeType>
    const storage: CoffeeMachineStorage

    constructor (coffeeTypes: seq<CoffeeType>, initState: CoffeeMachineInitState)
      ensures this.coffeeTypes == coffeeTypes && fresh(storage) && storage.State() == initState
    {
      this.coffeeTypes := coffeeTypes;
      storage := new CoffeeMachineStorage(initState);
    }

    /** The menu of `buyAction` and the choices it accepts, built in one pass over the drinks. */
    method TypeMenu() returns (menu: string, typeNumbers: seq<string>)
      ensures menu == Menu(coffeeTypes)
      ensures typeNumbers == TypeNumbers(|coffeeTypes|)
    {
      var sb := "";
      typeNumbers := [];
      for typeInd := 0 to |coffeeTypes|
        invariant sb == MenuPrefix(coffeeTypes, typeInd)
        invariant typeNumbers == TypeNumbers(typeInd)
      {
        MenuPrefixStep(coffeeTypes, typeInd);
        TypeNumbersStep(typeInd);
        sb := sb + (IntToString(typeInd + 1) + " - " + coffeeTypes[typeInd].name);
        if typeInd != |coffeeTypes| - 1 {
          sb := sb + ", ";
        }
        typeNumbers := typeNumbers + [IntToString(typeInd + 1)];
      }
      MenuPrefixAll(coffeeTypes);
      menu := sb;
    }

    /** `buyAction`: show the menu, read one of the numbers on it, and sell that drink. */
    method BuyAction(choice: string) returns (prompt: string)
      requires choice in TypeNumbers(|coffeeTypes|) && |coffeeTypes| <= INT_MAX
      modifies storage
      ensures prompt == "What do you want to buy? " + Menu(coffeeTypes) + ":"
      ensures ParseInt(choice).Some? && 1 <= ParseInt(choice).value <= |coffeeTypes|
      ensures storage.State() == AfterBuy(old(storage.State()), coffeeTypes[ParseInt(choice).value - 1])
    {
      var allTypesWithNumber, typeNumbers := TypeMenu();
      prompt := "What do you want to buy? " + allTypesWithNumber + ":";
      TypeNumbersAccepted(|coffeeTypes|, choice);
      var selectedNumber := ParseInt(choice).value;
      var selectedCoffeeType := coffeeTypes[selectedNumber - 1];
      storage.cups := storage.cups - 1;
      storage.incomeAmount := storage.incomeAmount + selectedCoffeeType.price;
      storage.SubIngredients(selectedCoffeeType.ingredients);
    }

    /** `fillAction`: ask for four amounts and add them; the money stays. */
    method FillAction(water: int, milk: int, beans: int, cups: int) returns (prompts: seq<string>)
      modifies storage
      ensures prompts == FILL_PROMPTS
      ensures storage.State() == AfterFill(old(storage.State()), water, milk, beans, cups)
    {
      prompts := FILL_PROMPTS;
      storage.cups := storage.cups + cups;
      storage.AddIngredients(Ingredients(water, milk, beans));
    }

    /** `takeAction`: report the income and empty the till. */
    method TakeAction() returns (report: string)
      modifies storage
      ensures report == TakeReport(old(storage.State()))
      ensures storage.State() == AfterTake(old(storage.State()))
    {
      report := "I gave you $" + IntToString(storage.incomeAmount);
      storage.incomeAmount := 0;
    }

    /** `start`: the report, the action prompt, exactly one action, an empty
        line, and the report of the store as that action left it. */
    method Start(request: Request) returns (output: seq<string>)
      requires request.BuyRequest? ==> request.choice in TypeNumbers(|coffeeTypes|)
      requires |coffeeTypes| <= INT_MAX
      modifies storage
      ensures |output| >= 5
      ensures output[0] == StorageInfo(old(storage.State()))
      ensures output[1] == "Write action (buy, fill, take):"
      ensures output[|output| - 2..] == ["", StorageInfo(storage.State())]
      ensures match request
        case BuyRequest(choice) =>
          |output| == 5 && output[2] == "What do you want to buy? " + Menu(coffeeTypes) + ":" &&
          ParseInt(choice).Some? && 1 <= ParseInt(choice).value <= |coffeeTypes| &&
          storage.State() == AfterBuy(old(storage.State()), coffeeTypes[ParseInt(choice).value - 1])
        case FillRequest(water, milk, beans, cups) =>
          output[2..|output| - 2] == FILL_PROMPTS &&
          storage.State() == AfterFill(old(storage.State()), water, milk, beans, cups)
        case TakeRequest =>
          |output| == 5 && output[2] == TakeReport(old(storage.State())) &&
          storage.State() == AfterTake(old(storage.State()))
    {
      ActionPromptText();
      output := [storage.GetStorageInfo(), ActionPrompt()];
      var lines: seq<string>;
      match request {
        case BuyRequest(choice) =>
          var prompt := BuyAction(choice);
          lines := [prompt];
        case FillRequest(water, milk, beans, cups) =>
          lines := FillAction(water, milk, beans, cups);
        case TakeRequest =>
          var report := TakeAction();
          lines := [report];
      }
      output := output + lines + ["", storage.GetStorageInfo()];
    }
  }
}
