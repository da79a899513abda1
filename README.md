# Three Kotlin console simulators, modelled in Dafny

The repository holds three small learning projects. Each is a state object
driven by console input. This project models their logic. Console reading and
printing become parameters and results.

- **Parking lot** (`ParkingLot.kt`), module `Parking`.
  - `parseCmd` is modelled as `ParseCmd`. It turns a line into `create n`,
    `park REG COLOUR`, `leave n`, `status` or `exit`, into the error that is
    printed as "Error", or into the uncaught fault an empty colour raises.
  - `ParkingLot` is a class over an `array<Spot>`. `tryPark` and `tryLeave`
    change the spots in place.
  - `ParkingController` holds the current lot, if there is one. Its `start`
    loop is a method over a sequence of input lines. It returns the printed
    lines and why the loop ended.
  - That method is proved against a value-level run of the state machine
    (`Step`, `Run`). The controller's properties are stated about that run.
- **Cinema** (`CinemaProject.kt`), module `Cinema`. `VidnoeCinema` is a class
  over an `array2<Seat>`.
  - The constructor's nested loops price every seat by its row.
  - `sellSeat` flips one seat's availability.
  - `schemeToString` draws the hall. It is proved equal to a text function
    whose lines are proved to be the header and one line per row.
- **Coffee machine** (`CoffeeMachine.kt`), module `Coffee`.
  - `CoffeeMachineStorage` is a class whose stock, cups and income fields
    are reassigned.
  - `CoffeeMachine` carries out one round of buy, fill or take. The user's
    answers are parameters.
  - Each action is proved against a function of the store's contents.
- Module `Text` models the pieces of the Kotlin standard library that the
  three programs rely on:
  - string templates for `Int`;
  - `toIntOrNull`;
  - `split` on one character;
  - `joinToString`;
  - `appendLine`;
  - ASCII case mapping;
  - `isBlank`.

## Model

| member | source | states |
|---|---|---|
| Text.ParseIntToString | src/main/kotlin/ParkingLot.kt:113 | Any `Int` written by a string template reads back through `toIntOrNull` as itself. |
| Text.SplitJoin | src/main/kotlin/ParkingLot.kt:96 | Splitting on a delimiter that no part contains gives the joined parts back. |
| Text.JoinSplit | src/main/kotlin/ParkingLot.kt:96 | Joining the pieces of a split with the delimiter gives the line back. |
| Parking.ParseCmdRules | src/main/kotlin/ParkingLot.kt:92-129 | Each rule is stated in both directions, in terms of the space-separated tokens: <br>• a blank line is an error; <br>• one token is `exit` or `status` only when it equals the keyword in any letter case; <br>• `create` and `leave` need exactly two tokens, and the second must parse as an `Int`; <br>• `park` needs exactly three tokens; its registration is kept as typed and its colour is normalised; <br>• an empty colour is the uncaught fault. |
| Parking.ParseRender | src/main/kotlin/ParkingLot.kt:92-129 | Every `Producible` command is parsed back from its canonical line. |
| Parking.ParsedIsProducible | src/main/kotlin/ParkingLot.kt:92-129 | Every command the parser returns is `Producible`: its integers fit in an `Int`, its registration and colour contain no space, and its colour is non-empty and already normalised. |
| Parking.NormalizeColorIdempotent | src/main/kotlin/ParkingLot.kt:119 | Normalising a colour twice is the same as normalising it once. |
| Parking.NormalizeColorKeepsNoSpace | src/main/kotlin/ParkingLot.kt:119 | Normalising changes letters only, so a colour without spaces stays without spaces. |
| Parking.NormalizeColorIgnoresCase | src/main/kotlin/ParkingLot.kt:119 | Colours that differ only in letter case normalise to the same string. |
| Parking.FirstFree | src/main/kotlin/ParkingLot.kt:147 | Returns the index of a free spot such that every spot before it is taken. Returns nothing exactly when every spot is taken. |
| Parking.Busy | src/main/kotlin/ParkingLot.kt:170 | A spot is in the list exactly when it is in the lot and holds a car. |
| Parking.BusyAscending | src/main/kotlin/ParkingLot.kt:170 | Filtering keeps the lot's order, so busy spots come out in ascending number order. |
| Parking.AnyCarsIffBusy | src/main/kotlin/ParkingLot.kt:144 | `hasAnyCars` holds exactly when the list of busy spots is not empty. |
| Parking.NewSpotsEmpty | src/main/kotlin/ParkingLot.kt:142 | A new lot of `n` spots has spot `i` numbered `i + 1` and every spot free. It has no busy spots, and its first free spot is index 0 when `n > 0`. |
| Parking.LeaveUndoesPark | src/main/kotlin/ParkingLot.kt:146-168 | Freeing the spot a car has just taken gives back the earlier lot. |
| Parking.FirstFreeIs | src/main/kotlin/ParkingLot.kt:147 | When the first `j` spots are taken and spot `j` is free, the first free spot is `j`. |
| Parking.ParkFillsInOrder | src/main/kotlin/ParkingLot.kt:146-156 | Cars fill a lot from the front: parking into a lot whose first `j` spots are the taken ones takes spot `j`. |
| Parking.ParkingLot.constructor | src/main/kotlin/ParkingLot.kt:140-142 | The spots are exactly `n` free spots numbered 1 to `n`. |
| Parking.ParkingLot.HasAnyCars | src/main/kotlin/ParkingLot.kt:144 | True exactly when the list of busy spots is not empty. |
| Parking.ParkingLot.GetBusySpots | src/main/kotlin/ParkingLot.kt:170 | Exactly the occupied spots, in ascending spot-number order. |
| Parking.ParkingLot.TryPark | src/main/kotlin/ParkingLot.kt:146-156 | The car goes into the first free spot and that spot's number is returned; no other spot changes. A full lot returns nothing and stays unchanged. |
| Parking.ParkingLot.TryLeave | src/main/kotlin/ParkingLot.kt:158-168 | An occupied spot in range is emptied (true) and a free one is left alone (false); no other spot changes either way. A number outside 1..n is the exception, with no change. |
| Parking.ErrorChangesNothing | src/main/kotlin/ParkingLot.kt:33-38 | A line that does not parse prints "Error", and the run goes on from the same state. |
| Parking.NoLotAdvisory | src/main/kotlin/ParkingLot.kt:40-43 | Before any lot exists, `park`, `leave` and `status` print only the advisory line and change nothing. |
| Parking.EarlyParkAdvisory | src/main/kotlin/ParkingLot.kt:40-43 | The concrete line `park x 1` before `create` prints the advisory line. |
| Parking.CreateReplaces | src/main/kotlin/ParkingLot.kt:87-90 | `create n` replaces any lot by `n` free spots and prints "Created a parking lot with n spots."; afterwards `status` reports an empty lot. |
| Parking.ExitStops | src/main/kotlin/ParkingLot.kt:50 | `exit` ends the run. Nothing after it is read, nothing is printed and nothing changes. |
| Parking.ContinueRun | src/main/kotlin/ParkingLot.kt:30-53 | Proof step that unfolds `Run` once: a line that does not end the loop prints its lines in front of the rest of the run. The controller properties built on it are `ErrorChangesNothing`, `StatusTwice` and `RunOfReplies`. |
| Parking.RunAdvance | src/main/kotlin/ParkingLot.kt:30-53 | Proof step for `Start`'s loop, unfolding `Run` once: one iteration either ends the run with what it printed, or keeps the invariant "the whole run is the printed lines followed by the run of the remaining input". |
| Parking.ParkStep | src/main/kotlin/ParkingLot.kt:68-75 | On a lot, a `park` line moves to the lot `tryPark` leaves. It prints "{colour} car parked in spot {k}." or "Sorry, the parking lot is full." |
| Parking.LeaveStep | src/main/kotlin/ParkingLot.kt:55-66 | On a lot, a `leave` line moves to the lot `tryLeave` leaves. It prints "Spot k is free.", "There is no car in spot k." or "Spot number is invalid". |
| Parking.StatusStep | src/main/kotlin/ParkingLot.kt:77-85 | On a lot, `status` prints the status report and changes nothing. |
| Parking.StatusTwice | src/main/kotlin/ParkingLot.kt:77-85 | Asking for `status` twice prints the same report twice. |
| Parking.RunOfReplies | src/main/kotlin/ParkingLot.kt:30-53 | Lines that each print one reply, followed by `exit`, print those replies in order and end in the last state. |
| Parking.ExampleSession | src/main/kotlin/ParkingLot.kt:30-129 | A whole session, in order: <br>• `create n` for any `n >= 2`; <br>• two cars park in spots 1 and 2, with their colours normalised; <br>• `leave 1`; <br>• `status` lists only the second car; <br>• `exit`. <br>Exactly these lines are printed. |
| Parking.ParkingController.constructor | src/main/kotlin/ParkingLot.kt:10-13 | A new controller has no lot. |
| Parking.ParkingController.Create | src/main/kotlin/ParkingLot.kt:87-90 | The controller's lot becomes a new lot of `n` free spots, and the method returns the creation line. |
| Parking.ParkingController.Park | src/main/kotlin/ParkingLot.kt:68-75 | The new lot and the printed line are those of the value-level park reply. |
| Parking.ParkingController.Leave | src/main/kotlin/ParkingLot.kt:55-66 | The new lot and the printed line are those of the value-level leave reply. |
| Parking.ParkingController.PrintSpots | src/main/kotlin/ParkingLot.kt:82-84 | Prints one line "{number} {reg} {colour}" per busy spot, in order. |
| Parking.ParkingController.ShowStatus | src/main/kotlin/ParkingLot.kt:77-85 | Prints "Parking lot is empty." or one line per busy spot. |
| Parking.ParkingController.Handle | src/main/kotlin/ParkingLot.kt:31-51 | One iteration of the loop is exactly one `Step` of the state machine; the state is unchanged when the loop ends here. |
| Parking.ParkingController.Start | src/main/kotlin/ParkingLot.kt:30-53 | What `start` prints, why it stops and the lot it leaves are those of `Run` over the input lines. |
| Cinema.InitFailure | src/main/kotlin/CinemaProject.kt:80-91 | Building succeeds exactly when both dimensions are positive. A zero dimension is the "Error!" exception, checked before the allocation rejects negative sizes. |
| Cinema.PriceByRow | src/main/kotlin/CinemaProject.kt:147-153 | Every price is 10 or 8, and a row never costs less than a row behind it. |
| Cinema.HighPriceRows | src/main/kotlin/CinemaProject.kt:151-152 | In a hall of more than 60 seats, row `r` costs 10 exactly when `r <= rows / 2`, and the last row costs 8. |
| Cinema.VidnoeCinema.Open | src/main/kotlin/CinemaProject.kt:80-91 | Building either fails with the constructor's exception and gives no hall, or gives a new hall. |
| Cinema.VidnoeCinema.constructor | src/main/kotlin/CinemaProject.kt:80-101 | The hall is `rows` by `seats`, every seat is available, and each seat's price is `calcPrice` of its row. |
| Cinema.VidnoeCinema.GetTicketPrice | src/main/kotlin/CinemaProject.kt:106-109 | The price is `calcPrice` of the row, whatever the seat. It is 10 in a small hall, and there is no price for a seat outside the hall. |
| Cinema.VidnoeCinema.SellSeat | src/main/kotlin/CinemaProject.kt:114-120 | Only the chosen seat becomes sold. A seat already sold is refused with "Already sold", a seat outside the hall is refused by the index exception, and both refusals leave the hall unchanged. |
| Cinema.VidnoeCinema.HeaderToString | src/main/kotlin/CinemaProject.kt:127-131 | The header line is two spaces, then every seat number followed by a space, then a newline. |
| Cinema.VidnoeCinema.RowToString | src/main/kotlin/CinemaProject.kt:133-137 | A row's line is its number, a space, then "S " or "B " for each seat in order, then a newline. |
| Cinema.VidnoeCinema.SchemeToString | src/main/kotlin/CinemaProject.kt:125-141 | The text is the header followed by every row's line, which is the scheme of the current availability grid. |
| Cinema.SchemeTextLines | src/main/kotlin/CinemaProject.kt:125-141 | Splitting the scheme at newlines gives exactly the header, one line per row, and a final empty part. |
| Cinema.MarksAt | src/main/kotlin/CinemaProject.kt:171-173 | The seat marks take two characters per seat: `S` or `B` at position `2k`, then a space. |
| Cinema.MarkInRowLine | src/main/kotlin/CinemaProject.kt:133-136 | In a row's line, seat `k`'s `S` or `B` sits after the row number, a space and two characters per earlier seat, and is followed by a space. |
| Cinema.SeatShownInScheme | src/main/kotlin/CinemaProject.kt:133-137 | In row `r`'s line, each seat's `S` or `B` appears right after the row number, a space and the earlier seats' marks. |
| Coffee.MinusUndoesPlus | src/main/kotlin/CoffeeMachine.kt:137-152 | Subtracting what was just added restores the stock, and so does adding back what was just subtracted. |
| Coffee.PlusCommutes | src/main/kotlin/CoffeeMachine.kt:137-142 | Two refills leave the same stock in either order. |
| Coffee.FillThenBuy | src/main/kotlin/CoffeeMachine.kt:73-96 | Refilling exactly one drink's recipe and one cup, then selling that drink, leaves stock and cups as they were and adds the price to the income. |
| Coffee.BuyFromEmptyStore | src/main/kotlin/CoffeeMachine.kt:77-79 | Nothing checks the stock before a sale: selling from an empty store takes cups and water below zero. |
| Coffee.FillKeepsIncome | src/main/kotlin/CoffeeMachine.kt:95-96 | A refill leaves the income as it was; a sale at a non-negative price never lowers it. |
| Coffee.TakeTwiceReportsZero | src/main/kotlin/CoffeeMachine.kt:99-102 | Taking the money is idempotent on the store, and a second take reports "I gave you $0". |
| Coffee.TakeReportsIncome | src/main/kotlin/CoffeeMachine.kt:100 | The report is "I gave you $" followed by the income, which reads back as the income. |
| Coffee.StorageInfo | src/main/kotlin/CoffeeMachine.kt:154-164 | The report is exactly six newline-terminated lines: a header, then water, milk, beans, cups and money. |
| Coffee.MenuShape | src/main/kotlin/CoffeeMachine.kt:63-70 | The menu begins with "1 - " and the first drink's name, and ends with the last drink's entry, with no separator after it. |
| Coffee.TypeNumbersAccepted | src/main/kotlin/CoffeeMachine.kt:64-73 | The accepted choices are exactly the decimal numbers 1 to n. Each one reads back as its number. |
| Coffee.ActionPromptText | src/main/kotlin/CoffeeMachine.kt:49 | The action prompt is "Write action (buy, fill, take):". |
| Coffee.CoffeeMachineStorage.constructor | src/main/kotlin/CoffeeMachine.kt:123-132 | The store starts with the initial state's stock, cups and income. |
| Coffee.CoffeeMachineStorage.AddIngredients | src/main/kotlin/CoffeeMachine.kt:137-142 | The stock becomes the component-wise sum; cups and income stay. |
| Coffee.CoffeeMachineStorage.SubIngredients | src/main/kotlin/CoffeeMachine.kt:147-152 | The stock becomes the component-wise difference; cups and income stay. |
| Coffee.CoffeeMachineStorage.GetStorageInfo | src/main/kotlin/CoffeeMachine.kt:154-164 | The report of the current contents, line by line. |
| Coffee.CoffeeMachine.constructor | src/main/kotlin/CoffeeMachine.kt:35-45 | The machine keeps the drinks on offer and creates a new store holding the initial state. |
| Coffee.CoffeeMachine.TypeMenu | src/main/kotlin/CoffeeMachine.kt:63-70 | The loop builds exactly the ", "-separated menu and the list of choices "1" to "n". |
| Coffee.CoffeeMachine.BuyAction | src/main/kotlin/CoffeeMachine.kt:62-80 | Shows the menu prompt and sells the chosen drink: one cup fewer, the price earned, the recipe used. |
| Coffee.CoffeeMachine.FillAction | src/main/kotlin/CoffeeMachine.kt:82-97 | Shows the four prompts, then adds the cups and the three amounts; the income stays. |
| Coffee.CoffeeMachine.TakeAction | src/main/kotlin/CoffeeMachine.kt:99-102 | Reports the income and sets it to zero. |
| Coffee.CoffeeMachine.Start | src/main/kotlin/CoffeeMachine.kt:47-60 | One round, in order: <br>• the report; <br>• the action prompt; <br>• exactly the chosen action's lines and change of store; <br>• an empty line; <br>• the report of the new contents. |

## Left out

- The console adapters `ConsoleParkTerminal`, `ConsoleTerminalScreen` and `ConsoleCoffeeMachineDisplay` are not modelled, because they are I/O.
  - Their retry loops over `readln()` are also left out.
  - The parking terminal removes `>` and trims each line. The parser is fed the line that results.
- The `main` functions and the `TicketOffice` holder are not modelled. They only wire objects together.
- Case mapping, whitespace and digits cover ASCII only. Kotlin's `uppercase`, `lowercase`, `equals(ignoreCase)` and `isBlank` follow Unicode.
  - `Text.ParseInt`: Kotlin's `toIntOrNull` reads digits through `Character.digit`, so it also accepts other Unicode decimal digits. For example, `create ３` with a fullwidth 3 creates 3 spots in the source; the model answers "Error".
- Kotlin `Int` is modelled as an unbounded integer. Three places are affected:
  - `toIntOrNull` does reject numbers outside the `Int` range, and the model keeps that check;
  - sums in the coffee store and the cinema's `rows * seats` can wrap around in the source, and the model does not;
  - `Coffee.TakeReportsIncome` and `Text.ParseIntToString` assume values within the `Int` range.
- The model keeps spots and seats as values inside arrays. Kotlin's `Spot` and `Seat` objects could be aliased; the arrays do not capture that.
- `Cinema.VidnoeCinema.constructor` requires positive dimensions. The failing case cannot be expressed as a constructor, so `Cinema.VidnoeCinema.Open` models it.
- `Coffee.CoffeeMachine.BuyAction` requires the choice to be one of the offered numbers. In the source, `readOneOfValues` loops until the user types one.
- `Coffee.CoffeeMachine.Start` takes the user's answers in advance, as a `Request`. `readOneOfValues` would only ever return `buy`, `fill` or `take`.
- `Parking.ParkingController.Start` models Kotlin's end of input as the `InputExhausted` outcome. At that point `readln` throws.
- The parser knows only the commands `create`, `park`, `leave`, `status` and `exit` (`ParkingLot.kt:110-128`); there are no queries by colour or registration.
- An empty colour token is fatal. `first()` raises a `NoSuchElementException` (`ParkingLot.kt:119`), and the `try` at `ParkingLot.kt:35` catches only `IllegalArgumentException`.
- A negative `create` count is fatal. `List(spotCount)` throws (`ParkingLot.kt:88`, `ParkingLot.kt:142`) outside the parser's `try`.
