/** The cinema simulator: a hall of `rowsCount` rows of `seatsCount` seats,
    priced when the hall is built, sold one seat at a time and drawn as text. */
module Cinema {
  import opened Text

  const TOTAL_SEATS_EQUAL_PRICE_LIMIT: int := 60
  const HIGH_PRICE: int := 10
  const LOW_PRICE: int := 8

  /** One seat: its price (set while the hall is built) and whether it is still for sale. */
  datatype Seat = Seat(price: Option<int>, available: bool)

  /** Why building a hall fails: a zero dimension raises "Error!", and a
      negative one makes the allocation of the seat lists throw. */
  datatype InitError = ZeroDimension | NegativeDimension

  /** `VidnoeCinema`'s constructor: the check on zero dimensions comes first,
      then the allocation rejects negative sizes. */
  function InitFailure(rowsCount: int, seatsCount: int): (e: Option<InitError>)
    ensures e == None <==> rowsCount > 0 && seatsCount > 0
    ensures e == Some(ZeroDimension) <==> rowsCount == 0 || seatsCount == 0
  {
    if rowsCount == 0 || seatsCount == 0 then Some(ZeroDimension)
    else if rowsCount < 0 || seatsCount < 0 then Some(NegativeDimension)
    else None
  }

  /** A hall is small when it has at most 60 seats. */
  predicate IsSmall(rowsCount: int, seatsCount: int) {
    rowsCount * seatsCount <= TOTAL_SEATS_EQUAL_PRICE_LIMIT
  }

  /** `calcPrice`: every seat of a small hall costs the high price; in a large
      hall the front half of the rows (`rowsCount / 2` of them) does. */
  function CalcPrice(rowsCount: int, isSmallCinema: bool, rowNumber: int): int
    requires rowsCount > 0
  {
    if isSmallCinema then HIGH_PRICE
    else
      var highPriceRowsCount := rowsCount / 2;
      if rowNumber <= highPriceRowsCount then HIGH_PRICE else LOW_PRICE
  }

  /** Front rows never cost less than rows behind them, and every price is one of the two. */
  lemma PriceByRow(rowsCount: int, isSmallCinema: bool, front: int, back: int)
    requires rowsCount > 0 && front <= back
    ensures CalcPrice(rowsCount, isSmallCinema, front) in {HIGH_PRICE, LOW_PRICE}
    ensures CalcPrice(rowsCount, isSmallCinema, front) >= CalcPrice(rowsCount, isSmallCinema, back)
  {
  }

  /** In a large hall exactly `rowsCount / 2` rows are sold at the high price:
      row `r` of `1..rowsCount` is high exactly when `r <= rowsCount / 2`. */
  lemma HighPriceRows(rowsCount: int, seatsCount: int, rowNumber: int)
    requires rowsCount > 0 && seatsCount > 0 && !IsSmall(rowsCount, seatsCount)
    requires 1 <= rowNumber <= rowsCount
    ensures CalcPrice(rowsCount, false, rowNumber) == HIGH_PRICE <==> rowNumber <= rowsCount / 2
    ensures CalcPrice(rowsCount, false, rowsCount) == LOW_PRICE
  {
  }

  /** How `Seat.toString` draws a seat: available or bought. */
  function SeatMark(available: bool): string {
    if available then "S" else "B"
  }

  /** The header line without its newline: two spaces, then `k ` for each seat number `k`. */
  function HeaderLine(seatsCount: nat): string {
    if seatsCount == 0 then "  " else HeaderLine(seatsCount - 1) + IntToString(seatsCount) + " "
  }

  /** The marks of one row, each followed by a space. */
  function Marks(row: seq<bool>): string {
    if row == [] then "" else Marks(row[..|row| - 1]) + SeatMark(row[|row| - 1]) + " "
  }

  /** The line for row number `rowNumber` without its newline. */
  function RowLine(rowNumber: int, row: seq<bool>): string {
    IntToString(rowNumber) + " " + Marks(row)
  }

  /** The lines of the first `n` rows of `grid`, each followed by a newline. */
  function RowsText(grid: seq<seq<bool>>, n: nat): string
    requires n <= |grid|
  {
    if n == 0 then "" else RowsText(grid, n - 1) + (RowLine(n, grid[n - 1]) + "\n")
  }

  /** What `schemeToString` returns for a hall whose availability is `grid`. */
  function SchemeText(seatsCount: nat, grid: seq<seq<bool>>): string {
    HeaderLine(seatsCount) + "\n" + RowsText(grid, |grid|)
  }

  lemma MarksStep(row: seq<bool>, k: nat)
    requires k < |row|
    ensures Marks(row[..k + 1]) == Marks(row[..k]) + SeatMark(row[k]) + " "
  {
    assert row[..k + 1][..k] == row[..k];
  }

  /** Mark `k` of a row sits at position `2 k`, with a space after it. */
  lemma {:induction false} MarksAt(row: seq<bool>, k: nat)
    requires k < |row|
    ensures |Marks(row)| == 2 * |row|
    ensures Marks(row)[2 * k] == (if row[k] then 'S' else 'B') && Marks(row)[2 * k + 1] == ' '
    decreases |row|
  {
    var init := row[..|row| - 1];
    if k < |row| - 1 {
      MarksAt(init, k);
      assert init[k] == row[k];
    } else if init != [] {
      MarksAt(init, 0);
    }
  }

  lemma {:induction false} MarksHaveNoNewline(row: seq<bool>)
    ensures '\n' !in Marks(row)
    decreases |row|
  {
    if row != [] {
      MarksHaveNoNewline(row[..|row| - 1]);
    }
  }

  lemma {:induction false} HeaderHasNoNewline(seatsCount: nat)
    ensures '\n' !in HeaderLine(seatsCount)
  {
    if seatsCount > 0 {
      HeaderHasNoNewline(seatsCount - 1);
      var number := IntToString(seatsCount);
      assert forall i :: 0 <= i < |number| ==> number[i] != '\n';
    }
  }

  lemma RowLineHasNoNewline(rowNumber: int, row: seq<bool>)
    ensures '\n' !in RowLine(rowNumber, row)
  {
    MarksHaveNoNewline(row);
    var number := IntToString(rowNumber);
    assert forall i :: 0 <= i < |number| ==> number[i] != '\n';
  }

  /** The lines of a scheme: the header, then one line per row. */
  function SchemeLines(seatsCount: nat, grid: seq<seq<bool>>): seq<string> {
    [HeaderLine(seatsCount)] + seq(|grid|, i requires 0 <= i < |grid| => RowLine(i + 1, grid[i]))
  }

  lemma {:induction false} RowsTextJoin(grid: seq<seq<bool>>, header: string, n: nat)
    requires n <= |grid|
    ensures header + "\n" + RowsText(grid, n) ==
      Join([header] + seq(n, i requires 0 <= i < n => RowLine(i + 1, grid[i])) + [""], "\n")
    decreases n
  {
    var lines := seq(n, i requires 0 <= i < n => RowLine(i + 1, grid[i]));
    if n == 0 {
      assert [header] + lines + [""] == [header, ""];
    } else {
      var initLines := seq(n - 1, i requires 0 <= i < n - 1 => RowLine(i + 1, grid[i]));
      var last := RowLine(n, grid[n - 1]);
      RowsTextJoin(grid, header, n - 1);
      assert lines == initLines + [last];
      JoinSnoc([header] + initLines, last);
      assert [header] + lines + [""] == ([header] + initLines) + [last, ""];
      assert [header] + initLines + [""] == ([header] + initLines) + [""];
      ConcatAssoc(header + "\n", RowsText(grid, n - 1), last + "\n");
    }
  }

  /** Replacing the final empty part by `last` and a new empty part adds `last` and a newline. */
  lemma {:induction false} JoinSnoc(parts: seq<string>, last: string)
    requires |parts| >= 1
    ensures Join(parts + [last, ""], "\n") == Join(parts + [""], "\n") + (last + "\n")
    decreases |parts|
  {
    if |parts| == 1 {
      assert parts + [last, ""] == [parts[0], last, ""];
      assert [parts[0], last, ""][1..] == [last, ""] && [last, ""][1..] == [""];
      assert parts + [""] == [parts[0], ""] && [parts[0], ""][1..] == [""];
    } else {
      JoinSnoc(parts[1..], last);
      assert (parts + [last, ""])[1..] == parts[1..] + [last, ""];
      assert (parts + [""])[1..] == parts[1..] + [""];
    }
  }

  /** `schemeToString` is the header line and one line per row, each ending in a newline:
      splitting it at newlines gives exactly those lines and a final empty part. */
  lemma SchemeTextLines(seatsCount: nat, grid: seq<seq<bool>>)
    ensures Split(SchemeText(seatsCount, grid), '\n') == SchemeLines(seatsCount, grid) + [""]
  {
    RowsTextJoin(grid, HeaderLine(seatsCount), |grid|);
    var lines := SchemeLines(seatsCount, grid) + [""];
    forall i | 0 <= i < |lines| ensures '\n' !in lines[i] {
      if i == 0 {
        HeaderHasNoNewline(seatsCount);
      } else if i <= |grid| {
        RowLineHasNoNewline(i, grid[i - 1]);
      }
    }
    SplitJoin(lines, '\n');
  }

  /** In the drawn scheme, seat `s` of row index `r` appears as `S` or `B`
      in its row's line, after the row number, a space and two characters per earlier seat. */
  lemma SeatShownInScheme(seatsCount: nat, grid: seq<seq<bool>>, r: nat, s: nat)
    requires r < |grid| && s < |grid[r]|
    ensures var line := SchemeLines(seatsCount, grid)[r + 1];
      var at := |IntToString(r + 1)| + 1 + 2 * s;
      at + 1 < |line| && line[at] == (if grid[r][s] then 'S' else 'B') && line[at + 1] == ' '
  {
    assert SchemeLines(seatsCount, grid)[r + 1] == RowLine(r + 1, grid[r]);
    MarkInRowLine(r + 1, grid[r], s);
  }

  lemma MarkInRowLine(rowNumber: int, row: seq<bool>, s: nat)
    requires s < |row|
    ensures var line := RowLine(rowNumber, row);
      var at := |IntToString(rowNumber)| + 1 + 2 * s;
      at + 1 < |line| && line[at] == (if row[s] then 'S' else 'B') && line[at + 1] == ' '
  {
    var prefix := IntToString(rowNumber) + " ";
    var marks := Marks(row);
    MarksAt(row, s);
    assert RowLine(rowNumber, row) == prefix + marks;
  }

  /** The answer to selling a seat: sold now, the "Already sold" exception, or
      the index exception for a seat outside the hall. */
  datatype SaleResult = Sold | AlreadySold | NoSuchSeat

  /** `VidnoeCinema`: the seat grid is built and priced once; only the
      availability of seats changes afterwards. */
  class VidnoeCinema {
    const rowsCount: int
    const seatsCount: int
    const isSmallCinema: bool
    const seatsScheme: array2<Seat>

    ghost predicate Valid()
      reads seatsScheme
    {
      && rowsCount > 0 && seatsCount > 0
      && seatsScheme.Length0 == rowsCount && seatsScheme.Length1 == seatsCount
      && isSmallCinema == IsSmall(rowsCount, seatsCount)
      && forall r, s :: 0 <= r < rowsCount && 0 <= s < seatsCount ==>
           seatsScheme[r, s].price == Some(CalcPrice(rowsCount, isSmallCinema, r + 1))
    }

    /** Availability of the seats of row index `r`. */
    ghost function RowAvailability(r: nat): (row: seq<bool>)
      reads seatsScheme
      requires r < seatsScheme.Length0
      ensures |row| == seatsScheme.Length1
      ensures forall s :: 0 <= s < |row| ==> row[s] == seatsScheme[r, s].available
    {
      seq(seatsScheme.Length1, s requires 0 <= s < seatsScheme.Length1 reads seatsScheme =>
        seatsScheme[r, s].available)
    }

    /** Availability of every seat, row by row. */
    ghost function Grid(): (grid: seq<seq<bool>>)
      reads seatsScheme
      ensures |grid| == seatsScheme.Length0
      ensures forall r :: 0 <= r < |grid| ==> grid[r] == RowAvailability(r)
    {
      seq(seatsScheme.Length0, r requires 0 <= r < seatsScheme.Length0 reads seatsScheme =>
        RowAvailability(r))
    }

    /** Building a hall as a caller sees it: the constructor's exception for a
        zero or negative dimension, or a new hall. */
    static method Open(rowsCount: int, seatsCount: int) returns (cinema: VidnoeCinema?, failure: Option<InitError>)
      ensures failure == InitFailure(rowsCount, seatsCount)
      ensures failure.Some? <==> cinema == null
      ensures cinema != null ==>
        && fresh(cinema.seatsScheme) && cinema.Valid()
        && cinema.rowsCount == rowsCount && cinema.seatsCount == seatsCount
        && forall r, s :: 0 <= r < rowsCount && 0 <= s < seatsCount ==> cinema.seatsScheme[r, s].available
    {
      failure := InitFailure(rowsCount, seatsCount);
      if failure.Some? {
        return null, failure;
      }
      cinema := new VidnoeCinema(rowsCount, seatsCount);
    }

    /** Build the hall: every seat available and priced by its row. */
    constructor (rowsCount: int, seatsCount: int)
      requires InitFailure(rowsCount, seatsCount) == None
      ensures Valid() && fresh(seatsScheme)
      ensures this.rowsCount == rowsCount && this.seatsCount == seatsCount
      ensures forall r, s :: 0 <= r < rowsCount && 0 <= s < seatsCount ==> seatsScheme[r, s].available
    {
      this.rowsCount := rowsCount;
      this.seatsCount := seatsCount;
      var scheme := new Seat[rowsCount, seatsCount]((r, s) => Seat(None, true));
      var small := IsSmall(rowsCount, seatsCount);
      var r := 0;
      while r < rowsCount
        invariant 0 <= r <= rowsCount
        invariant forall i, j :: 0 <= i < r && 0 <= j < seatsCount ==>
          scheme[i, j] == Seat(Some(CalcPrice(rowsCount, small, i + 1)), true)
        invariant forall i, j :: r <= i < rowsCount && 0 <= j < seatsCount ==> scheme[i, j].available
      {
        var s := 0;
        while s < seatsCount
          invariant 0 <= s <= seatsCount
          invariant forall i, j :: 0 <= i < r && 0 <= j < seatsCount ==>
            scheme[i, j] == Seat(Some(CalcPrice(rowsCount, small, i + 1)), true)
          invariant forall j :: 0 <= j < s ==> scheme[r, j] == Seat(Some(CalcPrice(rowsCount, small, r + 1)), true)
          invariant forall i, j :: r <= i < rowsCount && 0 <= j < seatsCount ==> scheme[i, j].available
        {
          scheme[r, s] := scheme[r, s].(price := Some(CalcPrice(rowsCount, small, r + 1)));
          s := s + 1;
        }
        r := r + 1;
      }
      this.isSmallCinema := small;
      this.seatsScheme := scheme;
    }

    /** `getTicketPrice`: the price fixed for the seat's row; the seat number
        plays no part. A seat outside the hall makes the source's list access
        throw; here there is no price. */
    function GetTicketPrice(rowNumber: int, seatNumber: int): (price: Option<int>)
      reads seatsScheme
      requires Valid()
      ensures price.None? <==> !(1 <= rowNumber <= rowsCount && 1 <= seatNumber <= seatsCount)
      ensures price.Some? ==> price.value == CalcPrice(rowsCount, isSmallCinema, rowNumber)
      ensures price.Some? ==> price.value == HIGH_PRICE || price.value == LOW_PRICE
      ensures price.Some? && isSmallCinema ==> price.value == HIGH_PRICE
    {
      if 1 <= rowNumber <= rowsCount && 1 <= seatNumber <= seatsCount then
        Some(seatsScheme[rowNumber - 1, seatNumber - 1].price.value)
      else None
    }

    /** `sellSeat`: mark one seat as bought; a seat already bought is refused
        with "Already sold", and a seat outside the hall makes the list access
        throw. In both refusals the hall stays as it was. */
    method SellSeat(rowNumber: int, seatNumber: int) returns (result: SaleResult)
      requires Valid()
      modifies seatsScheme
      ensures Valid()
      ensures result == NoSuchSeat <==> !(1 <= rowNumber <= rowsCount && 1 <= seatNumber <= seatsCount)
      ensures result == AlreadySold <==>
        1 <= rowNumber <= rowsCount && 1 <= seatNumber <= seatsCount && !old(Grid())[rowNumber - 1][seatNumber - 1]
      ensures Grid() ==
        if result != Sold then old(Grid())
        else old(Grid())[rowNumber - 1 := old(Grid())[rowNumber - 1][seatNumber - 1 := false]]
    {
      if !(1 <= rowNumber <= rowsCount && 1 <= seatNumber <= seatsCount) {
        return NoSuchSeat;
      }
      var seat := seatsScheme[rowNumber - 1, seatNumber - 1];
      if !seat.available {
        return AlreadySold;
      }
      ghost var before := Grid();
      seatsScheme[rowNumber - 1, seatNumber - 1] := seat.(available := false);
      result := Sold;
      ghost var expected := before[rowNumber - 1 := before[rowNumber - 1][seatNumber - 1 := false]];
      forall r | 0 <= r < rowsCount ensures Grid()[r] == expected[r] {
      }
    }

    /** The header line of `schemeToString`, with its newline. */
    method HeaderToString() returns (line: string)
      requires Valid()
      ensures line == HeaderLine(seatsCount) + "\n"
    {
      line := "  ";
      for seat := 1 to seatsCount + 1
        invariant line == HeaderLine(seat - 1)
      {
        line := line + IntToString(seat) + " ";
      }
      line := line + "\n";
    }

    /** The line of row index `r` in `schemeToString`, with its newline. */
    method RowToString(r: nat) returns (line: string)
      requires Valid() && r < rowsCount
      ensures line == RowLine(r + 1, RowAvailability(r)) + "\n"
    {
      ghost var row := RowAvailability(r);
      line := IntToString(r + 1) + " ";
      ghost var prefix := line;
      for seat := 1 to seatsCount + 1
        invariant line == prefix + Marks(row[..seat - 1])
      {
        MarksStep(row, seat - 1);
        line := line + SeatMark(seatsScheme[r, seat - 1].available) + " ";
      }
      assert row[..seatsCount] == row;
      line := line + "\n";
    }

    /** `schemeToString`: the header of seat numbers, then each row's number and marks. */
    method SchemeToString() returns (text: string)
      requires Valid()
      ensures text == SchemeText(seatsCount, Grid())
    {
      var sb := HeaderToString();
      ghost var grid := Grid();
      ghost var header := sb;
      for row := 1 to rowsCount + 1
        invariant sb == header + RowsText(grid, row - 1)
      {
        var line := RowToString(row - 1);
        assert grid[row - 1] == RowAvailability(row - 1);
        ConcatAssoc(header, RowsText(grid, row - 1), line);
        sb := sb + line;
      }
      text := sb;
    }
  }
}
