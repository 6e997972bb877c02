/** The bookstore inventory of `number3.py`: a list of books kept in place,
    deduplicated on the lower-cased (title, author) pair, with stock updates
    on the first case-insensitive match and a text report. Every operation
    returns its message string rather than raising. Prices are Python floats,
    modelled as reals; their `.2f` rendering is a parameter. */
module Bookstore {
  import opened Wrappers
  import opened PyText

  class Book {
    const title: string
    const author: string
    const price: real
    var stockQuantity: int

    /** `Book(title, author, price, stock_quantity)`: stores the values as given. */
    constructor (title: string, author: string, price: real, stockQuantity: int)
      ensures this.title == title && this.author == author
      ensures this.price == price && this.stockQuantity == stockQuantity
    {
      this.title := title;
      this.author := author;
      this.price := price;
      this.stockQuantity := stockQuantity;
    }

    /** `update_stock(new_quantity)`: overwrites the stock, no check. */
    method UpdateStock(newQuantity: int)
      modifies this
      ensures stockQuantity == newQuantity
    {
      stockQuantity := newQuantity;
    }

    /** `display_info()`: the title padded to 20, the author to 15, the price
        right-aligned in 6 and the stock right-aligned in 3. */
    function DisplayInfo(formatPrice: real -> string): string
      reads this
    {
      "Title: " + PadRight(title, 20) + " | Author: " + PadRight(author, 15)
        + " | Price: $" + PadLeft(formatPrice(price), 6) + " | Stock: " + PadLeft(Decimal(stockQuantity), 3)
    }
  }

  /** The comparison used by the duplicate check, `update_stock` and
      `find_book`: title and author equal after `lower()`. */
  predicate Matches(b: Book, title: string, author: string) {
    Lower(b.title) == Lower(title) && Lower(b.author) == Lower(author)
  }

  /** The index of the first book matching (title, author), if any. */
  function FirstMatch(books: seq<Book>, title: string, author: string): (r: Option<nat>)
    ensures r.Some? ==> r.value < |books| && Matches(books[r.value], title, author)
                        && forall j :: 0 <= j < r.value ==> !Matches(books[j], title, author)
    ensures r.None? <==> forall j :: 0 <= j < |books| ==> !Matches(books[j], title, author)
  {
    if books == [] then None
    else if Matches(books[0], title, author) then Some(0)
    else match FirstMatch(books[1..], title, author)
      case None => None
      case Some(k) => Some(k + 1)
  }

  /** `Lower` is applied to both sides, so matching is symmetric. */
  lemma MatchesSymmetric(a: Book, b: Book)
    ensures Matches(a, b.title, b.author) <==> Matches(b, a.title, a.author)
  {
  }

  const EmptyFieldsError := "Error: Title and author cannot be empty."
  const NegativePriceError := "Error: Price cannot be negative."
  const NegativeStockError := "Error: Stock quantity cannot be negative."
  const NoBooksMessage := "No books in inventory."

  function DuplicateError(title: string, author: string): string {
    "Error: '" + title + "' by " + author + " already exists in inventory."
  }

  function AddedMessage(title: string, author: string): string {
    "Successfully added '" + title + "' by " + author + " to inventory."
  }

  function UpdatedMessage(title: string, author: string, newQuantity: int): string {
    "Successfully updated stock for '" + title + "' by " + author + " to " + Decimal(newQuantity) + "."
  }

  function NotFoundError(title: string, author: string): string {
    "Error: Book '" + title + "' by " + author + " not found in inventory."
  }

  /** The rule line and the header lines of the report. */
  const Rule := Repeat('=', 80)
  const ColumnHeader := PadRight("Title", 20) + " | " + PadRight("Author", 15) + " | "
                          + PadLeft("Price", 8) + " | " + PadLeft("Stock", 5)

  /** The five lines above the books in the report. */
  function ReportHead(): (lines: seq<string>)
    ensures |lines| == 5 && lines[0] == Rule
  {
    [Rule, Center("BOOKSTORE INVENTORY", 80), Rule, ColumnHeader, Repeat('-', 80)]
  }

  /** One `display_info()` line per book, in list order. */
  function BookLines(books: seq<Book>, formatPrice: real -> string): (lines: seq<string>)
    reads books
    ensures |lines| == |books|
    ensures forall i :: 0 <= i < |books| ==> lines[i] == books[i].DisplayInfo(formatPrice)
  {
    if books == [] then []
    else BookLines(books[..|books| - 1], formatPrice) + [books[|books| - 1].DisplayInfo(formatPrice)]
  }

  class BookstoreInventory {
    var books: seq<Book>

    /** No two books share a lower-cased (title, author) pair. */
    predicate Valid()
      reads this
    {
      forall i, j :: 0 <= i < j < |books| ==> !Matches(books[j], books[i].title, books[i].author)
    }

    /** `BookstoreInventory()`: an empty list. */
    constructor ()
      ensures books == [] && Valid()
    {
      books := [];
    }

    /** `add_new_book`: the checks run in the order empty title or author,
        negative price, negative stock, duplicate; the first that fails gives
        its message and leaves the list alone. Otherwise exactly one new book
        with the given fields is appended. */
    method AddNewBook(title: string, author: string, price: real, stockQuantity: int) returns (message: string)
      requires Valid()
      modifies this
      ensures Valid()
      ensures title == "" || author == "" ==> message == EmptyFieldsError && books == old(books)
      ensures title != "" && author != "" && price < 0.0 ==> message == NegativePriceError && books == old(books)
      ensures title != "" && author != "" && price >= 0.0 && stockQuantity < 0 ==>
                message == NegativeStockError && books == old(books)
      ensures title != "" && author != "" && price >= 0.0 && stockQuantity >= 0 ==>
                if FirstMatch(old(books), title, author).Some? then
                  message == DuplicateError(title, author) && books == old(books)
                else
                  message == AddedMessage(title, author)
                  && |books| == |old(books)| + 1 && books[..|old(books)|] == old(books)
                  && fresh(books[|old(books)|])
                  && books[|old(books)|].title == title && books[|old(books)|].author == author
                  && books[|old(books)|].price == price && books[|old(books)|].stockQuantity == stockQuantity
    {
      if title == "" || author == "" {
        return EmptyFieldsError;
      }
      if price < 0.0 {
        return NegativePriceError;
      }
      if stockQuantity < 0 {
        return NegativeStockError;
      }
      var i := 0;
      while i < |books|
        invariant 0 <= i <= |books|
        invariant forall j :: 0 <= j < i ==> !Matches(books[j], title, author)
      {
        if Matches(books[i], title, author) {
          return DuplicateError(title, author);
        }
        i := i + 1;
      }
      var book := new Book(title, author, price, stockQuantity);
      books := books + [book];
      return AddedMessage(title, author);
    }

    /** `update_stock`: a negative quantity is rejected; otherwise the stock
        of the first matching book, and nothing else, is set. With no match
        the not-found message is returned and nothing changes. */
    method UpdateStock(title: string, author: string, newQuantity: int) returns (message: string)
      requires Valid()
      modifies books
      ensures newQuantity < 0 ==> message == NegativeStockError
      ensures newQuantity >= 0 && FirstMatch(books, title, author).None? ==> message == NotFoundError(title, author)
      ensures newQuantity >= 0 && FirstMatch(books, title, author).Some? ==>
                message == UpdatedMessage(title, author, newQuantity)
                && books[FirstMatch(books, title, author).value].stockQuantity == newQuantity
      ensures forall j :: 0 <= j < |books| && (newQuantity < 0 || Some(j) != FirstMatch(books, title, author)) ==>
                books[j].stockQuantity == old(books[j].stockQuantity)
    {
      if newQuantity < 0 {
        return NegativeStockError;
      }
      var i := 0;
      while i < |books|
        invariant 0 <= i <= |books|
        invariant forall j :: 0 <= j < i ==> !Matches(books[j], title, author)
      {
        if Matches(books[i], title, author) {
          forall j | 0 <= j < |books| && j != i
            ensures books[j] != books[i]
          {
            DistinctBooks(i, j);
          }
          books[i].UpdateStock(newQuantity);
          return UpdatedMessage(title, author, newQuantity);
        }
        i := i + 1;
      }
      return NotFoundError(title, author);
    }

    /** `find_book`: the first case-insensitive match, or `None`. */
    method FindBook(title: string, author: string) returns (r: Option<Book>)
      ensures r.Some? <==> exists j :: 0 <= j < |books| && Matches(books[j], title, author)
      ensures r.Some? ==> exists k :: 0 <= k < |books| && r.value == books[k] && Matches(books[k], title, author)
                                      && forall j :: 0 <= j < k ==> !Matches(books[j], title, author)
    {
      var i := 0;
      while i < |books|
        invariant 0 <= i <= |books|
        invariant forall j :: 0 <= j < i ==> !Matches(books[j], title, author)
      {
        if Matches(books[i], title, author) {
          return Some(books[i]);
        }
        i := i + 1;
      }
      return None;
    }

    /** The lines `display_all_books` joins for a non-empty inventory: rule,
        centred title, rule, column header, dashes, one line per book in
        order, rule and the total. */
    function ReportLines(formatPrice: real -> string): (lines: seq<string>)
      reads this, books
      ensures |lines| == |books| + 7
      ensures lines[0] == Rule && lines[|lines| - 1] == "Total books in inventory: " + Decimal(|books|)
      ensures forall i :: 0 <= i < |books| ==> lines[5 + i] == books[i].DisplayInfo(formatPrice)
    {
      ReportHead() + BookLines(books, formatPrice) + [Rule, "Total books in inventory: " + Decimal(|books|)]
    }

    /** `display_all_books()`: the fixed message for an empty inventory,
        otherwise the report lines joined by newlines. */
    method DisplayAllBooks(formatPrice: real -> string) returns (s: string)
      ensures books == [] ==> s == NoBooksMessage
      ensures books != [] ==> s == Join("\n", ReportLines(formatPrice))
    {
      if books == [] {
        return NoBooksMessage;
      }
      var bookLines := CollectBookLines(formatPrice);
      s := Join("\n", ReportHead() + bookLines + [Rule, "Total books in inventory: " + Decimal(|books|)]);
    }

    /** The loop of `display_all_books` that renders each book in turn. */
    method CollectBookLines(formatPrice: real -> string) returns (lines: seq<string>)
      ensures lines == BookLines(books, formatPrice)
    {
      lines := [];
      var i := 0;
      while i < |books|
        invariant 0 <= i <= |books|
        invariant lines == BookLines(books[..i], formatPrice)
      {
        assert books[..i + 1][..i] == books[..i];
        lines := lines + [books[i].DisplayInfo(formatPrice)];
        i := i + 1;
      }
      assert books[..i] == books;
    }

    /** The report of a non-empty inventory opens with the rule and ends with
        the count of books, so it is never the empty-inventory message. */
    lemma ReportShape(formatPrice: real -> string)
      requires books != []
      ensures var s := Join("\n", ReportLines(formatPrice));
              |s| >= 80 && s[..80] == Rule
              && |s| >= |"Total books in inventory: " + Decimal(|books|)|
              && s[|s| - |"Total books in inventory: " + Decimal(|books|)|..] == "Total books in inventory: " + Decimal(|books|)
              && s != NoBooksMessage
    {
      var lines := ReportLines(formatPrice);
      JoinEnds("\n", lines);
      var s := Join("\n", lines);
      assert s[0] == Rule[0] == '=';
      assert NoBooksMessage[0] == 'N';
    }

    /** In a valid inventory at most one book matches a (title, author) pair,
        so "the first match" is "the match". */
    lemma MatchIsUnique(title: string, author: string, i: int, j: int)
      requires Valid()
      requires 0 <= i < |books| && 0 <= j < |books|
      requires Matches(books[i], title, author) && Matches(books[j], title, author)
      ensures i == j
    {
    }

    /** A valid inventory never holds the same book object twice. */
    lemma DistinctBooks(i: int, j: int)
      requires Valid()
      requires 0 <= i < |books| && 0 <= j < |books| && i != j
      ensures books[i] != books[j]
    {
    }
  }

  /** The first half of a cut-down run of the demonstration: two books are
      added and a second "1984" by George Orwell is refused. */
  method AddDemonstration() returns (store: BookstoreInventory, messages: seq<string>)
    ensures fresh(store) && store.Valid() && |store.books| == 2
    ensures fresh(store.books[0]) && fresh(store.books[1])
    ensures store.books[0].title == "1984" && store.books[0].author == "George Orwell"
    ensures store.books[1].title == "Pride and Prejudice" && store.books[1].author == "Jane Austen"
    ensures store.books[1].stockQuantity == 20
    ensures messages == [
      AddedMessage("1984", "George Orwell"),
      AddedMessage("Pride and Prejudice", "Jane Austen"),
      DuplicateError("1984", "George Orwell")]
  {
    store := new BookstoreInventory();
    var m1 := store.AddNewBook("1984", "George Orwell", 10.99, 12);
    var m2 := store.AddNewBook("Pride and Prejudice", "Jane Austen", 9.99, 20);
    var m3 := store.AddNewBook("1984", "George Orwell", 11.99, 5);
    messages := [m1, m2, m3];
  }

  /** The second half: the stock update lands on "1984" only and an unknown
      book is not found. */
  method Demonstration() returns (messages: seq<string>, stocks: seq<int>)
    ensures messages == [
      AddedMessage("1984", "George Orwell"),
      AddedMessage("Pride and Prejudice", "Jane Austen"),
      DuplicateError("1984", "George Orwell"),
      UpdatedMessage("1984", "George Orwell", 20),
      NotFoundError("Unknown Book", "Unknown Author")]
    ensures stocks == [20, 20]
  {
    var store, added := AddDemonstration();
    store.DistinctBooks(0, 1);
    var m4 := store.UpdateStock("1984", "George Orwell", 20);
    var m5 := store.UpdateStock("Unknown Book", "Unknown Author", 5);
    messages := added + [m4, m5];
    stocks := [store.books[0].stockQuantity, store.books[1].stockQuantity];
  }
}
