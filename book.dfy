/**
 * The library book record (`custom.book`): its ISBN constraint, its computed
 * loan count, its defaults and the three unconditional state actions.
 */
module Book {
  import opened Optional

  datatype BookState = Available | Borrowed | Lost

  datatype Condition = New | Good | Fair | Poor | Damaged

  /** The only thing the ISBN constraint measures: the length without hyphens. */
  const IsbnLength: nat := 13

  const IsbnMessage: string := "ISBN must be 13 digits"

  /** The outcome of the `@api.constrains('isbn')` check. */
  datatype Validation = Passed | ValidationError(message: string)

  /** `s.replace('-', '')`: the characters of `s` in order, every hyphen dropped. */
  function StripHyphens(s: string): (r: string)
    ensures '-' !in r
    ensures |r| <= |s|
  {
    if s == [] then []
    else if s[0] == '-' then StripHyphens(s[1..])
    else [s[0]] + StripHyphens(s[1..])
  }

  /** What `StripHyphens` drops is exactly the hyphens: every other character keeps its count. */
  lemma {:induction false} StripHyphensKeepsOthers(s: string)
    ensures multiset(StripHyphens(s)) == multiset(s)['-' := 0]
  {
    if s != [] {
      StripHyphensKeepsOthers(s[1..]);
      assert s == [s[0]] + s[1..];
      assert multiset(s) == multiset{s[0]} + multiset(s[1..]);
    }
  }

  /** Whether a book with this ISBN passes `_check_isbn` (an empty ISBN is falsy and skipped). */
  predicate IsbnAccepted(isbn: string)
  {
    isbn == "" || |StripHyphens(isbn)| == IsbnLength
  }

  /** Removing hyphens distributes over concatenation. */
  lemma {:induction false} StripHyphensConcat(a: string, b: string)
    ensures StripHyphens(a + b) == StripHyphens(a) + StripHyphens(b)
  {
    if a == [] {
      assert a + b == b;
    } else {
      assert (a + b)[1..] == a[1..] + b;
      assert (a + b)[0] == a[0];
      StripHyphensConcat(a[1..], b);
      if a[0] == '-' {
        assert StripHyphens(a + b) == StripHyphens(a[1..] + b);
        assert StripHyphens(a) == StripHyphens(a[1..]);
      } else {
        assert StripHyphens(a + b) == [a[0]] + StripHyphens(a[1..] + b);
        assert StripHyphens(a) == [a[0]] + StripHyphens(a[1..]);
      }
    }
  }

  /** A string without hyphens is left as it is. */
  lemma {:induction false} StripHyphensNoHyphen(s: string)
    requires '-' !in s
    ensures StripHyphens(s) == s
  {
    if s != [] {
      assert s[0] in s;
      assert forall c :: c in s[1..] ==> c in s;
      StripHyphensNoHyphen(s[1..]);
    }
  }

  /**
   * Acceptance counted independently: a non-empty ISBN passes exactly when it
   * holds 13 characters that are not hyphens.
   */
  lemma IsbnAcceptedCountsNonHyphens(isbn: string)
    ensures IsbnAccepted(isbn) <==> isbn == "" || |isbn| - multiset(isbn)['-'] == IsbnLength
  {
    var r := StripHyphens(isbn);
    StripHyphensKeepsOthers(isbn);
    assert |multiset(r)| == |r|;
    assert |multiset(isbn)| == |isbn|;
    assert |multiset(isbn)| == |multiset(isbn)['-' := 0]| + multiset(isbn)['-'] by {
      var m := multiset(isbn);
      var h := multiset{}['-' := m['-']];
      assert m == m['-' := 0] + h;
    }
  }

  /**
   * Inserting a hyphen anywhere in a non-empty ISBN does not change whether it
   * is accepted (and so, read backwards, neither does deleting one).
   */
  lemma HyphenInsertionPreservesAcceptance(a: string, b: string)
    requires a + b != ""
    ensures IsbnAccepted(a + "-" + b) == IsbnAccepted(a + b)
  {
    StripHyphensConcat(a + "-", b);
    StripHyphensConcat(a, "-");
    StripHyphensConcat(a, b);
    assert StripHyphens("-") == "";
  }

  /** The empty ISBN is the exception: it is skipped, yet a lone hyphen is refused. */
  lemma LoneHyphenRefused()
    ensures IsbnAccepted("") && !IsbnAccepted("-")
  {
    assert StripHyphens("-") == "";
  }

  /**
   * The check measures length only: any 13 characters without a hyphen pass,
   * letters included, whatever the error message says about digits.
   */
  lemma IsbnCheckIsLengthOnly(isbn: string)
    requires |isbn| == IsbnLength && '-' !in isbn
    ensures IsbnAccepted(isbn)
  {
    StripHyphensNoHyphen(isbn);
  }

  /** A concrete ISBN made of letters that the check lets through. */
  lemma LettersPassIsbnCheck()
    ensures IsbnAccepted("ABCDEFGHIJKLM")
  {
    IsbnCheckIsLengthOnly("ABCDEFGHIJKLM");
  }

  class Book {
    var name: string
    var isbn: string
    var active: bool
    var state: BookState
    var condition: Condition
    var acquisitionDate: int
    /** The ids of the loans whose `book_id` is this book (`loan_ids`, kept by the ORM). */
    var loanIds: set<int>
    var loanCount: int

    /**
     * The record `create` builds, with the field defaults: active, available,
     * in new condition, acquired today. The ISBN constraint is run by `Create`.
     */
    constructor (name: string, isbn: string, today: int)
      ensures this.name == name && this.isbn == isbn
      ensures active && state == Available && condition == New
      ensures acquisitionDate == today && loanIds == {} && loanCount == 0
    {
      this.name := name;
      this.isbn := isbn;
      active := true;
      state := Available;
      condition := New;
      acquisitionDate := today;
      loanIds := {};
      loanCount := 0;
    }
  }

  /** `_check_isbn`: walks the recordset and raises on the first unacceptable ISBN. */
  method CheckIsbn(books: seq<Book>) returns (v: Validation)
    ensures v.Passed? <==> forall b :: b in books ==> IsbnAccepted(b.isbn)
    ensures v.ValidationError? ==> v.message == IsbnMessage
  {
    var i := 0;
    while i < |books|
      invariant 0 <= i <= |books|
      invariant forall j :: 0 <= j < i ==> IsbnAccepted(books[j].isbn)
    {
      if books[i].isbn != "" && |StripHyphens(books[i].isbn)| != IsbnLength {
        return ValidationError(IsbnMessage);
      }
      i := i + 1;
    }
    v := Passed;
  }

  /**
   * `create` as the ORM runs it: the record is built with its defaults, then
   * the `isbn` constraint is checked, and a refusal rolls the creation back.
   */
  method Create(name: string, isbn: string, today: int) returns (v: Validation, book: Option<Book>)
    ensures v.Passed? <==> IsbnAccepted(isbn)
    ensures v.ValidationError? ==> v.message == IsbnMessage && book.None?
    ensures v.Passed? ==> && book.Some? && fresh(book.value)
                          && book.value.name == name && book.value.isbn == isbn
                          && book.value.active && book.value.state == Available && book.value.condition == New
                          && book.value.acquisitionDate == today && book.value.loanIds == {} && book.value.loanCount == 0
  {
    var b := new Book(name, isbn, today);
    v := CheckIsbn([b]);
    book := if v.Passed? then Some(b) else None;
  }

  /** A three-character ISBN is refused on creation, and no book is left behind. */
  method ShortIsbnCreateRefused(today: int) returns (v: Validation, book: Option<Book>)
    ensures v == ValidationError(IsbnMessage) && book.None?
  {
    assert StripHyphens("123") == "123" by {
      StripHyphensNoHyphen("123");
    }
    v, book := Create("Dune", "123", today);
  }

  /** `write` of a new ISBN: the constraint runs again, and a refusal rolls the write back. */
  method WriteIsbn(book: Book, isbn: string) returns (v: Validation)
    modifies book`isbn
    ensures v.Passed? <==> IsbnAccepted(isbn)
    ensures v.ValidationError? ==> v.message == IsbnMessage
    ensures book.isbn == if v.Passed? then isbn else old(book.isbn)
  {
    var previous := book.isbn;
    book.isbn := isbn;
    v := CheckIsbn([book]);
    if v.ValidationError? {
      book.isbn := previous;
    }
  }

  /** `_compute_loan_count`: each book counts the loan records attached to it. */
  method ComputeLoanCount(books: seq<Book>)
    modifies books`loanCount
    ensures forall b :: b in books ==> b.loanCount == |b.loanIds|
  {
    var i := 0;
    while i < |books|
      invariant 0 <= i <= |books|
      invariant forall b :: b in books[..i] ==> b.loanCount == |b.loanIds|
    {
      books[i].loanCount := |books[i].loanIds|;
      i := i + 1;
    }
  }

  /** The loop shared by the three state actions: every book of the set gets `target`. */
  method SetState(books: seq<Book>, target: BookState)
    modifies books`state
    ensures forall b :: b in books ==> b.state == target
  {
    var i := 0;
    while i < |books|
      invariant 0 <= i <= |books|
      invariant forall b :: b in books[..i] ==> b.state == target
    {
      books[i].state := target;
      i := i + 1;
    }
  }

  /** `action_marks_as_borrowed`: no guard on the prior state. */
  method ActionMarksAsBorrowed(books: seq<Book>)
    modifies books`state
    ensures forall b :: b in books ==> b.state == Borrowed
  {
    SetState(books, Borrowed);
  }

  /** `action_mark_as_available`: no guard on the prior state. */
  method ActionMarkAsAvailable(books: seq<Book>)
    modifies books`state
    ensures forall b :: b in books ==> b.state == Available
  {
    SetState(books, Available);
  }

  /** `action_mark_as_lost`: no guard on the prior state. */
  method ActionMarkAsLost(books: seq<Book>)
    modifies books`state
    ensures forall b :: b in books ==> b.state == Lost
  {
    SetState(books, Lost);
  }
}
