/** The records of types.ts and the small value types every component shares. */
module Types {

  datatype Option<+T> = None | Some(value: T)

  /** What an awaited call that may throw gives back: a value, or what was thrown. */
  datatype Result<+T> = Ok(value: T) | Err(thrown: Thrown)

  /** A thrown value: an `Error` object carries a message, anything else does not. */
  datatype Thrown = ErrorObject(message: string) | NonError

  /** `err instanceof Error ? err.message : fallback`. */
  function ErrorMessage(t: Thrown, fallback: string): (m: string)
    ensures t.NonError? ==> m == fallback
  {
    match t
    case ErrorObject(message) => message
    case NonError => fallback
  }

  /** A strictly positive real, for pixel and page dimensions. */
  type Positive = r: real | r > 0.0 witness 1.0

  datatype Dims = Dims(width: Positive, height: Positive)

  /**
   * What the decoders report for a file's bytes: the intrinsic size jsPDF
   * reads from an image, or None when jsPDF cannot read or embed it; and
   * the canvas size of each page pdf.js renders at scale 2.0 (the page
   * count is the length), or None when pdf.js cannot open the document.
   * Which of the two is used depends only on the declared media type.
   */
  datatype Content = Content(image: Option<Dims>, pdfPages: Option<seq<Dims>>)

  /**
   * A browser File. It is a reference: two expenses that share one
   * File object share this object, and `==` is object identity, as in a
   * JavaScript Set. Every attribute is immutable.
   */
  class SourceFile {
    const name: string
    const size: nat
    const lastModified: int
    const mediaType: string
    const content: Content

    constructor (name: string, size: nat, lastModified: int, mediaType: string, content: Content)
      ensures this.name == name && this.size == size && this.lastModified == lastModified
      ensures this.mediaType == mediaType && this.content == content
    {
      this.name := name;
      this.size := size;
      this.lastModified := lastModified;
      this.mediaType := mediaType;
      this.content := content;
    }
  }

  /** Expense ids; `crypto.randomUUID` is modelled by handing out distinct naturals. */
  type Id = nat

  /** An expense line. `amount` is in cents; `date` is the string the extractor gave. */
  datatype Expense = Expense(id: Id, date: string, amount: int, expenseType: string, file: SourceFile)

  datatype RibData = RibData(iban: string, bic: string)

  /** The profile without its optional `rib` part, as every component but persistence uses it. */
  datatype ProfileData = ProfileData(title: string, lastName: string, firstName: string, rpps: string, email: string)

  datatype ReportType = Frais | Debit

  datatype NoticeKind = Success | Error | Info

  /** A notification; its random id is not modelled. */
  datatype Notice = Notice(message: string, kind: NoticeKind)

  /** The recommended categories, in the order the list offers them. */
  const ExpenseCategories: seq<string> :=
    ["Transport", "Hébergement", "Repas", "Frais de conférence", "Péage",
     "Carburant", "Parking", "Frais d'expertise", "Autre"]

  /** What the contract extraction hands to the application. */
  datatype ContractExtraction = ContractExtraction(expenses: seq<Expense>, email: Option<string>, providerInfo: Option<ProfileData>)

  /** The sum of the amounts, in list order. */
  function TotalCents(expenses: seq<Expense>): int
  {
    if expenses == [] then 0 else TotalCents(expenses[..|expenses| - 1]) + expenses[|expenses| - 1].amount
  }

  lemma {:induction false} TotalCentsAppend(a: seq<Expense>, b: seq<Expense>)
    ensures TotalCents(a + b) == TotalCents(a) + TotalCents(b)
    decreases |b|
  {
    if b == [] {
      assert a + b == a;
    } else {
      assert (a + b)[..|a + b| - 1] == a + b[..|b| - 1];
      TotalCentsAppend(a, b[..|b| - 1]);
    }
  }

  /** The source that hands out distinct expense ids. */
  class IdSource {
    var next: nat

    constructor ()
      ensures next == 0
    {
      next := 0;
    }

    /** Reserves `n` consecutive fresh ids and returns the first. */
    method Reserve(n: nat) returns (first: nat)
      modifies this
      ensures first == old(next) && next == old(next) + n
    {
      first := next;
      next := next + n;
    }
  }

  lemma Assoc<T>(a: seq<T>, b: seq<T>, c: seq<T>)
    ensures a + b + c == a + (b + c)
  {
  }

  lemma SeqAssoc<T>(a: seq<T>, b: seq<T>, c: seq<T>, d: seq<T>)
    ensures a + b + c + d == a + (b + c + d)
  {
  }

  lemma PrefixSnoc<T>(s: seq<T>, n: nat)
    requires 0 < n <= |s|
    ensures s[..n - 1] + [s[n - 1]] == s[..n]
  {
  }

  lemma LastSplit<T>(s: seq<T>)
    requires |s| >= 1
    ensures s[..|s| - 1] + [s[|s| - 1]] == s
  {
  }

  lemma OnlyPageReplaced<T>(p: T, s: seq<T>)
    ensures [p][..0] + s == s
  {
    assert [p][..0] == [];
  }

  lemma TakeDrop<T>(s: seq<T>, k: nat)
    requires k <= |s|
    ensures s[..k] + s[k..] == s
    ensures k == |s| ==> s[..k] == s
  {
  }
}
