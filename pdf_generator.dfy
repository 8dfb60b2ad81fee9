/**
 * The report composition of utils/pdfGenerator.ts: a header, the expense
 * table with its total, the bank summary, and then the appendix sections
 * (receipts, contract, bank details), each led by a heading page and made
 * of one page per rendered frame; the result is saved under a name
 * derived from the report title and the generation date.
 */
module PdfGenerator {
  import opened Types
  import opened Strings
  import opened Layout
  import opened PdfDocument

  // ---------------------------------------------------------------------
  // Title, header, table

  function Title(reportType: ReportType): string
  {
    if reportType == Frais then "Note de Frais" else "Note de Débit"
  }

  /** The saved file's name: the title with its first space made '_', the date, ".pdf". */
  function FileName(reportType: ReportType, generationDate: string): string
  {
    ReplaceFirst(Title(reportType), ' ', '_') + "_" + generationDate + ".pdf"
  }

  /** Only the first space of the title becomes '_'. */
  lemma FileNames(reportType: ReportType, generationDate: string)
    ensures FileName(reportType, generationDate)
         == (if reportType == Frais then "Note_de Frais" else "Note_de Débit") + "_" + generationDate + ".pdf"
  {
    TitleAfterNote(reportType);
    FirstSpaceAtFour(Title(reportType));
  }

  /** Both titles are "Note " and then what the file name keeps after "Note_". */
  lemma TitleAfterNote(reportType: ReportType)
    ensures |Title(reportType)| > 5 && Title(reportType)[..5] == "Note "
    ensures "Note_" + Title(reportType)[5..] == if reportType == Frais then "Note_de Frais" else "Note_de Débit"
  {
    var title := Title(reportType);
    if reportType == Frais {
      assert title[5..] == "de Frais";
    } else {
      assert title[5..] == "de Débit";
    }
  }

  lemma FirstSpaceAtFour(title: string)
    requires |title| > 5 && title[..5] == "Note "
    ensures ReplaceFirst(title, ' ', '_') == "Note_" + title[5..]
  {
    assert title[4] == ' ';
    assert forall k :: 0 <= k < 4 ==> title[k] == "Note "[k];
    IndexOfSpec(title, ' ');
    assert IndexOf(title, ' ') == 4;
    assert title[..4] == "Note";
  }

  /** The title, the generation date, the reporter and the recipient, at their fixed anchors. */
  function HeaderTexts(reportType: ReportType, generationDate: string, profile: ProfileData, recipientEmail: string): seq<TextItem>
  {
    [ TextItem(Title(reportType), 14.0, 22.0),
      TextItem("Date de génération : " + generationDate, 14.0, 30.0),
      TextItem(profile.title + " " + profile.firstName + " " + profile.lastName, 14.0, 45.0),
      TextItem("RPPS : " + profile.rpps, 14.0, 51.0),
      TextItem("Email : " + profile.email, 14.0, 57.0),
      TextItem("À l'attention de :", 145.0, 45.0),
      TextItem(recipientEmail, 145.0, 51.0) ]
  }

  const TableHead: seq<string> := ["Date", "Type de dépense", "Montant (€)"]

  /**
   * One table row: the stored date as `displayDate` renders it, the type,
   * and the amount to two decimals. `displayDate` stands for
   * `new Date(d).toLocaleDateString('fr-FR')`, which depends on the
   * browser's locale data and time zone.
   */
  function RowOf(e: Expense, displayDate: string -> string): Row
  {
    Row(displayDate(e.date), e.expenseType, FormatCents(e.amount))
  }

  function TableRows(expenses: seq<Expense>, displayDate: string -> string): seq<Row>
  {
    seq(|expenses|, k requires 0 <= k < |expenses| => RowOf(expenses[k], displayDate))
  }

  /** The line the table hook draws: the sum of all amounts to two decimals. */
  function TotalLine(expenses: seq<Expense>): string
  {
    "Total à rembourser : " + FormatCents(TotalCents(expenses)) + " €"
  }

  /** The bank summary drawn below the table, 30, 38 and 43 below its end. */
  function RibSummary(rib: RibData, finalY: real): seq<TextItem>
  {
    [ TextItem("Coordonnées bancaires pour le remboursement", 14.0, finalY + 30.0),
      TextItem("IBAN : " + rib.iban, 14.0, finalY + 38.0),
      TextItem("BIC : " + rib.bic, 14.0, finalY + 43.0) ]
  }

  /** The pages before the appendix: the header page carrying the table's start, the table's further pages, and the bank summary on the last of them. */
  function MainPages(expenses: seq<Expense>, rib: RibData, profile: ProfileData, reportType: ReportType,
                     recipientEmail: string, generationDate: string, displayDate: string -> string,
                     layout: seq<TablePage>): seq<Page>
    requires ValidLayout(layout, |expenses|)
  {
    var header := HeaderPage(reportType, generationDate, profile, recipientEmail);
    var table := TablePages(header, TableHead, TableRows(expenses, displayDate), layout, TotalLine(expenses));
    table[..|table| - 1] + [AddTexts(table[|table| - 1], RibSummary(rib, FinalY(layout)))]
  }

  // ---------------------------------------------------------------------
  // Frames of one file

  predicate IsImage(file: SourceFile)
  {
    StartsWith(file.mediaType, "image/")
  }

  predicate IsPdf(file: SourceFile)
  {
    file.mediaType == "application/pdf"
  }

  /** A page carrying one string at (14, y). */
  function TextPage(text: string, y: real): Page
  {
    Page([TextItem(text, 14.0, y)], [], [])
  }

  /** A page showing one frame: the caption at (14, 15), the frame fitted into the box at (14, 25). */
  function FramePage(caption: string, frame: Dims): Page
  {
    var size := Fit(frame, BoxWidth, BoxHeight);
    Page([TextItem(caption, 14.0, 15.0)], [], [Placed(14.0, 25.0, size.width, size.height)])
  }

  function PageCaption(prefix: string, name: string, i: nat, n: nat): string
  {
    prefix + " : " + name + " (Page " + NatToString(i) + "/" + NatToString(n) + ")"
  }

  /** The pages of the first |frames| pages of an n-page PDF. */
  function PdfPages(prefix: string, name: string, frames: seq<Dims>, n: nat): seq<Page>
  {
    seq(|frames|, k requires 0 <= k < |frames| => FramePage(PageCaption(prefix, name, k + 1, n), frames[k]))
  }

  /**
   * How `await addFileToPdf(file, prefix)` ends. It completes. Or the
   * image's `onload` handler throws inside jsPDF, so that the promise is
   * never resolved and the generation never goes on (Stalled). Or pdf.js
   * rejects the document and the rejection propagates (Rejected).
   */
  datatype Status = Completed | Stalled | Rejected

  function FileStatus(file: SourceFile): Status
  {
    if IsImage(file) then (if file.content.image.Some? then Completed else Stalled)
    else if IsPdf(file) then (if file.content.pdfPages.Some? then Completed else Rejected)
    else Completed
  }

  /**
   * The pages `addFileToPdf(file, prefix)` adds: one page for an image, one
   * per page for a PDF, none for any other type. An image jsPDF cannot
   * read still leaves its page and caption, drawn before the failure; a
   * PDF pdf.js cannot open leaves nothing.
   */
  function FilePages(file: SourceFile, prefix: string): seq<Page>
  {
    if IsImage(file) then
      match file.content.image
      case Some(frame) => [FramePage(prefix + " : " + file.name, frame)]
      case None => [TextPage(prefix + " : " + file.name, 15.0)]
    else if IsPdf(file) then
      match file.content.pdfPages
      case Some(frames) => PdfPages(prefix, file.name, frames, |frames|)
      case None => []
    else []
  }

  function FilesPages(files: seq<SourceFile>, prefix: string): seq<Page>
  {
    if files == [] then [] else FilesPages(files[..|files| - 1], prefix) + FilePages(files[|files| - 1], prefix)
  }

  /** The outcome of adding the files in turn: the first one that does not complete decides, and nothing after it runs. */
  function FilesStatus(files: seq<SourceFile>): Status
  {
    if files == [] then Completed
    else
      var s := FilesStatus(files[..|files| - 1]);
      if s != Completed then s else FileStatus(files[|files| - 1])
  }

  /** An image gives exactly one page, captioned with the prefix and the file name; its frame is there exactly when jsPDF reads it, and otherwise the generation stalls. */
  lemma ImageFilePages(file: SourceFile, prefix: string)
    requires IsImage(file)
    ensures |FilePages(file, prefix)| == 1
    ensures FilePages(file, prefix)[0].texts == [TextItem(prefix + " : " + file.name, 14.0, 15.0)]
    ensures |FilePages(file, prefix)[0].images| == (if file.content.image.Some? then 1 else 0)
    ensures FileStatus(file) == (if file.content.image.Some? then Completed else Stalled)
  {
  }

  /** An N-page PDF gives exactly N pages, the i-th captioned "(Page i/N)", in ascending order; one pdf.js rejects gives none and rejects. */
  lemma PdfFilePages(file: SourceFile, prefix: string)
    requires IsPdf(file)
    ensures file.content.pdfPages.None? ==> FilePages(file, prefix) == [] && FileStatus(file) == Rejected
    ensures file.content.pdfPages.Some? ==> var n := |file.content.pdfPages.value|;
      FileStatus(file) == Completed &&
      |FilePages(file, prefix)| == n &&
      forall i :: 1 <= i <= n ==>
        FilePages(file, prefix)[i - 1].texts ==
          [TextItem(prefix + " : " + file.name + " (Page " + NatToString(i) + "/" + NatToString(n) + ")", 14.0, 15.0)]
  {
    assert !StartsWith(file.mediaType, "image/") by {
      assert file.mediaType[..6] != "image/" by {
        assert file.mediaType[0] == 'a';
      }
    }
  }

  /** A file of any other type adds no page at all and never stops the generation. */
  lemma OtherFilePages(file: SourceFile, prefix: string)
    requires !IsImage(file) && !IsPdf(file)
    ensures FilePages(file, prefix) == [] && FileStatus(file) == Completed
  {
  }

  /** Every page shows at most one image, placed at (14, 25) inside the box; when the file completes, every page shows exactly one. */
  lemma FilePagesFit(file: SourceFile, prefix: string)
    ensures forall p :: p in FilePages(file, prefix) ==>
      |p.images| <= 1 &&
      forall im :: im in p.images ==> im.x == 14.0 && im.y == 25.0 && im.width <= BoxWidth && im.height <= BoxHeight
    ensures FileStatus(file) == Completed ==> forall p :: p in FilePages(file, prefix) ==> |p.images| == 1
  {
  }

  lemma {:induction false} FilesStatusAppend(a: seq<SourceFile>, b: seq<SourceFile>)
    ensures FilesStatus(a + b) == if FilesStatus(a) != Completed then FilesStatus(a) else FilesStatus(b)
    decreases |b|
  {
    if b == [] {
      assert a + b == a;
    } else {
      var n := |b| - 1;
      assert (a + b)[..|a + b| - 1] == a + b[..n];
      FilesStatusAppend(a, b[..n]);
    }
  }

  /**
   * The files complete together exactly when each one completes; and when
   * they do not, the outcome is that of the first file that does not.
   */
  lemma {:induction false} FilesStatusSpec(files: seq<SourceFile>)
    ensures FilesStatus(files) == Completed <==> forall k :: 0 <= k < |files| ==> FileStatus(files[k]) == Completed
    ensures FilesStatus(files) != Completed ==>
      exists k :: 0 <= k < |files| && FileStatus(files[k]) == FilesStatus(files) &&
        forall j :: 0 <= j < k ==> FileStatus(files[j]) == Completed
  {
    if files != [] {
      var n := |files| - 1;
      var p := files[..n];
      FilesStatusSpec(p);
      assert forall k :: 0 <= k < n ==> files[k] == p[k];
      if FilesStatus(p) != Completed {
        var k :| 0 <= k < n && FileStatus(p[k]) == FilesStatus(p) && forall j :: 0 <= j < k ==> FileStatus(p[j]) == Completed;
        assert FileStatus(files[k]) == FilesStatus(files);
      }
    }
  }

  /** One more file extends the pages by its own, and decides the outcome when all before it completed. */
  lemma FilesStep(files: seq<SourceFile>, i: nat, prefix: string)
    requires i < |files|
    ensures FilesPages(files[..i + 1], prefix) == FilesPages(files[..i], prefix) + FilePages(files[i], prefix)
    ensures FilesStatus(files[..i]) == Completed ==> FilesStatus(files[..i + 1]) == FileStatus(files[i])
  {
    assert files[..i + 1][..i] == files[..i];
  }

  lemma FilesStatusPrefix(files: seq<SourceFile>, n: nat)
    requires n <= |files| && FilesStatus(files[..n]) != Completed
    ensures FilesStatus(files) == FilesStatus(files[..n])
  {
    FilesStatusAppend(files[..n], files[n..]);
    assert files[..n] + files[n..] == files;
  }

  // ---------------------------------------------------------------------
  // The receipts list

  /** The contract filter's test: same name, same size, same modification time. */
  predicate SameStructure(a: SourceFile, b: SourceFile)
  {
    a.name == b.name && a.size == b.size && a.lastModified == b.lastModified
  }

  predicate Kept(file: SourceFile, contract: Option<SourceFile>)
  {
    contract.None? || !SameStructure(file, contract.value)
  }

  function Files(expenses: seq<Expense>): seq<SourceFile>
  {
    seq(|expenses|, k requires 0 <= k < |expenses| => expenses[k].file)
  }

  /** `expenses.map(e => e.file).filter(...)`: the expense files, in order, without those that look like the contract. */
  function ExpenseFiles(expenses: seq<Expense>, contract: Option<SourceFile>): (r: seq<SourceFile>)
    ensures forall k :: 0 <= k < |r| ==> r[k] in Files(expenses) && Kept(r[k], contract)
    ensures forall k :: 0 <= k < |expenses| && Kept(expenses[k].file, contract) ==> expenses[k].file in r
  {
    if expenses == [] then []
    else
      var rest := ExpenseFiles(expenses[..|expenses| - 1], contract);
      var f := expenses[|expenses| - 1].file;
      assert Files(expenses) == Files(expenses[..|expenses| - 1]) + [f];
      if Kept(f, contract) then rest + [f] else rest
  }

  predicate NoDuplicates<T(==)>(s: seq<T>)
  {
    forall i, j :: 0 <= i < j < |s| ==> s[i] != s[j]
  }

  /** `Array.from(new Set(s))`: each element once, where it first occurs. */
  function Distinct<T(==)>(s: seq<T>): (r: seq<T>)
    ensures forall k :: 0 <= k < |r| ==> r[k] in s
    ensures forall k :: 0 <= k < |s| ==> s[k] in r
    ensures NoDuplicates(r)
  {
    if s == [] then []
    else
      var d := Distinct(s[..|s| - 1]);
      var x := s[|s| - 1];
      assert s == s[..|s| - 1] + [x];
      if x in d then d else d + [x]
  }

  function ReceiptFiles(expenses: seq<Expense>, contract: Option<SourceFile>): seq<SourceFile>
  {
    Distinct(ExpenseFiles(expenses, contract))
  }

  /** The receipts are exactly the expense files that do not look like the contract, each once. */
  lemma ReceiptsMembership(expenses: seq<Expense>, contract: Option<SourceFile>)
    ensures var r := ReceiptFiles(expenses, contract);
      forall i :: 0 <= i < |r| ==> exists k :: 0 <= k < |expenses| && expenses[k].file == r[i] && Kept(r[i], contract)
    ensures forall k :: 0 <= k < |expenses| && Kept(expenses[k].file, contract) ==> expenses[k].file in ReceiptFiles(expenses, contract)
    ensures NoDuplicates(ReceiptFiles(expenses, contract))
    ensures contract.Some? ==> var r := ReceiptFiles(expenses, contract);
      forall i :: 0 <= i < |r| ==> !SameStructure(r[i], contract.value)
  {
    var r := ReceiptFiles(expenses, contract);
    var ef := ExpenseFiles(expenses, contract);
    forall i | 0 <= i < |r|
      ensures exists k :: 0 <= k < |expenses| && expenses[k].file == r[i] && Kept(r[i], contract)
    {
      var m :| 0 <= m < |ef| && ef[m] == r[i];
      var k :| 0 <= k < |expenses| && Files(expenses)[k] == ef[m];
      assert expenses[k].file == r[i];
    }
    forall k | 0 <= k < |expenses| && Kept(expenses[k].file, contract)
      ensures expenses[k].file in r
    {
      var m :| 0 <= m < |ef| && ef[m] == expenses[k].file;
    }
  }

  /** The receipts keep the order in which their files first occur among the expenses. */
  lemma {:induction false} ReceiptsOrder(expenses: seq<Expense>, contract: Option<SourceFile>)
    ensures OrderedByFirstUse(ReceiptFiles(expenses, contract), Files(expenses))
  {
    if expenses != [] {
      var p := expenses[..|expenses| - 1];
      ReceiptsOrder(p, contract);
      ReceiptsOrderStep(p, expenses[|expenses| - 1], contract);
      assert p + [expenses[|expenses| - 1]] == expenses;
    }
  }

  /** `files` lists `r`'s elements with strictly increasing first occurrences in `s`. */
  ghost predicate OrderedByFirstUse(r: seq<SourceFile>, s: seq<SourceFile>)
  {
    forall i, j :: 0 <= i < j < |r| ==> IndexOf(s, r[i]) < IndexOf(s, r[j])
  }

  lemma ReceiptsOrderStep(p: seq<Expense>, e: Expense, contract: Option<SourceFile>)
    requires OrderedByFirstUse(ReceiptFiles(p, contract), Files(p))
    ensures OrderedByFirstUse(ReceiptFiles(p + [e], contract), Files(p + [e]))
  {
    var f := e.file;
    var rp := ReceiptFiles(p, contract);
    ReceiptFilesSnoc(p, e, contract);
    EarlierReceiptsKeepIndex(p, f, contract);
    if Kept(f, contract) && f !in rp {
      NewReceiptLast(p, f, contract);
      IndexOfAppend(Files(p), f, f);
      AppendOrdered(rp, f, Files(p) + [f]);
    }
  }

  /** One more expense adds its file to the receipts exactly when it is kept and new. */
  lemma ReceiptFilesSnoc(p: seq<Expense>, e: Expense, contract: Option<SourceFile>)
    ensures Files(p + [e]) == Files(p) + [e.file]
    ensures ReceiptFiles(p + [e], contract) ==
      if Kept(e.file, contract) && e.file !in ReceiptFiles(p, contract) then ReceiptFiles(p, contract) + [e.file]
      else ReceiptFiles(p, contract)
  {
    var expenses := p + [e];
    assert expenses[..|expenses| - 1] == p;
    assert Files(expenses) == Files(p) + [e.file];
    var ef := ExpenseFiles(p, contract);
    if Kept(e.file, contract) {
      assert ExpenseFiles(expenses, contract) == ef + [e.file];
      assert (ef + [e.file])[..|ef|] == ef;
    }
  }

  /** A receipt so far keeps where it first occurs when one more file is listed. */
  lemma EarlierReceiptsKeepIndex(p: seq<Expense>, f: SourceFile, contract: Option<SourceFile>)
    ensures forall x :: x in ReceiptFiles(p, contract) ==> IndexOf(Files(p) + [f], x) == IndexOf(Files(p), x) < |p|
  {
    var ef := ExpenseFiles(p, contract);
    var rp := Distinct(ef);
    forall x | x in rp
      ensures IndexOf(Files(p) + [f], x) == IndexOf(Files(p), x) < |p|
    {
      var m :| 0 <= m < |rp| && rp[m] == x;
      assert x in ef;
      var n :| 0 <= n < |ef| && ef[n] == x;
      assert x in Files(p);
      IndexOfAppend(Files(p), f, x);
      IndexOfSpec(Files(p), x);
    }
  }

  /** A kept file that is not yet a receipt does not occur among the earlier expenses. */
  lemma NewReceiptLast(p: seq<Expense>, f: SourceFile, contract: Option<SourceFile>)
    requires Kept(f, contract) && f !in ReceiptFiles(p, contract)
    ensures f !in Files(p)
  {
  }

  lemma AppendOrdered(r: seq<SourceFile>, f: SourceFile, s: seq<SourceFile>)
    requires forall i, j :: 0 <= i < j < |r| ==> IndexOf(s, r[i]) < IndexOf(s, r[j])
    requires forall x :: x in r ==> IndexOf(s, x) < IndexOf(s, f)
    ensures OrderedByFirstUse(r + [f], s)
  {
    var q := r + [f];
    forall i, j | 0 <= i < j < |q|
      ensures IndexOf(s, q[i]) < IndexOf(s, q[j])
    {
      assert q[i] == r[i] && q[i] in r;
      if j < |r| {
        assert q[j] == r[j];
      }
    }
  }

  lemma {:induction false} CountOfDistinct<T>(s: seq<T>, x: T)
    requires NoDuplicates(s) && x in s
    ensures multiset(s)[x] == 1
  {
    var n := |s| - 1;
    assert s == s[..n] + [s[n]];
    assert NoDuplicates(s[..n]);
    if s[n] == x {
      assert x !in s[..n];
    } else {
      CountOfDistinct(s[..n], x);
    }
  }

  /** Two expenses sharing one file object put that file in the receipts exactly once. */
  lemma SharedFileOnce(expenses: seq<Expense>, contract: Option<SourceFile>, i: nat, j: nat)
    requires i < j < |expenses| && expenses[i].file == expenses[j].file
    requires Kept(expenses[i].file, contract)
    ensures multiset(ReceiptFiles(expenses, contract))[expenses[i].file] == 1
  {
    ReceiptsMembership(expenses, contract);
    CountOfDistinct(ReceiptFiles(expenses, contract), expenses[i].file);
  }

  // ---------------------------------------------------------------------
  // Appendix sections

  const ReceiptsHeading: string := "Justificatifs"
  const ContractHeading: string := "Annexe : Contrat de Prestation"
  const RibHeading: string := "Annexe : Relevé d'Identité Bancaire"

  function HeadingPage(heading: string): Page
  {
    TextPage(heading, 22.0)
  }

  function ReceiptsSection(receipts: seq<SourceFile>): seq<Page>
  {
    if |receipts| > 0 then [HeadingPage(ReceiptsHeading)] + FilesPages(receipts, "Justificatif") else []
  }

  function ContractSection(contract: Option<SourceFile>): seq<Page>
  {
    if contract.Some? then [HeadingPage(ContractHeading)] + FilePages(contract.value, "Contrat") else []
  }

  /** The page restating the bank details when no bank document was given. */
  function RibFallbackPage(rib: RibData): Page
  {
    Page([ TextItem(RibHeading, 14.0, 22.0),
           TextItem("Coordonnées bancaires fournies :", 14.0, 40.0),
           TextItem("IBAN : " + rib.iban, 14.0, 48.0),
           TextItem("BIC : " + rib.bic, 14.0, 56.0) ], [], [])
  }

  function RibSection(ribFile: Option<SourceFile>, rib: RibData): seq<Page>
  {
    if ribFile.Some? then [HeadingPage(RibHeading)] + FilePages(ribFile.value, "RIB")
    else if rib.iban != "" && rib.bic != "" then [RibFallbackPage(rib)]
    else []
  }

  function AppendixPages(expenses: seq<Expense>, rib: RibData, contract: Option<SourceFile>, ribFile: Option<SourceFile>): seq<Page>
  {
    ReceiptsSection(ReceiptFiles(expenses, contract)) + ContractSection(contract) + RibSection(ribFile, rib)
  }

  /** The files the appendix decodes, in the order it adds them: the receipts, the contract, the bank document. */
  function AppendixFiles(expenses: seq<Expense>, contract: Option<SourceFile>, ribFile: Option<SourceFile>): seq<SourceFile>
  {
    ReceiptFiles(expenses, contract) + OptionalFile(contract) + OptionalFile(ribFile)
  }

  function OptionalFile(file: Option<SourceFile>): seq<SourceFile>
  {
    if file.Some? then [file.value] else []
  }

  /**
   * The document is saved exactly when every receipt, the contract and the
   * bank document all complete: one receipt jsPDF or pdf.js cannot read
   * stops the whole report. A file of another type never stops it.
   */
  lemma AppendixCompletes(expenses: seq<Expense>, contract: Option<SourceFile>, ribFile: Option<SourceFile>)
    ensures var receipts := ReceiptFiles(expenses, contract);
      FilesStatus(AppendixFiles(expenses, contract, ribFile)) == Completed <==>
        (forall k :: 0 <= k < |receipts| ==> FileStatus(receipts[k]) == Completed) &&
        (contract.Some? ==> FileStatus(contract.value) == Completed) &&
        (ribFile.Some? ==> FileStatus(ribFile.value) == Completed)
  {
    var receipts := ReceiptFiles(expenses, contract);
    var c, r := OptionalFile(contract), OptionalFile(ribFile);
    FilesStatusSpec(receipts);
    FilesStatusAppend(receipts, c);
    FilesStatusAppend(receipts + c, r);
    OptionalFileStatus(contract);
    OptionalFileStatus(ribFile);
  }

  lemma OptionalFileStatus(file: Option<SourceFile>)
    ensures FilesStatus(OptionalFile(file)) == if file.Some? then FileStatus(file.value) else Completed
  {
    if file.Some? {
      assert [file.value][..0] == [];
    }
  }

  function ReportPages(expenses: seq<Expense>, rib: RibData, profile: ProfileData, reportType: ReportType,
                       recipientEmail: string, contract: Option<SourceFile>, ribFile: Option<SourceFile>,
                       generationDate: string, displayDate: string -> string, layout: seq<TablePage>): seq<Page>
    requires ValidLayout(layout, |expenses|)
  {
    MainPages(expenses, rib, profile, reportType, recipientEmail, generationDate, displayDate, layout)
    + AppendixPages(expenses, rib, contract, ribFile)
  }

  function HeaderPage(reportType: ReportType, generationDate: string, profile: ProfileData, recipientEmail: string): Page
  {
    Page(HeaderTexts(reportType, generationDate, profile, recipientEmail), [], [])
  }

  /** Every main page carries the total line, drawn at that page's cursor plus 15. */
  lemma MainPagesTotals(expenses: seq<Expense>, rib: RibData, profile: ProfileData, reportType: ReportType,
                        recipientEmail: string, generationDate: string, displayDate: string -> string, layout: seq<TablePage>)
    requires ValidLayout(layout, |expenses|)
    ensures var m := MainPages(expenses, rib, profile, reportType, recipientEmail, generationDate, displayDate, layout);
      |m| == |layout| &&
      forall k :: 0 <= k < |layout| ==> TextItem(TotalLine(expenses), 14.0, layout[k].cursorY + 15.0) in m[k].texts
  {
    var header := HeaderPage(reportType, generationDate, profile, recipientEmail);
    TablePagesCarryHook(header, TableHead, TableRows(expenses, displayDate), layout, TotalLine(expenses));
  }

  /** The first page opens with the header strings, and the last ends with the bank summary. */
  lemma MainPagesEnds(expenses: seq<Expense>, rib: RibData, profile: ProfileData, reportType: ReportType,
                      recipientEmail: string, generationDate: string, displayDate: string -> string, layout: seq<TablePage>)
    requires ValidLayout(layout, |expenses|)
    ensures var m := MainPages(expenses, rib, profile, reportType, recipientEmail, generationDate, displayDate, layout);
      |m| == |layout| && |m[0].texts| >= 7 && |m[|m| - 1].texts| >= 3 &&
      m[0].texts[..7] == HeaderTexts(reportType, generationDate, profile, recipientEmail) &&
      m[|m| - 1].texts[|m[|m| - 1].texts| - 3..] == RibSummary(rib, FinalY(layout))
  {
    var header := HeaderPage(reportType, generationDate, profile, recipientEmail);
    var t := TablePages(header, TableHead, TableRows(expenses, displayDate), layout, TotalLine(expenses));
    TablePagesHeadFirst(header, TableHead, TableRows(expenses, displayDate), layout, TotalLine(expenses));
    var m := MainPages(expenses, rib, profile, reportType, recipientEmail, generationDate, displayDate, layout);
    var last := m[|m| - 1].texts;
    assert last == t[|t| - 1].texts + RibSummary(rib, FinalY(layout));
    assert last[|last| - 3..] == RibSummary(rib, FinalY(layout));
    assert m[0].texts[..7] == t[0].texts[..7];
  }

  /** The main pages' tables hold every expense row exactly once, in list order. */
  lemma MainPagesRows(expenses: seq<Expense>, rib: RibData, profile: ProfileData, reportType: ReportType,
                      recipientEmail: string, generationDate: string, displayDate: string -> string, layout: seq<TablePage>)
    requires ValidLayout(layout, |expenses|)
    ensures TableBodies(MainPages(expenses, rib, profile, reportType, recipientEmail, generationDate, displayDate, layout)) == TableRows(expenses, displayDate)
  {
    var header := HeaderPage(reportType, generationDate, profile, recipientEmail);
    var t := TablePages(header, TableHead, TableRows(expenses, displayDate), layout, TotalLine(expenses));
    TablePagesKeepRows(header, TableHead, TableRows(expenses, displayDate), layout, TotalLine(expenses));
    assert BlockBodies(header.tables) == [];
    TextsOnLastKeepsTables(t, RibSummary(rib, FinalY(layout)));
  }

  /** The table starts on the current page: that page keeps what it had drawn first. */
  lemma TablePagesHeadFirst(current: Page, head: seq<string>, body: seq<Row>, layout: seq<TablePage>, hook: string)
    requires ValidLayout(layout, |body|)
    ensures var r := TablePages(current, head, body, layout, hook);
      |current.texts| <= |r[0].texts| && r[0].texts[..|current.texts|] == current.texts
  {
  }

  /** The appendix begins with the receipts heading exactly when some receipt remains, and holds one heading page per section present. */
  lemma AppendixStructure(expenses: seq<Expense>, rib: RibData, contract: Option<SourceFile>, ribFile: Option<SourceFile>)
    ensures var receipts := ReceiptFiles(expenses, contract);
      var a := AppendixPages(expenses, rib, contract, ribFile);
      (|receipts| > 0 ==> a[0] == HeadingPage(ReceiptsHeading)) &&
      (|receipts| == 0 && contract.Some? ==> a[0] == HeadingPage(ContractHeading)) &&
      (|receipts| == 0 && contract.None? && ribFile.Some? ==> a[0] == HeadingPage(RibHeading)) &&
      (|receipts| == 0 && contract.None? && ribFile.None? ==>
        a == (if rib.iban != "" && rib.bic != "" then [RibFallbackPage(rib)] else []))
  {
    var receipts := ReceiptFiles(expenses, contract);
    if |receipts| == 0 {
      assert ReceiptsSection(receipts) == [];
      if contract.None? {
        assert ContractSection(contract) == [];
      }
    }
  }

  /** What `doc.save` hands over: the pages and the file name. */
  datatype Report = Report(pages: seq<Page>, fileName: string)

  /** How `generateExpenseReport` ends: the document is saved, or it never is, for the reason given. */
  datatype Outcome = Saved(report: Report) | Unsaved(status: Status)

  // ---------------------------------------------------------------------
  // The composition, step by step on the document

  /** `expenses.forEach(e => tableRows.push([date, type, amount]))`. */
  method BuildTableRows(expenses: seq<Expense>, displayDate: string -> string) returns (rows: seq<Row>)
    ensures |rows| == |expenses|
    ensures forall k :: 0 <= k < |expenses| ==>
      rows[k] == Row(displayDate(expenses[k].date), expenses[k].expenseType, FormatCents(expenses[k].amount))
  {
    rows := [];
    for i := 0 to |expenses|
      invariant |rows| == i
      invariant forall k :: 0 <= k < i ==> rows[k] == RowOf(expenses[k], displayDate)
    {
      rows := rows + [RowOf(expenses[i], displayDate)];
    }
  }

  /** A new page carrying one string at (14, y). */
  method AddTextPage(doc: Document, text: string, y: real)
    requires doc.Valid()
    modifies doc
    ensures doc.Valid() && doc.pages == old(doc.pages) + [TextPage(text, y)]
  {
    ghost var before := doc.pages;
    doc.AddPage();
    doc.Text(text, 14.0, y);
    OnAppended(before, BlankPage, TextItem(text, 14.0, y), Placed(0.0, 0.0, 0.0, 0.0));
    assert [] + [TextItem(text, 14.0, y)] == [TextItem(text, 14.0, y)];
  }

  /** A new page with a caption and one frame fitted into the box. */
  method AddFramePage(doc: Document, caption: string, frame: Dims)
    requires doc.Valid()
    modifies doc
    ensures doc.Valid() && doc.pages == old(doc.pages) + [FramePage(caption, frame)]
  {
    ghost var before := doc.pages;
    var ratio := FitRatio(frame, BoxWidth, BoxHeight);
    var size := Fit(frame, BoxWidth, BoxHeight);
    assert size == Dims(frame.width * ratio, frame.height * ratio);
    ghost var t := TextItem(caption, 14.0, 15.0);
    ghost var im := Placed(14.0, 25.0, frame.width * ratio, frame.height * ratio);
    doc.AddPage();
    doc.Text(caption, 14.0, 15.0);
    OnAppended(before, BlankPage, t, im);
    doc.AddImage(14.0, 25.0, frame.width * ratio, frame.height * ratio);
    OnAppended(before, AddText(BlankPage, t), t, im);
    assert [] + [t] == [t] && [] + [im] == [im];
  }

  /** `addFileToPdf(file, titlePrefix)`: the pages it adds, and how it ends. */
  method AddFileToPdf(doc: Document, file: SourceFile, prefix: string) returns (status: Status)
    requires doc.Valid()
    modifies doc
    ensures doc.Valid() && doc.pages == old(doc.pages) + FilePages(file, prefix)
    ensures status == FileStatus(file)
  {
    status := Completed;
    if StartsWith(file.mediaType, "image/") {
      match file.content.image {
        case Some(frame) =>
          AddFramePage(doc, prefix + " : " + file.name, frame);
        case None =>
          AddTextPage(doc, prefix + " : " + file.name, 15.0);
          status := Stalled;
      }
    } else if file.mediaType == "application/pdf" {
      if file.content.pdfPages.None? {
        return Rejected;
      }
      var frames := file.content.pdfPages.value;
      var n := |frames|;
      for i := 1 to n + 1
        invariant doc.Valid()
        invariant doc.pages == old(doc.pages) + PdfPages(prefix, file.name, frames[..i - 1], n)
      {
        AddFramePage(doc, PageCaption(prefix, file.name, i, n), frames[i - 1]);
        assert PdfPages(prefix, file.name, frames[..i], n)
            == PdfPages(prefix, file.name, frames[..i - 1], n) + [FramePage(PageCaption(prefix, file.name, i, n), frames[i - 1])];
      }
      assert frames[..n] == frames;
    }
  }

  /** `for (const file of files) await addFileToPdf(file, prefix)`: each file's pages in list order, stopping at the first file that does not complete. */
  method AddFiles(doc: Document, files: seq<SourceFile>, prefix: string) returns (status: Status)
    requires doc.Valid()
    modifies doc
    ensures doc.Valid() && status == FilesStatus(files)
    ensures status == Completed ==> doc.pages == old(doc.pages) + FilesPages(files, prefix)
  {
    ghost var before := doc.pages;
    for i := 0 to |files|
      invariant doc.Valid() && FilesStatus(files[..i]) == Completed
      invariant doc.pages == before + FilesPages(files[..i], prefix)
    {
      status := AddNextFile(doc, before, files, i, prefix);
      if status != Completed {
        FilesStatusPrefix(files, i + 1);
        return;
      }
    }
    assert files[..|files|] == files;
    status := Completed;
  }

  /** One pass of that loop: the next file's pages, and the status of the files so far. */
  method AddNextFile(doc: Document, ghost before: seq<Page>, files: seq<SourceFile>, i: nat, prefix: string) returns (status: Status)
    requires doc.Valid() && i < |files| && FilesStatus(files[..i]) == Completed
    requires doc.pages == before + FilesPages(files[..i], prefix)
    modifies doc
    ensures doc.Valid() && status == FilesStatus(files[..i + 1])
    ensures doc.pages == before + FilesPages(files[..i + 1], prefix)
  {
    FilesStep(files, i, prefix);
    status := AddFileToPdf(doc, files[i], prefix);
    Assoc(before, FilesPages(files[..i], prefix), FilePages(files[i], prefix));
  }

  /** The receipts section: a heading page, then each receipt's pages in list order, stopping at the first receipt that does not complete. */
  method AddReceiptsSection(doc: Document, receipts: seq<SourceFile>) returns (status: Status)
    requires doc.Valid()
    modifies doc
    ensures doc.Valid() && status == FilesStatus(receipts)
    ensures status == Completed ==> doc.pages == old(doc.pages) + ReceiptsSection(receipts)
  {
    status := Completed;
    if |receipts| > 0 {
      ghost var before := doc.pages;
      AddTextPage(doc, ReceiptsHeading, 22.0);
      status := AddFiles(doc, receipts, "Justificatif");
      assert status == Completed ==> doc.pages == before + ([HeadingPage(ReceiptsHeading)] + FilesPages(receipts, "Justificatif"));
    }
  }

  method AddContractSection(doc: Document, contract: Option<SourceFile>) returns (status: Status)
    requires doc.Valid()
    modifies doc
    ensures doc.Valid() && status == FilesStatus(OptionalFile(contract))
    ensures status == Completed ==> doc.pages == old(doc.pages) + ContractSection(contract)
  {
    status := Completed;
    if contract.Some? {
      AddTextPage(doc, ContractHeading, 22.0);
      status := AddFileToPdf(doc, contract.value, "Contrat");
      assert [contract.value][..0] == [];
    }
  }

  method AddRibSection(doc: Document, ribFile: Option<SourceFile>, rib: RibData) returns (status: Status)
    requires doc.Valid()
    modifies doc
    ensures doc.Valid() && status == FilesStatus(OptionalFile(ribFile))
    ensures status == Completed ==> doc.pages == old(doc.pages) + RibSection(ribFile, rib)
  {
    status := Completed;
    if ribFile.Some? {
      AddTextPage(doc, RibHeading, 22.0);
      status := AddFileToPdf(doc, ribFile.value, "RIB");
      assert [ribFile.value][..0] == [];
    } else if rib.iban != "" && rib.bic != "" {
      AddRibFallbackPage(doc, rib);
    }
  }

  /**
   * `processFiles()`: the appendix sections in order, then `doc.save` under
   * the computed name. A file that does not complete ends it there, and
   * the document is not saved.
   */
  method ProcessFiles(doc: Document, expenses: seq<Expense>, rib: RibData, reportType: ReportType,
                      generationDate: string, contract: Option<SourceFile>, ribFile: Option<SourceFile>)
    returns (status: Status, fileName: Option<string>)
    requires doc.Valid()
    modifies doc
    ensures doc.Valid() && status == FilesStatus(AppendixFiles(expenses, contract, ribFile))
    ensures status == Completed ==> doc.pages == old(doc.pages) + AppendixPages(expenses, rib, contract, ribFile)
    ensures fileName == if status == Completed then Some(FileName(reportType, generationDate)) else None
  {
    ghost var before := doc.pages;
    var receipts := ReceiptFiles(expenses, contract);
    ghost var cf, rf := OptionalFile(contract), OptionalFile(ribFile);
    FilesStatusAppend(receipts, cf);
    FilesStatusAppend(receipts + cf, rf);
    status := AddReceiptsSection(doc, receipts);
    if status != Completed {
      return status, None;
    }
    ghost var a := doc.pages;
    assert a == before + ReceiptsSection(receipts);
    status := AddContractSection(doc, contract);
    if status != Completed {
      return status, None;
    }
    ghost var b := doc.pages;
    assert b == a + ContractSection(contract);
    status := AddRibSection(doc, ribFile, rib);
    if status != Completed {
      return status, None;
    }
    ghost var rs, cs, bs := ReceiptsSection(receipts), ContractSection(contract), RibSection(ribFile, rib);
    assert doc.pages == before + rs + cs + bs;
    SeqAssoc(before, rs, cs, bs);
    assert AppendixPages(expenses, rib, contract, ribFile) == rs + cs + bs;
    fileName := Some(ReplaceFirst(Title(reportType), ' ', '_') + "_" + generationDate + ".pdf");
  }

  /** The page restating the bank details, drawn string by string. */
  method AddRibFallbackPage(doc: Document, rib: RibData)
    requires doc.Valid()
    modifies doc
    ensures doc.Valid() && doc.pages == old(doc.pages) + [RibFallbackPage(rib)]
  {
    ghost var before := doc.pages;
    AddTextPage(doc, RibHeading, 22.0);
    ghost var base := doc.pages;
    ghost var drawn: seq<TextItem> := [];
    TextsOnLastStep(base, [], TextItem("", 0.0, 0.0));
    DrawText(doc, base, drawn, "Coordonnées bancaires fournies :", 14.0, 40.0);
    drawn := drawn + [TextItem("Coordonnées bancaires fournies :", 14.0, 40.0)];
    DrawText(doc, base, drawn, "IBAN : " + rib.iban, 14.0, 48.0);
    drawn := drawn + [TextItem("IBAN : " + rib.iban, 14.0, 48.0)];
    DrawText(doc, base, drawn, "BIC : " + rib.bic, 14.0, 56.0);
    drawn := drawn + [TextItem("BIC : " + rib.bic, 14.0, 56.0)];
    assert [TextItem(RibHeading, 14.0, 22.0)] + drawn == RibFallbackPage(rib).texts;
    assert base[..|base| - 1] == before;
  }

  /** `doc.text(s, x, y)` after the strings `drawn` were drawn on the current page of `base`. */
  method DrawText(doc: Document, ghost base: seq<Page>, ghost drawn: seq<TextItem>, s: string, x: real, y: real)
    requires doc.Valid() && |base| >= 1 && doc.pages == TextsOnLast(base, drawn)
    modifies doc
    ensures doc.Valid() && doc.pages == TextsOnLast(base, drawn + [TextItem(s, x, y)])
  {
    doc.Text(s, x, y);
    TextsOnLastStep(base, drawn, TextItem(s, x, y));
  }

  /** `doc.text` for the `k`-th of the strings `items`, the ones before it already drawn on the current page of `base`. */
  method DrawItem(doc: Document, ghost base: seq<Page>, ghost items: seq<TextItem>, k: nat, item: TextItem)
    requires doc.Valid() && |base| >= 1 && k < |items| && items[k] == item && doc.pages == TextsOnLast(base, items[..k])
    modifies doc
    ensures doc.Valid() && doc.pages == TextsOnLast(base, items[..k + 1])
  {
    DrawText(doc, base, items[..k], item.s, item.x, item.y);
    PrefixSnoc(items, k + 1);
  }

  /** `doc.text(s, x, y)` on a document whose only page holds just the strings `drawn`. */
  method DrawOnFirst(doc: Document, ghost drawn: seq<TextItem>, item: TextItem)
    requires doc.Valid() && doc.pages == [Page(drawn, [], [])]
    modifies doc
    ensures doc.Valid() && doc.pages == [Page(drawn + [item], [], [])]
  {
    doc.Text(item.s, item.x, item.y);
  }

  /** The header strings, drawn one by one on the first page of a new document. */
  method DrawHeader(doc: Document, reportType: ReportType, generationDate: string, profile: ProfileData, recipientEmail: string)
    requires doc.Valid() && doc.pages == [BlankPage]
    modifies doc
    ensures doc.Valid() && doc.pages == [Page(HeaderTexts(reportType, generationDate, profile, recipientEmail), [], [])]
  {
    var items := [ TextItem(Title(reportType), 14.0, 22.0),
                   TextItem("Date de génération : " + generationDate, 14.0, 30.0),
                   TextItem(profile.title + " " + profile.firstName + " " + profile.lastName, 14.0, 45.0),
                   TextItem("RPPS : " + profile.rpps, 14.0, 51.0),
                   TextItem("Email : " + profile.email, 14.0, 57.0),
                   TextItem("À l'attention de :", 145.0, 45.0),
                   TextItem(recipientEmail, 145.0, 51.0) ];
    ghost var drawn: seq<TextItem> := [];
    DrawOnFirst(doc, drawn, items[0]);
    drawn := drawn + [items[0]];
    DrawOnFirst(doc, drawn, items[1]);
    drawn := drawn + [items[1]];
    DrawOnFirst(doc, drawn, items[2]);
    drawn := drawn + [items[2]];
    DrawOnFirst(doc, drawn, items[3]);
    drawn := drawn + [items[3]];
    DrawOnFirst(doc, drawn, items[4]);
    drawn := drawn + [items[4]];
    DrawOnFirst(doc, drawn, items[5]);
    drawn := drawn + [items[5]];
    DrawOnFirst(doc, drawn, items[6]);
    drawn := drawn + [items[6]];
    assert drawn == items;
  }

  /** The bank summary, drawn below where the table ended. */
  method DrawRibSummary(doc: Document, rib: RibData, finalY: real)
    requires doc.Valid()
    modifies doc
    ensures doc.Valid() && doc.pages == TextsOnLast(old(doc.pages), RibSummary(rib, finalY))
  {
    ghost var base := doc.pages;
    ghost var r := RibSummary(rib, finalY);
    TextsOnLastStep(base, [], TextItem("", 0.0, 0.0));
    assert r[..0] == [];
    DrawItem(doc, base, r, 0, TextItem("Coordonnées bancaires pour le remboursement", 14.0, finalY + 30.0));
    DrawItem(doc, base, r, 1, TextItem("IBAN : " + rib.iban, 14.0, finalY + 38.0));
    DrawItem(doc, base, r, 2, TextItem("BIC : " + rib.bic, 14.0, finalY + 43.0));
    assert r[..3] == r;
  }

  /** MainPages is the table's pages with the bank summary drawn on the last of them. */
  lemma MainPagesOnLast(expenses: seq<Expense>, rib: RibData, profile: ProfileData, reportType: ReportType,
                        recipientEmail: string, generationDate: string, displayDate: string -> string, layout: seq<TablePage>)
    requires ValidLayout(layout, |expenses|)
    ensures MainPages(expenses, rib, profile, reportType, recipientEmail, generationDate, displayDate, layout) ==
      TextsOnLast(TablePages(HeaderPage(reportType, generationDate, profile, recipientEmail), TableHead,
                             TableRows(expenses, displayDate), layout, TotalLine(expenses)),
                  RibSummary(rib, FinalY(layout)))
  {
  }

  /** The header, the expense table with its total, and the bank summary, on a new document. */
  method DrawMainPages(doc: Document, expenses: seq<Expense>, rib: RibData, profile: ProfileData, reportType: ReportType,
                       recipientEmail: string, generationDate: string, displayDate: string -> string, layout: seq<TablePage>)
    requires doc.Valid() && doc.pages == [BlankPage]
    requires ValidLayout(layout, |expenses|)
    modifies doc
    ensures doc.Valid() && doc.pages == MainPages(expenses, rib, profile, reportType, recipientEmail, generationDate, displayDate, layout)
  {
    var totalAmount := FormatCents(TotalCents(expenses));
    DrawHeader(doc, reportType, generationDate, profile, recipientEmail);
    ghost var header := HeaderPage(reportType, generationDate, profile, recipientEmail);

    var rows := BuildTableRows(expenses, displayDate);
    assert rows == TableRows(expenses, displayDate);
    var finalY := doc.AutoTable(TableHead, rows, layout, "Total à rembourser : " + totalAmount + " €");
    ghost var table := TablePages(header, TableHead, TableRows(expenses, displayDate), layout, TotalLine(expenses));
    OnlyPageReplaced(header, table);
    assert doc.pages == table;

    MainPagesOnLast(expenses, rib, profile, reportType, recipientEmail, generationDate, displayDate, layout);
    DrawRibSummary(doc, rib, finalY);
  }

  /**
   * `generateExpenseReport(...)`: the whole document, saved under the
   * computed name when every appended file completes, and never saved
   * otherwise. `displayDate` renders each row's date.
   */
  method GenerateExpenseReport(expenses: seq<Expense>, rib: RibData, profile: ProfileData, reportType: ReportType,
                               recipientEmail: string, contract: Option<SourceFile>, ribFile: Option<SourceFile>,
                               generationDate: string, displayDate: string -> string, layout: seq<TablePage>)
    returns (outcome: Outcome)
    requires ValidLayout(layout, |expenses|)
    ensures var status := FilesStatus(AppendixFiles(expenses, contract, ribFile));
      outcome == if status == Completed
        then Saved(Report(ReportPages(expenses, rib, profile, reportType, recipientEmail, contract, ribFile, generationDate, displayDate, layout),
                          FileName(reportType, generationDate)))
        else Unsaved(status)
  {
    var doc := new Document();
    DrawMainPages(doc, expenses, rib, profile, reportType, recipientEmail, generationDate, displayDate, layout);
    ghost var main := doc.pages;

    var status, fileName := ProcessFiles(doc, expenses, rib, reportType, generationDate, contract, ribFile);
    if fileName.Some? {
      assert doc.pages == main + AppendixPages(expenses, rib, contract, ribFile);
      outcome := Saved(Report(doc.pages, fileName.value));
    } else {
      outcome := Unsaved(status);
    }
  }
}
