/**
 * The receipt uploader of components/ExpenseUploader.tsx: the files
 * dropped are sent to the extraction service one after the other, and
 * each one yields its expenses, an "nothing found" notice or an error
 * notice, without stopping the others. The service is an oracle: the
 * result for file k is `results[k]`.
 */
module ExpenseUploader {
  import opened Types

  /** One receipt as the extraction service reads it: everything of an expense but its id and its file. */
  datatype ExpenseRecord = ExpenseRecord(date: string, amount: int, expenseType: string)

  /** What the uploader hands to the application, in order. */
  datatype Call = SetProcessingFiles(files: seq<SourceFile>) | ExpensesExtracted(expenses: seq<Expense>) | Notify(notice: Notice)

  /** `{ ...data, id, file }` for each record, the ids taken in order from `firstId`. */
  function ToExpenses(records: seq<ExpenseRecord>, file: SourceFile, firstId: Id): (r: seq<Expense>)
  {
    seq(|records|, k requires 0 <= k < |records| => Expense(firstId + k, records[k].date, records[k].amount, records[k].expenseType, file))
  }

  /** One expense per record, in order, with the record's date, amount and type, the file it came from and a fresh id. */
  lemma ToExpensesSpec(records: seq<ExpenseRecord>, file: SourceFile, firstId: Id)
    ensures |ToExpenses(records, file, firstId)| == |records|
    ensures forall k :: 0 <= k < |records| ==>
      var e := ToExpenses(records, file, firstId)[k];
      e.date == records[k].date && e.amount == records[k].amount && e.expenseType == records[k].expenseType &&
      e.file == file && e.id == firstId + k
  {
  }

  function NothingFound(name: string): string
  {
    "Aucun justificatif trouvé dans le fichier " + name + "."
  }

  /** The error notice's text: the error's message with the file name, or a fallback naming the file. */
  function ErrorText(t: Thrown, name: string): (m: string)
  {
    match t
    case ErrorObject(message) => message + " (" + name + ")"
    case NonError => "Une erreur est survenue avec le fichier " + name + "."
  }

  /** Both forms of the error notice name the file, just before their last character. */
  lemma ErrorTextNamesFile(t: Thrown, name: string)
    ensures var m := ErrorText(t, name); |m| > |name| && m[|m| - |name| - 1..|m| - 1] == name
  {
    var m := ErrorText(t, name);
    match t
    case ErrorObject(message) =>
      assert m == (message + " (") + name + ")";
    case NonError =>
      assert m == "Une erreur est survenue avec le fichier " + name + ".";
  }

  /** How many ids one result uses: one per expense passed on. */
  function IdsOf(result: Result<seq<ExpenseRecord>>): nat
  {
    if result.Ok? then |result.value| else 0
  }

  /** How many ids the first `n` results use. */
  function IdsUsed(results: seq<Result<seq<ExpenseRecord>>>, n: nat): nat
    requires n <= |results|
  {
    if n == 0 then 0 else IdsUsed(results, n - 1) + IdsOf(results[n - 1])
  }

  /** What one file's extraction hands over: its expenses, the "nothing found" notice or the error notice. */
  function FileOutcome(file: SourceFile, result: Result<seq<ExpenseRecord>>, firstId: Id): Call
  {
    match result
    case Ok(records) =>
      if |records| > 0 then ExpensesExtracted(ToExpenses(records, file, firstId))
      else Notify(Notice(NothingFound(file.name), Info))
    case Err(thrown) => Notify(Notice(ErrorText(thrown, file.name), Error))
  }

  /** The calls for one file: it becomes the one being processed, then its outcome. */
  function FileCalls(file: SourceFile, result: Result<seq<ExpenseRecord>>, firstId: Id): seq<Call>
  {
    [SetProcessingFiles([file]), FileOutcome(file, result, firstId)]
  }

  /** The calls of the loop's first `n` passes, ids taken in order from `firstId`. */
  function Trace(files: seq<SourceFile>, results: seq<Result<seq<ExpenseRecord>>>, firstId: Id, n: nat): seq<Call>
    requires |results| == |files| && n <= |files|
  {
    if n == 0 then []
    else Trace(files, results, firstId, n - 1) + FileCalls(files[n - 1], results[n - 1], firstId + IdsUsed(results, n - 1))
  }

  // ---------------------------------------------------------------------
  // What the trace says

  /** What the first `k` calls carry of one kind, in order, `part` picking it out of each call. */
  function Collected<T>(calls: seq<Call>, part: Call -> seq<T>, k: nat): seq<T>
    requires k <= |calls|
  {
    if k == 0 then [] else Collected(calls, part, k - 1) + part(calls[k - 1])
  }

  function FilesOf(c: Call): seq<SourceFile>
  {
    match c case SetProcessingFiles(fs) => fs case _ => []
  }

  function ExpensesOf(c: Call): seq<Expense>
  {
    match c case ExpensesExtracted(es) => es case _ => []
  }

  /** The files the calls mark as being processed, in order. */
  function Processed(calls: seq<Call>): seq<SourceFile>
  {
    Collected(calls, FilesOf, |calls|)
  }

  /** Every expense the calls pass on, in order. */
  function Extracted(calls: seq<Call>): seq<Expense>
  {
    Collected(calls, ExpensesOf, |calls|)
  }

  /** Calls appended after the first `k` do not change what those carry. */
  lemma {:induction false} CollectedExtend<T>(a: seq<Call>, b: seq<Call>, part: Call -> seq<T>, k: nat)
    requires k <= |a|
    ensures Collected(a + b, part, k) == Collected(a, part, k)
  {
    if k > 0 {
      CollectedExtend(a, b, part, k - 1);
      assert (a + b)[k - 1] == a[k - 1];
    }
  }

  lemma {:induction false} CollectedAppend<T>(a: seq<Call>, b: seq<Call>, part: Call -> seq<T>, k: nat)
    requires k <= |b|
    ensures Collected(a + b, part, |a| + k) == Collected(a, part, |a|) + Collected(b, part, k)
  {
    if k == 0 {
      CollectedExtend(a, b, part, |a|);
    } else {
      CollectedAppend(a, b, part, k - 1);
      assert (a + b)[|a| + k - 1] == b[k - 1];
    }
  }

  lemma ProcessedAppend(a: seq<Call>, b: seq<Call>)
    ensures Processed(a + b) == Processed(a) + Processed(b)
  {
    CollectedAppend(a, b, FilesOf, |b|);
  }

  lemma ExtractedAppend(a: seq<Call>, b: seq<Call>)
    ensures Extracted(a + b) == Extracted(a) + Extracted(b)
  {
    CollectedAppend(a, b, ExpensesOf, |b|);
  }

  /** One file is marked as processed and passes on exactly its own expenses. */
  lemma FileCallsShape(file: SourceFile, result: Result<seq<ExpenseRecord>>, firstId: Id)
    ensures Processed(FileCalls(file, result, firstId)) == [file]
    ensures Extracted(FileCalls(file, result, firstId)) == if result.Ok? then ToExpenses(result.value, file, firstId) else []
  {
    FileCallsProcessed(file, result, firstId);
    FileCallsExtracted(file, result, firstId);
  }

  lemma FileCallsProcessed(file: SourceFile, result: Result<seq<ExpenseRecord>>, firstId: Id)
    ensures Processed(FileCalls(file, result, firstId)) == [file]
  {
    var c := FileCalls(file, result, firstId);
    assert Collected(c, FilesOf, 1) == [file];
  }

  lemma FileCallsExtracted(file: SourceFile, result: Result<seq<ExpenseRecord>>, firstId: Id)
    ensures Extracted(FileCalls(file, result, firstId)) == if result.Ok? then ToExpenses(result.value, file, firstId) else []
  {
    var c := FileCalls(file, result, firstId);
    assert Collected(c, ExpensesOf, 1) == [];
    if result.Ok? && |result.value| == 0 {
      assert ToExpenses(result.value, file, firstId) == [];
    }
  }

  /** Every file is processed, once and in list order, whatever the others give: an error stops nothing. */
  lemma {:induction false} TraceInOrder(files: seq<SourceFile>, results: seq<Result<seq<ExpenseRecord>>>, firstId: Id, n: nat)
    requires |results| == |files| && n <= |files|
    ensures Processed(Trace(files, results, firstId, n)) == files[..n]
  {
    if n > 0 {
      var id := firstId + IdsUsed(results, n - 1);
      TraceInOrder(files, results, firstId, n - 1);
      ProcessedAppend(Trace(files, results, firstId, n - 1), FileCalls(files[n - 1], results[n - 1], id));
      FileCallsProcessed(files[n - 1], results[n - 1], id);
      PrefixSnoc(files, n);
    }
  }

  /** Expenses whose ids run consecutively from `firstId`. */
  ghost predicate ConsecutiveIds(es: seq<Expense>, firstId: Id)
  {
    forall k :: 0 <= k < |es| ==> es[k].id == firstId + k
  }

  lemma ConsecutiveAppend(a: seq<Expense>, b: seq<Expense>, firstId: Id)
    requires ConsecutiveIds(a, firstId) && ConsecutiveIds(b, firstId + |a|)
    ensures ConsecutiveIds(a + b, firstId)
  {
    forall k | 0 <= k < |a + b| ensures (a + b)[k].id == firstId + k {
      if k >= |a| {
        assert (a + b)[k] == b[k - |a|];
      }
    }
  }

  /** The expenses passed on take consecutive fresh ids from `firstId`, one per record found, so no two share one. */
  lemma {:induction false} TraceIds(files: seq<SourceFile>, results: seq<Result<seq<ExpenseRecord>>>, firstId: Id, n: nat)
    requires |results| == |files| && n <= |files|
    ensures |Extracted(Trace(files, results, firstId, n))| == IdsUsed(results, n)
    ensures ConsecutiveIds(Extracted(Trace(files, results, firstId, n)), firstId)
  {
    if n > 0 {
      var id := firstId + IdsUsed(results, n - 1);
      var prefix := Trace(files, results, firstId, n - 1);
      var step := FileCalls(files[n - 1], results[n - 1], id);
      TraceIds(files, results, firstId, n - 1);
      ExtractedAppend(prefix, step);
      FileCallsIds(files[n - 1], results[n - 1], id);
      ConsecutiveAppend(Extracted(prefix), Extracted(step), firstId);
    }
  }

  /** One file passes on one expense per record, with consecutive ids from the one it was given. */
  lemma FileCallsIds(file: SourceFile, result: Result<seq<ExpenseRecord>>, firstId: Id)
    ensures |Extracted(FileCalls(file, result, firstId))| == IdsOf(result)
    ensures ConsecutiveIds(Extracted(FileCalls(file, result, firstId)), firstId)
  {
    FileCallsExtracted(file, result, firstId);
    if result.Ok? {
      ToExpensesSpec(result.value, file, firstId);
    }
  }

  /** Consecutive ids are distinct ids. */
  lemma ConsecutiveDistinct(es: seq<Expense>, firstId: Id)
    requires ConsecutiveIds(es, firstId)
    ensures forall i, j :: 0 <= i < j < |es| ==> es[i].id != es[j].id
  {
  }

  /** Only a non-empty list of expenses is ever passed on. */
  lemma {:induction false} TraceExtractsNonEmpty(files: seq<SourceFile>, results: seq<Result<seq<ExpenseRecord>>>, firstId: Id, n: nat)
    requires |results| == |files| && n <= |files|
    ensures forall c :: c in Trace(files, results, firstId, n) && c.ExpensesExtracted? ==> c.expenses != []
  {
    if n > 0 {
      TraceExtractsNonEmpty(files, results, firstId, n - 1);
    }
  }

  /** A file without receipts gives the info notice naming it, and a failing file the error notice naming it. */
  lemma {:induction false} TraceNotices(files: seq<SourceFile>, results: seq<Result<seq<ExpenseRecord>>>, firstId: Id, n: nat)
    requires |results| == |files| && n <= |files|
    ensures forall k :: 0 <= k < n && results[k] == Ok([]) ==>
      Notify(Notice(NothingFound(files[k].name), Info)) in Trace(files, results, firstId, n)
    ensures forall k :: 0 <= k < n && results[k].Err? ==>
      Notify(Notice(ErrorText(results[k].thrown, files[k].name), Error)) in Trace(files, results, firstId, n)
  {
    if n > 0 {
      var prefix := Trace(files, results, firstId, n - 1);
      var step := FileCalls(files[n - 1], results[n - 1], firstId + IdsUsed(results, n - 1));
      TraceNotices(files, results, firstId, n - 1);
      FileCallsNotice(files[n - 1], results[n - 1], firstId + IdsUsed(results, n - 1));
      InAppend(prefix, step);
    }
  }

  /** The second call of a file is its notice when it gives none or fails. */
  lemma FileCallsNotice(file: SourceFile, result: Result<seq<ExpenseRecord>>, firstId: Id)
    ensures result == Ok([]) ==> Notify(Notice(NothingFound(file.name), Info)) in FileCalls(file, result, firstId)
    ensures result.Err? ==> Notify(Notice(ErrorText(result.thrown, file.name), Error)) in FileCalls(file, result, firstId)
  {
    var c := FileCalls(file, result, firstId);
    assert c[1] in c;
  }

  lemma InAppend<T>(a: seq<T>, b: seq<T>)
    ensures forall x :: x in a ==> x in a + b
    ensures forall x :: x in b ==> x in a + b
  {
  }

  // ---------------------------------------------------------------------
  // The component

  class State {
    var isProcessing: bool
    var calls: seq<Call>

    constructor ()
      ensures !isProcessing && calls == []
    {
      isProcessing := false;
      calls := [];
    }

    /** One pass of the loop: the try block for `file`, its catch, and nothing thrown past them. */
    method ProcessFile(file: SourceFile, result: Result<seq<ExpenseRecord>>, ids: IdSource)
      modifies this, ids
      ensures calls == old(calls) + FileCalls(file, result, old(ids.next))
      ensures ids.next == old(ids.next) + IdsOf(result)
      ensures isProcessing == old(isProcessing)
    {
      calls := calls + [SetProcessingFiles([file])];
      match result {
        case Ok(records) =>
          if |records| > 0 {
            var first := ids.Reserve(|records|);
            var newExpenses := ToExpenses(records, file, first);
            calls := calls + [ExpensesExtracted(newExpenses)];
          } else {
            calls := calls + [Notify(Notice(NothingFound(file.name), Info))];
          }
        case Err(thrown) =>
          calls := calls + [Notify(Notice(ErrorText(thrown, file.name), Error))];
      }
    }

    /**
     * `handleFileChange(files)`: nothing for no file; otherwise every file
     * in turn, then the processing marks are cleared.
     */
    method HandleFileChange(files: seq<SourceFile>, results: seq<Result<seq<ExpenseRecord>>>, ids: IdSource)
      requires |results| == |files|
      modifies this, ids
      ensures files == [] ==> calls == old(calls) && isProcessing == old(isProcessing) && ids.next == old(ids.next)
      ensures files != [] ==> calls == old(calls) + Trace(files, results, old(ids.next), |files|) + [SetProcessingFiles([])]
      ensures files != [] ==> !isProcessing
      ensures ids.next == old(ids.next) + IdsUsed(results, |results|)
    {
      if |files| == 0 {
        return;
      }
      isProcessing := true;
      var start := ids.next;
      for i := 0 to |files|
        invariant calls == old(calls) + Trace(files, results, start, i)
        invariant ids.next == start + IdsUsed(results, i)
      {
        ProcessFile(files[i], results[i], ids);
        Assoc(old(calls), Trace(files, results, start, i), FileCalls(files[i], results[i], start + IdsUsed(results, i)));
      }
      isProcessing := false;
      calls := calls + [SetProcessingFiles([])];
    }
  }
}
