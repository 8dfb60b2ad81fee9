/**
 * The contract uploader of components/ContractUploader.tsx: the first file
 * dropped is selected and sent to the extraction service, whose predefined
 * charges become expenses dated today and attached to the contract. The
 * service is an oracle: `result` is what it returns or throws.
 */
module ContractUploader {
  import opened Types

  /** A charge the contract fixes: an amount in cents and an expense type. */
  datatype PredefinedExpense = PredefinedExpense(amount: int, expenseType: string)

  /** What the extraction service returns for a contract. */
  datatype ContractDetails = ContractDetails(predefinedExpenses: seq<PredefinedExpense>, recipientEmail: Option<string>, providerInfo: Option<ProfileData>)

  /** What the uploader hands to the application, in order. */
  datatype Call =
    | FileSelect(file: Option<SourceFile>)
    | SetProcessingFile(file: Option<SourceFile>)
    | ContractExtracted(data: ContractExtraction)
    | Notify(notice: Notice)

  const AnalysisFailed: string := "Une erreur est survenue lors de l'analyse du contrat."

  /** `{ ...data, id, file, date: today }` for each predefined charge, the ids taken in order from `firstId`. */
  function ToExpenses(charges: seq<PredefinedExpense>, file: SourceFile, today: string, firstId: Id): seq<Expense>
  {
    seq(|charges|, k requires 0 <= k < |charges| => Expense(firstId + k, today, charges[k].amount, charges[k].expenseType, file))
  }

  /** One expense per charge, in order, keeping amount and type, dated today and attached to the contract. */
  lemma ToExpensesSpec(charges: seq<PredefinedExpense>, file: SourceFile, today: string, firstId: Id)
    ensures |ToExpenses(charges, file, today, firstId)| == |charges|
    ensures forall k :: 0 <= k < |charges| ==>
      var e := ToExpenses(charges, file, today, firstId)[k];
      e.amount == charges[k].amount && e.expenseType == charges[k].expenseType &&
      e.date == today && e.file == file && e.id == firstId + k
  {
  }

  /** The calls `handleFileChange` makes for the files dropped and what the service gave. */
  function UploadCalls(files: seq<SourceFile>, result: Result<ContractDetails>, today: string, firstId: Id): seq<Call>
  {
    if files == [] then [FileSelect(None)]
    else
      var file := files[0];
      [FileSelect(Some(file)), SetProcessingFile(Some(file))] +
      (match result
       case Ok(d) => [ContractExtracted(ContractExtraction(ToExpenses(d.predefinedExpenses, file, today, firstId), d.recipientEmail, d.providerInfo))]
       case Err(thrown) => [Notify(Notice(ErrorMessage(thrown, AnalysisFailed), Error))]) +
      [SetProcessingFile(None)]
  }

  function Extractions(calls: seq<Call>): seq<ContractExtraction>
  {
    if calls == [] then []
    else Extractions(calls[..|calls| - 1]) + (if calls[|calls| - 1].ContractExtracted? then [calls[|calls| - 1].data] else [])
  }

  /**
   * A successful analysis hands over exactly one extraction, with the
   * service's address and provider unchanged; a failed one hands over
   * none and keeps the file selected; and the processing mark is cleared
   * last whenever it was set.
   */
  lemma UploadCallsSpec(files: seq<SourceFile>, result: Result<ContractDetails>, today: string, firstId: Id)
    ensures var c := UploadCalls(files, result, today, firstId);
      (files == [] ==> c == [FileSelect(None)]) &&
      (files != [] && result.Ok? ==>
        |Extractions(c)| == 1 &&
        Extractions(c)[0].email == result.value.recipientEmail &&
        Extractions(c)[0].providerInfo == result.value.providerInfo &&
        Extractions(c)[0].expenses == ToExpenses(result.value.predefinedExpenses, files[0], today, firstId)) &&
      (files != [] && result.Err? ==> Extractions(c) == [] && FileSelect(None) !in c) &&
      (files != [] ==> c[0] == FileSelect(Some(files[0])) && c[|c| - 1] == SetProcessingFile(None))
  {
    var c := UploadCalls(files, result, today, firstId);
    if files != [] {
      assert |c| == 4;
      assert c[..3][..2] == c[..2] && c[..2][..1] == c[..1] && c[..1][..0] == [];
      assert Extractions(c[..1]) == [] && Extractions(c[..2]) == [];
      assert Extractions(c) == Extractions(c[..3]) == if c[2].ContractExtracted? then [c[2].data] else [];
    }
  }

  class State {
    var isProcessing: bool
    var calls: seq<Call>

    constructor ()
      ensures !isProcessing && calls == []
    {
      isProcessing := false;
      calls := [];
    }

    /**
     * `handleFileChange(files)`: no file deselects and stops; otherwise the
     * first file is selected and analysed, its outcome handed over, and
     * the processing marks cleared in every case.
     */
    method HandleFileChange(files: seq<SourceFile>, result: Result<ContractDetails>, today: string, ids: IdSource)
      modifies this, ids
      ensures calls == old(calls) + UploadCalls(files, result, today, old(ids.next))
      ensures files == [] ==> isProcessing == old(isProcessing) && ids.next == old(ids.next)
      ensures files != [] ==> !isProcessing
      ensures files != [] && result.Ok? ==> ids.next == old(ids.next) + |result.value.predefinedExpenses|
      ensures result.Err? ==> ids.next == old(ids.next)
    {
      if |files| == 0 {
        calls := calls + [FileSelect(None)];
        return;
      }
      var file := files[0];
      calls := calls + [FileSelect(Some(file))];
      isProcessing := true;
      calls := calls + [SetProcessingFile(Some(file))];
      match result {
        case Ok(d) =>
          var first := ids.Reserve(|d.predefinedExpenses|);
          var newExpenses := ToExpenses(d.predefinedExpenses, file, today, first);
          calls := calls + [ContractExtracted(ContractExtraction(newExpenses, d.recipientEmail, d.providerInfo))];
        case Err(thrown) =>
          calls := calls + [Notify(Notice(ErrorMessage(thrown, AnalysisFailed), Error))];
      }
      isProcessing := false;
      calls := calls + [SetProcessingFile(None)];
    }
  }
}
