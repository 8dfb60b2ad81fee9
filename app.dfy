/**
 * The application state of App.tsx: the expense list and the operations
 * on it, the profile, the bank details, the attached contract and bank
 * documents, the recipient address and the notifications shown, together
 * with the readiness gate, the "missing parts" message and the merge of a
 * contract's extracted data.
 */
module App {
  import opened Types
  import opened Strings
  import opened PdfDocument
  import opened PdfGenerator

  // ---------------------------------------------------------------------
  // The expense list

  /** `prev.filter(e => e.id !== id)`. */
  function RemoveById(expenses: seq<Expense>, id: Id): (r: seq<Expense>)
    ensures |r| <= |expenses|
    ensures forall k :: 0 <= k < |r| ==> r[k].id != id && r[k] in expenses
    ensures (forall k :: 0 <= k < |expenses| ==> expenses[k].id != id) ==> r == expenses
  {
    if expenses == [] then []
    else
      var rest := RemoveById(expenses[..|expenses| - 1], id);
      var e := expenses[|expenses| - 1];
      assert expenses == expenses[..|expenses| - 1] + [e];
      if e.id == id then rest else rest + [e]
  }

  /** Removal works element by element, so it keeps the order of what stays. */
  lemma {:induction false} RemoveByIdAppend(a: seq<Expense>, b: seq<Expense>, id: Id)
    ensures RemoveById(a + b, id) == RemoveById(a, id) + RemoveById(b, id)
    decreases |b|
  {
    if b == [] {
      assert a + b == a;
    } else {
      var n := |b| - 1;
      assert (a + b)[..|a + b| - 1] == a + b[..n];
      assert (a + b)[|a + b| - 1] == b[n];
      RemoveByIdAppend(a, b[..n], id);
    }
  }

  /** Every expense whose id differs stays. */
  lemma {:induction false} RemoveByIdKeeps(expenses: seq<Expense>, id: Id, k: nat)
    requires k < |expenses| && expenses[k].id != id
    ensures expenses[k] in RemoveById(expenses, id)
  {
    var n := |expenses| - 1;
    if k < n {
      RemoveByIdKeeps(expenses[..n], id, k);
    }
  }

  /** The expenses carrying the id, which removal drops. */
  function WithId(expenses: seq<Expense>, id: Id): seq<Expense>
  {
    if expenses == [] then []
    else
      var rest := WithId(expenses[..|expenses| - 1], id);
      if expenses[|expenses| - 1].id == id then rest + [expenses[|expenses| - 1]] else rest
  }

  /** The total splits into what removal keeps and what it drops. */
  lemma {:induction false} RemoveByIdTotal(expenses: seq<Expense>, id: Id)
    ensures TotalCents(expenses) == TotalCents(RemoveById(expenses, id)) + TotalCents(WithId(expenses, id))
  {
    if expenses != [] {
      var p := expenses[..|expenses| - 1];
      var e := expenses[|expenses| - 1];
      RemoveByIdTotal(p, id);
      if e.id == id {
        TotalCentsAppend(WithId(p, id), [e]);
        assert TotalCents([e]) == e.amount by {
          assert [e][..0] == [];
        }
      } else {
        TotalCentsAppend(RemoveById(p, id), [e]);
        assert TotalCents([e]) == e.amount by {
          assert [e][..0] == [];
        }
      }
    }
  }

  /** `prev.map(e => e.id === id ? {...e, type: category} : e)`. */
  function Recategorise(expenses: seq<Expense>, id: Id, category: string): seq<Expense>
  {
    seq(|expenses|, k requires 0 <= k < |expenses| =>
      if expenses[k].id == id then expenses[k].(expenseType := category) else expenses[k])
  }

  /** Only the matching expenses get the category; ids, dates, amounts, files and every other element stay. */
  lemma RecategoriseSpec(expenses: seq<Expense>, id: Id, category: string)
    ensures var r := Recategorise(expenses, id, category);
      |r| == |expenses| &&
      forall k :: 0 <= k < |r| ==>
        r[k].id == expenses[k].id && r[k].date == expenses[k].date && r[k].amount == expenses[k].amount &&
        r[k].file == expenses[k].file &&
        r[k].expenseType == (if expenses[k].id == id then category else expenses[k].expenseType)
  {
  }

  /** Changing a category never changes the total. */
  lemma {:induction false} RecategoriseTotal(expenses: seq<Expense>, id: Id, category: string)
    ensures TotalCents(Recategorise(expenses, id, category)) == TotalCents(expenses)
  {
    if expenses != [] {
      var n := |expenses| - 1;
      var r := Recategorise(expenses, id, category);
      assert r[..n] == Recategorise(expenses[..n], id, category);
      RecategoriseTotal(expenses[..n], id, category);
    }
  }

  /** Recategorising twice with the same category is recategorising once. */
  lemma RecategoriseIdempotent(expenses: seq<Expense>, id: Id, category: string)
    ensures Recategorise(Recategorise(expenses, id, category), id, category) == Recategorise(expenses, id, category)
  {
  }

  // ---------------------------------------------------------------------
  // Notices and the readiness gate

  /** What `addExpenses` announces for a batch of `n` expenses. */
  function AddedNotices(n: nat): seq<Notice>
  {
    if n == 1 then [Notice("1 justificatif ajouté avec succès !", Success)]
    else if n > 1 then [Notice(NatToString(n) + " justificatifs ajoutés avec succès !", Success)]
    else []
  }

  /** No notice for an empty batch; otherwise one success notice whose message begins with the count. */
  lemma AddedNoticesSpec(n: nat)
    ensures n == 0 <==> AddedNotices(n) == []
    ensures n > 0 ==> |AddedNotices(n)| == 1 && AddedNotices(n)[0].kind == Success
    ensures n > 0 ==> StartsWith(AddedNotices(n)[0].message, NatToString(n))
  {
    if n == 1 {
      assert NatToString(1) == "1";
      assert "1 justificatif ajouté avec succès !" == "1" + " justificatif ajouté avec succès !";
    } else if n > 1 {
      var d := NatToString(n);
      assert (d + " justificatifs ajoutés avec succès !")[..|d|] == d;
    }
  }

  /** Two batches of different sizes are announced differently. */
  lemma AddedNoticesDistinct(m: nat, n: nat)
    requires m > 1 && n > 1 && AddedNotices(m) == AddedNotices(n)
    ensures m == n
  {
    var sm, sn := NatToString(m), NatToString(n);
    var tail := " justificatifs ajoutés avec succès !";
    assert sm + tail == sn + tail;
    assert |sm| == |sn|;
    assert sm == (sm + tail)[..|sm|];
    assert sn == (sn + tail)[..|sn|];
    NatToStringInjective(m, n);
  }

  /** `!!(p?.title && p?.lastName && p?.firstName && p?.rpps && p?.email)`. */
  predicate ProfileComplete(profile: Option<ProfileData>)
  {
    profile.Some? && profile.value.title != "" && profile.value.lastName != "" &&
    profile.value.firstName != "" && profile.value.rpps != "" && profile.value.email != ""
  }

  /** `!!(r?.iban && r?.bic)`. */
  predicate RibComplete(rib: Option<RibData>)
  {
    rib.Some? && rib.value.iban != "" && rib.value.bic != ""
  }

  predicate IsReady(expenses: seq<Expense>, profile: Option<ProfileData>, rib: Option<RibData>)
  {
    |expenses| > 0 && ProfileComplete(profile) && RibComplete(rib)
  }

  const MissingProfile: string := "votre profil"
  const MissingReceipt: string := "au moins un justificatif"
  const MissingRib: string := "vos informations bancaires (RIB)"

  /** The parts `handleGenerateAttempt` pushes, in the order it checks them. */
  function MissingParts(expenses: seq<Expense>, profile: Option<ProfileData>, rib: Option<RibData>): seq<string>
  {
    (if ProfileComplete(profile) then [] else [MissingProfile])
    + (if |expenses| == 0 then [MissingReceipt] else [])
    + (if RibComplete(rib) then [] else [MissingRib])
  }

  /** Each part is listed exactly when its check fails, at most once, profile before receipt before bank details. */
  lemma MissingPartsSpec(expenses: seq<Expense>, profile: Option<ProfileData>, rib: Option<RibData>)
    ensures var parts := MissingParts(expenses, profile, rib);
      (MissingProfile in parts <==> !ProfileComplete(profile)) &&
      (MissingReceipt in parts <==> |expenses| == 0) &&
      (MissingRib in parts <==> !RibComplete(rib)) &&
      NoDuplicates(parts) &&
      (forall i, j :: 0 <= i < j < |parts| ==> PartRank(parts[i]) < PartRank(parts[j]))
  {
  }

  function PartRank(part: string): nat
  {
    if part == MissingProfile then 0 else if part == MissingReceipt then 1 else 2
  }

  /** Ready exactly when nothing is missing. */
  lemma ReadyIffNothingMissing(expenses: seq<Expense>, profile: Option<ProfileData>, rib: Option<RibData>)
    ensures IsReady(expenses, profile, rib) <==> MissingParts(expenses, profile, rib) == []
  {
    var parts := MissingParts(expenses, profile, rib);
    if !IsReady(expenses, profile, rib) {
      MissingPartsSpec(expenses, profile, rib);
    }
  }

  /** "a", "a et b", or "a, b, et c" (`slice(0, -1).join(', ') + ', et ' + last`). */
  function JoinParts(parts: seq<string>): string
    requires |parts| > 0
  {
    if |parts| == 1 then parts[0]
    else if |parts| == 2 then parts[0] + " et " + parts[1]
    else Join(parts[..|parts| - 1], ", ") + ", et " + parts[|parts| - 1]
  }

  function MissingMessage(parts: seq<string>): string
    requires |parts| > 0
  {
    "Veuillez compléter : " + JoinParts(parts) + " pour générer le document."
  }

  /** With everything missing, the three parts are listed with commas and a final "et". */
  lemma MissingMessageAll(expenses: seq<Expense>, profile: Option<ProfileData>, rib: Option<RibData>)
    requires |expenses| == 0 && profile.None? && rib.None?
    ensures MissingParts(expenses, profile, rib) == [MissingProfile, MissingReceipt, MissingRib]
    ensures MissingMessage(MissingParts(expenses, profile, rib))
         == "Veuillez compléter : " + (MissingProfile + ", " + MissingReceipt + ", et " + MissingRib) + " pour générer le document."
  {
    var parts := [MissingProfile, MissingReceipt, MissingRib];
    assert parts[..2] == [MissingProfile, MissingReceipt];
    assert [MissingProfile, MissingReceipt][..1] == [MissingProfile];
    assert Join(parts[..2], ", ") == MissingProfile + ", " + MissingReceipt;
    assert JoinParts(parts) == MissingProfile + ", " + MissingReceipt + ", et " + MissingRib;
  }

  /** Every message names every missing part and sits in the fixed frame. */
  lemma MissingMessageFrame(parts: seq<string>)
    requires |parts| > 0
    ensures StartsWith(MissingMessage(parts), "Veuillez compléter : ")
    ensures |parts| == 1 ==> MissingMessage(parts) == "Veuillez compléter : " + parts[0] + " pour générer le document."
    ensures |parts| == 2 ==> MissingMessage(parts) == "Veuillez compléter : " + (parts[0] + " et " + parts[1]) + " pour générer le document."
    ensures |parts| == 3 ==> MissingMessage(parts) == "Veuillez compléter : " + (parts[0] + ", " + parts[1] + ", et " + parts[2]) + " pour générer le document."
  {
    var m := MissingMessage(parts);
    var p := "Veuillez compléter : ";
    assert m == p + (JoinParts(parts) + " pour générer le document.");
    assert m[..|p|] == p;
    if |parts| == 3 {
      assert parts[..2][..1] == [parts[0]];
      assert Join(parts[..2], ", ") == parts[0] + ", " + parts[1];
    }
  }

  // ---------------------------------------------------------------------
  // The contract merge

  /** JavaScript's `a || b` on strings: `a` unless it is empty. */
  function Or(a: string, b: string): string
  {
    if a != "" then a else b
  }

  /** Whether any extracted field has a value (`Object.values(info).some(v => !!v)`). */
  predicate HasRealData(info: ProfileData)
  {
    info.title != "" || info.lastName != "" || info.firstName != "" || info.rpps != "" || info.email != ""
  }

  /** The profile after a contract's provider data: what was filled stays; otherwise the extracted value; the title falls back to "Dr.". */
  function MergeProfile(prev: Option<ProfileData>, info: ProfileData): ProfileData
  {
    var p := if prev.Some? then prev.value else ProfileData("", "", "", "", "");
    ProfileData(Or(Or(p.title, info.title), "Dr."), Or(p.lastName, info.lastName), Or(p.firstName, info.firstName),
                Or(p.rpps, info.rpps), Or(p.email, info.email))
  }

  /** A field already filled wins; an empty one takes the extracted value; the title is never empty. */
  lemma MergeProfileSpec(prev: Option<ProfileData>, info: ProfileData)
    ensures var m := MergeProfile(prev, info);
      m.title != "" &&
      (prev.Some? && prev.value.title != "" ==> m.title == prev.value.title) &&
      (prev.Some? && prev.value.lastName != "" ==> m.lastName == prev.value.lastName) &&
      (prev.Some? && prev.value.firstName != "" ==> m.firstName == prev.value.firstName) &&
      (prev.Some? && prev.value.rpps != "" ==> m.rpps == prev.value.rpps) &&
      (prev.Some? && prev.value.email != "" ==> m.email == prev.value.email) &&
      ((prev.None? || prev.value.lastName == "") ==> m.lastName == info.lastName) &&
      ((prev.None? || prev.value.firstName == "") ==> m.firstName == info.firstName) &&
      ((prev.None? || prev.value.rpps == "") ==> m.rpps == info.rpps) &&
      ((prev.None? || prev.value.email == "") ==> m.email == info.email) &&
      ((prev.None? || prev.value.title == "") ==> m.title == (if info.title != "" then info.title else "Dr."))
  {
  }

  /** Merging the same data again changes nothing. */
  lemma MergeProfileIdempotent(prev: Option<ProfileData>, info: ProfileData)
    ensures MergeProfile(Some(MergeProfile(prev, info)), info) == MergeProfile(prev, info)
  {
  }

  /** A complete profile is left as it is by any merge. */
  lemma MergeKeepsComplete(prev: Option<ProfileData>, info: ProfileData)
    requires ProfileComplete(prev)
    ensures MergeProfile(prev, info) == prev.value
  {
  }

  /** The notices `handleContractExtracted` adds, in order. */
  function ContractNotices(data: ContractExtraction): seq<Notice>
  {
    AddedNotices(|data.expenses|) + EmailNotices(data) + ProfileNotices(data)
    + (if InfoFound(data) then [] else [Notice(NothingFound, Info)])
  }

  function EmailNotices(data: ContractExtraction): seq<Notice>
  {
    if data.email.Some? && data.email.value != "" then [Notice("Email du destinataire trouvé : " + data.email.value, Info)] else []
  }

  function ProfileNotices(data: ContractExtraction): seq<Notice>
  {
    if data.providerInfo.Some? && HasRealData(data.providerInfo.value)
    then [Notice("Votre profil a été pré-rempli avec les informations du contrat.", Info)] else []
  }

  const NothingFound: string := "Aucune information " + "exploitable trouvée dans le contrat."

  /** Whether the extraction gave anything usable at all. */
  predicate InfoFound(data: ContractExtraction)
  {
    |data.expenses| > 0 || (data.email.Some? && data.email.value != "") ||
    (data.providerInfo.Some? && HasRealData(data.providerInfo.value))
  }

  /** "Nothing usable" is announced exactly when there are no expenses, no address and no provider value, and it is then the only notice. */
  lemma NothingFoundIff(data: ContractExtraction)
    ensures Notice(NothingFound, Info) in ContractNotices(data) <==> !InfoFound(data)
    ensures !InfoFound(data) ==> ContractNotices(data) == [Notice(NothingFound, Info)]
  {
    var n := ContractNotices(data);
    AddedNoticesSpec(|data.expenses|);
    if InfoFound(data) {
      if |data.expenses| > 1 {
        var m := NatToString(|data.expenses|) + " justificatifs ajoutés avec succès !";
        assert m != NothingFound by {
          assert '0' <= m[0] <= '9';
        }
      }
      if data.email.Some? {
        assert NothingFound[0] == 'A';
        assert ("Email du destinataire trouvé : " + data.email.value)[0] == 'E';
      }
    }
  }

  // ---------------------------------------------------------------------
  // The application state

  class AppState {
    var expenses: seq<Expense>
    var profileInfo: Option<ProfileData>
    var ribData: Option<RibData>
    var contractFile: Option<SourceFile>
    var ribFile: Option<SourceFile>
    var recipientEmail: string
    var notifications: seq<Notice>
    /** The documents handed to `doc.save`, in order. */
    var saved: seq<Report>

    /** The state right after mounting, before any stored profile is read. */
    constructor ()
      ensures expenses == [] && profileInfo.None? && ribData.None? && contractFile.None? && ribFile.None?
      ensures recipientEmail == "" && notifications == [] && saved == []
    {
      expenses := [];
      profileInfo := None;
      ribData := None;
      contractFile := None;
      ribFile := None;
      recipientEmail := "";
      notifications := [];
      saved := [];
    }

    /** `setContractFile`, the contract uploader's `onFileSelect`: the file selected, or none. */
    method SelectContractFile(file: Option<SourceFile>)
      modifies this
      ensures contractFile == file && ribFile == old(ribFile)
      ensures expenses == old(expenses) && profileInfo == old(profileInfo) && ribData == old(ribData)
      ensures recipientEmail == old(recipientEmail) && notifications == old(notifications) && saved == old(saved)
    {
      contractFile := file;
    }

    /** `setRibFile`, the bank form's `onFileSelect`: the file selected, or none. */
    method SelectRibFile(file: Option<SourceFile>)
      modifies this
      ensures ribFile == file && contractFile == old(contractFile)
      ensures expenses == old(expenses) && profileInfo == old(profileInfo) && ribData == old(ribData)
      ensures recipientEmail == old(recipientEmail) && notifications == old(notifications) && saved == old(saved)
    {
      ribFile := file;
    }

    /** `totalAmount`: the sum over the whole list. */
    function TotalAmount(): int
      reads this
    {
      TotalCents(expenses)
    }

    /** `addExpenses(newExpenses)`: appended after the current list, announced by count. */
    method AddExpenses(newExpenses: seq<Expense>)
      modifies this
      ensures expenses == old(expenses) + newExpenses
      ensures notifications == old(notifications) + AddedNotices(|newExpenses|)
      ensures TotalAmount() == old(TotalAmount()) + TotalCents(newExpenses)
      ensures profileInfo == old(profileInfo) && ribData == old(ribData) && recipientEmail == old(recipientEmail)
      ensures contractFile == old(contractFile) && ribFile == old(ribFile) && saved == old(saved)
    {
      TotalCentsAppend(expenses, newExpenses);
      expenses := expenses + newExpenses;
      if |newExpenses| == 1 {
        notifications := notifications + [Notice("1 justificatif ajouté avec succès !", Success)];
      } else if |newExpenses| > 1 {
        notifications := notifications + [Notice(NatToString(|newExpenses|) + " justificatifs ajoutés avec succès !", Success)];
      }
    }

    /** `removeExpense(id)`. */
    method RemoveExpense(id: Id)
      modifies this
      ensures expenses == RemoveById(old(expenses), id)
      ensures TotalAmount() == old(TotalAmount()) - TotalCents(WithId(old(expenses), id))
      ensures profileInfo == old(profileInfo) && ribData == old(ribData) && recipientEmail == old(recipientEmail)
      ensures contractFile == old(contractFile) && ribFile == old(ribFile) && notifications == old(notifications) && saved == old(saved)
    {
      RemoveByIdTotal(expenses, id);
      expenses := RemoveById(expenses, id);
    }

    /** `updateExpenseCategory(id, category)`. */
    method UpdateExpenseCategory(id: Id, category: string)
      modifies this
      ensures expenses == Recategorise(old(expenses), id, category)
      ensures TotalAmount() == old(TotalAmount())
      ensures profileInfo == old(profileInfo) && ribData == old(ribData) && recipientEmail == old(recipientEmail)
      ensures contractFile == old(contractFile) && ribFile == old(ribFile) && notifications == old(notifications) && saved == old(saved)
    {
      RecategoriseTotal(expenses, id, category);
      expenses := Recategorise(expenses, id, category);
    }

    /** `isReady`. */
    predicate Ready()
      reads this
    {
      IsReady(expenses, profileInfo, ribData)
    }

    /** `handleContractExtracted(data)`. */
    method HandleContractExtracted(data: ContractExtraction)
      modifies this
      ensures expenses == old(expenses) + data.expenses
      ensures recipientEmail == (if data.email.Some? && data.email.value != "" then data.email.value else old(recipientEmail))
      ensures profileInfo == (if data.providerInfo.Some? && HasRealData(data.providerInfo.value)
                              then Some(MergeProfile(old(profileInfo), data.providerInfo.value)) else old(profileInfo))
      ensures notifications == old(notifications) + ContractNotices(data)
      ensures ribData == old(ribData) && contractFile == old(contractFile) && ribFile == old(ribFile) && saved == old(saved)
    {
      var infoFound := false;
      if |data.expenses| > 0 {
        AddExpenses(data.expenses);
        infoFound := true;
      }
      assert notifications == old(notifications) + AddedNotices(|data.expenses|);
      var emailFound := TakeRecipientEmail(data);
      var profileFound := TakeProviderInfo(data);
      infoFound := infoFound || emailFound || profileFound;
      if !infoFound {
        notifications := notifications + [Notice(NothingFound, Info)];
      }
      SeqAssoc(old(notifications), AddedNotices(|data.expenses|), EmailNotices(data), ProfileNotices(data));
      Assoc(old(notifications), AddedNotices(|data.expenses|) + EmailNotices(data) + ProfileNotices(data),
            if InfoFound(data) then [] else [Notice(NothingFound, Info)]);
      assert |data.expenses| == 0 ==> expenses == old(expenses) + data.expenses;
    }

    /** The `if (data.email)` step of `handleContractExtracted`. */
    method TakeRecipientEmail(data: ContractExtraction) returns (found: bool)
      modifies this
      ensures found == (data.email.Some? && data.email.value != "")
      ensures recipientEmail == (if found then data.email.value else old(recipientEmail))
      ensures notifications == old(notifications) + EmailNotices(data)
      ensures expenses == old(expenses) && profileInfo == old(profileInfo) && ribData == old(ribData)
      ensures contractFile == old(contractFile) && ribFile == old(ribFile) && saved == old(saved)
    {
      found := false;
      if data.email.Some? && data.email.value != "" {
        recipientEmail := data.email.value;
        notifications := notifications + [Notice("Email du destinataire trouvé : " + data.email.value, Info)];
        found := true;
      }
    }

    /** The `if (data.providerInfo)` step of `handleContractExtracted`. */
    method TakeProviderInfo(data: ContractExtraction) returns (found: bool)
      modifies this
      ensures found == (data.providerInfo.Some? && HasRealData(data.providerInfo.value))
      ensures profileInfo == (if found then Some(MergeProfile(old(profileInfo), data.providerInfo.value)) else old(profileInfo))
      ensures notifications == old(notifications) + ProfileNotices(data)
      ensures expenses == old(expenses) && recipientEmail == old(recipientEmail) && ribData == old(ribData)
      ensures contractFile == old(contractFile) && ribFile == old(ribFile) && saved == old(saved)
    {
      found := false;
      if data.providerInfo.Some? {
        if HasRealData(data.providerInfo.value) {
          profileInfo := Some(MergeProfile(profileInfo, data.providerInfo.value));
          notifications := notifications + [Notice("Votre profil a été pré-rempli avec les informations du contrat.", Info)];
          found := true;
        }
      }
    }

    /** `handleGenerateAttempt()`: the missing parts pushed in order, and one notice naming them unless none is missing. */
    method HandleGenerateAttempt()
      modifies this
      ensures var parts := MissingParts(old(expenses), old(profileInfo), old(ribData));
        notifications == old(notifications) + (if parts == [] then [] else [Notice(MissingMessage(parts), Info)])
      ensures expenses == old(expenses) && profileInfo == old(profileInfo) && ribData == old(ribData)
      ensures recipientEmail == old(recipientEmail) && contractFile == old(contractFile) && ribFile == old(ribFile) && saved == old(saved)
    {
      var missingParts: seq<string> := [];
      var isProfileComplete := ProfileComplete(profileInfo);
      var isRibComplete := RibComplete(ribData);
      if !isProfileComplete {
        missingParts := missingParts + [MissingProfile];
      }
      if |expenses| == 0 {
        missingParts := missingParts + [MissingReceipt];
      }
      if !isRibComplete {
        missingParts := missingParts + [MissingRib];
      }
      assert missingParts == MissingParts(expenses, profileInfo, ribData);
      if |missingParts| > 0 {
        var message := "Veuillez compléter : ";
        if |missingParts| == 1 {
          message := message + missingParts[0];
        } else if |missingParts| == 2 {
          message := message + (missingParts[0] + " et " + missingParts[1]);
        } else {
          message := message + (Join(missingParts[..|missingParts| - 1], ", ") + ", et " + missingParts[|missingParts| - 1]);
        }
        message := message + " pour générer le document.";
        notifications := notifications + [Notice(message, Info)];
      }
    }

    /**
     * `handleGenerateReport(reportType, finalRecipientEmail)`: nothing when
     * the profile or the bank details are missing; otherwise the document
     * is built from the current state. The success notice follows only
     * when the document is saved: a file that stalls the generation or
     * makes it reject leaves the handler without reaching the notice, as
     * the handler has no `catch`. `generationDate`, `displayDate` and
     * `layout` stand for the clock, the locale's date rendering and the
     * table plugin's pagination.
     */
    method HandleGenerateReport(reportType: ReportType, finalRecipientEmail: string, generationDate: string,
                                displayDate: string -> string, layout: seq<TablePage>)
      requires ValidLayout(layout, |expenses|)
      modifies this
      ensures expenses == old(expenses) && profileInfo == old(profileInfo) && ribData == old(ribData)
      ensures recipientEmail == old(recipientEmail) && contractFile == old(contractFile) && ribFile == old(ribFile)
      ensures old(profileInfo).None? || old(ribData).None? ==> saved == old(saved) && notifications == old(notifications)
      ensures old(profileInfo).Some? && old(ribData).Some? && FilesStatus(AppendixFiles(expenses, contractFile, ribFile)) != Completed ==>
        saved == old(saved) && notifications == old(notifications)
      ensures old(profileInfo).Some? && old(ribData).Some? && FilesStatus(AppendixFiles(expenses, contractFile, ribFile)) == Completed ==>
        saved == old(saved) + [Report(ReportPages(expenses, ribData.value, profileInfo.value, reportType, finalRecipientEmail,
                                                  contractFile, ribFile, generationDate, displayDate, layout),
                                      FileName(reportType, generationDate))]
      ensures old(profileInfo).Some? && old(ribData).Some? && FilesStatus(AppendixFiles(expenses, contractFile, ribFile)) == Completed ==>
        notifications == old(notifications) + [Notice("Document généré avec succès !", Success)]
    {
      if profileInfo.None? || ribData.None? {
        return;
      }
      var outcome := GenerateExpenseReport(expenses, ribData.value, profileInfo.value, reportType, finalRecipientEmail,
                                           contractFile, ribFile, generationDate, displayDate, layout);
      if outcome.Unsaved? {
        return;
      }
      saved := saved + [outcome.report];
      notifications := notifications + [Notice("Document généré avec succès !", Success)];
    }
  }
}
