/**
 * The bank-details form of components/RibManager.tsx: two fields kept
 * upper-case alphanumeric as they are typed, filled from a bank document
 * by the extraction service, and a validity effect that reports the
 * details to the application and announces them once.
 */
module RibManager {
  import opened Types
  import opened Strings
  import App

  // ---------------------------------------------------------------------
  // Normalisation

  /** `toUpperCase` on ASCII letters. */
  function ToUpper(c: char): char
  {
    if 'a' <= c <= 'z' then (c as int - 32) as char else c
  }

  predicate IsUpperAlnum(c: char)
  {
    ('A' <= c <= 'Z') || ('0' <= c <= '9')
  }

  predicate AllUpperAlnum(s: string)
  {
    forall k :: 0 <= k < |s| ==> IsUpperAlnum(s[k])
  }

  /** `value.toUpperCase().replace(/[^A-Z0-9]/g, '')`. */
  function Normalize(s: string): (r: string)
    ensures |r| <= |s|
    ensures AllUpperAlnum(r)
  {
    if s == [] then []
    else
      var c := ToUpper(s[|s| - 1]);
      Normalize(s[..|s| - 1]) + (if IsUpperAlnum(c) then [c] else [])
  }

  /** Normalising works character by character. */
  lemma {:induction false} NormalizeAppend(a: string, b: string)
    ensures Normalize(a + b) == Normalize(a) + Normalize(b)
    decreases |b|
  {
    if b == [] {
      assert a + b == a;
    } else {
      var n := |b| - 1;
      assert (a + b)[..|a + b| - 1] == a + b[..n];
      assert (a + b)[|a + b| - 1] == b[n];
      NormalizeAppend(a, b[..n]);
    }
  }

  /** What is already upper-case alphanumeric is left as it is. */
  lemma {:induction false} NormalizeKeeps(s: string)
    requires AllUpperAlnum(s)
    ensures Normalize(s) == s
  {
    if s != [] {
      var n := |s| - 1;
      NormalizeKeeps(s[..n]);
      assert ToUpper(s[n]) == s[n];
      assert s[..n] + [s[n]] == s;
    }
  }

  /** Normalising twice is normalising once. */
  lemma NormalizeIdempotent(s: string)
    ensures Normalize(Normalize(s)) == Normalize(s)
  {
    NormalizeKeeps(Normalize(s));
  }

  /** `s.replace(/\s+/g, '')`: every white-space character removed. */
  function RemoveSpaces(s: string): (r: string)
    ensures |r| <= |s|
    ensures NoSpace(r)
  {
    if s == [] then []
    else RemoveSpaces(s[..|s| - 1]) + (if IsSpace(s[|s| - 1]) then [] else [s[|s| - 1]])
  }

  /** Text without white space is left as it is, so removing spaces twice is removing them once. */
  lemma {:induction false} RemoveSpacesKeeps(s: string)
    requires NoSpace(s)
    ensures RemoveSpaces(s) == s
  {
    if s != [] {
      var n := |s| - 1;
      RemoveSpacesKeeps(s[..n]);
      assert s[..n] + [s[n]] == s;
    }
  }

  lemma RemoveSpacesIdempotent(s: string)
    ensures RemoveSpaces(RemoveSpaces(s)) == RemoveSpaces(s)
  {
    RemoveSpacesKeeps(RemoveSpaces(s));
  }

  /** Only white space is removed: what remains, in order, is what was not white space. */
  lemma {:induction false} RemoveSpacesCount(s: string)
    ensures |RemoveSpaces(s)| + SpaceCount(s) == |s|
  {
    if s != [] {
      RemoveSpacesCount(s[..|s| - 1]);
    }
  }

  function SpaceCount(s: string): nat
  {
    if s == [] then 0 else SpaceCount(s[..|s| - 1]) + (if IsSpace(s[|s| - 1]) then 1 else 0)
  }

  // ---------------------------------------------------------------------
  // Validity

  /** `iban.trim().length > 14 && bic.trim().length > 7`. */
  predicate RibValid(iban: string, bic: string)
  {
    |Trim(iban)| > 14 && |Trim(bic)| > 7
  }

  /** Details this form reports as valid pass the application's completeness gate. */
  lemma ValidIsComplete(iban: string, bic: string)
    requires RibValid(iban, bic)
    ensures App.RibComplete(Some(RibData(iban, bic)))
  {
  }

  /** For typed input, which is already normalised, validity is a pure length test. */
  lemma NormalizedValidity(iban: string, bic: string)
    ensures RibValid(Normalize(iban), Normalize(bic)) <==> |Normalize(iban)| > 14 && |Normalize(bic)| > 7
  {
    NoSpaceOfUpperAlnum(Normalize(iban));
    NoSpaceOfUpperAlnum(Normalize(bic));
  }

  lemma NoSpaceOfUpperAlnum(s: string)
    requires AllUpperAlnum(s)
    ensures NoSpace(s)
  {
    forall k | 0 <= k < |s| ensures !IsSpace(s[k]) {
      assert IsUpperAlnum(s[k]);
    }
  }

  // ---------------------------------------------------------------------
  // The component

  /** What the form hands to the application, in order. */
  datatype Call = RibChange(data: Option<RibData>) | Notify(notice: Notice) | FileSelect(file: Option<SourceFile>)

  const Saved: Notice := Notice("RIB enregistré avec succès.", Success)
  const Extracted: Notice := Notice("IBAN et BIC extraits. Veuillez vérifier les informations.", Info)
  const UnknownError: string := "Une erreur inconnue est survenue."

  class State {
    var iban: string
    var bic: string
    var isSaved: bool
    var isProcessing: bool
    var calls: seq<Call>

    constructor ()
      ensures iban == "" && bic == "" && !isSaved && !isProcessing && calls == []
    {
      iban := "";
      bic := "";
      isSaved := false;
      isProcessing := false;
      calls := [];
    }

    /** The `initialData` effect: copy the details given, or clear both fields. */
    method SyncInitialData(initialData: Option<RibData>)
      modifies this
      ensures initialData.Some? ==> iban == initialData.value.iban && bic == initialData.value.bic
      ensures initialData.None? ==> iban == "" && bic == ""
      ensures isSaved == old(isSaved) && isProcessing == old(isProcessing) && calls == old(calls)
    {
      if initialData.Some? {
        iban := initialData.value.iban;
        bic := initialData.value.bic;
      } else {
        iban := "";
        bic := "";
      }
    }

    /**
     * The validity effect: valid details are reported, and announced when
     * they were not saved yet; invalid ones report nothing valid and mark
     * the form unsaved.
     */
    method ValidityEffect()
      modifies this
      ensures RibValid(iban, bic) && old(isSaved) ==> calls == old(calls) + [RibChange(Some(RibData(iban, bic)))]
      ensures RibValid(iban, bic) && !old(isSaved) ==> calls == old(calls) + [RibChange(Some(RibData(iban, bic))), Notify(Saved)]
      ensures !RibValid(iban, bic) ==> calls == old(calls) + [RibChange(None)]
      ensures isSaved == RibValid(iban, bic)
      ensures iban == old(iban) && bic == old(bic) && isProcessing == old(isProcessing)
    {
      var isValid := RibValid(iban, bic);
      if isValid {
        var data := RibData(iban, bic);
        if isSaved {
          calls := calls + [RibChange(Some(data))];
        } else {
          calls := calls + [RibChange(Some(data)), Notify(Saved)];
        }
        isSaved := true;
      } else {
        calls := calls + [RibChange(None)];
        isSaved := false;
      }
    }

    /** `handleIbanChange`: the typed text, normalised; the form becomes unsaved. */
    method HandleIbanChange(value: string)
      modifies this
      ensures iban == Normalize(value) && AllUpperAlnum(iban) && !isSaved
      ensures bic == old(bic) && isProcessing == old(isProcessing) && calls == old(calls)
    {
      iban := Normalize(value);
      isSaved := false;
    }

    /** `handleBicChange`: the typed text, normalised; the form becomes unsaved. */
    method HandleBicChange(value: string)
      modifies this
      ensures bic == Normalize(value) && AllUpperAlnum(bic) && !isSaved
      ensures iban == old(iban) && isProcessing == old(isProcessing) && calls == old(calls)
    {
      bic := Normalize(value);
      isSaved := false;
    }

    /**
     * `handleFileChange(files)`: nothing for no file; otherwise the first
     * file is selected, both fields are cleared, and then either filled
     * from the extraction without white space or, when it throws, left
     * empty with the selection withdrawn. `extraction` is what the
     * extraction service returns or throws.
     */
    method HandleFileChange(files: seq<SourceFile>, extraction: Result<RibData>)
      modifies this
      ensures files == [] ==> iban == old(iban) && bic == old(bic) && calls == old(calls) && isProcessing == old(isProcessing)
      ensures files != [] && extraction.Ok? ==>
        iban == RemoveSpaces(extraction.value.iban) && bic == RemoveSpaces(extraction.value.bic) &&
        calls == old(calls) + [FileSelect(Some(files[0])), Notify(Extracted)]
      ensures files != [] && extraction.Err? ==>
        iban == "" && bic == "" &&
        calls == old(calls) + [FileSelect(Some(files[0])), Notify(Notice(ErrorMessage(extraction.thrown, UnknownError), Error)), FileSelect(None)]
      ensures files != [] ==> !isProcessing
      ensures isSaved == old(isSaved)
    {
      if |files| == 0 {
        return;
      }
      var file := files[0];
      calls := calls + [FileSelect(Some(file))];
      isProcessing := true;
      iban := "";
      bic := "";
      match extraction {
        case Ok(data) =>
          iban := RemoveSpaces(data.iban);
          bic := RemoveSpaces(data.bic);
          calls := calls + [Notify(Extracted)];
        case Err(thrown) =>
          calls := calls + [Notify(Notice(ErrorMessage(thrown, UnknownError), Error))];
          calls := calls + [FileSelect(None)];
      }
      isProcessing := false;
    }
  }
}
