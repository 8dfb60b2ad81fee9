/**
 * The practitioner's profile form of components/ProfileManager.tsx: five
 * fields with defaults, an editing handler that changes one field, and a
 * validity effect that reports the profile to the application and
 * announces it once.
 */
module ProfileManager {
  import opened Types
  import opened Strings
  import App

  /** The form's initial state: title "Dr.", every other field empty. */
  const Defaults: ProfileData := ProfileData("Dr.", "", "", "", "")

  /** `x || fallback` on a string: the empty string is the one falsy value. */
  function OrElse(x: string, fallback: string): (r: string)
    ensures x != "" ==> r == x
    ensures x == "" ==> r == fallback
  {
    if x == "" then fallback else x
  }

  /** The `initialData` effect's copy: a missing title becomes "Dr.", any other missing field "". */
  function WithDefaults(d: ProfileData): (r: ProfileData)
  {
    ProfileData(OrElse(d.title, "Dr."), OrElse(d.lastName, ""), OrElse(d.firstName, ""), OrElse(d.rpps, ""), OrElse(d.email, ""))
  }

  /** Filled fields are kept as they are, and the title is never left empty. */
  lemma WithDefaultsSpec(d: ProfileData)
    ensures WithDefaults(d).title != ""
    ensures d.title != "" ==> WithDefaults(d).title == d.title
    ensures d.title == "" ==> WithDefaults(d).title == "Dr."
    ensures WithDefaults(d).(title := d.title) == d
    ensures WithDefaults(WithDefaults(d)) == WithDefaults(d)
  {
  }

  /** The validity test: four fields not blank once trimmed and an e-mail of the shape `/^\S+@\S+\.\S+$/` once trimmed. */
  predicate ProfileValid(p: ProfileData)
  {
    Trim(p.title) != "" && Trim(p.lastName) != "" && Trim(p.firstName) != "" && Trim(p.rpps) != "" &&
    EmailShape(Trim(p.email))
  }

  /** A profile this form reports as valid passes the application's completeness gate. */
  lemma ValidIsComplete(p: ProfileData)
    requires ProfileValid(p)
    ensures App.ProfileComplete(Some(p))
  {
  }

  /** A name that is empty or only white space makes the profile invalid, whatever the others hold. */
  lemma BlankFieldInvalid(p: ProfileData)
    requires forall k :: 0 <= k < |p.lastName| ==> IsSpace(p.lastName[k])
    ensures !ProfileValid(p)
  {
  }

  /** The defaults are not a valid profile: the form starts unsaved and reports nothing. */
  lemma DefaultsInvalid()
    ensures !ProfileValid(Defaults)
  {
  }

  /** The inputs of the form, by their `name` attribute. */
  datatype Field = Title | LastName | FirstName | Rpps | Email

  function Get(p: ProfileData, f: Field): string
  {
    match f
    case Title => p.title
    case LastName => p.lastName
    case FirstName => p.firstName
    case Rpps => p.rpps
    case Email => p.email
  }

  /** `{ ...prev, [name]: value }`. */
  function WithField(p: ProfileData, f: Field, value: string): (r: ProfileData)
  {
    match f
    case Title => p.(title := value)
    case LastName => p.(lastName := value)
    case FirstName => p.(firstName := value)
    case Rpps => p.(rpps := value)
    case Email => p.(email := value)
  }

  /** The named field takes the value; every other field keeps its own. */
  lemma WithFieldSpec(p: ProfileData, f: Field, value: string)
    ensures Get(WithField(p, f, value), f) == value
    ensures forall g: Field :: g != f ==> Get(WithField(p, f, value), g) == Get(p, g)
  {
  }

  /** Writing back what a field holds changes nothing; the last write to a field wins. */
  lemma WithFieldOverwrite(p: ProfileData, f: Field, v: string, w: string)
    ensures WithField(p, f, Get(p, f)) == p
    ensures WithField(WithField(p, f, v), f, w) == WithField(p, f, w)
  {
  }

  /** What the form hands to the application, in order. */
  datatype Call = ProfileChange(data: Option<ProfileData>) | Notify(notice: Notice)

  const Saved: Notice := Notice("Profil enregistré avec succès.", Success)

  class State {
    var profileInfo: ProfileData
    var isSaved: bool
    var calls: seq<Call>

    constructor ()
      ensures profileInfo == Defaults && !isSaved && calls == []
    {
      profileInfo := Defaults;
      isSaved := false;
      calls := [];
    }

    /** The `initialData` effect: given data replaces the form's, missing fields defaulted; no data changes nothing. */
    method SyncInitialData(initialData: Option<ProfileData>)
      modifies this
      ensures initialData.Some? ==> profileInfo == WithDefaults(initialData.value)
      ensures initialData.None? ==> profileInfo == old(profileInfo)
      ensures isSaved == old(isSaved) && calls == old(calls)
    {
      if initialData.Some? {
        var d := initialData.value;
        profileInfo := ProfileData(OrElse(d.title, "Dr."), OrElse(d.lastName, ""), OrElse(d.firstName, ""), OrElse(d.rpps, ""), OrElse(d.email, ""));
      }
    }

    /**
     * The validity effect: a valid profile is reported, and announced when
     * it was not saved yet; otherwise nothing valid is reported and the
     * form is marked unsaved.
     */
    method ValidityEffect()
      modifies this
      ensures ProfileValid(profileInfo) && old(isSaved) ==> calls == old(calls) + [ProfileChange(Some(profileInfo))]
      ensures ProfileValid(profileInfo) && !old(isSaved) ==> calls == old(calls) + [ProfileChange(Some(profileInfo)), Notify(Saved)]
      ensures !ProfileValid(profileInfo) ==> calls == old(calls) + [ProfileChange(None)]
      ensures isSaved == ProfileValid(profileInfo)
      ensures profileInfo == old(profileInfo)
    {
      var isValid := ProfileValid(profileInfo);
      if isValid {
        if isSaved {
          calls := calls + [ProfileChange(Some(profileInfo))];
        } else {
          calls := calls + [ProfileChange(Some(profileInfo)), Notify(Saved)];
        }
        isSaved := true;
      } else {
        calls := calls + [ProfileChange(None)];
        isSaved := false;
      }
    }

    /** `handleChange`: the named field takes the typed value and the form becomes unsaved. */
    method HandleChange(name: Field, value: string)
      modifies this
      ensures profileInfo == WithField(old(profileInfo), name, value)
      ensures !isSaved && calls == old(calls)
    {
      profileInfo := WithField(profileInfo, name, value);
      isSaved := false;
    }
  }
}
