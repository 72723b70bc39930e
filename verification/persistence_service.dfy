/**
 * The patient store of backend/services/persistenceService.js in its file
 * branch: the patients live in one JSON file, read whole, extended with
 * `push` and written back whole.  The file is modelled by what reading it
 * yields; `fs` itself is not modelled, and whether a write succeeds is a
 * parameter.
 */
module PersistenceService {
  import opened Wrappers
  import opened Js
  import opened Ordering

  /** A patient record: its `patientId` (absent when the caller gave none)
      and the rest of the document. */
  datatype Patient = Patient(patientId: Option<string>, fields: map<string, Value>)

  /** What is on disk: no file, an empty file, a file that cannot be read,
      a file that is not JSON, or a JSON array of patients. */
  datatype FileState = Missing | Blank | Unreadable | Unparsable | Records(patients: seq<Patient>)

  /** `readPatientsFromFile`: the stored array, and [] in every other case. */
  function ReadPatients(f: FileState): (r: seq<Patient>)
    ensures f.Records? ==> r == f.patients
    ensures !f.Records? ==> r == []
  {
    if f.Records? then f.patients else []
  }

  /** The value of `STORAGE_MODE` as imported: backend/config/db.js exports
      only `connectDB`, so the destructured name is undefined. */
  const ImportedStorageMode: Option<string> := None

  /** The test guarding every Mongo branch. */
  predicate UsesMongo(storageMode: Option<string>, connected: bool) {
    storageMode == Some("mongodb") && connected
  }

  /** The file branch is taken whatever the connection state. */
  lemma AlwaysFileBranch(connected: bool)
    ensures !UsesMongo(ImportedStorageMode, connected)
  {
  }

  /** `s` back to front: `Array.prototype.reverse`. */
  function Reversed<T>(s: seq<T>): (r: seq<T>)
    ensures |r| == |s|
    ensures forall i :: 0 <= i < |s| ==> r[i] == s[|s| - 1 - i]
  {
    if s == [] then [] else Reversed(s[1..]) + [s[0]]
  }

  /** Reversing twice gives the list back. */
  lemma ReversedTwice<T>(s: seq<T>)
    ensures Reversed(Reversed(s)) == s
  {
  }

  /** `patients.find(p => p.patientId === patientId) || null`. */
  function FindPatient(patients: seq<Patient>, patientId: string): (r: Option<Patient>)
    ensures r.Some? <==> exists i :: 0 <= i < |patients| && patients[i].patientId == Some(patientId)
    ensures r.Some? ==> r.value.patientId == Some(patientId)
    ensures r.Some? ==> exists i :: 0 <= i < |patients| && patients[i] == r.value
                         && forall k :: 0 <= k < i ==> patients[k].patientId != Some(patientId)
  {
    var i := FirstIndex(patients, (p: Patient) => p.patientId == Some(patientId));
    if i.None? then None else Some(patients[i.value])
  }

  /** A patient found once is still found, unchanged, after later saves. */
  lemma FindAfterAppend(patients: seq<Patient>, extra: Patient, patientId: string)
    requires FindPatient(patients, patientId).Some?
    ensures FindPatient(patients + [extra], patientId) == FindPatient(patients, patientId)
  {
    var p := (q: Patient) => q.patientId == Some(patientId);
    var i := FirstIndex(patients, p).value;
    var j := FirstIndex(patients + [extra], p);
    assert (patients + [extra])[i] == patients[i];
    assert j.Some? && j.value <= i;
    assert (patients + [extra])[j.value] == patients[j.value];
  }

  /** Reverses `a` in place by swapping from both ends towards the middle. */
  method ReverseInPlace<T>(a: array<T>)
    modifies a
    ensures a[..] == Reversed(old(a[..]))
  {
    ghost var s := a[..];
    var i, j := 0, a.Length - 1;
    while i < j
      invariant 0 <= i <= j + 1 <= a.Length && i + j == a.Length - 1
      invariant forall k :: 0 <= k < i ==> a[k] == s[a.Length - 1 - k]
      invariant forall k :: j < k < a.Length ==> a[k] == s[a.Length - 1 - k]
      invariant forall k :: i <= k <= j ==> a[k] == s[k]
      decreases j - i
    {
      var t := a[i];
      a[i] := a[j];
      a[j] := t;
      i, j := i + 1, j - 1;
    }
    assert forall k :: 0 <= k < a.Length ==> a[k] == s[a.Length - 1 - k];
  }

  /** The file as an object whose content the service rewrites. */
  class PatientFile {
    var state: FileState

    constructor (initial: FileState)
      ensures state == initial
    {
      state := initial;
    }

    /** `writePatientsToFile`: `writeOk` says whether `writeFileSync`
        succeeds; a failure is rethrown, and the model takes it to leave the
        file as it was (a write that truncates the file and then fails is
        not modelled). */
    method WritePatients(patients: seq<Patient>, writeOk: bool) returns (ok: bool)
      modifies this
      ensures ok == writeOk
      ensures ok ==> state == Records(patients)
      ensures !ok ==> state == old(state)
    {
      if writeOk {
        state := Records(patients);
      }
      ok := writeOk;
    }

    /** `savePatient` in the file branch: the record goes at the end of what
        reading the file yields, and is returned; a failed write throws
        (None) and stores nothing. */
    method SavePatient(patient: Patient, writeOk: bool) returns (saved: Option<Patient>)
      modifies this
      ensures writeOk ==> state == Records(ReadPatients(old(state)) + [patient]) && saved == Some(patient)
      ensures !writeOk ==> state == old(state) && saved.None?
    {
      var patients := ReadPatients(state);
      patients := patients + [patient];
      var ok := WritePatients(patients, writeOk);
      if !ok {
        return None;
      }
      saved := Some(patient);
    }

    /** `getPatientById` in the file branch. */
    method GetPatientById(patientId: string) returns (r: Option<Patient>)
      ensures r == FindPatient(ReadPatients(state), patientId)
    {
      var patients := ReadPatients(state);
      r := FindPatient(patients, patientId);
    }

    /** `listPatients` in the file branch: the array read from the file,
        reversed in place, so the newest record comes first. */
    method ListPatients() returns (a: array<Patient>)
      ensures fresh(a)
      ensures a[..] == Reversed(ReadPatients(state))
    {
      var patients := ReadPatients(state);
      a := new Patient[|patients|](k requires 0 <= k < |patients| => patients[k]);
      assert a[..] == patients;
      ReverseInPlace(a);
    }
  }

  /** Saving keeps every earlier record in place and in order, and the
      saved record is listed first. */
  lemma SaveAppends(f: FileState, patient: Patient)
    ensures var after := ReadPatients(Records(ReadPatients(f) + [patient]));
      && |after| == |ReadPatients(f)| + 1
      && after[..|ReadPatients(f)|] == ReadPatients(f)
      && after[|after| - 1] == patient
      && Reversed(after)[0] == patient
  {
  }

  /** A file that cannot be read or parsed reads as empty, so the next save
      replaces its content with the one new record. */
  lemma SaveOverUnreadable(f: FileState, patient: Patient)
    requires f.Unreadable? || f.Unparsable?
    ensures ReadPatients(Records(ReadPatients(f) + [patient])) == [patient]
  {
  }
}
