/**
 * The attendance panel of a session (app/components/attendance-manager.tsx): searching parents to
 * add, adding or creating a parent, and the dialog that edits one attendance record.
 */
module AttendanceManager {
  import opened Common
  import opened Text
  import opened Lists
  import opened Forms

  datatype Parent = Parent(id: string, name: string, email: string, phone: string)

  /** An attendance record of the session; `notes` may be null in the store. */
  datatype Attendance = Attendance(id: string, parentId: string, attended: bool, notes: Option<string>, parent: Parent)

  /** The row `addParentToSession` inserts. */
  datatype AttendanceInsert = AttendanceInsert(sessionId: string, parentId: string, attended: bool)

  /** The update `handleSaveAttendance` sends for one record. */
  datatype AttendanceUpdate = AttendanceUpdate(attendanceId: string, attended: bool, notes: string)

  /** `.limit(10)` on the search query. */
  const SearchLimit: nat := 10

  /** `existingAttendance.map(a => a.parentId)`. */
  function ParentIds(existing: seq<Attendance>): (ids: seq<string>)
    ensures |ids| == |existing|
    ensures forall i :: 0 <= i < |existing| ==> ids[i] == existing[i].parentId
  {
    if existing == [] then [] else [existing[0].parentId] + ParentIds(existing[1..])
  }

  /** Whether a parent already has an attendance record for the session. */
  predicate AlreadyAttending(p: Parent, existing: seq<Attendance>)
  {
    exists a :: a in existing && a.parentId == p.id
  }

  /**
   * `data?.filter(parent => !parentIds.includes(parent.id)) || []`: the search answer without the
   * parents already on the list, in the answer's order.
   */
  function ExcludeExisting(data: Option<seq<Parent>>, existing: seq<Attendance>): (r: seq<Parent>)
    ensures IsSubsequence(r, OrEmpty(data))
    ensures forall p :: p in r ==> !AlreadyAttending(p, existing)
    ensures forall p :: p in OrEmpty(data) && !AlreadyAttending(p, existing) ==> p in r
  {
    var ids := ParentIds(existing);
    var keep := (p: Parent) => p.id !in ids;
    FilterIsSubsequence(OrEmpty(data), keep);
    assert forall p :: AlreadyAttending(p, existing) <==> p.id in ids by {
      forall p ensures AlreadyAttending(p, existing) <==> p.id in ids {
        if p.id in ids {
          var i :| 0 <= i < |ids| && ids[i] == p.id;
          assert existing[i] in existing;
        }
      }
    }
    Filter(OrEmpty(data), keep)
  }

  /** The shown results are never more than the query's limit lets the store answer. */
  lemma ResultsWithinLimit(data: seq<Parent>, existing: seq<Attendance>)
    requires |data| <= SearchLimit
    ensures |ExcludeExisting(Some(data), existing)| <= SearchLimit
  {
    SubsequenceLength(ExcludeExisting(Some(data), existing), data);
  }

  lemma {:induction false} SubsequenceLength<T>(a: seq<T>, b: seq<T>)
    requires IsSubsequence(a, b)
    ensures |a| <= |b|
    decreases |b|
  {
    if a != [] {
      if a[0] == b[0] {
        SubsequenceLength(a[1..], b[1..]);
      } else {
        SubsequenceLength(a, b[1..]);
      }
    }
  }

  /** With no attendance yet, the search shows the store's answer as it came. */
  lemma NothingToExclude(data: Option<seq<Parent>>)
    ensures ExcludeExisting(data, []) == OrEmpty(data)
  {
    FilterAll(OrEmpty(data), (p: Parent) => p.id !in ParentIds([]));
  }

  /** `{ name: "", email: "", phone: "" }`. */
  const EmptyNewParent: Form := BlankForm({"name", "email", "phone"})

  class AttendancePanel {
    const sessionId: string
    const existingAttendance: seq<Attendance>
    var isAttendanceDialogOpen: bool
    var searchQuery: string
    var searchResults: seq<Parent>
    var isCreatingParent: bool
    var newParent: Form
    var isEditingAttendance: bool
    var editingAttendanceId: Option<string>
    var attendanceNote: string
    var attendanceStatus: bool
    /** How many times `handleCallback` has told the page to reload. */
    var callbacks: nat

    constructor (sessionId: string, existingAttendance: seq<Attendance>)
      ensures this.sessionId == sessionId && this.existingAttendance == existingAttendance
      ensures !isAttendanceDialogOpen && searchQuery == "" && searchResults == []
      ensures !isCreatingParent && newParent == EmptyNewParent
      ensures !isEditingAttendance && editingAttendanceId == None && attendanceNote == "" && !attendanceStatus
      ensures callbacks == 0
    {
      this.sessionId := sessionId;
      this.existingAttendance := existingAttendance;
      isAttendanceDialogOpen := false;
      searchQuery := "";
      searchResults := [];
      isCreatingParent := false;
      newParent := EmptyNewParent;
      isEditingAttendance := false;
      editingAttendanceId := None;
      attendanceNote := "";
      attendanceStatus := false;
      callbacks := 0;
    }

    /**
     * `searchParents(query)`, given the store's answer to the name search: a blank query clears the
     * results without asking; a failed search keeps the old results.
     */
    method SearchParents(query: string, response: Fetch<Option<seq<Parent>>>)
      modifies this`searchResults
      ensures IsBlank(query) ==> searchResults == []
      ensures !IsBlank(query) && response.Err? ==> searchResults == old(searchResults)
      ensures !IsBlank(query) && response.Ok? ==> searchResults == ExcludeExisting(response.data, existingAttendance)
    {
      TrimEmptyIffBlank(query);
      if Trim(query) == "" {
        searchResults := [];
        return;
      }
      match response {
        case Err(_) => return;
        case Ok(data) => searchResults := ExcludeExisting(data, existingAttendance);
      }
    }

    /** The search box's `onChange`: store the text, then search with it. */
    method ChangeSearch(value: string, response: Fetch<Option<seq<Parent>>>)
      modifies this`searchQuery, this`searchResults
      ensures searchQuery == value
      ensures IsBlank(value) ==> searchResults == []
      ensures !IsBlank(value) && response.Err? ==> searchResults == old(searchResults)
      ensures !IsBlank(value) && response.Ok? ==> searchResults == ExcludeExisting(response.data, existingAttendance)
    {
      searchQuery := value;
      SearchParents(value, response);
    }

    /**
     * `addParentToSession(parentId)`: the row sent always marks the parent present; on success the
     * page is told to reload and the dialog closes, on failure nothing changes.
     */
    method AddParentToSession(parentId: string, insertError: Option<string>) returns (row: AttendanceInsert)
      modifies this`callbacks, this`isAttendanceDialogOpen
      ensures row == AttendanceInsert(sessionId, parentId, true)
      ensures insertError.None? ==> callbacks == old(callbacks) + 1 && !isAttendanceDialogOpen
      ensures insertError.Some? ==> callbacks == old(callbacks) && isAttendanceDialogOpen == old(isAttendanceDialogOpen)
    {
      row := AttendanceInsert(sessionId, parentId, true);
      if insertError.None? {
        callbacks := callbacks + 1;
        isAttendanceDialogOpen := false;
      }
    }

    /** `updateAttendance`: reports success exactly when the store reported no error. */
    method UpdateAttendance(attendanceId: string, attended: bool, notes: string, updateError: Option<string>)
      returns (success: bool, update: AttendanceUpdate)
      modifies this`callbacks
      ensures success <==> updateError.None?
      ensures update == AttendanceUpdate(attendanceId, attended, notes)
      ensures callbacks == old(callbacks) + (if success then 1 else 0)
    {
      update := AttendanceUpdate(attendanceId, attended, notes);
      success := updateError.None?;
      if success {
        callbacks := callbacks + 1;
      }
    }

    /**
     * `handleCreateParent`, given the store's answer to the parent insert (the new id) and to the
     * attendance insert. A failed parent insert changes nothing; otherwise the new parent is added
     * to the session (whose own failure is not an error here) and the form, search and dialog reset.
     */
    method HandleCreateParent(parentInsert: Fetch<string>, attendanceError: Option<string>)
      returns (parentRow: Form, attendanceRow: Option<AttendanceInsert>)
      modifies this`callbacks, this`isAttendanceDialogOpen, this`newParent, this`isCreatingParent,
               this`searchQuery, this`searchResults
      ensures parentRow == old(newParent)
      ensures parentInsert.Err? ==>
                && attendanceRow == None && callbacks == old(callbacks)
                && isAttendanceDialogOpen == old(isAttendanceDialogOpen) && newParent == old(newParent)
                && isCreatingParent == old(isCreatingParent) && searchQuery == old(searchQuery)
                && searchResults == old(searchResults)
      ensures parentInsert.Ok? ==>
                && attendanceRow == Some(AttendanceInsert(sessionId, parentInsert.data, true))
                && callbacks == old(callbacks) + (if attendanceError.None? then 1 else 0)
                && !isAttendanceDialogOpen && newParent == EmptyNewParent && !isCreatingParent
                && searchQuery == "" && searchResults == []
    {
      parentRow := newParent;
      match parentInsert {
        case Err(_) =>
          attendanceRow := None;
        case Ok(id) =>
          var row := AddParentToSession(id, attendanceError);
          attendanceRow := Some(row);
          newParent := EmptyNewParent;
          isCreatingParent := false;
          searchQuery := "";
          searchResults := [];
          isAttendanceDialogOpen := false;
      }
    }

    /** `handleEditAttendance(record)`: load the record into the edit dialog and open it. */
    method HandleEditAttendance(record: Attendance)
      modifies this`editingAttendanceId, this`attendanceNote, this`attendanceStatus, this`isEditingAttendance
      ensures editingAttendanceId == Some(record.id)
      ensures attendanceNote == (if record.notes.Some? then record.notes.value else "")
      ensures attendanceStatus == record.attended
      ensures isEditingAttendance
    {
      editingAttendanceId := Some(record.id);
      attendanceNote := match record.notes { case Some(n) => n case None => "" };
      attendanceStatus := record.attended;
      isEditingAttendance := true;
    }

    /** The switch of the edit dialog. */
    method SetAttendanceStatus(attended: bool)
      modifies this`attendanceStatus
      ensures attendanceStatus == attended
    {
      attendanceStatus := attended;
    }

    /** The notes box of the edit dialog. */
    method SetAttendanceNote(note: string)
      modifies this`attendanceNote
      ensures attendanceNote == note
    {
      attendanceNote := note;
    }

    /** The edit dialog's Cancel: it closes, but the record being edited stays remembered. */
    method CancelEdit()
      modifies this`isEditingAttendance
      ensures !isEditingAttendance
    {
      isEditingAttendance := false;
    }

    /**
     * `handleSaveAttendance`: with no record being edited (null or an empty id) nothing is sent and
     * nothing changes. Otherwise the dialog's values are sent; success closes the editor and forgets
     * the record, failure leaves the editing state as it was.
     */
    method HandleSaveAttendance(updateError: Option<string>) returns (sent: Option<AttendanceUpdate>)
      modifies this`callbacks, this`isEditingAttendance, this`editingAttendanceId
      ensures (old(editingAttendanceId) == None || old(editingAttendanceId) == Some("")) ==>
                sent == None && callbacks == old(callbacks)
                && isEditingAttendance == old(isEditingAttendance) && editingAttendanceId == old(editingAttendanceId)
      ensures (old(editingAttendanceId).Some? && old(editingAttendanceId).value != "") ==>
                && sent == Some(AttendanceUpdate(old(editingAttendanceId).value, attendanceStatus, attendanceNote))
                && callbacks == old(callbacks) + (if updateError.None? then 1 else 0)
                && (updateError.None? ==> !isEditingAttendance && editingAttendanceId == None)
                && (updateError.Some? ==> isEditingAttendance == old(isEditingAttendance)
                                          && editingAttendanceId == old(editingAttendanceId))
    {
      if editingAttendanceId.None? || editingAttendanceId.value == "" {
        sent := None;
        return;
      }
      var success, update := UpdateAttendance(editingAttendanceId.value, attendanceStatus, attendanceNote, updateError);
      sent := Some(update);
      if success {
        isEditingAttendance := false;
        editingAttendanceId := None;
      }
    }

    /** `handleInputChange` of the new-parent form: only the named field changes. */
    method HandleInputChange(name: string, value: string)
      modifies this`newParent
      ensures newParent == SetField(old(newParent), name, value)
    {
      newParent := SetField(newParent, name, value);
    }
  }
}
