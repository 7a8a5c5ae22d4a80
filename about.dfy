/** The about page: the hackathon description, loaded from the backend,
    edited in a text buffer and saved back with an update. */
module About {
  import opened Common
  import opened Entities
  import opened Api

  /** The description shown before any data has been loaded. */
  const DefaultDescription :=
    "Join us for an exciting 48-hour hackathon where innovation meets technology. Build amazing solutions, network with like-minded developers, and compete for exciting prizes.\n\n"
    + "Event Details:\n\U{2022} Date: March 15-17, 2025\n\U{2022} Location: ARIBT Campus, Technology Center\n\U{2022} Duration: 48 hours\n\U{2022} Registration: Open now\n\n"
    + "Prizes:\n\U{2022} First Prize: $5000\n\U{2022} Second Prize: $3000\n\U{2022} Third Prize: $1500\n\U{2022} Best Innovation Award: $1000\n\n"
    + "Rules & Guidelines:\n1. Teams can have 2-4 members\n2. All code must be written during the event\n3. Use of external APIs is allowed\n4. Projects must be submitted by the deadline\n5. All team members must be present during judging\n\n"
    + "Themes:\n\U{2022} AI & Machine Learning\n\U{2022} Web Development\n\U{2022} Mobile Apps\n\U{2022} IoT Solutions\n\U{2022} Blockchain Technology\n\U{2022} Healthcare Tech"

  /** What the `get` query delivers: nothing yet, an array of records, or a
      single record. */
  datatype InfoData = NoData | InfoList(items: seq<HackathonInfo>) | InfoObject(info: HackathonInfo)

  /** The record the load effect adopts, if any: the first element of a
      non-empty array, else a single record whose description is non-empty. */
  function Normalise(data: InfoData): (r: Option<HackathonInfo>)
    ensures data.InfoList? && |data.items| > 0 ==> r == Some(data.items[0])
    ensures data.InfoObject? ==> r == if data.info.description != "" then Some(data.info) else None
    ensures data.NoData? || (data.InfoList? && |data.items| == 0) ==> r == None
  {
    match data
    case InfoList(items) => if |items| > 0 then Some(items[0]) else None
    case InfoObject(info) => if info.description != "" then Some(info) else None
    case NoData => None
  }

  /** Whether the save button is enabled: no update in flight and a buffer
      that is not blank. */
  predicate SaveEnabled(isPending: bool, buffer: string) {
    !isPending && Trim(buffer) != ""
  }

  /** The button is enabled exactly when nothing is pending and the buffer
      holds a character that `trim` does not remove. */
  lemma SaveEnabledIff(isPending: bool, buffer: string)
    ensures SaveEnabled(isPending, buffer) <==>
              !isPending && exists i :: 0 <= i < |buffer| && !IsJsSpace(buffer[i])
  {
    TrimEmptyIffAllSpace(buffer);
  }

  /** The component's state. `pending` holds what the `onSuccess` callback
      of the latest update captured: the record and the buffer at save time. */
  class AboutView {
    var info: HackathonInfo
    var isEditing: bool
    var editDescription: string
    var pending: Option<(HackathonInfo, string)>
    /** The mutations issued so far, oldest first. */
    var issued: seq<Call>

    constructor ()
      ensures info == HackathonInfo(None, DefaultDescription)
      ensures !isEditing && editDescription == "" && pending == None && issued == []
    {
      info := HackathonInfo(None, DefaultDescription);
      isEditing, editDescription, pending, issued := false, "", None, [];
    }

    /** The load effect: adopt the normalised record and copy its description
        into the buffer; otherwise leave both as they are. */
    method OnData(data: InfoData)
      modifies this
      ensures Normalise(data).Some? ==>
                info == Normalise(data).value && editDescription == Normalise(data).value.description
      ensures Normalise(data).None? ==> info == old(info) && editDescription == old(editDescription)
      ensures isEditing == old(isEditing) && pending == old(pending) && issued == old(issued)
    {
      match data {
        case InfoList(items) =>
          if |items| > 0 {
            info := items[0];
            editDescription := items[0].description;
          }
        case InfoObject(record) =>
          if record.description != "" {
            info := record;
            editDescription := record.description;
          }
        case NoData =>
      }
    }

    /** `handleEdit`: start editing from the shown description. */
    method Edit()
      modifies this
      ensures editDescription == info.description && isEditing
      ensures info == old(info) && pending == old(pending) && issued == old(issued)
    {
      editDescription := info.description;
      isEditing := true;
    }

    /** The text area's `onChange`. */
    method Type(text: string)
      modifies this
      ensures editDescription == text
      ensures info == old(info) && isEditing == old(isEditing) && pending == old(pending) && issued == old(issued)
    {
      editDescription := text;
    }

    /** `handleSave`, reachable only through the enabled button: with an
        id, update the record's description with the buffer; without one,
        no request (the user is alerted). */
    method Save()
      requires isEditing && SaveEnabled(pending.Some?, editDescription)
      modifies this
      ensures Truthy(info.id) ==>
                issued == old(issued) + [Update(HackathonInfoEntity, info.id.value, Json([("description", editDescription)]))]
                && pending == Some((info, editDescription))
      ensures !Truthy(info.id) ==> issued == old(issued) && pending == old(pending)
      ensures info == old(info) && isEditing == old(isEditing) && editDescription == old(editDescription)
    {
      var requestData := [("description", editDescription)];
      if Truthy(info.id) {
        issued := issued + [Update(HackathonInfoEntity, info.id.value, Json(requestData))];
        pending := Some((info, editDescription));
      }
    }

    /** The update's `onSuccess`: the record captured at save time with the
        saved description, and editing ends. */
    method SaveSucceeded()
      modifies this
      ensures old(pending).Some? ==>
                info == old(pending).value.0.(description := old(pending).value.1) && !isEditing && pending == None
      ensures old(pending).None? ==> info == old(info) && isEditing == old(isEditing) && pending == None
      ensures editDescription == old(editDescription) && issued == old(issued)
    {
      if pending.Some? {
        var (captured, saved) := pending.value;
        info := captured.(description := saved);
        isEditing := false;
        pending := None;
      }
    }

    /** The update's `onError`: the user is alerted and the mutation is no
        longer pending, so the button is enabled again; nothing else changes. */
    method SaveFailed()
      modifies this
      ensures pending == None
      ensures info == old(info) && isEditing == old(isEditing)
      ensures editDescription == old(editDescription) && issued == old(issued)
    {
      pending := None;
    }

    /** `handleCancel`, offered while editing and disabled while an update
        is pending: discard the buffer and stop editing. */
    method Cancel()
      requires isEditing && pending.None?
      modifies this
      ensures editDescription == info.description && !isEditing
      ensures info == old(info) && pending == old(pending) && issued == old(issued)
    {
      editDescription := info.description;
      isEditing := false;
    }
  }

  /** A fresh page once the load effect has adopted `record`. */
  method Loaded(record: HackathonInfo) returns (view: AboutView)
    ensures fresh(view)
    ensures view.info == record && view.editDescription == record.description
    ensures !view.isEditing && view.pending == None && view.issued == []
  {
    view := new AboutView();
    view.OnData(InfoList([record]));
  }

  /** Loading a record, editing it to a non-blank `text` and saving: with an id, one
      update carrying exactly `text` and, once it succeeds, the record with
      only its description replaced; without an id, no request and the
      record as loaded. */
  method EditAndSave(record: HackathonInfo, text: string) returns (shown: HackathonInfo, sent: seq<Call>, editing: bool)
    requires SaveEnabled(false, text)
    ensures Truthy(record.id) ==>
              sent == [Update(HackathonInfoEntity, record.id.value, Json([("description", text)]))]
              && shown == record.(description := text) && !editing
    ensures !Truthy(record.id) ==> sent == [] && shown == record && editing
  {
    var view := Loaded(record);
    view.Edit();
    view.Type(text);
    view.Save();
    view.SaveSucceeded();
    shown, sent, editing := view.info, view.issued, view.isEditing;
  }

  /** Editing and then cancelling leaves the record as loaded and the buffer
      equal to its description. */
  method EditThenCancel(record: HackathonInfo, text: string) returns (shown: HackathonInfo, buffer: string, sent: seq<Call>)
    ensures shown == record && buffer == record.description && sent == []
  {
    var view := Loaded(record);
    view.Edit();
    view.Type(text);
    view.Cancel();
    shown, buffer, sent := view.info, view.editDescription, view.issued;
  }

  /** A save that fails leaves the page editing the same text with the
      button enabled again, so saving a second time issues a second,
      identical update. */
  method FailThenRetry(record: HackathonInfo, text: string) returns (shown: HackathonInfo, sent: seq<Call>, editing: bool)
    requires Truthy(record.id) && SaveEnabled(false, text)
    ensures sent == [Update(HackathonInfoEntity, record.id.value, Json([("description", text)])),
                     Update(HackathonInfoEntity, record.id.value, Json([("description", text)]))]
    ensures shown == record.(description := text) && !editing
  {
    var view := Loaded(record);
    view.Edit();
    view.Type(text);
    view.Save();
    view.SaveFailed();
    view.Save();
    view.SaveSucceeded();
    shown, sent, editing := view.info, view.issued, view.isEditing;
  }
}
