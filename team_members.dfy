/** The team-members page: the GitHub link on each card, the member form
    (its initial state and its multipart payload) and the add, edit, delete
    and save handlers. */
module TeamMembers {
  import opened Common
  import opened Browser
  import opened Entities
  import opened Api

  // =====================================================================
  // The GitHub link
  // =====================================================================

  const GithubBase := "https://github.com/"

  /** The `href` of a member's GitHub link: a value starting with "http" is
      taken as a full URL, anything else as a user name. */
  function GithubHref(github: string): (r: string)
    ensures StartsWith(github, "http") ==> r == github
    ensures !StartsWith(github, "http") ==> r == GithubBase + github
  {
    if StartsWith(github, "http") then github else GithubBase + github
  }

  /** The link always starts with "http", so normalising a link again
      leaves it as it is. */
  lemma GithubHrefIsUrl(github: string)
    ensures StartsWith(GithubHref(github), "http")
    ensures GithubHref(GithubHref(github)) == GithubHref(github)
  {
    if !StartsWith(github, "http") {
      assert (GithubBase + github)[..4] == GithubBase[..4];
    }
  }

  /** The link is the stored value exactly when that value starts with "http". */
  lemma GithubHrefKeepsIff(github: string)
    ensures GithubHref(github) == github <==> StartsWith(github, "http")
  {
    if !StartsWith(github, "http") {
      assert |GithubBase + github| > |github|;
    }
  }

  /** The test is a plain prefix test: a user name that itself begins with
      "http", such as "httpie", is used as the link unchanged. */
  lemma HttpPrefixedNameIsNotExpanded()
    ensures GithubHref("httpie") == "httpie"
  {
    assert "httpie"[..4] == "http";
  }

  /** A card shows a GitHub link only for a non-empty value. */
  function GithubLink(member: TeamMember): (r: Option<string>)
    ensures r.Some? <==> member.github != ""
    ensures r.Some? ==> r.value == GithubHref(member.github)
  {
    if member.github != "" then Some(GithubHref(member.github)) else None
  }

  // =====================================================================
  // Looking up the chosen registration
  // =====================================================================

  /** Some registration in the list has the given id. */
  predicate HasId(regs: seq<Registration>, id: string) {
    exists i :: 0 <= i < |regs| && regs[i].id == id
  }

  /** `registrations.find(r => r.id === id)`: the first registration with
      the id, or nothing. */
  function FindRegistration(regs: seq<Registration>, id: string): (r: Option<Registration>)
    ensures r.Some? <==> HasId(regs, id)
    ensures r.Some? ==> exists i :: 0 <= i < |regs| && regs[i] == r.value
                                    && (forall j :: 0 <= j < i ==> regs[j].id != id)
    ensures r.Some? ==> r.value.id == id
  {
    if regs == [] then None
    else if regs[0].id == id then Some(regs[0])
    else
      var r := FindRegistration(regs[1..], id);
      assert HasId(regs, id) ==> HasId(regs[1..], id) by {
        if HasId(regs, id) {
          var i :| 0 <= i < |regs| && regs[i].id == id;
          assert regs[1..][i - 1].id == id;
        }
      }
      assert r.Some? ==> exists i :: 0 <= i < |regs| && regs[i] == r.value
                                     && (forall j :: 0 <= j < i ==> regs[j].id != id) by {
        if r.Some? {
          var i :| 0 <= i < |regs[1..]| && regs[1..][i] == r.value
                   && (forall j :: 0 <= j < i ==> regs[1..][j].id != id);
          assert regs[i + 1] == r.value;
          forall j | 0 <= j < i + 1 ensures regs[j].id != id {
            if j > 0 {
              assert regs[j] == regs[1..][j - 1];
            }
          }
        }
      }
      r
  }

  /** The id of a member's embedded registration, or "" (`?.id || ""`). */
  function EmbeddedRegistrationId(member: Option<TeamMember>): (r: string)
    ensures member.Some? && member.value.registrationformhackerid.Some? ==>
              r == member.value.registrationformhackerid.value.id
    ensures member.None? || member.value.registrationformhackerid.None? ==> r == ""
  {
    if member.Some? && member.value.registrationformhackerid.Some?
    then member.value.registrationformhackerid.value.id
    else ""
  }

  // =====================================================================
  // The member form
  // =====================================================================

  /** `MemberForm`: text fields, the chosen registration's id, the chosen
      image and the preview shown beside it. */
  class MemberForm {
    var name: string
    var github: string
    var email: string
    var contactno: string
    var registrationId: string
    var selectedFile: Option<File>
    var previewUrl: string

    /** The initial state copies the edited member, or is empty when adding. */
    constructor (member: Option<TeamMember>)
      ensures member.Some? ==> name == member.value.name && github == member.value.github
                               && email == member.value.email && contactno == member.value.contactno
      ensures member.None? ==> name == "" && github == "" && email == "" && contactno == ""
      ensures registrationId == EmbeddedRegistrationId(member)
      ensures previewUrl == if member.Some? && member.value.image.Some? then member.value.image.value else ""
      ensures selectedFile == None
    {
      if member.Some? {
        var m := member.value;
        name, github, email, contactno := m.name, m.github, m.email, m.contactno;
        previewUrl := if m.image.Some? then m.image.value else "";
      } else {
        name, github, email, contactno := "", "", "", "";
        previewUrl := "";
      }
      registrationId := EmbeddedRegistrationId(member);
      selectedFile := None;
    }

    /** `handleFileChange`: a picked file replaces the earlier one and its
        object URL becomes the preview; a cancelled pick changes nothing. */
    method ChooseFile(file: Option<File>, objectUrl: string)
      modifies this
      ensures file.Some? ==> selectedFile == file && previewUrl == objectUrl
      ensures file.None? ==> selectedFile == old(selectedFile) && previewUrl == old(previewUrl)
      ensures name == old(name) && github == old(github) && email == old(email)
      ensures contactno == old(contactno) && registrationId == old(registrationId)
    {
      if file.Some? {
        selectedFile := file;
        previewUrl := objectUrl;
      }
    }

    /** The registration the payload carries: the one whose id was chosen,
        when an id was chosen and one in the list has it. */
    function Attached(registrations: seq<Registration>): (r: Option<Registration>)
      reads this
      ensures r.Some? <==> registrationId != "" && HasId(registrations, registrationId)
      ensures r.Some? ==> r.value in registrations && r.value.id == registrationId
    {
      if registrationId != "" then FindRegistration(registrations, registrationId) else None
    }

    /** `handleSubmit`: name, github, email and contactno in that order, then
        the chosen registration as JSON when it is found, then the image
        when one was picked. */
    method Submit(registrations: seq<Registration>) returns (fd: FormData)
      ensures |fd| >= 4
      ensures fd[..4] == [("name", Text(name)), ("github", Text(github)),
                          ("email", Text(email)), ("contactno", Text(contactno))]
      ensures Names(fd) == ["name", "github", "email", "contactno"]
                           + (if Attached(registrations).Some? then ["Registrationformhackerid"] else [])
                           + (if selectedFile.Some? then ["image"] else [])
      ensures "Registrationformhackerid" in Names(fd) <==>
                registrationId != "" && HasId(registrations, registrationId)
      ensures Attached(registrations).Some? ==>
                fd[4] == ("Registrationformhackerid", JsonOf(Attached(registrations).value))
      ensures selectedFile.Some? ==> fd[|fd| - 1] == ("image", Upload(selectedFile.value))
    {
      fd := [];
      fd := fd + [("name", Text(name))];
      fd := fd + [("github", Text(github))];
      fd := fd + [("email", Text(email))];
      fd := fd + [("contactno", Text(contactno))];
      if registrationId != "" {
        var chosen := FindRegistration(registrations, registrationId);
        if chosen.Some? {
          fd := fd + [("Registrationformhackerid", JsonOf(chosen.value))];
        }
      }
      if selectedFile.Some? {
        fd := fd + [("image", Upload(selectedFile.value))];
      }
    }
  }

  /** Opening the form on a member and saving without changes sends the
      member's own text fields, re-attaches its registration exactly when
      that registration is still listed, and sends no image. */
  method SubmitUnchangedEdit(member: TeamMember, registrations: seq<Registration>) returns (fd: FormData)
    ensures |fd| >= 4
    ensures fd[..4] == [("name", Text(member.name)), ("github", Text(member.github)),
                        ("email", Text(member.email)), ("contactno", Text(member.contactno))]
    ensures "Registrationformhackerid" in Names(fd) <==>
              member.registrationformhackerid.Some? && member.registrationformhackerid.value.id != ""
              && HasId(registrations, member.registrationformhackerid.value.id)
    ensures "image" !in Names(fd)
  {
    var form := new MemberForm(Some(member));
    fd := form.Submit(registrations);
  }

  // =====================================================================
  // The page's state and handlers
  // =====================================================================

  class TeamMembersPage {
    var showForm: bool
    var editing: Option<TeamMember>
    /** The mutations issued so far, oldest first. */
    var issued: seq<Call>

    constructor ()
      ensures !showForm && editing == None && issued == []
    {
      showForm, editing, issued := false, None, [];
    }

    /** The id the save dispatch updates, if a member is being edited. */
    function EditingId(): (r: Option<string>)
      reads this
      ensures r.Some? <==> editing.Some?
      ensures r.Some? ==> r.value == editing.value.id
    {
      if editing.Some? then Some(editing.value.id) else None
    }

    /** `handleAddMember`: a fresh form. */
    method AddMember()
      modifies this
      ensures editing == None && showForm && issued == old(issued)
    {
      editing := None;
      showForm := true;
    }

    /** `handleEditMember`: a form on the chosen member. */
    method EditMember(member: TeamMember)
      modifies this
      ensures editing == Some(member) && showForm && issued == old(issued)
    {
      editing := Some(member);
      showForm := true;
    }

    /** `handleDeleteMember`: delete only after the user confirms. */
    method DeleteMember(id: string, confirmed: bool)
      modifies this
      ensures issued == old(issued) + (if confirmed then [Remove(TeamMembers, id)] else [])
      ensures showForm == old(showForm) && editing == old(editing)
    {
      if confirmed {
        issued := issued + [Remove(TeamMembers, id)];
      }
    }

    /** The form's `onSave`: exactly one call, an update of the edited
        member or a create. */
    method Save(fd: FormData)
      modifies this
      ensures issued == old(issued) + [SaveCall(TeamMembers, EditingId(), fd)]
      ensures issued[|old(issued)|].Update? <==> editing.Some?
      ensures editing.Some? ==> issued[|old(issued)|] == Update(TeamMembers, editing.value.id, Form(fd))
      ensures editing.None? ==> issued[|old(issued)|] == Create(TeamMembers, Form(fd))
      ensures showForm == old(showForm) && editing == old(editing)
    {
      if editing.Some? {
        issued := issued + [Update(TeamMembers, editing.value.id, Form(fd))];
      } else {
        issued := issued + [Create(TeamMembers, Form(fd))];
      }
    }

    /** The save's `onSuccess`, and the form's `onClose`: hide the form. */
    method CloseForm()
      modifies this
      ensures !showForm && editing == old(editing) && issued == old(issued)
    {
      showForm := false;
    }
  }
}
