/** The supporting-partners page: the partner form (its initial state and
    its multipart payload) and the add, edit, delete and save handlers. */
module Partners {
  import opened Common
  import opened Browser
  import opened Entities
  import opened Api

  /** `PartnerForm`: the title, the chosen logo and its preview. */
  class PartnerForm {
    var title: string
    var selectedFile: Option<File>
    var previewUrl: string

    /** The initial state copies the edited partner, or is empty when adding. */
    constructor (partner: Option<Partner>)
      ensures title == if partner.Some? then partner.value.title else ""
      ensures previewUrl == if partner.Some? && partner.value.image.Some? then partner.value.image.value else ""
      ensures selectedFile == None
    {
      if partner.Some? {
        title := partner.value.title;
        previewUrl := if partner.value.image.Some? then partner.value.image.value else "";
      } else {
        title, previewUrl := "", "";
      }
      selectedFile := None;
    }

    /** `handleFileChange`: a picked file replaces the earlier one and its
        object URL becomes the preview; a cancelled pick changes nothing. */
    method ChooseFile(file: Option<File>, objectUrl: string)
      modifies this
      ensures file.Some? ==> selectedFile == file && previewUrl == objectUrl
      ensures file.None? ==> selectedFile == old(selectedFile) && previewUrl == old(previewUrl)
      ensures title == old(title)
    {
      if file.Some? {
        selectedFile := file;
        previewUrl := objectUrl;
      }
    }

    /** `handleSubmit`: the title only, then the image when one was picked. */
    method Submit() returns (fd: FormData)
      ensures Names(fd) == ["title"] + (if selectedFile.Some? then ["image"] else [])
      ensures fd[0] == ("title", Text(title))
      ensures selectedFile.Some? ==> fd[1] == ("image", Upload(selectedFile.value))
    {
      fd := [];
      fd := fd + [("title", Text(title))];
      if selectedFile.Some? {
        fd := fd + [("image", Upload(selectedFile.value))];
      }
    }
  }

  /** Opening the form on a partner and saving without changes sends its
      title alone; the stored logo is not sent again. */
  method SubmitUnchangedEdit(partner: Partner) returns (fd: FormData)
    ensures fd == [("title", Text(partner.title))]
  {
    var form := new PartnerForm(Some(partner));
    fd := form.Submit();
  }

  class PartnersPage {
    var showForm: bool
    var editing: Option<Partner>
    /** The mutations issued so far, oldest first. */
    var issued: seq<Call>

    constructor ()
      ensures !showForm && editing == None && issued == []
    {
      showForm, editing, issued := false, None, [];
    }

    /** The id the save dispatch updates, if a partner is being edited. */
    function EditingId(): (r: Option<string>)
      reads this
      ensures r.Some? <==> editing.Some?
      ensures r.Some? ==> r.value == editing.value.id
    {
      if editing.Some? then Some(editing.value.id) else None
    }

    /** `handleAddPartner`: a fresh form. */
    method AddPartner()
      modifies this
      ensures editing == None && showForm && issued == old(issued)
    {
      editing := None;
      showForm := true;
    }

    /** `handleEditPartner`: a form on the chosen partner. */
    method EditPartner(partner: Partner)
      modifies this
      ensures editing == Some(partner) && showForm && issued == old(issued)
    {
      editing := Some(partner);
      showForm := true;
    }

    /** `handleDeletePartner`: delete only after the user confirms. */
    method DeletePartner(id: string, confirmed: bool)
      modifies this
      ensures issued == old(issued) + (if confirmed then [Remove(Partners, id)] else [])
      ensures showForm == old(showForm) && editing == old(editing)
    {
      if confirmed {
        issued := issued + [Remove(Partners, id)];
      }
    }

    /** The form's `onSave`: exactly one call, an update of the edited
        partner or a create. */
    method Save(fd: FormData)
      modifies this
      ensures issued == old(issued) + [SaveCall(Partners, EditingId(), fd)]
      ensures issued[|old(issued)|].Update? <==> editing.Some?
      ensures editing.Some? ==> issued[|old(issued)|] == Update(Partners, editing.value.id, Form(fd))
      ensures editing.None? ==> issued[|old(issued)|] == Create(Partners, Form(fd))
      ensures showForm == old(showForm) && editing == old(editing)
    {
      if editing.Some? {
        issued := issued + [Update(Partners, editing.value.id, Form(fd))];
      } else {
        issued := issued + [Create(Partners, Form(fd))];
      }
    }

    /** The save's `onSuccess`, and the form's `onClose`: hide the form. */
    method CloseForm()
      modifies this
      ensures !showForm && editing == old(editing) && issued == old(issued)
    {
      showForm := false;
    }
  }
}
