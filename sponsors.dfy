/** The sponsors page: the colour and text of each sponsor's type badge,
    the sponsor form (its initial state and its multipart payload) and the
    add, edit, delete and save handlers. */
module Sponsors {
  import opened Common
  import opened Browser
  import opened Entities
  import opened Api

  // =====================================================================
  // The type badge
  // =====================================================================

  const DefaultColor := "bg-gray-200 text-gray-800"

  /** The badge classes of the known sponsor types, keyed by lower-case name. */
  const TypeColors: map<string, string> := map[
    "platinum" := "bg-gray-200 text-gray-800",
    "gold" := "bg-yellow-200 text-yellow-800",
    "silver" := "bg-gray-100 text-gray-700",
    "bronze" := "bg-orange-200 text-orange-800",
    "title" := "bg-blue-100 text-blue-800"]

  /** `getTypeColor`: a switch on the lower-cased type with a default. */
  function TypeColor(sponsorType: string): (r: string)
    ensures Lower(sponsorType) in TypeColors ==> r == TypeColors[Lower(sponsorType)]
    ensures Lower(sponsorType) !in TypeColors ==> r == DefaultColor
  {
    var t := Lower(sponsorType);
    if t == "platinum" then "bg-gray-200 text-gray-800"
    else if t == "gold" then "bg-yellow-200 text-yellow-800"
    else if t == "silver" then "bg-gray-100 text-gray-700"
    else if t == "bronze" then "bg-orange-200 text-orange-800"
    else if t == "title" then "bg-blue-100 text-blue-800"
    else "bg-gray-200 text-gray-800"
  }

  /** The colour ignores case: a type, its lower-case and its upper-case
      spelling get the same classes. */
  lemma TypeColorIgnoresCase(sponsorType: string)
    ensures TypeColor(Lower(sponsorType)) == TypeColor(sponsorType)
    ensures TypeColor(Upper(sponsorType)) == TypeColor(sponsorType)
  {
    LowerIdempotent(sponsorType);
    LowerOfUpper(sponsorType);
  }

  /** Platinum shares the default classes: a type gets the default colour
      exactly when it is not gold, silver, bronze or title in some case. */
  lemma DefaultColorIff(sponsorType: string)
    ensures TypeColor(sponsorType) == DefaultColor <==>
              Lower(sponsorType) !in {"gold", "silver", "bronze", "title"}
  {
  }

  /** A badge is shown only for a non-empty type: its text and classes. */
  function Badge(sponsor: Sponsor): Option<(string, string)> {
    if sponsor.sponsorType == "" then None
    else
      var text := Upper(sponsor.sponsorType);
      Some((if text != "" then text else "SPONSOR", TypeColor(sponsor.sponsorType)))
  }

  /** The badge text is the upper-cased type: the "SPONSOR" fallback is never
      shown, because upper-casing keeps the length and an empty type shows
      no badge at all. */
  lemma BadgeShowsUpperType(sponsor: Sponsor)
    ensures Badge(sponsor).Some? <==> sponsor.sponsorType != ""
    ensures Badge(sponsor).Some? ==>
              Badge(sponsor).value == (Upper(sponsor.sponsorType), TypeColor(sponsor.sponsorType))
  {
    if sponsor.sponsorType != "" {
      assert |Upper(sponsor.sponsorType)| > 0;
    }
  }

  // =====================================================================
  // The sponsor form
  // =====================================================================

  /** `SponsorForm`: title, type, the chosen image and its preview. */
  class SponsorForm {
    var title: string
    var sponsorType: string
    var selectedFile: Option<File>
    var previewUrl: string

    /** The initial state copies the edited sponsor, or is empty when adding. */
    constructor (sponsor: Option<Sponsor>)
      ensures sponsor.Some? ==> title == sponsor.value.title && sponsorType == sponsor.value.sponsorType
      ensures sponsor.None? ==> title == "" && sponsorType == ""
      ensures previewUrl == if sponsor.Some? && sponsor.value.image.Some? then sponsor.value.image.value else ""
      ensures selectedFile == None
    {
      if sponsor.Some? {
        title, sponsorType := sponsor.value.title, sponsor.value.sponsorType;
        previewUrl := if sponsor.value.image.Some? then sponsor.value.image.value else "";
      } else {
        title, sponsorType, previewUrl := "", "", "";
      }
      selectedFile := None;
    }

    /** `handleFileChange`: a picked file replaces the earlier one and its
        object URL becomes the preview; a cancelled pick changes nothing. */
    method ChooseFile(file: Option<File>, objectUrl: string)
      modifies this
      ensures file.Some? ==> selectedFile == file && previewUrl == objectUrl
      ensures file.None? ==> selectedFile == old(selectedFile) && previewUrl == old(previewUrl)
      ensures title == old(title) && sponsorType == old(sponsorType)
    {
      if file.Some? {
        selectedFile := file;
        previewUrl := objectUrl;
      }
    }

    /** `handleSubmit`: title then type, then the image when one was picked. */
    method Submit() returns (fd: FormData)
      ensures Names(fd) == ["title", "type"] + (if selectedFile.Some? then ["image"] else [])
      ensures fd[..2] == [("title", Text(title)), ("type", Text(sponsorType))]
      ensures selectedFile.Some? ==> fd[2] == ("image", Upload(selectedFile.value))
    {
      fd := [];
      fd := fd + [("title", Text(title))];
      fd := fd + [("type", Text(sponsorType))];
      if selectedFile.Some? {
        fd := fd + [("image", Upload(selectedFile.value))];
      }
    }
  }

  /** Opening the form on a sponsor and saving without changes sends its
      title and type and no image. */
  method SubmitUnchangedEdit(sponsor: Sponsor) returns (fd: FormData)
    ensures fd == [("title", Text(sponsor.title)), ("type", Text(sponsor.sponsorType))]
  {
    var form := new SponsorForm(Some(sponsor));
    fd := form.Submit();
  }

  // =====================================================================
  // The page's state and handlers
  // =====================================================================

  class SponsorsPage {
    var showForm: bool
    var editing: Option<Sponsor>
    /** The mutations issued so far, oldest first. */
    var issued: seq<Call>

    constructor ()
      ensures !showForm && editing == None && issued == []
    {
      showForm, editing, issued := false, None, [];
    }

    /** The id the save dispatch updates, if a sponsor is being edited. */
    function EditingId(): (r: Option<string>)
      reads this
      ensures r.Some? <==> editing.Some?
      ensures r.Some? ==> r.value == editing.value.id
    {
      if editing.Some? then Some(editing.value.id) else None
    }

    /** `handleAddSponsor`: a fresh form. */
    method AddSponsor()
      modifies this
      ensures editing == None && showForm && issued == old(issued)
    {
      editing := None;
      showForm := true;
    }

    /** `handleEditSponsor`: a form on the chosen sponsor. */
    method EditSponsor(sponsor: Sponsor)
      modifies this
      ensures editing == Some(sponsor) && showForm && issued == old(issued)
    {
      editing := Some(sponsor);
      showForm := true;
    }

    /** `handleDeleteSponsor`: delete only after the user confirms. */
    method DeleteSponsor(id: string, confirmed: bool)
      modifies this
      ensures issued == old(issued) + (if confirmed then [Remove(Sponsors, id)] else [])
      ensures showForm == old(showForm) && editing == old(editing)
    {
      if confirmed {
        issued := issued + [Remove(Sponsors, id)];
      }
    }

    /** The form's `onSave`: exactly one call, an update of the edited
        sponsor or a create. */
    method Save(fd: FormData)
      modifies this
      ensures issued == old(issued) + [SaveCall(Sponsors, EditingId(), fd)]
      ensures issued[|old(issued)|].Update? <==> editing.Some?
      ensures editing.Some? ==> issued[|old(issued)|] == Update(Sponsors, editing.value.id, Form(fd))
      ensures editing.None? ==> issued[|old(issued)|] == Create(Sponsors, Form(fd))
      ensures showForm == old(showForm) && editing == old(editing)
    {
      if editing.Some? {
        issued := issued + [Update(Sponsors, editing.value.id, Form(fd))];
      } else {
        issued := issued + [Create(Sponsors, Form(fd))];
      }
    }

    /** The save's `onSuccess`, and the form's `onClose`: hide the form. */
    method CloseForm()
      modifies this
      ensures !showForm && editing == old(editing) && issued == old(issued)
    {
      showForm := false;
    }
  }
}
