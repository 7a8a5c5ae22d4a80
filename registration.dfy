/** The registrations page: search, CSV export, the verified-status toggle,
    deletion, the registration form and the team-member list of the detail
    view. */
module Registration {
  import opened Common
  import opened Browser
  import opened Entities
  import opened Api

  // =====================================================================
  // Search
  // =====================================================================

  /** A registration matches when its team name or e-mail contains the term
      ignoring case, or its contact number contains the term exactly. */
  predicate MatchesSearch(reg: Registration, term: string) {
    Includes(Lower(reg.teamname), Lower(term))
    || Includes(Lower(reg.email), Lower(term))
    || Includes(reg.contactno, term)
  }

  /** `filteredRegistrations`: the registrations the table shows. */
  function FilterRegistrations(regs: seq<Registration>, term: string): (r: seq<Registration>)
    ensures forall i :: 0 <= i < |r| ==> r[i] in regs && MatchesSearch(r[i], term)
    ensures forall i :: 0 <= i < |regs| && MatchesSearch(regs[i], term) ==> regs[i] in r
    ensures forall reg :: multiset(r)[reg] == if MatchesSearch(reg, term) then multiset(regs)[reg] else 0
  {
    FilterCounts(regs, (reg: Registration) => MatchesSearch(reg, term));
    Filter(regs, (reg: Registration) => MatchesSearch(reg, term))
  }

  /** The search in terms of positions: the lower-cased term occurs in the
      lower-cased team name or e-mail, or the term occurs in the contact number. */
  lemma MatchesSearchIffOccurs(reg: Registration, term: string)
    ensures MatchesSearch(reg, term) <==>
              (exists i :: OccursAt(Lower(reg.teamname), Lower(term), i))
              || (exists i :: OccursAt(Lower(reg.email), Lower(term), i))
              || (exists i :: OccursAt(reg.contactno, term, i))
  {
    IncludesIffOccurs(Lower(reg.teamname), Lower(term));
    IncludesIffOccurs(Lower(reg.email), Lower(term));
    IncludesIffOccurs(reg.contactno, term);
    assert MatchesSearch(reg, term) ==
             (Includes(Lower(reg.teamname), Lower(term))
              || Includes(Lower(reg.email), Lower(term))
              || Includes(reg.contactno, term));
  }

  /** The shown list keeps the order of the loaded list. */
  lemma FilterKeepsOrder(regs: seq<Registration>, term: string)
    ensures IsSubsequence(FilterRegistrations(regs, term), regs)
  {
    FilterIsSubsequence(regs, (reg: Registration) => MatchesSearch(reg, term));
  }

  /** With an empty search box every registration is shown. */
  lemma EmptySearchKeepsAll(regs: seq<Registration>)
    ensures FilterRegistrations(regs, "") == regs
  {
    forall k | 0 <= k < |regs| ensures MatchesSearch(regs[k], "") {
      IncludesEmpty(Lower(regs[k].teamname));
    }
    FilterKeepsAll(regs, (reg: Registration) => MatchesSearch(reg, ""));
  }

  /** The contact number is compared case-sensitively: a contact "AB" is
      found by "AB" but not by "ab". */
  lemma ContactSearchIsCaseSensitive()
    ensures MatchesSearch(Registration("1", "", "", "AB", None, "no", ""), "AB")
    ensures !MatchesSearch(Registration("1", "", "", "AB", None, "no", ""), "ab")
  {
    var reg := Registration("1", "", "", "AB", None, "no", "");
    assert StartsWith(reg.contactno, "AB");
    assert Lower("ab") == "ab";
    assert Lower("") == "";
    assert !Includes("", "ab");
    assert !Includes("AB", "ab") by {
      assert !StartsWith("AB", "ab");
      assert "AB"[1..] == "B";
      assert !StartsWith("B", "ab");
      assert "B"[1..] == "";
    }
  }

  // =====================================================================
  // CSV export
  // =====================================================================

  const CsvHeader: seq<string> := ["Team Name", "Email", "Contact No", "Registration Date"]

  /** The cells of one registration; `formatDate` stands for
      `new Date(createdAt).toLocaleDateString()`. */
  function CsvCells(reg: Registration, formatDate: string -> string): seq<string> {
    [reg.teamname, reg.email, reg.contactno, formatDate(reg.createdAt)]
  }

  /** The header row followed by one row per registration, in list order. */
  function CsvRows(regs: seq<Registration>, formatDate: string -> string): (rows: seq<seq<string>>)
    ensures |rows| == |regs| + 1 && rows[0] == CsvHeader
    ensures forall k :: 0 <= k < |regs| ==> rows[k + 1] == CsvCells(regs[k], formatDate)
  {
    [CsvHeader] + seq(|regs|, k requires 0 <= k < |regs| => CsvCells(regs[k], formatDate))
  }

  /** Each row with its cells joined by commas. */
  function CsvLines(rows: seq<seq<string>>): (lines: seq<string>)
    ensures |lines| == |rows|
    ensures forall k :: 0 <= k < |rows| ==> lines[k] == Join(rows[k], ',')
  {
    seq(|rows|, k requires 0 <= k < |rows| => Join(rows[k], ','))
  }

  /** The text `exportData` downloads: the lines joined by newlines. */
  function CsvText(regs: seq<Registration>, formatDate: string -> string): string {
    Join(CsvLines(CsvRows(regs, formatDate)), '\n')
  }

  /** A cell that cannot confuse a reader of unquoted CSV. */
  predicate PlainCell(c: string) {
    ',' !in c && '\n' !in c
  }

  predicate PlainRows(rows: seq<seq<string>>) {
    forall k, j :: 0 <= k < |rows| && 0 <= j < |rows[k]| ==> PlainCell(rows[k][j])
  }

  lemma {:induction false} JoinAvoids(cells: seq<string>, sep: char, c: char)
    requires c != sep
    requires forall j :: 0 <= j < |cells| ==> c !in cells[j]
    ensures c !in Join(cells, sep)
  {
    if |cells| > 1 {
      JoinAvoids(cells[1..], sep, c);
    }
  }

  /** When no cell holds a comma or newline, splitting the text at newlines
      and each line at commas gives back exactly the header and the rows. */
  lemma CsvRoundTrip(regs: seq<Registration>, formatDate: string -> string)
    requires PlainRows(CsvRows(regs, formatDate))
    ensures Split(CsvText(regs, formatDate), '\n') == CsvLines(CsvRows(regs, formatDate))
    ensures forall k :: 0 <= k <= |regs| ==>
              Split(Split(CsvText(regs, formatDate), '\n')[k], ',') == CsvRows(regs, formatDate)[k]
  {
    var rows := CsvRows(regs, formatDate);
    var lines := CsvLines(rows);
    forall k | 0 <= k < |lines| ensures '\n' !in lines[k] {
      JoinAvoids(rows[k], ',', '\n');
    }
    SplitJoin(lines, '\n');
    forall k | 0 <= k < |rows| ensures Split(lines[k], ',') == rows[k] {
      assert |rows[k]| > 0;
      SplitJoin(rows[k], ',');
    }
  }

  /** Cells are not quoted: the line of a team named "A,B" reads back as
      five cells, the team name split in two. */
  lemma CsvDoesNotQuote(reg: Registration, formatDate: string -> string)
    requires reg.teamname == "A,B"
    requires ',' !in reg.email && ',' !in reg.contactno && ',' !in formatDate(reg.createdAt)
    ensures Split(Join(CsvCells(reg, formatDate), ','), ',') ==
              ["A", "B", reg.email, reg.contactno, formatDate(reg.createdAt)]
  {
    var cells := CsvCells(reg, formatDate);
    var split := ["A", "B"] + cells[1..];
    assert cells[1..] == split[2..];
    assert Join(cells, ',') == "A,B" + [','] + Join(cells[1..], ',');
    assert "A,B" == "A" + [','] + "B";
    assert Join(split[1..], ',') == "B" + [','] + Join(cells[1..], ',') by {
      assert split[1..][1..] == cells[1..];
    }
    assert Join(cells, ',') == "A" + [','] + Join(split[1..], ',');
    assert Join(split, ',') == Join(cells, ',');
    SplitJoin(split, ',');
  }

  // =====================================================================
  // Verified status
  // =====================================================================

  /** The status the toggle button sends for a registration. */
  function NextStatus(verified: string): (r: string)
    ensures r == "no" <==> verified == "yes"
    ensures r == "yes" <==> verified != "yes"
  {
    if verified == "yes" then "no" else "yes"
  }

  /** Toggling twice restores a "yes"/"no" status. */
  lemma ToggleTwiceRestores(verified: string)
    requires verified == "yes" || verified == "no"
    ensures NextStatus(NextStatus(verified)) == verified
  {
  }

  /** Toggling an unverified registration reports it verified and the other
      way round, and refreshes the registrations list. */
  lemma ToggleNotifies(reg: Registration)
    ensures CallToast(SetStatus(reg.id, NextStatus(reg.verified))) ==
              if reg.verified == "yes" then "Registration unverified successfully!"
              else "Registration verified successfully!"
    ensures InvalidatedKey(SetStatus(reg.id, NextStatus(reg.verified))) == ["registrations"]
  {
  }

  // =====================================================================
  // Detail view
  // =====================================================================

  /** A member belongs to the selected team when its embedded registration
      has the selected team name; a member without one belongs to none. */
  predicate InTeam(m: TeamMember, reg: Registration) {
    m.registrationformhacker.Some? && m.registrationformhacker.value.teamname == reg.teamname
  }

  /** The members the detail view lists for a registration. */
  function MembersOfTeam(members: seq<TeamMember>, reg: Registration): (r: seq<TeamMember>)
    ensures forall i :: 0 <= i < |r| ==> r[i] in members && InTeam(r[i], reg)
    ensures forall i :: 0 <= i < |members| && InTeam(members[i], reg) ==> members[i] in r
    ensures forall m :: multiset(r)[m] == if InTeam(m, reg) then multiset(members)[m] else 0
  {
    FilterCounts(members, (m: TeamMember) => InTeam(m, reg));
    Filter(members, (m: TeamMember) => InTeam(m, reg))
  }

  lemma MembersOfTeamKeepsOrder(members: seq<TeamMember>, reg: Registration)
    ensures IsSubsequence(MembersOfTeam(members, reg), members)
  {
    FilterIsSubsequence(members, (m: TeamMember) => InTeam(m, reg));
  }

  // =====================================================================
  // The registration form
  // =====================================================================

  /** `RegistrationForm`: four text inputs and an optional payment file. */
  class RegistrationForm {
    var teamname: string
    var email: string
    var contactno: string
    var password: string
    var paymentFile: Option<File>

    constructor ()
      ensures teamname == "" && email == "" && contactno == "" && password == ""
      ensures paymentFile == None
    {
      teamname, email, contactno, password := "", "", "", "";
      paymentFile := None;
    }

    /** `handleFileChange`: a cancelled pick keeps the earlier file. */
    method ChooseFile(file: Option<File>)
      modifies this
      ensures paymentFile == if file.Some? then file else old(paymentFile)
      ensures teamname == old(teamname) && email == old(email)
      ensures contactno == old(contactno) && password == old(password)
    {
      if file.Some? {
        paymentFile := file;
      }
    }

    /** `handleSubmit`: the four fields in order, then the payment file if
        one was chosen. */
    method Submit() returns (fd: FormData)
      ensures Names(fd) == ["teamname", "email", "contactno", "password"]
                           + (if paymentFile.Some? then ["payment"] else [])
      ensures fd[..4] == [("teamname", Text(teamname)), ("email", Text(email)),
                          ("contactno", Text(contactno)), ("password", Text(password))]
      ensures paymentFile.Some? ==> fd[4] == ("payment", Upload(paymentFile.value))
    {
      fd := [];
      fd := fd + [("teamname", Text(teamname))];
      fd := fd + [("email", Text(email))];
      fd := fd + [("contactno", Text(contactno))];
      fd := fd + [("password", Text(password))];
      if paymentFile.Some? {
        fd := fd + [("payment", Upload(paymentFile.value))];
      }
    }
  }

  // =====================================================================
  // The page's state and handlers
  // =====================================================================

  class RegistrationPage {
    var searchTerm: string
    var selected: Option<Registration>
    var showForm: bool
    /** The mutations issued so far, oldest first. */
    var issued: seq<Call>

    constructor ()
      ensures searchTerm == "" && selected == None && !showForm && issued == []
    {
      searchTerm, selected, showForm, issued := "", None, false, [];
    }

    method AddRegistration()
      modifies this
      ensures showForm
      ensures searchTerm == old(searchTerm) && selected == old(selected) && issued == old(issued)
    {
      showForm := true;
    }

    /** `handleDeleteRegistration`: delete only after the user confirms. */
    method DeleteRegistration(id: string, confirmed: bool)
      modifies this
      ensures issued == old(issued) + (if confirmed then [Remove(Registrations, id)] else [])
      ensures searchTerm == old(searchTerm) && selected == old(selected) && showForm == old(showForm)
    {
      if confirmed {
        issued := issued + [Remove(Registrations, id)];
      }
    }

    /** The status button: send the opposite of the current status. */
    method ToggleStatus(reg: Registration)
      modifies this
      ensures issued == old(issued) + [SetStatus(reg.id, NextStatus(reg.verified))]
      ensures searchTerm == old(searchTerm) && selected == old(selected) && showForm == old(showForm)
    {
      issued := issued + [SetStatus(reg.id, NextStatus(reg.verified))];
    }

    /** The form's `onSave`: create the registration. */
    method Save(fd: FormData)
      modifies this
      ensures issued == old(issued) + [Create(Registrations, Form(fd))]
      ensures searchTerm == old(searchTerm) && selected == old(selected) && showForm == old(showForm)
    {
      issued := issued + [Create(Registrations, Form(fd))];
    }

    /** The create's `onSuccess`, and the form's `onClose`: hide the form. */
    method CloseForm()
      modifies this
      ensures !showForm
      ensures searchTerm == old(searchTerm) && selected == old(selected) && issued == old(issued)
    {
      showForm := false;
    }

    /** The search box's `onChange`. */
    method Search(term: string)
      modifies this
      ensures searchTerm == term
      ensures selected == old(selected) && showForm == old(showForm) && issued == old(issued)
    {
      searchTerm := term;
    }

    method ShowDetails(reg: Registration)
      modifies this
      ensures selected == Some(reg)
      ensures searchTerm == old(searchTerm) && showForm == old(showForm) && issued == old(issued)
    {
      selected := Some(reg);
    }

    /** The detail modal's `onClose`. */
    method CloseDetails()
      modifies this
      ensures selected == None
      ensures searchTerm == old(searchTerm) && showForm == old(showForm) && issued == old(issued)
    {
      selected := None;
    }
  }
}
