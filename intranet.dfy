/** The src intranet page (src/App.tsx): the access-code gate, the identify and register
    steps, the signed-in layout with its permission-filtered sidebar, the score directory
    state and the roll-call dialog. */
module Intranet {
  import opened BandTypes
  import opened Text
  import BandConstants
  import opened Permissions
  import opened ScoreDirectory
  import opened RollCall
  import opened Email

  /** BAND_ACCESS_CODE. */
  const BandAccessCode: string := "CENA2024"

  /** handleVerifyCode's test: the input, upper-cased, equals the band code. */
  predicate CodeAccepted(input: string)
  {
    ToUpper(input) == BandAccessCode
  }

  /** The code is accepted exactly when it has eight characters and each is the code's
      character or, for the letters, its lower-case form: the check ignores case and
      nothing else (no trimming, no prefix match). */
  lemma CodeAcceptedExactly(input: string)
    ensures CodeAccepted(input) <==>
              |input| == |BandAccessCode| &&
              forall i :: 0 <= i < |input| ==>
                input[i] == BandAccessCode[i] || input[i] == LowerChar(BandAccessCode[i])
  {
    var code := BandAccessCode;
    if |input| == |code| {
      forall i | 0 <= i < |input|
        ensures UpperChar(input[i]) == code[i] <==> input[i] == code[i] || input[i] == LowerChar(code[i])
      {
        if 'A' <= code[i] <= 'Z' {
          UpperCharPreimage(input[i], code[i]);
        } else {
          UpperCharFixedPreimage(input[i], code[i]);
        }
      }
      if !CodeAccepted(input) {
        var i :| 0 <= i < |input| && ToUpper(input)[i] != code[i];
      }
    }
  }

  /** Lower case and mixed case pass; the empty input and a spaced input do not. */
  lemma AccessCodeExamples()
    ensures CodeAccepted("cena2024") && CodeAccepted("CeNa2024") && CodeAccepted("CENA2024")
    ensures !CodeAccepted("") && !CodeAccepted("CENA 2024") && !CodeAccepted("CENA2025")
  {
    CodeAcceptedExactly("cena2024");
    CodeAcceptedExactly("CeNa2024");
    CodeAcceptedExactly("CENA2024");
    assert "CENA2025"[7] != BandAccessCode[7];
  }

  /** loginStep: 'code', 'identify' or 'register'. */
  datatype LoginStep = CodeStep | Identify | Register

  /** What the page renders: the gate at one of its steps, or the signed-in layout with
      its main area and the roll-call dialog when one is open. */
  datatype Screen = Gate(step: LoginStep) | Main(view: View, dialog: Option<BandEvent>)

  function Render(user: Option<Member>, step: LoginStep, tab: Tab, dialog: Option<BandEvent>): Screen
  {
    if user.None? then Gate(step)
    else Main(ViewOf(tab, IsAdmin(user)), dialog)
  }

  /** The tabs the sidebar of the signed-in layout lists; the gate has no sidebar. */
  function Sidebar(user: Option<Member>): seq<Tab>
  {
    if user.None? then [] else VisibleTabs(IsAdmin(user))
  }

  /** The gate shows exactly when nobody is signed in, and then at the current step. */
  lemma GateExactlyWhenSignedOut(user: Option<Member>, step: LoginStep, tab: Tab, dialog: Option<BandEvent>)
    ensures Render(user, step, tab, dialog).Gate? <==> user.None?
    ensures user.None? ==> Render(user, step, tab, dialog).step == step
  {
  }

  /** Signed in, the placeholder replaces the page exactly when a musician is on the
      members or inventory tab. */
  lemma RestrictedExactlyForMusicians(user: Option<Member>, step: LoginStep, tab: Tab, dialog: Option<BandEvent>)
    requires user.Some?
    ensures Render(user, step, tab, dialog).view == Restricted <==>
              user.value.role == Musico && (tab == Members || tab == Inventory)
  {
    IsAdminIffOfficer(user);
  }

  /** Signed in, the sidebar lists all eight tabs for an officer and six for a musician,
      and the tabs it lists never render the placeholder. */
  lemma SidebarByRole(user: Option<Member>, step: LoginStep, tab: Tab, dialog: Option<BandEvent>)
    requires user.Some?
    ensures user.value.role != Musico ==> Sidebar(user) == AllTabs
    ensures user.value.role == Musico ==> Sidebar(user) == [Feed, Calendar, Scores, Tools, AppInstall, Social]
    ensures tab in Sidebar(user) ==> Render(user, step, tab, dialog).view != Restricted
  {
    IsAdminIffOfficer(user);
    VisibleTabsByRole(IsAdmin(user));
    RestrictedExactlyOffNavigation(tab, IsAdmin(user));
  }

  /** An administrator's sidebar lists all eight tabs. */
  lemma AdminSidebar(user: Option<Member>)
    requires IsAdmin(user)
    ensures Sidebar(user) == AllTabs
  {
    VisibleTabsByRole(IsAdmin(user));
  }

  /** The 'Pasar Lista' buttons of the calendar show exactly for officers. */
  lemma RollCallButtonsForOfficers(user: Option<Member>, step: LoginStep, dialog: Option<BandEvent>)
    requires user.Some?
    ensures Render(user, step, Calendar, dialog).view.Page?
    ensures Render(user, step, Calendar, dialog).view.adminControls <==> user.value.role != Musico
  {
    IsAdminIffOfficer(user);
  }

  /** The roster line of a member in the roll-call dialog: its id, name, surname and voice label. */
  function AttendeeOf(m: Member): Attendee
  {
    Attendee(m.id, m.name, m.surname, InstrumentLabel(m.instrument))
  }

  /** The roster the page hands to the roll-call dialog: MOCK_MEMBERS, one line each. */
  const SeedRoster: seq<Attendee> := Lines(BandConstants.MockMembers, AttendeeOf)

  /** The spreadsheet row of the i-th member: 'Músico' is the name, one space and the
      surname; 'Instrumento' the voice label; 'Estado' the recorded status, or
      'Pendiente' when the member has no entry. */
  lemma ExportRowOfMember(members: seq<Member>, attendance: map<string, AttendanceStatus>, i: int)
    requires 0 <= i < |members|
    ensures var rows := ExportRows(Lines(members, AttendeeOf), attendance);
            |rows| == |members| &&
            rows[i].musician == members[i].name + " " + members[i].surname &&
            rows[i].instrument == InstrumentLabel(members[i].instrument) &&
            rows[i].status == (if members[i].id in attendance then attendance[members[i].id] else Pendiente)
  {
    LinesAt(members, AttendeeOf, i);
  }

  /** A member is on the dialog's roster built from a member list exactly when its id
      is one of the list's ids. */
  lemma RosterKeepsIds(members: seq<Member>, id: string)
    ensures OnRoster(Lines(members, AttendeeOf), id) <==> id in BandConstants.MemberIds(members)
  {
    LinesOnRoster(members, AttendeeOf, id);
    if id in BandConstants.MemberIds(members) {
      var i :| 0 <= i < |members| && members[i].id == id;
      assert AttendeeOf(members[i]).id == id;
    }
  }

  /** Exporting the seed rehearsal straight away: Juan is marked present, María and
      Carlos have no entry and read 'Pendiente'. */
  lemma SeedRehearsalExport()
    ensures Statuses(ExportRows(Lines(BandConstants.MockMembers, AttendeeOf), BandConstants.MockEvents[0].attendance))
            == [Asistio, Pendiente, Pendiente]
  {
    var rows := ExportRows(Lines(BandConstants.MockMembers, AttendeeOf), BandConstants.MockEvents[0].attendance);
    BandConstants.MockMembersFacts();
    assert rows[0].status == Asistio;
    assert rows[1].status == Pendiente;
    assert rows[2].status == Pendiente;
  }

  /** The state of the App component. */
  class App {
    var currentUser: Option<Member>
    var accessCode: string
    var isCodeCorrect: bool
    var loginStep: LoginStep
    var regName: string
    var regSurname: string
    var regEmail: string
    var regVoice: Instrument
    var activeTab: Tab
    var rollCallEvent: Option<BandEvent>
    /** MOCK_EVENTS, the events the calendar lists. */
    const calendar: seq<BandEvent>
    /** MOCK_MEMBERS as the roll-call dialog's roster. */
    const roster: seq<Attendee>
    /** MOCK_SCORES, the directory's scores. */
    const scores: seq<Score>
    var selectedVoice: Option<Instrument>
    var scoreSearch: string
    /** The mounted roll-call dialog, if any. The gate is returned early while nobody is
        signed in, so the dialog is mounted exactly while someone is signed in and a
        roll call is open. */
    var dialog: AttendanceModal?

    /** The step is past 'code' exactly when the code was validated; a voice stays
        selected only on the scores tab; a roll call is open on one of the calendar's
        events, and the mounted dialog shows that event over the seed roster. */
    ghost predicate Valid()
      reads this, dialog
    {
      (isCodeCorrect <==> loginStep != CodeStep) &&
      (selectedVoice.Some? ==> activeTab == Scores) &&
      (rollCallEvent.Some? ==> rollCallEvent.value in calendar) &&
      (dialog != null <==> currentUser.Some? && rollCallEvent.Some?) &&
      (dialog != null ==> rollCallEvent == Some(dialog.event) && dialog.members == roster)
    }

    /** The roll call is open only while an officer is signed in, as the officer-only
        'Pasar Lista' buttons intend. */
    ghost predicate RollCallOnlyForOfficers()
      reads this
    {
      rollCallEvent.Some? ==> IsAdmin(currentUser)
    }

    function CurrentScreen(): Screen
      reads this
    {
      Render(currentUser, loginStep, activeTab, rollCallEvent)
    }

    function Nav(): seq<Tab>
      reads this
    {
      Sidebar(currentUser)
    }

    /** filteredScores for the current selection and search text. */
    function ScoreListing(): seq<Score>
      reads this
    {
      FilterScores(scores, selectedVoice, scoreSearch)
    }

    /** Mounting: the user restored from the browser's storage, if any, and the initial
        state of every field. */
    constructor (saved: Option<Member>)
      ensures Valid() && RollCallOnlyForOfficers()
      ensures calendar == BandConstants.MockEvents && roster == SeedRoster && scores == BandConstants.MockScores
      ensures currentUser == saved && loginStep == CodeStep && !isCodeCorrect && accessCode == ""
      ensures regName == "" && regSurname == "" && regEmail == "" && regVoice == Trompeta1
      ensures activeTab == Feed && rollCallEvent.None? && dialog == null
      ensures selectedVoice.None? && scoreSearch == ""
      ensures CurrentScreen() == (if saved.None? then Gate(CodeStep)
                                  else Main(Page(Feed, false), None))
    {
      calendar := BandConstants.MockEvents;
      roster := SeedRoster;
      scores := BandConstants.MockScores;
      currentUser := saved;
      accessCode := "";
      isCodeCorrect := false;
      loginStep := CodeStep;
      regName := "";
      regSurname := "";
      regEmail := "";
      regVoice := Trompeta1;
      activeTab := Feed;
      rollCallEvent := None;
      selectedVoice := None;
      scoreSearch := "";
      dialog := null;
    }

    /** Typing in the access-code field. */
    method TypeAccessCode(text: string)
      requires Valid() && CurrentScreen() == Gate(CodeStep)
      modifies this`accessCode
      ensures Valid() && accessCode == text
    {
      accessCode := text;
    }

    /** 'Validar Acceso': an accepted code moves to the identify step; a rejected one
        leaves everything as it was (the alert is not modelled). */
    method VerifyCode() returns (accepted: bool)
      requires Valid() && CurrentScreen() == Gate(CodeStep)
      modifies this`isCodeCorrect, this`loginStep
      ensures Valid()
      ensures accepted <==> CodeAccepted(accessCode)
      ensures accepted ==> isCodeCorrect && CurrentScreen() == Gate(Identify)
      ensures !accepted ==> !isCodeCorrect && CurrentScreen() == Gate(CodeStep)
    {
      accepted := ToUpper(accessCode) == BandAccessCode;
      if accepted {
        isCodeCorrect := true;
        loginStep := Identify;
      }
    }

    /** 'Soy Nuevo Músico'. */
    method ChooseNewMusician()
      requires Valid() && CurrentScreen() == Gate(Identify)
      modifies this`loginStep
      ensures Valid() && CurrentScreen() == Gate(Register)
    {
      loginStep := Register;
    }

    /** 'Volver atrás' on the registration form. */
    method BackToIdentify()
      requires Valid() && CurrentScreen() == Gate(Register)
      modifies this`loginStep
      ensures Valid() && CurrentScreen() == Gate(Identify)
    {
      loginStep := Identify;
    }

    /** 'Entrar como Admin Demo': sign in as the first seed member, an officer, who then
        sees every tab. A roll call left open mounts its dialog again on a fresh copy of
        the event's attendance. */
    method EnterAsDemoAdmin()
      requires Valid() && CurrentScreen() == Gate(Identify)
      modifies this`currentUser, this`dialog
      ensures Valid() && RollCallOnlyForOfficers()
      ensures currentUser == Some(BandConstants.MockMembers[0]) && IsAdmin(currentUser)
      ensures CurrentScreen() == Main(ViewOf(activeTab, true), rollCallEvent) && Nav() == AllTabs
      ensures rollCallEvent.Some? ==> fresh(dialog) && dialog.attendance == rollCallEvent.value.attendance
    {
      BandConstants.DemoAdminIsDirector();
      currentUser := Some(BandConstants.MockMembers[0]);
      AdminSidebar(currentUser);
      if rollCallEvent.Some? {
        dialog := new AttendanceModal(rollCallEvent.value, roster);
      }
    }

    method TypeRegName(text: string)
      requires Valid() && CurrentScreen() == Gate(Register)
      modifies this`regName
      ensures Valid() && regName == text
    {
      regName := text;
    }

    method TypeRegSurname(text: string)
      requires Valid() && CurrentScreen() == Gate(Register)
      modifies this`regSurname
      ensures Valid() && regSurname == text
    {
      regSurname := text;
    }

    /** Typing in the e-mail field; the text is the field's value. */
    method TypeRegEmail(text: string)
      requires Valid() && CurrentScreen() == Gate(Register)
      modifies this`regEmail
      ensures Valid() && regEmail == text
    {
      regEmail := text;
    }

    /** Choosing a voice in the registration form's list, which offers INSTRUMENT_VOICES. */
    method ChooseRegVoice(voice: Instrument)
      requires Valid() && CurrentScreen() == Gate(Register)
      modifies this`regVoice
      ensures Valid() && regVoice == voice
    {
      regVoice := voice;
    }

    /** 'Finalizar Registro'. The browser submits the form only when name and surname are
        filled in and the e-mail field holds a valid address; the handler's own
        empty-field check then always passes, and it signs in a new member with the Músico
        role, the chosen voice and a zero attendance rate, who is no officer. Otherwise
        nothing happens. The random id and the current time are parameters. */
    method SubmitRegistration(newId: string, now: string) returns (registered: bool)
      requires Valid() && CurrentScreen() == Gate(Register)
      modifies this`currentUser, this`dialog
      ensures Valid()
      ensures registered <==> regName != "" && regSurname != "" && ValidEmail(regEmail)
      ensures registered ==>
                currentUser == Some(Member(newId, regName, regSurname, Musico, regVoice, regEmail,
                                           None, None, None, None, now, 0.0)) &&
                !IsAdmin(currentUser) &&
                CurrentScreen().Main? && Nav() == [Feed, Calendar, Scores, Tools, AppInstall, Social]
      ensures registered && rollCallEvent.Some? ==> fresh(dialog) && dialog.attendance == rollCallEvent.value.attendance
      ensures !registered ==> currentUser.None? && dialog == null && CurrentScreen() == Gate(Register)
      ensures old(RollCallOnlyForOfficers()) ==> RollCallOnlyForOfficers() && dialog == null
    {
      if regName == "" || regSurname == "" || !ValidEmail(regEmail) {
        registered := false;
        return;
      }
      var newcomer := Member(newId, regName, regSurname, Musico, regVoice, regEmail,
                             None, None, None, None, now, 0.0);
      IsAdminIffOfficer(Some(newcomer));
      VisibleTabsByRole(IsAdmin(Some(newcomer)));
      currentUser := Some(newcomer);
      registered := true;
      if rollCallEvent.Some? {
        dialog := new AttendanceModal(rollCallEvent.value, roster);
      }
    }

    /** 'Cerrar Sesión': the gate comes back at the step it was left on, so after a
        validated code the code is not asked for again. The dialog unmounts with the page,
        losing its working copy, but the open roll call is kept. */
    method Logout()
      requires Valid() && CurrentScreen().Main?
      modifies this`currentUser, this`dialog
      ensures Valid()
      ensures currentUser.None? && dialog == null && CurrentScreen() == Gate(loginStep)
      ensures rollCallEvent == old(rollCallEvent)
      ensures old(isCodeCorrect) ==> CurrentScreen() != Gate(CodeStep)
    {
      currentUser := None;
      dialog := null;
    }

    /** The logout the officer-only roll call evidently needs: as Logout, and the open
        roll call is dropped too, so the roll call stays with officers. */
    method LogoutClosingDialog()
      requires Valid() && CurrentScreen().Main?
      modifies this`currentUser, this`dialog, this`rollCallEvent
      ensures Valid() && RollCallOnlyForOfficers()
      ensures currentUser.None? && dialog == null && rollCallEvent.None? && CurrentScreen() == Gate(loginStep)
      ensures old(isCodeCorrect) ==> CurrentScreen() != Gate(CodeStep)
    {
      currentUser := None;
      dialog := null;
      rollCallEvent := None;
    }

    /** A sidebar button: shows that tab and drops the selected voice when leaving for
        any tab but the scores. A listed tab never renders the placeholder. An open
        dialog stays open with its working copy. */
    method SelectTab(tab: Tab)
      requires Valid() && CurrentScreen().Main?
      requires tab in Nav()
      modifies this`activeTab, this`selectedVoice
      ensures Valid()
      ensures activeTab == tab
      ensures selectedVoice == (if tab == Scores then old(selectedVoice) else None)
      ensures CurrentScreen().view == Page(tab, IsAdmin(currentUser) && tab in [Calendar, Members, Inventory])
    {
      RestrictedExactlyOffNavigation(tab, IsAdmin(currentUser));
      AdminControlsOnlyForAdmins(tab, IsAdmin(currentUser));
      activeTab := tab;
      if tab != Scores {
        selectedVoice := None;
      }
    }

    /** A voice card of the score directory: lists that voice's scores matching the search. */
    method SelectVoice(voice: Instrument)
      requires Valid() && CurrentScreen().Main?
      requires activeTab == Scores && selectedVoice.None?
      modifies this`selectedVoice
      ensures Valid() && selectedVoice == Some(voice)
      ensures forall s :: s in ScoreListing() <==>
                s in scores && s.voice == voice && MatchesSearch(s, scoreSearch)
    {
      selectedVoice := Some(voice);
      forall s ensures s in ScoreListing() <==>
                s in scores && s.voice == voice && MatchesSearch(s, scoreSearch)
      {
        FilterScoresCharacterised(scores, selectedVoice, scoreSearch, s);
      }
    }

    /** The back arrow of a voice listing: the voice grid again, and no scores listed. */
    method ClearVoice()
      requires Valid() && CurrentScreen().Main?
      requires activeTab == Scores && selectedVoice.Some?
      modifies this`selectedVoice
      ensures Valid() && selectedVoice.None? && ScoreListing() == []
    {
      selectedVoice := None;
    }

    /** Typing in the search field, which only a voice listing shows. The search text is
        kept when the voice is cleared or changed. */
    method TypeScoreSearch(text: string)
      requires Valid() && CurrentScreen().Main?
      requires activeTab == Scores && selectedVoice.Some?
      modifies this`scoreSearch
      ensures Valid() && scoreSearch == text
      ensures text == "" ==> ScoreListing() == VoiceScores(scores, selectedVoice.value)
    {
      EmptySearchListsWholeVoice(scores, selectedVoice.value);
      scoreSearch := text;
    }

    /** 'Pasar Lista' on a calendar entry (officers only). With no dialog mounted, the
        dialog mounts on a fresh working copy of that event's attendance over the seed
        roster, whatever was marked the last time it was open. With the dialog mounted
        (the button stays reachable from the keyboard behind the overlay), the dialog
        takes the event and keeps its working copy. */
    method OpenRollCall(e: BandEvent)
      requires Valid() && CurrentScreen().Main?
      requires activeTab == Calendar && CurrentScreen().view.adminControls
      requires e in calendar
      modifies this`rollCallEvent, this`dialog, dialog
      ensures Valid() && RollCallOnlyForOfficers()
      ensures rollCallEvent == Some(e) && CurrentScreen().dialog == Some(e)
      ensures dialog != null && dialog.event == e
      ensures old(dialog) == null ==> fresh(dialog) && dialog.attendance == e.attendance
      ensures old(dialog) != null ==> dialog == old(dialog) && dialog.attendance == old(dialog.attendance)
    {
      assert IsAdmin(currentUser);
      rollCallEvent := Some(e);
      if dialog == null {
        dialog := new AttendanceModal(e, roster);
      } else {
        dialog.event := e;
      }
    }

    /** The dialog's close button: the roll call closes and the working copy is dropped. */
    method CloseRollCall()
      requires Valid() && dialog != null
      modifies this`rollCallEvent, this`dialog
      ensures Valid() && rollCallEvent.None? && dialog == null && CurrentScreen().dialog.None?
    {
      rollCallEvent := None;
      dialog := null;
    }

    /** 'Guardar y Exportar Excel': the spreadsheet rows of the seed roster under the
        dialog's working copy, then the roll call closes. */
    method SaveRollCall() returns (rows: seq<ExportRow>)
      requires Valid() && dialog != null
      modifies this`rollCallEvent, this`dialog
      ensures Valid() && rollCallEvent.None? && dialog == null
      ensures rows == ExportRows(roster, old(dialog.attendance))
    {
      rows := dialog.SaveAndExport();
      rollCallEvent := None;
      dialog := null;
    }
  }

  /** As written: an officer opens the roll call of the seed rehearsal and signs out with
      the dialog open; a newcomer then registers, and the dialog mounts again, with its
      marking and export buttons, for a Músico. */
  method MusicianInheritsRollCall() returns (app: App)
    ensures app.Valid() && app.currentUser.Some? && app.currentUser.value.role == Musico
    ensures app.dialog != null && app.dialog.event == BandConstants.MockEvents[0]
    ensures !app.RollCallOnlyForOfficers()
  {
    app := OfficerWithRollCallOpen();
    app.Logout();
    ValidEmailExample();
    RegisterNewcomer(app, "Ana", "Ruiz", "ana@banda.es");
  }

  /** Corrected: the same steps with LogoutClosingDialog leave the newcomer without a
      roll call. */
  method MusicianAfterClosingLogout() returns (app: App)
    ensures app.Valid() && app.currentUser.Some? && app.currentUser.value.role == Musico
    ensures app.dialog == null && app.rollCallEvent.None? && app.RollCallOnlyForOfficers()
  {
    app := OfficerWithRollCallOpen();
    app.LogoutClosingDialog();
    ValidEmailExample();
    RegisterNewcomer(app, "Ana", "Ruiz", "ana@banda.es");
  }

  /** Code accepted, the demo admin signed in and the calendar shown with its
      'Pasar Lista' buttons. */
  method OfficerOnCalendar() returns (app: App)
    ensures fresh(app) && app.Valid() && app.isCodeCorrect && app.loginStep == Identify
    ensures app.calendar == BandConstants.MockEvents && app.dialog == null
    ensures app.activeTab == Calendar && app.CurrentScreen().Main? && app.CurrentScreen().view.adminControls
  {
    app := DemoAdminSignedIn();
    app.SelectTab(Calendar);
  }

  /** Code accepted, the demo admin signed in, the calendar shown and the seed
      rehearsal's roll call open. */
  method OfficerWithRollCallOpen() returns (app: App)
    ensures fresh(app) && app.Valid() && app.isCodeCorrect && app.loginStep == Identify
    ensures app.calendar == BandConstants.MockEvents
    ensures app.CurrentScreen().Main? && app.dialog != null && app.dialog.event == app.calendar[0]
  {
    app := OfficerOnCalendar();
    app.OpenRollCall(app.calendar[0]);
  }

  /** A first visit: the lower-case code typed and accepted, nobody signed in yet. */
  method CodeAcceptedOnFirstVisit() returns (app: App)
    ensures fresh(app) && app.Valid() && app.isCodeCorrect && app.loginStep == Identify
    ensures app.CurrentScreen() == Gate(Identify) && app.rollCallEvent.None?
    ensures app.calendar == BandConstants.MockEvents
  {
    app := new App(None);
    app.TypeAccessCode("cena2024");
    AccessCodeExamples();
    var accepted := app.VerifyCode();
  }

  /** Code accepted and the demo admin signed in. */
  method DemoAdminSignedIn() returns (app: App)
    ensures fresh(app) && app.Valid() && app.isCodeCorrect && app.loginStep == Identify
    ensures app.calendar == BandConstants.MockEvents
    ensures app.CurrentScreen() == Main(ViewOf(app.activeTab, true), None) && app.Nav() == AllTabs
    ensures IsAdmin(app.currentUser) && app.rollCallEvent.None?
  {
    app := CodeAcceptedOnFirstVisit();
    app.EnterAsDemoAdmin();
  }

  /** From the identify step, 'Soy Nuevo Músico' and a filled-in form. */
  method RegisterNewcomer(app: App, name: string, surname: string, email: string)
    requires name != "" && surname != "" && ValidEmail(email)
    requires app.Valid() && app.currentUser.None? && app.loginStep == Identify
    modifies app`loginStep, app`regName, app`regSurname, app`regEmail, app`currentUser, app`dialog
    ensures app.Valid() && app.currentUser.Some? && app.currentUser.value.role == Musico
    ensures app.rollCallEvent == old(app.rollCallEvent)
    ensures app.rollCallEvent.Some? ==> app.dialog != null && app.dialog.event == app.rollCallEvent.value
    ensures old(app.RollCallOnlyForOfficers()) ==> app.RollCallOnlyForOfficers() && app.dialog == null
  {
    app.ChooseNewMusician();
    app.TypeRegName(name);
    app.TypeRegSurname(surname);
    app.TypeRegEmail(email);
    var registered := app.SubmitRegistration("4", "2024-06-01");
  }
}
