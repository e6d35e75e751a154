/** The older root intranet page (App.tsx): two demo sign-in buttons instead of the
    access code, a sidebar that always lists all eight tabs, pages that hide only their
    officer controls, and the same roll-call dialog. */
module RootIntranet {
  import opened BandTypes
  import R = RootTypes
  import RootConstants
  import P = Permissions
  import opened RollCall

  /** isAdmin: someone is signed in and their role is in the root ADMIN_ROLES. */
  function IsAdmin(user: Option<R.Member>): bool
  {
    user.Some? && user.value.role in RootConstants.AdminRoles
  }

  /** Exactly the signed-in non-musicians are officers, as in the src variant. */
  lemma IsAdminIffOfficer(user: Option<R.Member>)
    ensures IsAdmin(user) <==> user.Some? && user.value.role != Musico
  {
    RootConstants.AdminRolesAgree();
  }

  /** The main area: no page is ever replaced by a placeholder; the officer controls
      (the roll-call buttons, the inventory export button, the members page's add button
      and contact details) show on the calendar, inventory and members pages for officers. */
  function RootViewOf(tab: P.Tab, isAdmin: bool): P.View
  {
    P.Page(tab, isAdmin && (tab == P.Calendar || tab == P.Members || tab == P.Inventory))
  }

  /** The two variants agree on what an officer sees; a musician who gets the src
      placeholder on the members or inventory tab gets the root page without its officer
      controls, and elsewhere both variants show the same. */
  lemma VariantsCompared(tab: P.Tab, isAdmin: bool)
    ensures isAdmin ==> RootViewOf(tab, isAdmin) == P.ViewOf(tab, isAdmin)
    ensures !isAdmin && (tab == P.Members || tab == P.Inventory) ==>
              P.ViewOf(tab, isAdmin) == P.Restricted && RootViewOf(tab, isAdmin) == P.Page(tab, false)
    ensures !isAdmin && tab != P.Members && tab != P.Inventory ==> RootViewOf(tab, isAdmin) == P.ViewOf(tab, isAdmin)
    ensures !RootViewOf(tab, isAdmin).Restricted?
  {
  }

  /** The sign-in screen, or the signed-in layout with its main area and the roll-call
      dialog when one is open. */
  datatype Screen = SignIn | Main(view: P.View, dialog: Option<BandEvent>)

  function Render(user: Option<R.Member>, tab: P.Tab, dialog: Option<BandEvent>): Screen
  {
    if user.None? then SignIn else Main(RootViewOf(tab, IsAdmin(user)), dialog)
  }

  /** The tabs the sidebar lists: the root navItems is not filtered. */
  function Sidebar(user: Option<R.Member>): seq<P.Tab>
  {
    if user.None? then [] else P.AllTabs
  }

  /** Signed in, every role sees every tab and never the placeholder; the officer
      controls show exactly for non-musicians on the calendar, members and inventory tabs. */
  lemma RenderByRole(user: Option<R.Member>, tab: P.Tab, dialog: Option<BandEvent>)
    ensures Render(user, tab, dialog).SignIn? <==> user.None?
    ensures user.Some? ==> Sidebar(user) == P.AllTabs
    ensures user.Some? ==> Render(user, tab, dialog).view.Page? && Render(user, tab, dialog).view.tab == tab
    ensures user.Some? ==>
              (Render(user, tab, dialog).view.adminControls <==>
               user.value.role != Musico && (tab == P.Calendar || tab == P.Members || tab == P.Inventory))
  {
    IsAdminIffOfficer(user);
  }

  /** The roll-call roster line of a root member; its voice label is the root spelling. */
  function AttendeeOf(m: R.Member): Attendee
  {
    Attendee(m.id, m.name, m.surname, R.InstrumentLabel(m.instrument))
  }

  /** The roster the root page hands to the roll-call dialog: its MOCK_MEMBERS, one line each. */
  const SeedRoster: seq<Attendee> := Lines(RootConstants.MockMembers, AttendeeOf)

  /** The spreadsheet row of the i-th root member: 'Músico' is the name, one space and
      the surname; 'Instrumento' the root voice label; 'Estado' the recorded status, or
      'Pendiente' when the member has no entry. */
  lemma ExportRowOfMember(members: seq<R.Member>, attendance: map<string, AttendanceStatus>, i: int)
    requires 0 <= i < |members|
    ensures var rows := ExportRows(Lines(members, AttendeeOf), attendance);
            |rows| == |members| &&
            rows[i].musician == members[i].name + " " + members[i].surname &&
            rows[i].instrument == R.InstrumentLabel(members[i].instrument) &&
            rows[i].status == (if members[i].id in attendance then attendance[members[i].id] else Pendiente)
  {
    LinesAt(members, AttendeeOf, i);
  }

  /** Exporting the root rehearsal straight away reads 'Asistió', 'Pendiente' and
      'Falta Justificada': María's explicit 'Pendiente' and a missing entry export alike. */
  lemma SeedRehearsalExport()
    ensures Statuses(ExportRows(Lines(RootConstants.MockMembers, AttendeeOf), RootConstants.MockEvents[0].attendance))
            == [Asistio, Pendiente, FaltaJustificada]
  {
    var rows := ExportRows(Lines(RootConstants.MockMembers, AttendeeOf), RootConstants.MockEvents[0].attendance);
    assert RootConstants.MockMembers[0].id == "1";
    assert RootConstants.MockMembers[1].id == "2";
    assert RootConstants.MockMembers[2].id == "3";
    assert rows[0].status == Asistio;
    assert rows[1].status == Pendiente;
    assert rows[2].status == FaltaJustificada;
  }

  /** Exporting the root concert straight away reads 'Pendiente' for all three members. */
  lemma SeedConcertExport()
    ensures Statuses(ExportRows(Lines(RootConstants.MockMembers, AttendeeOf), RootConstants.MockEvents[1].attendance))
            == [Pendiente, Pendiente, Pendiente]
  {
    var roster := Lines(RootConstants.MockMembers, AttendeeOf);
    RootConstants.MockEventsFacts();
    UnmarkedEventAllPending(roster, 0);
    UnmarkedEventAllPending(roster, 1);
    UnmarkedEventAllPending(roster, 2);
  }

  /** The state of the root App component. */
  class App {
    var currentUser: Option<R.Member>
    var activeTab: P.Tab
    var rollCallEvent: Option<BandEvent>
    /** MOCK_EVENTS, the events the calendar lists. */
    const calendar: seq<BandEvent>
    /** MOCK_MEMBERS as the roll-call dialog's roster. */
    const roster: seq<Attendee>
    /** The mounted roll-call dialog, if any: the sign-in screen is returned early, so the
        dialog is mounted exactly while someone is signed in and a roll call is open. */
    var dialog: AttendanceModal?

    /** A roll call is open on one of the calendar's events, and the mounted dialog shows
        that event over the seed roster. */
    ghost predicate Valid()
      reads this, dialog
    {
      (rollCallEvent.Some? ==> rollCallEvent.value in calendar) &&
      (dialog != null <==> currentUser.Some? && rollCallEvent.Some?) &&
      (dialog != null ==> rollCallEvent == Some(dialog.event) && dialog.members == roster)
    }

    /** The roll call is open only while an officer is signed in, as the officer-only
        'Pasar Lista' buttons intend. */
    ghost predicate RollCallOnlyForOfficers()
      reads this
    {
      rollCallEvent.Some? ==> IsAdmin(currentUser)
    }

    function CurrentScreen(): Screen
      reads this
    {
      Render(currentUser, activeTab, rollCallEvent)
    }

    /** Nobody is signed in at first; nothing is restored from storage. */
    constructor ()
      ensures Valid() && RollCallOnlyForOfficers()
      ensures calendar == RootConstants.MockEvents && roster == SeedRoster
      ensures currentUser.None? && activeTab == P.Feed && rollCallEvent.None? && dialog == null
      ensures CurrentScreen() == SignIn
    {
      calendar := RootConstants.MockEvents;
      roster := SeedRoster;
      currentUser := None;
      activeTab := P.Feed;
      rollCallEvent := None;
      dialog := null;
    }

    /** 'Entrar como Administrador': the first seed member, a Director. A roll call left
        open mounts its dialog again on a fresh copy of the event's attendance. */
    method EnterAsAdministrator()
      requires Valid() && CurrentScreen() == SignIn
      modifies this`currentUser, this`dialog
      ensures Valid() && RollCallOnlyForOfficers()
      ensures currentUser == Some(RootConstants.MockMembers[0]) && IsAdmin(currentUser)
      ensures CurrentScreen() == Main(RootViewOf(activeTab, true), rollCallEvent)
      ensures rollCallEvent.Some? ==> fresh(dialog) && dialog.attendance == rollCallEvent.value.attendance
    {
      currentUser := Some(RootConstants.MockMembers[0]);
      RootConstants.MockMembersFacts();
      if rollCallEvent.Some? {
        dialog := new AttendanceModal(rollCallEvent.value, roster);
      }
    }

    /** 'Entrar como Músico': the third seed member, a Músico, who sees no officer
        controls. A roll call left open mounts its dialog again. */
    method EnterAsMusician()
      requires Valid() && CurrentScreen() == SignIn
      modifies this`currentUser, this`dialog
      ensures Valid() && currentUser == Some(RootConstants.MockMembers[2]) && !IsAdmin(currentUser)
      ensures CurrentScreen() == Main(P.Page(activeTab, false), rollCallEvent)
      ensures rollCallEvent.Some? ==> fresh(dialog) && dialog.attendance == rollCallEvent.value.attendance
      ensures old(RollCallOnlyForOfficers()) ==> RollCallOnlyForOfficers() && dialog == null
    {
      currentUser := Some(RootConstants.MockMembers[2]);
      RootConstants.MockMembersFacts();
      if rollCallEvent.Some? {
        dialog := new AttendanceModal(rollCallEvent.value, roster);
      }
    }

    /** 'Cerrar Sesión': back to the sign-in screen. The dialog unmounts with the page,
        losing its working copy, but the open roll call is kept. */
    method Logout()
      requires Valid() && CurrentScreen().Main?
      modifies this`currentUser, this`dialog
      ensures Valid() && currentUser.None? && dialog == null && CurrentScreen() == SignIn
      ensures rollCallEvent == old(rollCallEvent)
    {
      currentUser := None;
      dialog := null;
    }

    /** The logout the officer-only roll call evidently needs: as Logout, and the open
        roll call is dropped too. */
    method LogoutClosingDialog()
      requires Valid() && CurrentScreen().Main?
      modifies this`currentUser, this`dialog, this`rollCallEvent
      ensures Valid() && RollCallOnlyForOfficers()
      ensures currentUser.None? && dialog == null && rollCallEvent.None? && CurrentScreen() == SignIn
    {
      currentUser := None;
      dialog := null;
      rollCallEvent := None;
    }

    /** A sidebar button: any of the eight tabs, for any role. An open dialog stays open
        with its working copy. */
    method SelectTab(tab: P.Tab)
      requires Valid() && CurrentScreen().Main?
      modifies this`activeTab
      ensures Valid() && activeTab == tab
      ensures CurrentScreen().view == P.Page(tab, IsAdmin(currentUser) && tab in [P.Calendar, P.Members, P.Inventory])
    {
      activeTab := tab;
    }

    /** 'Pasar Lista' on a calendar entry (officers only). With no dialog mounted, the
        dialog mounts on a fresh working copy of the event's attendance over the root seed
        roster. With the dialog mounted (the button stays reachable from the keyboard
        behind the overlay), the dialog takes the new event and keeps its working copy. */
    method OpenRollCall(e: BandEvent)
      requires Valid() && CurrentScreen().Main?
      requires activeTab == P.Calendar && CurrentScreen().view.adminControls
      requires e in calendar
      modifies this`rollCallEvent, this`dialog, dialog
      ensures Valid() && RollCallOnlyForOfficers()
      ensures rollCallEvent == Some(e) && CurrentScreen().dialog == Some(e)
      ensures dialog != null && dialog.event == e
      ensures old(dialog) == null ==> fresh(dialog) && dialog.attendance == e.attendance
      ensures old(dialog) != null ==> dialog == old(dialog) && dialog.attendance == old(dialog.attendance)
    {
      assert IsAdmin(currentUser);
      rollCallEvent := Some(e);
      if dialog == null {
        dialog := new AttendanceModal(e, roster);
      } else {
        dialog.event := e;
      }
    }

    /** The dialog's close button: the roll call closes and the working copy is dropped. */
    method CloseRollCall()
      requires Valid() && dialog != null
      modifies this`rollCallEvent, this`dialog
      ensures Valid() && rollCallEvent.None? && dialog == null && CurrentScreen().dialog.None?
    {
      rollCallEvent := None;
      dialog := null;
    }

    /** 'Guardar y Exportar Excel': the spreadsheet rows of the root seed roster under the
        dialog's working copy, then the roll call closes. */
    method SaveRollCall() returns (rows: seq<ExportRow>)
      requires Valid() && dialog != null
      modifies this`rollCallEvent, this`dialog
      ensures Valid() && rollCallEvent.None? && dialog == null
      ensures rows == ExportRows(roster, old(dialog.attendance))
    {
      rows := dialog.SaveAndExport();
      rollCallEvent := None;
      dialog := null;
    }
  }

  /** The administrator signed in, the calendar shown and the root rehearsal's roll call
      open. */
  method AdministratorWithRollCallOpen() returns (app: App)
    ensures fresh(app) && app.Valid() && app.CurrentScreen().Main? && app.activeTab == P.Calendar
    ensures app.calendar == RootConstants.MockEvents && app.roster == SeedRoster
    ensures IsAdmin(app.currentUser) && app.CurrentScreen().view.adminControls
    ensures app.dialog != null && fresh(app.dialog)
    ensures app.dialog.event == RootConstants.MockEvents[0]
    ensures app.dialog.attendance == RootConstants.MockEvents[0].attendance
  {
    app := new App();
    app.EnterAsAdministrator();
    app.SelectTab(P.Calendar);
    app.OpenRollCall(RootConstants.MockEvents[0]);
  }

  /** As written: the administrator signs out with the roll call open and the musician
      signs in; the dialog mounts again, with its marking and export buttons, for a Músico. */
  method MusicianInheritsRollCall() returns (app: App)
    ensures app.Valid() && app.currentUser == Some(RootConstants.MockMembers[2])
    ensures app.currentUser.value.role == Musico
    ensures app.dialog != null && app.dialog.event == RootConstants.MockEvents[0]
    ensures !app.RollCallOnlyForOfficers()
  {
    app := AdministratorWithRollCallOpen();
    app.Logout();
    app.EnterAsMusician();
    RootConstants.MockMembersFacts();
  }

  /** Corrected: the same steps with LogoutClosingDialog leave the musician without a
      roll call. */
  method MusicianAfterClosingLogout() returns (app: App)
    ensures app.Valid() && app.currentUser == Some(RootConstants.MockMembers[2])
    ensures app.currentUser.value.role == Musico
    ensures app.dialog == null && app.rollCallEvent.None? && app.RollCallOnlyForOfficers()
  {
    app := AdministratorWithRollCallOpen();
    app.LogoutClosingDialog();
    app.EnterAsMusician();
    RootConstants.MockMembersFacts();
  }

  /** 'Pasar Lista' on the concert while the rehearsal's dialog is open: the dialog is
      titled with the concert, yet "save and export" writes the rehearsal's statuses. */
  method SecondEventKeepsFirstRecord() returns (title: string, rows: seq<ExportRow>)
    ensures title == RootConstants.MockEvents[1].title
    ensures Statuses(rows) == [Asistio, Pendiente, FaltaJustificada]
  {
    var app := AdministratorWithRollCallOpen();
    app.OpenRollCall(RootConstants.MockEvents[1]);
    title := app.dialog.event.title;
    rows := app.SaveRollCall();
    SeedRehearsalExport();
  }
}
