/** The roll-call dialog (AttendanceModal) shared word for word by both variants of the
    intranet: a working copy of an event's attendance record, three marking buttons per
    roster line, and the spreadsheet rows written on "save and export". */
module RollCall {
  import opened BandTypes
  import opened Sequences

  /** What the dialog reads of a member: the key of its attendance entry, the name shown
      and the voice label shown. */
  datatype Attendee = Attendee(id: string, name: string, surname: string, instrument: string)

  /** One spreadsheet row: the 'Músico', 'Instrumento' and 'Estado' columns. */
  datatype ExportRow = ExportRow(musician: string, instrument: string, status: AttendanceStatus)

  /** The three buttons of each roster line; there is no button for 'Pendiente'. */
  const MarkButtons: seq<AttendanceStatus> := [Asistio, FaltaJustificada, FaltaInjustificada]

  lemma MarkButtonsNeverPending()
    ensures |MarkButtons| == 3 && Distinct(MarkButtons)
    ensures forall s: AttendanceStatus :: s in MarkButtons <==> s != Pendiente
  {
    forall s: AttendanceStatus ensures s in MarkButtons <==> s != Pendiente {
      match s
      case Asistio => assert MarkButtons[0] == s;
      case FaltaJustificada => assert MarkButtons[1] == s;
      case FaltaInjustificada => assert MarkButtons[2] == s;
      case Pendiente =>
    }
  }

  /** Some roster line belongs to the member with this id. */
  predicate OnRoster(members: seq<Attendee>, id: string)
  {
    exists i :: 0 <= i < |members| && members[i].id == id
  }

  /** The dialog's roster built from a member list, one line per member in list order. */
  function Lines<M>(members: seq<M>, lineOf: M -> Attendee): seq<Attendee>
  {
    seq(|members|, i requires 0 <= i < |members| => lineOf(members[i]))
  }

  /** Line i of the roster is the line of member i. */
  lemma LinesAt<M>(members: seq<M>, lineOf: M -> Attendee, i: int)
    requires 0 <= i < |members|
    ensures |Lines(members, lineOf)| == |members| && Lines(members, lineOf)[i] == lineOf(members[i])
  {
  }

  /** A member list and the roster built from it hold the same ids. */
  lemma LinesOnRoster<M>(members: seq<M>, lineOf: M -> Attendee, id: string)
    ensures OnRoster(Lines(members, lineOf), id) <==> exists i :: 0 <= i < |members| && lineOf(members[i]).id == id
  {
    var r := Lines(members, lineOf);
    if i :| 0 <= i < |members| && lineOf(members[i]).id == id {
      LinesAt(members, lineOf, i);
      assert r[i].id == id;
    }
    if OnRoster(r, id) {
      var i :| 0 <= i < |r| && r[i].id == id;
      LinesAt(members, lineOf, i);
    }
  }

  /** The 'Músico' column: name and surname separated by one space. */
  function FullName(a: Attendee): string
  {
    a.name + " " + a.surname
  }

  /** The 'Estado' column: the recorded status, or 'Pendiente' when none is recorded. */
  function StatusOf(attendance: map<string, AttendanceStatus>, id: string): AttendanceStatus
  {
    if id in attendance then attendance[id] else Pendiente
  }

  /** A row reads 'Pendiente' exactly when nothing, or 'Pendiente' itself, is recorded. */
  lemma PendingExactlyWhenUnmarked(attendance: map<string, AttendanceStatus>, id: string)
    ensures StatusOf(attendance, id) == Pendiente <==> id !in attendance || attendance[id] == Pendiente
    ensures StatusOf(attendance, id) != Pendiente ==> attendance[id] == StatusOf(attendance, id)
  {
  }

  /** The rows written by "save and export": one per roster line. */
  function ExportRows(members: seq<Attendee>, attendance: map<string, AttendanceStatus>): (rows: seq<ExportRow>)
    ensures |rows| == |members|
  {
    seq(|members|, i requires 0 <= i < |members| =>
      ExportRow(FullName(members[i]), members[i].instrument, StatusOf(attendance, members[i].id)))
  }

  /** Row i describes roster line i: its name, its voice, and its recorded status or
      'Pendiente'; the export neither drops, adds nor reorders members. */
  lemma ExportRowsDescribeRoster(members: seq<Attendee>, attendance: map<string, AttendanceStatus>, i: int)
    requires 0 <= i < |members|
    ensures |ExportRows(members, attendance)| == |members|
    ensures ExportRows(members, attendance)[i].musician == FullName(members[i])
    ensures ExportRows(members, attendance)[i].instrument == members[i].instrument
    ensures ExportRows(members, attendance)[i].status == Pendiente <==>
              members[i].id !in attendance || attendance[members[i].id] == Pendiente
    ensures ExportRows(members, attendance)[i].status != Pendiente ==>
              ExportRows(members, attendance)[i].status == attendance[members[i].id]
  {
  }

  /** Marking one member changes the status column of that member's lines only. */
  lemma ExportRowsAfterMark(members: seq<Attendee>, attendance: map<string, AttendanceStatus>,
                            id: string, status: AttendanceStatus, i: int)
    requires 0 <= i < |members|
    ensures var before := ExportRows(members, attendance);
            var after := ExportRows(members, attendance[id := status]);
            after[i].musician == before[i].musician &&
            after[i].instrument == before[i].instrument &&
            after[i].status == (if members[i].id == id then status else before[i].status)
  {
  }

  /** Entries for ids outside the roster never reach the spreadsheet. */
  lemma ExportIgnoresStrangers(members: seq<Attendee>, attendance: map<string, AttendanceStatus>,
                               id: string, status: AttendanceStatus)
    requires !OnRoster(members, id)
    ensures ExportRows(members, attendance[id := status]) == ExportRows(members, attendance)
  {
    var after := ExportRows(members, attendance[id := status]);
    var before := ExportRows(members, attendance);
    forall i | 0 <= i < |members| ensures after[i] == before[i] {
      assert members[i].id != id;
    }
  }

  /** The status column of an export. */
  function Statuses(rows: seq<ExportRow>): seq<AttendanceStatus>
  {
    seq(|rows|, i requires 0 <= i < |rows| => rows[i].status)
  }

  /** An event with no recorded attendance exports 'Pendiente' for every member. */
  lemma UnmarkedEventAllPending(members: seq<Attendee>, i: int)
    requires 0 <= i < |members|
    ensures Statuses(ExportRows(members, map[]))[i] == Pendiente
  {
  }

  /** A fresh roll call over three distinct members: mark the first present and the
      second absent without excuse, leave the third alone; the export reads
      'Asistió', 'Falta Injustificada', 'Pendiente'. */
  lemma ThreeMemberRollCall(members: seq<Attendee>)
    requires |members| == 3
    requires members[0].id != members[1].id && members[0].id != members[2].id && members[1].id != members[2].id
    ensures Statuses(ExportRows(members, map[][members[0].id := Asistio][members[1].id := FaltaInjustificada]))
            == [Asistio, FaltaInjustificada, Pendiente]
  {
  }

  /** Marking a member with the status already recorded for them changes nothing, so
      pressing the same button twice exports what pressing it once does. */
  lemma RemarkChangesNothing(members: seq<Attendee>, attendance: map<string, AttendanceStatus>,
                             id: string, status: AttendanceStatus)
    ensures id in attendance && attendance[id] == status ==> attendance[id := status] == attendance
    ensures ExportRows(members, attendance[id := status][id := status]) == ExportRows(members, attendance[id := status])
  {
  }

  /** The mounted dialog. Its event is a prop: when the page passes another event to the
      mounted dialog, the title changes and the working copy stays. */
  class AttendanceModal {
    var event: BandEvent
    const members: seq<Attendee>
    /** The working copy of the attendance record, keyed by member id. */
    var attendance: map<string, AttendanceStatus>

    /** Mounting the dialog copies the event's recorded attendance. */
    constructor (event: BandEvent, members: seq<Attendee>)
      ensures this.event == event && this.members == members
      ensures attendance == event.attendance
    {
      this.event := event;
      this.members := members;
      attendance := event.attendance;
    }

    /** A button is highlighted when the member's recorded status is that button's. */
    predicate Highlighted(memberId: string, status: AttendanceStatus)
      reads this
    {
      memberId in attendance && attendance[memberId] == status
    }

    /** Pressing one of a roster line's three buttons records that status for that
        member, leaves every other entry alone, and highlights exactly that button. */
    method Mark(memberId: string, status: AttendanceStatus)
      requires OnRoster(members, memberId)
      requires status in MarkButtons
      modifies this`attendance
      ensures attendance == old(attendance)[memberId := status]
      ensures attendance.Keys == old(attendance).Keys + {memberId}
      ensures forall t :: Highlighted(memberId, t) <==> t == status
      ensures StatusOf(attendance, memberId) != Pendiente
      ensures old(Highlighted(memberId, status)) ==> attendance == old(attendance)
    {
      attendance := attendance[memberId := status];
      MarkButtonsNeverPending();
    }

    /** "Save and export": the rows of the roster under the current working copy. */
    method SaveAndExport() returns (rows: seq<ExportRow>)
      ensures |rows| == |members|
      ensures forall i :: 0 <= i < |members| ==>
                rows[i].musician == FullName(members[i]) &&
                rows[i].instrument == members[i].instrument &&
                rows[i].status == StatusOf(attendance, members[i].id)
    {
      rows := ExportRows(members, attendance);
    }
  }
}
