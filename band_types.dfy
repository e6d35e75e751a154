/** The records and closed enumerations of the intranet (src/types.ts). The root
    types.ts declares UserRole, AttendanceStatus, BandEvent and InventoryItem with the
    same values and fields; the root-variant modules import them from here. */
module BandTypes {
  import opened Sequences

  datatype Option<+T> = None | Some(value: T)

  /** The band offices; the six officer roles and the base musician rank. */
  datatype UserRole =
    | Presidente | Director | DirectorMusical | EncargadoVoz | Tesorero | Secretario | Musico

  /** The string each role is declared with. */
  function RoleName(r: UserRole): string
  {
    match r
    case Presidente => "Presidente"
    case Director => "Director"
    case DirectorMusical => "Director Musical"
    case EncargadoVoz => "Encargado de Voz"
    case Tesorero => "Tesorero"
    case Secretario => "Secretario"
    case Musico => "Músico"
  }

  const AllRoles: seq<UserRole> :=
    [Presidente, Director, DirectorMusical, EncargadoVoz, Tesorero, Secretario, Musico]

  /** UserRole is a closed set of exactly seven distinctly named values. */
  lemma RolesClosed()
    ensures |AllRoles| == 7 && Distinct(AllRoles)
    ensures forall r: UserRole :: r in AllRoles
    ensures forall i, j :: 0 <= i < j < |AllRoles| ==> RoleName(AllRoles[i]) != RoleName(AllRoles[j])
  {
    forall r: UserRole ensures r in AllRoles {
      match r
      case Presidente => assert AllRoles[0] == r;
      case Director => assert AllRoles[1] == r;
      case DirectorMusical => assert AllRoles[2] == r;
      case EncargadoVoz => assert AllRoles[3] == r;
      case Tesorero => assert AllRoles[4] == r;
      case Secretario => assert AllRoles[5] == r;
      case Musico => assert AllRoles[6] == r;
    }
  }

  /** The voices (instrument sections) of the band. */
  datatype Instrument =
    | Trompeta1 | Trompeta2 | Trompeta3 | Trombon1 | Trombon2
    | Bombardino1 | Bombardino2 | Tuba | Cornetas | Bateria

  function InstrumentLabel(v: Instrument): string
  {
    match v
    case Trompeta1 => "Trompeta 1ª"
    case Trompeta2 => "Trompeta 2ª"
    case Trompeta3 => "Trompeta 3ª"
    case Trombon1 => "Trombón 1º"
    case Trombon2 => "Trombón 2º"
    case Bombardino1 => "Bombardino 1º"
    case Bombardino2 => "Bombardino 2º"
    case Tuba => "Tuba"
    case Cornetas => "Cornetas"
    case Bateria => "Batería"
  }

  /** Distinct voices are spelled differently, so a label names one voice. */
  lemma InstrumentLabelInjective(a: Instrument, b: Instrument)
    requires InstrumentLabel(a) == InstrumentLabel(b)
    ensures a == b
  {
  }

  datatype AttendanceStatus = Asistio | FaltaJustificada | FaltaInjustificada | Pendiente

  function StatusLabel(s: AttendanceStatus): string
  {
    match s
    case Asistio => "Asistió"
    case FaltaJustificada => "Falta Justificada"
    case FaltaInjustificada => "Falta Injustificada"
    case Pendiente => "Pendiente"
  }

  const AllStatuses: seq<AttendanceStatus> := [Asistio, FaltaJustificada, FaltaInjustificada, Pendiente]

  /** AttendanceStatus is a closed set of four distinctly named values, 'Pendiente' among them. */
  lemma StatusesClosed()
    ensures |AllStatuses| == 4 && Distinct(AllStatuses) && Pendiente in AllStatuses
    ensures forall s: AttendanceStatus :: s in AllStatuses
    ensures forall i, j :: 0 <= i < j < |AllStatuses| ==> StatusLabel(AllStatuses[i]) != StatusLabel(AllStatuses[j])
  {
    forall s: AttendanceStatus ensures s in AllStatuses {
      match s
      case Asistio => assert AllStatuses[0] == s;
      case FaltaJustificada => assert AllStatuses[1] == s;
      case FaltaInjustificada => assert AllStatuses[2] == s;
      case Pendiente => assert AllStatuses[3] == s;
    }
  }

  /** A band member. password, phone, dni and birthDate are optional; the rest is required. */
  datatype Member = Member(
    id: string,
    name: string,
    surname: string,
    role: UserRole,
    instrument: Instrument,
    email: string,
    password: Option<string>,
    phone: Option<string>,
    dni: Option<string>,
    birthDate: Option<string>,
    joinDate: string,
    attendanceRate: real)

  datatype EventKind = Ensayo | Actuacion | Reunion

  /** A calendar entry; attendance maps member ids to statuses. */
  datatype BandEvent = BandEvent(
    id: string,
    title: string,
    kind: EventKind,
    date: string,
    location: string,
    description: Option<string>,
    attendance: map<string, AttendanceStatus>)

  datatype InventoryKind = Instrumento | Uniforme | Accesorio

  datatype InventoryStatus = BuenEstado | Reparacion | Extraviado

  const AllInventoryStatuses: seq<InventoryStatus> := [BuenEstado, Reparacion, Extraviado]

  /** InventoryItem.status is a closed set of three values. */
  lemma InventoryStatusesClosed()
    ensures |AllInventoryStatuses| == 3 && Distinct(AllInventoryStatuses)
    ensures forall s: InventoryStatus :: s in AllInventoryStatuses
  {
    forall s: InventoryStatus ensures s in AllInventoryStatuses {
      match s
      case BuenEstado => assert AllInventoryStatuses[0] == s;
      case Reparacion => assert AllInventoryStatuses[1] == s;
      case Extraviado => assert AllInventoryStatuses[2] == s;
    }
  }

  datatype InventoryItem = InventoryItem(
    id: string,
    name: string,
    kind: InventoryKind,
    serialNumber: Option<string>,
    assignedTo: Option<string>,
    status: InventoryStatus,
    lastReview: Option<string>)

  /** An entry of the sheet-music directory; author and the two links are optional. */
  datatype Score = Score(
    id: string,
    title: string,
    category: string,
    author: Option<string>,
    voice: Instrument,
    driveLink: Option<string>,
    dropboxLink: Option<string>)
}
