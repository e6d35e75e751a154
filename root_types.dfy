/** The older root variant of the types (types.ts). It shares UserRole,
    AttendanceStatus, BandEvent and InventoryItem with the src variant; it differs in an
    eight-voice InstrumentType and a Member without a password field. */
module RootTypes {
  import opened Sequences
  import B = BandTypes

  datatype Instrument =
    | Trompeta1 | Trompeta2 | Trompeta3 | Trombon | Bombardino | Tuba | Corneta | Bateria

  function InstrumentLabel(v: Instrument): string
  {
    match v
    case Trompeta1 => "Trompeta 1ª"
    case Trompeta2 => "Trompeta 2ª"
    case Trompeta3 => "Trompeta 3ª"
    case Trombon => "Trombón"
    case Bombardino => "Bombardino"
    case Tuba => "Tuba"
    case Corneta => "Corneta"
    case Bateria => "Bateria"
  }

  const AllInstruments: seq<Instrument> :=
    [Trompeta1, Trompeta2, Trompeta3, Trombon, Bombardino, Tuba, Corneta, Bateria]

  /** The root InstrumentType is a closed set of eight distinctly spelled values. */
  lemma InstrumentsClosed()
    ensures |AllInstruments| == 8 && Distinct(AllInstruments)
    ensures forall v: Instrument :: v in AllInstruments
    ensures forall i, j :: 0 <= i < j < |AllInstruments| ==>
              InstrumentLabel(AllInstruments[i]) != InstrumentLabel(AllInstruments[j])
  {
    forall v: Instrument ensures v in AllInstruments {
      match v
      case Trompeta1 => assert AllInstruments[0] == v;
      case Trompeta2 => assert AllInstruments[1] == v;
      case Trompeta3 => assert AllInstruments[2] == v;
      case Trombon => assert AllInstruments[3] == v;
      case Bombardino => assert AllInstruments[4] == v;
      case Tuba => assert AllInstruments[5] == v;
      case Corneta => assert AllInstruments[6] == v;
      case Bateria => assert AllInstruments[7] == v;
    }
  }

  /** Only the three trumpet voices and the tuba are spelled as in the src variant;
      'Trombón', 'Bombardino', 'Corneta' and 'Bateria' are not src voice names. */
  lemma SharedSpellings(v: Instrument)
    ensures (exists w: B.Instrument :: B.InstrumentLabel(w) == InstrumentLabel(v))
            <==> v in [Trompeta1, Trompeta2, Trompeta3, Tuba]
  {
    match v
    case Trompeta1 => assert B.InstrumentLabel(B.Trompeta1) == InstrumentLabel(v);
    case Trompeta2 => assert B.InstrumentLabel(B.Trompeta2) == InstrumentLabel(v);
    case Trompeta3 => assert B.InstrumentLabel(B.Trompeta3) == InstrumentLabel(v);
    case Tuba => assert B.InstrumentLabel(B.Tuba) == InstrumentLabel(v);
    case Trombon =>
    case Bombardino =>
    case Corneta =>
    case Bateria =>
  }

  /** A band member of the root variant: no password field. */
  datatype Member = Member(
    id: string,
    name: string,
    surname: string,
    role: B.UserRole,
    instrument: Instrument,
    email: string,
    phone: B.Option<string>,
    dni: B.Option<string>,
    birthDate: B.Option<string>,
    joinDate: string,
    attendanceRate: real)
}
