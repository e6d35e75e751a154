/** The fixed data of the intranet (src/constants.ts): the officer roles, the voice
    list and the seed members, scores and events. */
module BandConstants {
  import opened Sequences
  import opened BandTypes

  /** The roles that grant access to the restricted views. */
  const AdminRoles: seq<UserRole> :=
    [Presidente, Director, DirectorMusical, EncargadoVoz, Tesorero, Secretario]

  /** ADMIN_ROLES is exactly the six officer roles: every role except Músico. */
  lemma AdminRolesAreOfficers()
    ensures |AdminRoles| == 6 && Distinct(AdminRoles)
    ensures forall r: UserRole :: r in AdminRoles <==> r != Musico
  {
    forall r: UserRole ensures r in AdminRoles <==> r != Musico {
      match r
      case Presidente => assert AdminRoles[0] == r;
      case Director => assert AdminRoles[1] == r;
      case DirectorMusical => assert AdminRoles[2] == r;
      case EncargadoVoz => assert AdminRoles[3] == r;
      case Tesorero => assert AdminRoles[4] == r;
      case Secretario => assert AdminRoles[5] == r;
      case Musico =>
    }
  }

  /** The voices offered by the score directory, the member sections and the registration form. */
  const InstrumentVoices: seq<Instrument> :=
    [Trompeta1, Trompeta2, Trompeta3, Trombon1, Trombon2,
     Bombardino1, Bombardino2, Tuba, Cornetas, Bateria]

  /** INSTRUMENT_VOICES lists ten pairwise-distinct voices, which are all the values of InstrumentType. */
  lemma InstrumentVoicesExact()
    ensures |InstrumentVoices| == 10 && Distinct(InstrumentVoices)
    ensures forall v: Instrument :: v in InstrumentVoices
  {
    forall v: Instrument ensures v in InstrumentVoices {
      match v
      case Trompeta1 => assert InstrumentVoices[0] == v;
      case Trompeta2 => assert InstrumentVoices[1] == v;
      case Trompeta3 => assert InstrumentVoices[2] == v;
      case Trombon1 => assert InstrumentVoices[3] == v;
      case Trombon2 => assert InstrumentVoices[4] == v;
      case Bombardino1 => assert InstrumentVoices[5] == v;
      case Bombardino2 => assert InstrumentVoices[6] == v;
      case Tuba => assert InstrumentVoices[7] == v;
      case Cornetas => assert InstrumentVoices[8] == v;
      case Bateria => assert InstrumentVoices[9] == v;
    }
  }

  const MockMembers: seq<Member> := [
    Member("1", "Juan", "Pérez", Director, Trompeta1, "admin@cena.com",
           None, Some("+34 600 000 001"), Some("12345678A"), None, "2010-05-15", 95.0),
    Member("2", "María", "García", EncargadoVoz, Trombon1, "maria@gmail.com",
           None, Some("+34 600 000 002"), None, None, "2018-09-20", 88.0),
    Member("3", "Carlos", "Ruiz", Musico, Bateria, "carlos@gmail.com",
           None, None, None, None, "2021-02-10", 75.0)
  ]

  /** The ids of a member list. */
  function MemberIds(members: seq<Member>): set<string>
  {
    set i | 0 <= i < |members| :: members[i].id
  }

  /** The seed members have the distinct ids '1', '2', '3'; the first (the demo admin)
      is Director, an officer role, and the third is Músico. */
  lemma MockMembersFacts()
    ensures |MockMembers| == 3
    ensures MockMembers[0].id == "1" && MockMembers[1].id == "2" && MockMembers[2].id == "3"
    ensures Distinct(seq(|MockMembers|, i requires 0 <= i < |MockMembers| => MockMembers[i].id))
    ensures MockMembers[0].role == Director && MockMembers[0].role in AdminRoles
    ensures MockMembers[2].role == Musico && MockMembers[2].role !in AdminRoles
  {
  }

  /** The first sample member, the demo administrator, is the director. */
  lemma DemoAdminIsDirector()
    ensures |MockMembers| > 0 && MockMembers[0].role == Director && MockMembers[0].role in AdminRoles
  {
  }

  const MockScores: seq<Score> := [
    Score("s1", "Oh Bendita Cena", "Semana Santa", Some("José Manuel Mena Hervás"), Trompeta1,
          Some("https://drive.google.com/"), Some("https://www.dropbox.com/")),
    Score("s2", "Oh Bendita Cena", "Semana Santa", Some("José Manuel Mena Hervás"), Trombon1,
          Some("https://drive.google.com/"), None),
    Score("s3", "La Misión", "Conciertos", Some("Ennio Morricone"), Tuba,
          None, Some("https://www.dropbox.com/")),
    Score("s4", "Al Compás de tu Cena", "Semana Santa", Some("F. Javier González Ríos"), Cornetas,
          Some("https://drive.google.com/"), None)
  ]

  /** Every seed score belongs to one of the listed voices. */
  lemma MockScoreVoicesListed()
    ensures forall i :: 0 <= i < |MockScores| ==> MockScores[i].voice in InstrumentVoices
  {
    InstrumentVoicesExact();
  }

  const MockEvents: seq<BandEvent> := [
    BandEvent("e1", "Ensayo Semanal", Ensayo, "2024-05-24T19:00:00", "Sede de la Banda",
              Some("Repertorio nuevo."), map["1" := Asistio])
  ]

  /** Every attendance key of the seed event is the id of a seed member. */
  lemma MockEventKeysAreMembers()
    ensures forall e :: e in MockEvents ==> e.attendance.Keys <= MemberIds(MockMembers)
  {
    assert MockMembers[0].id == "1";
    assert "1" in MemberIds(MockMembers);
  }
}
