/** The fixed data of the root variant (constants.ts). */
module RootConstants {
  import opened Sequences
  import opened BandTypes
  import R = RootTypes
  import BandConstants

  const AdminRoles: seq<UserRole> :=
    [Presidente, Director, DirectorMusical, EncargadoVoz, Tesorero, Secretario]

  /** The root ADMIN_ROLES is the same list as the src one: the six officer roles. */
  lemma AdminRolesAgree()
    ensures AdminRoles == BandConstants.AdminRoles
    ensures forall r: UserRole :: r in AdminRoles <==> r != Musico
  {
    BandConstants.AdminRolesAreOfficers();
  }

  const MockMembers: seq<R.Member> := [
    R.Member("1", "Juan", "Pérez", Director, R.Trompeta1, "admin@cena.com",
             Some("+34 600 000 001"), Some("12345678A"), None, "2010-05-15", 95.0),
    R.Member("2", "María", "García", EncargadoVoz, R.Trombon, "maria@gmail.com",
             Some("+34 600 000 002"), None, None, "2018-09-20", 88.0),
    R.Member("3", "Carlos", "Ruiz", Musico, R.Bateria, "carlos@gmail.com",
             None, None, None, "2021-02-10", 75.0)
  ]

  /** The seed members have distinct ids; the first (behind the administrator button) is
      Director, an officer, the third (behind the musician button) is Músico. */
  lemma MockMembersFacts()
    ensures |MockMembers| == 3
    ensures Distinct(seq(|MockMembers|, i requires 0 <= i < |MockMembers| => MockMembers[i].id))
    ensures MockMembers[0].role == Director && MockMembers[0].role in AdminRoles
    ensures MockMembers[2].role == Musico && MockMembers[2].role !in AdminRoles
    ensures forall i :: 0 <= i < |MockMembers| ==> MockMembers[i].instrument in R.AllInstruments
  {
    R.InstrumentsClosed();
  }

  const MockEvents: seq<BandEvent> := [
    BandEvent("e1", "Ensayo Semanal", Ensayo, "2024-05-24T19:00:00", "Sede de la Banda",
              Some("Repertorio nuevo."), map["1" := Asistio, "2" := Pendiente, "3" := FaltaJustificada]),
    BandEvent("e2", "Concierto de Primavera", Actuacion, "2024-06-02T12:00:00", "Plaza Mayor",
              None, map[])
  ]

  /** Event e1 marks every seed member, member '2' explicitly as 'Pendiente'; e2 marks nobody. */
  lemma MockEventsFacts()
    ensures MockEvents[0].attendance.Keys == set i | 0 <= i < |MockMembers| :: MockMembers[i].id
    ensures MockEvents[0].attendance["2"] == Pendiente
    ensures MockEvents[1].attendance == map[]
  {
    var ids := set i | 0 <= i < |MockMembers| :: MockMembers[i].id;
    assert MockMembers[0].id == "1" && MockMembers[1].id == "2" && MockMembers[2].id == "3";
    assert {"1", "2", "3"} <= ids;
    forall id | id in ids ensures id in {"1", "2", "3"} {
      var i :| 0 <= i < |MockMembers| && MockMembers[i].id == id;
    }
  }
}
