/** The part of the user record (models/user.js) that the session
    lifecycle and the leaderboard read and write: the three metric
    counters, which start at 0, and the list of sessions taken part in. */
module UserModel {

  type UserId = nat
  type SessionId = nat

  datatype Metricas = Metricas(sessoesCriadas: int, ideiasContribuidas: int, sessoesParticipadas: int)

  const MetricasIniciais: Metricas := Metricas(0, 0, 0)

  datatype User = User(
    id: UserId,
    nome: string,
    nick: string,
    metricas: Metricas,
    sessoesParticipadas: seq<SessionId>)

  /** `participante.nick || participante.nome`: the name shown in messages. */
  function NomeVisivel(u: User): string {
    if u.nick != "" then u.nick else u.nome
  }
}
