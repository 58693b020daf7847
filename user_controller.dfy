/** `getLeaderboard` of controllers/userController.js: request parameters
    with their defaults, the choice of the metric, and the aggregation
    `$project`, `$sort` (descending), `$skip`, `$limit` over the user
    collection, with the page count from `countDocuments`. */
module UserController {
  import opened Wrappers
  import opened UserModel
  import opened Sorting

  /** The query string. A numeric parameter is `None` when it is missing or
      `parseInt` gives `NaN`; `metrica` is `None` when it is missing. */
  datatype Consulta = Consulta(page: Option<int>, limit: Option<int>, metrica: Option<string>)

  /** `parseInt(x) || omissao`: the default replaces `NaN` and `0`, and
      every other value, negative ones included, is kept. */
  function ParametroNumerico(v: Option<int>, omissao: int): (r: int)
    ensures v.None? || v == Some(0) ==> r == omissao
    ensures v.Some? && v.value != 0 ==> r == v.value
    ensures omissao != 0 ==> r != 0
  {
    if v.None? || v.value == 0 then omissao else v.value
  }

  /** `req.query.metrica || 'ideias'` */
  function Metrica(m: Option<string>): (r: string)
    ensures m.None? || m == Some("") ==> r == "ideias"
    ensures m.Some? && m.value != "" ==> r == m.value
  {
    if m.None? || m.value == "" then "ideias" else m.value
  }

  /** The two sort fields of the `switch`. */
  datatype Campo = IdeiasContribuidas | SessoesParticipadas

  function CampoDe(metrica: string): (r: Option<Campo>)
    ensures r == Some(IdeiasContribuidas) <==> metrica == "ideias"
    ensures r == Some(SessoesParticipadas) <==> metrica == "sessoes"
    ensures r.None? <==> metrica != "ideias" && metrica != "sessoes"
  {
    if metrica == "ideias" then Some(IdeiasContribuidas)
    else if metrica == "sessoes" then Some(SessoesParticipadas)
    else None
  }

  function ValorMetrica(u: User, c: Campo): int {
    match c
    case IdeiasContribuidas => u.metricas.ideiasContribuidas
    case SessoesParticipadas => u.metricas.sessoesParticipadas
  }

  /** The sort key of the chosen field. */
  function Chave(c: Campo): User -> int {
    (u: User) => ValorMetrica(u, c)
  }

  /** One document after `$project`. */
  datatype Linha = Linha(id: UserId, nick: string, metricas: Metricas, valorMetrica: int)

  function Projecao(c: Campo): User -> Linha {
    (u: User) => Linha(u.id, u.nick, u.metricas, ValorMetrica(u, c))
  }

  function IdLinha(l: Linha): UserId { l.id }

  function IdUser(u: User): UserId { u.id }

  /** The reply: 200 with the page, 400 for an unknown metric, 500 when the
      aggregation is refused. */
  datatype Resposta =
    | Pagina(dados: seq<Linha>, paginaAtual: int, totalPaginas: int, metrica: string)
    | MetricaInvalida
    | ErroServidor

  /** `Math.ceil(n / d)` for a positive `d`: the least number of pages of
      `d` items that hold `n` items. */
  function CeilDiv(n: nat, d: int): (q: nat)
    requires d > 0
    ensures q * d >= n
    ensures q > 0 ==> (q - 1) * d < n
    ensures n == 0 <==> q == 0
  {
    var q := (n + d - 1) / d;
    var r := (n + d - 1) % d;
    assert n + d - 1 == q * d + r && 0 <= r < d;
    assert (q - 1) * d == q * d - d;
    q
  }

  function Min(a: int, b: int): int { if a < b then a else b }

  /** `$skip: inicio` then `$limit: tamanho`. */
  function Fatia<T>(s: seq<T>, inicio: nat, tamanho: nat): seq<T>
  {
    s[Min(inicio, |s|)..Min(inicio + tamanho, |s|)]
  }

  /** The `$skip` of page `page`: the `(page - 1) * limit` rows of the pages
      before it. */
  function Salto(page: nat, limit: nat): nat
    requires page >= 1
  {
    if page == 1 then 0 else Salto(page - 1, limit) + limit
  }

  lemma {:induction false} SaltoProduto(page: nat, limit: nat)
    requires page >= 1
    ensures Salto(page, limit) == (page - 1) * limit
  {
    if page > 1 {
      SaltoProduto(page - 1, limit);
    }
  }

  /** `getLeaderboard`. An unknown metric is answered with 400 before any
      query; a page below 1 makes `$skip` negative and a negative limit is
      not a valid `$limit`, and Mongo refuses both (500). */
  function Leaderboard(users: seq<User>, q: Consulta): (r: Resposta)
    ensures CampoDe(Metrica(q.metrica)).None? ==> r == MetricaInvalida
    ensures r.Pagina? <==>
      CampoDe(Metrica(q.metrica)).Some? && ParametroNumerico(q.page, 1) >= 1 && ParametroNumerico(q.limit, 20) >= 1
    ensures CampoDe(Metrica(q.metrica)).Some? && !r.Pagina? ==> r == ErroServidor
    ensures r.Pagina? ==>
      var page, limit := ParametroNumerico(q.page, 1), ParametroNumerico(q.limit, 20);
      var c := CampoDe(Metrica(q.metrica)).value;
      && r.paginaAtual == page && r.metrica == Metrica(q.metrica)
      && r.totalPaginas == CeilDiv(|users|, limit)
      && |r.dados| <= limit
      && r.dados == Project(Fatia(SortDesc(users, Chave(c)), Salto(page, limit), limit), Projecao(c))
  {
    var page := ParametroNumerico(q.page, 1);
    var limit := ParametroNumerico(q.limit, 20);
    var metrica := Metrica(q.metrica);
    match CampoDe(metrica)
    case None => MetricaInvalida
    case Some(c) =>
      if limit < 1 || page < 1 then ErroServidor
      else
        var ordenados := SortDesc(users, Chave(c));
        Pagina(Project(Fatia(ordenados, Salto(page, limit), limit), Projecao(c)), page, CeilDiv(|users|, limit), metrica)
  }

  /** A page lists its users by non-increasing value of the chosen metric,
      and each row's `valorMetrica` is that metric of the row's user. */
  lemma LeaderboardOrdenado(users: seq<User>, q: Consulta)
    requires Leaderboard(users, q).Pagina?
    ensures var d := Leaderboard(users, q).dados;
      forall i, j :: 0 <= i < j < |d| ==> d[i].valorMetrica >= d[j].valorMetrica
  {
    var c := CampoDe(Metrica(q.metrica)).value;
    var page, limit := ParametroNumerico(q.page, 1), ParametroNumerico(q.limit, 20);
    var o := SortDesc(users, Chave(c));
    SortDescSorted(users, Chave(c));
    var inicio := Salto(page, limit);
    var f := Fatia(o, inicio, limit);
    var d := Leaderboard(users, q).dados;
    assert d == Project(f, Projecao(c));
    forall i, j | 0 <= i < j < |d| ensures d[i].valorMetrica >= d[j].valorMetrica {
      assert inicio < |o|;
      assert f[i] == o[inicio + i] && f[j] == o[inicio + j];
      assert d[i].valorMetrica == Chave(c)(f[i]) && d[j].valorMetrica == Chave(c)(f[j]);
    }
  }

  /** Pages 1..k of `limit` items, one after the other. */
  function Paginas<T>(rows: seq<T>, limit: nat, k: nat): seq<T> {
    if k == 0 then [] else Paginas(rows, limit, k - 1) + Fatia(rows, Salto(k, limit), limit)
  }

  lemma {:induction false} PaginasPrefixo<T>(rows: seq<T>, limit: nat, k: nat)
    ensures Paginas(rows, limit, k) == rows[..Min(Salto(k + 1, limit), |rows|)]
  {
    if k > 0 {
      PaginasPrefixo(rows, limit, k - 1);
    }
  }

  /** The rows of one page request with valid parameters: the projection of
      the page's slice of the sorted collection. */
  lemma PaginaK(users: seq<User>, metrica: string, limit: int, k: nat)
    requires CampoDe(metrica).Some? && limit >= 1 && k >= 1
    ensures var c := CampoDe(metrica).value;
      Leaderboard(users, Consulta(Some(k), Some(limit), Some(metrica))).dados ==
        Project(Fatia(SortDesc(users, Chave(c)), Salto(k, limit), limit), Projecao(c))
  {
    var q := Consulta(Some(k), Some(limit), Some(metrica));
    assert ParametroNumerico(q.page, 1) == k && ParametroNumerico(q.limit, 20) == limit;
    assert Metrica(q.metrica) == metrica;
  }

  /** The pages of `limit` rows, up to the page count, laid end to end are
      the whole sorted collection. */
  lemma PaginasCobrem<T>(rows: seq<T>, limit: int)
    requires limit >= 1
    ensures Paginas(rows, limit, CeilDiv(|rows|, limit)) == rows
  {
    var total := CeilDiv(|rows|, limit);
    SaltoProduto(total + 1, limit);
    PaginasPrefixo(rows, limit, total);
    assert rows[..|rows|] == rows;
  }

  /** The rows of the sorted collection carry every user's id exactly as
      often as the collection does. */
  lemma LinhasSaoUsers(users: seq<User>, c: Campo)
    ensures multiset(Project(Project(SortDesc(users, Chave(c)), Projecao(c)), IdLinha)) == multiset(Project(users, IdUser))
  {
    var o := SortDesc(users, Chave(c));
    SortDescProject(users, Chave(c), IdUser);
    assert Project(Project(o, Projecao(c)), IdLinha) == Project(o, IdUser);
  }

  /** Pages 1..totalPaginas, requested one by one, together list the whole
      sorted collection: every request answers with its page's slice, and
      the slices laid end to end are the sorted users, each exactly once. */
  lemma TodasAsPaginas(users: seq<User>, metrica: string, limit: int)
    requires CampoDe(metrica).Some? && limit >= 1
    ensures var c := CampoDe(metrica).value;
      var o := SortDesc(users, Chave(c));
      var total := Leaderboard(users, Consulta(Some(1), Some(limit), Some(metrica))).totalPaginas;
      && (forall k :: 1 <= k <= total ==>
            Leaderboard(users, Consulta(Some(k), Some(limit), Some(metrica))).dados ==
              Project(Fatia(o, Salto(k, limit), limit), Projecao(c)))
      && Paginas(o, limit, total) == o
      && multiset(Project(Project(Paginas(o, limit, total), Projecao(c)), IdLinha)) == multiset(Project(users, IdUser))
  {
    var c := CampoDe(metrica).value;
    var total := CeilDiv(|users|, limit);
    assert Leaderboard(users, Consulta(Some(1), Some(limit), Some(metrica))).totalPaginas == total;
    forall k | 1 <= k <= total
      ensures Leaderboard(users, Consulta(Some(k), Some(limit), Some(metrica))).dados ==
        Project(Fatia(SortDesc(users, Chave(c)), Salto(k, limit), limit), Projecao(c))
    {
      PaginaK(users, metrica, limit, k);
    }
    PaginasCobrem(SortDesc(users, Chave(c)), limit);
    LinhasSaoUsers(users, c);
  }
}
