/** The HTTP lifecycle of controllers/sessaoController.js against an
    in-memory record store. The pure part (the code check and the level
    normalisation of `criarSessao`, and one function per handler saying what
    the loaded document becomes) comes first; the class `Store` then runs
    each handler step by step: load a copy of the document, check, mutate
    the copy, `save`, broadcast. */
module SessaoController {
  import opened Wrappers
  import opened Strings
  import opened UserModel
  import opened SessaoModel
  import opened Erros

  // ---------------------------------------------------------------------
  // criarSessao

  /** The request body of the creation form. `None` is a field the body does
      not carry; inside `niveis`, `None` is an entry `parseInt` reads as NaN. */
  datatype PedidoCriacao = PedidoCriacao(
    tema: Option<string>,
    codigoSala: Option<string>,
    salaProtegida: Option<string>,
    senhaSala: Option<string>,
    niveis: Option<seq<Option<int>>>)

  /** The code check at the top of `criarSessao`: `codigoSala?.match(...)`. */
  predicate CodigoAceite(codigo: Option<string>) {
    codigo.Some? && CodigoSalaValido(codigo.value)
  }

  /** `Math.min(Math.max(v, 5), 300)`: `v` clamped into the level bounds. */
  function Limitar(v: int): (r: int)
    ensures MinSegundos <= r <= MaxSegundos
    ensures MinSegundos <= v <= MaxSegundos ==> r == v
    ensures v < MinSegundos ==> r == MinSegundos
    ensures v > MaxSegundos ==> r == MaxSegundos
  {
    var m := if v > MinSegundos then v else MinSegundos;
    if m < MaxSegundos then m else MaxSegundos
  }

  /** `niveis.map((segundos, index) => ({ordem: index + 1, segundos: ...}))`:
      one level per input, numbered from 1 in input order with its seconds
      clamped, which always makes a configuration the schema accepts. */
  function NormalizarNiveis(segundos: seq<int>): (r: seq<Nivel>)
    ensures |r| == |segundos|
    ensures forall i :: 0 <= i < |r| ==> r[i].ordem == i + 1 && r[i].segundos == Limitar(segundos[i])
    ensures ConfiguracaoValida(r)
  {
    var r := seq(|segundos|, i requires 0 <= i < |segundos| => Nivel(i + 1, Limitar(segundos[i])));
    OrdensUnicasSeDistintas(r);
    r
  }

  predicate TodosNumeros(v: seq<Option<int>>) {
    forall i :: 0 <= i < |v| ==> v[i].Some?
  }

  function Numeros(v: seq<Option<int>>): (r: seq<int>)
    requires TodosNumeros(v)
    ensures |r| == |v| && forall i :: 0 <= i < |v| ==> r[i] == v[i].value
  {
    seq(|v|, i requires 0 <= i < |v| => v[i].value)
  }

  /** The document `criarSessao` builds and saves for `host`, or the error it
      reports. A code not matching the pattern is refused before anything
      else; a created session has the host as its only participant, the
      default status, levels numbered 1..n, and a password only when the
      protection flag is `'on'`. */
  function Criar(id: SessionId, host: UserId, p: PedidoCriacao): (r: Result<Sessao, Erro>)
    ensures !CodigoAceite(p.codigoSala) ==> r == Err(CodigoInvalido)
    ensures CodigoAceite(p.codigoSala) && p.niveis.None? ==> r == Err(FalhaCriacao)
    ensures r.Ok? <==>
      && CodigoAceite(p.codigoSala) && p.niveis.Some? && TodosNumeros(p.niveis.value)
      && p.tema.Some? && TemaValido(Trim(p.tema.value))
      && SenhaValida(p.salaProtegida == Some("on"), p.senhaSala)
    ensures r.Err? && r != Err(CodigoInvalido) && r != Err(FalhaCriacao) ==> r == Err(FalhaValidacao)
    ensures r.Ok? ==> SessaoValida(r.value)
    ensures r.Ok? ==> r.value.id == id && r.value.host == host && r.value.participantes == [host]
    ensures r.Ok? ==> r.value.status == StatusPorOmissao && r.value.ideias == [] && r.value.historicoAcoes == []
    ensures r.Ok? ==> r.value.codigoSala == p.codigoSala.value && r.value.tema == Trim(p.tema.value)
    ensures r.Ok? ==> r.value.salaProtegida == (p.salaProtegida == Some("on"))
    ensures r.Ok? ==> r.value.senhaSala == if p.salaProtegida == Some("on") then p.senhaSala else None
    ensures r.Ok? ==> |r.value.configuracaoNiveis| == |p.niveis.value|
    ensures r.Ok? ==> forall i :: 0 <= i < |p.niveis.value| ==>
      r.value.configuracaoNiveis[i] == Nivel(i + 1, Limitar(p.niveis.value[i].value))
  {
    if !CodigoAceite(p.codigoSala) then Err(CodigoInvalido)
    else if p.niveis.None? then Err(FalhaCriacao)
    else
      var protegida := p.salaProtegida == Some("on");
      var senha := if protegida then p.senhaSala else None;
      var codigo := Trim(ToUpper(p.codigoSala.value));
      CodigoValidoNormalizado(p.codigoSala.value);
      if !TodosNumeros(p.niveis.value) then Err(FalhaValidacao)
      else if p.tema.None? || !TemaValido(Trim(p.tema.value)) then Err(FalhaValidacao)
      else if !SenhaValida(protegida, senha) then Err(FalhaValidacao)
      else
        var s := Sessao(id, Trim(p.tema.value), codigo, host, [host], [],
                        NormalizarNiveis(Numeros(p.niveis.value)), StatusPorOmissao,
                        protegida, senha, []);
        assert SessaoValida(s);
        Ok(s)
  }

  // ---------------------------------------------------------------------
  // entrarSessao and participarSessao

  /** `entrarSessao` on the session found by its code: refused once
      concluded (members included) and on a wrong password for a protected
      room; a member leaves the document as it is; anyone else is appended
      unless the list already holds 50. */
  function Entrar(s: Sessao, ator: UserId, senha: Option<string>): (r: Result<Sessao, Erro>)
    ensures s.status == Concluida ==> r == Err(SessaoJaConcluida)
    ensures s.status != Concluida && s.salaProtegida && s.senhaSala != senha ==> r == Err(SenhaIncorreta)
    ensures r == Err(LimiteAtingido) <==>
      s.status != Concluida && !(s.salaProtegida && s.senhaSala != senha)
      && ator !in s.participantes && |s.participantes| >= MaxParticipantes
    ensures r.Ok? <==>
      s.status != Concluida && !(s.salaProtegida && s.senhaSala != senha)
      && (ator in s.participantes || |s.participantes| < MaxParticipantes)
    ensures r.Ok? && ator in s.participantes ==> r.value == s
    ensures r.Ok? && ator !in s.participantes ==> r.value == s.(participantes := s.participantes + [ator])
  {
    if s.status == Concluida then Err(SessaoJaConcluida)
    else if s.salaProtegida && s.senhaSala != senha then Err(SenhaIncorreta)
    else if ator !in s.participantes then
      if |s.participantes| >= MaxParticipantes then Err(LimiteAtingido)
      else Ok(s.(participantes := s.participantes + [ator]))
    else Ok(s)
  }

  /** `participarSessao` on the session found by its id: a non-member who is
      not the host is appended unless the session is concluded (then
      refused) or the list already holds 50; members and the host leave the
      document as it is. There is no password check on this path. */
  function Participar(s: Sessao, ator: UserId): (r: Result<Sessao, Erro>)
    ensures r == Err(SessaoJaConcluida) <==>
      s.status == Concluida && ator !in s.participantes && ator != s.host
    ensures r == Err(LimiteAtingido) <==>
      s.status != Concluida && ator !in s.participantes && ator != s.host
      && |s.participantes| >= MaxParticipantes
    ensures r.Err? ==> r == Err(SessaoJaConcluida) || r == Err(LimiteAtingido)
    ensures r.Ok? && (ator in s.participantes || ator == s.host) ==> r.value == s
    ensures r.Ok? && ator !in s.participantes && ator != s.host ==>
      r.value == s.(participantes := s.participantes + [ator])
  {
    var isHost := ator == s.host;
    var isParticipante := ator in s.participantes;
    if !isParticipante && !isHost && s.status != Concluida then
      if |s.participantes| >= MaxParticipantes then Err(LimiteAtingido)
      else Ok(s.(participantes := s.participantes + [ator]))
    else if s.status == Concluida && !isParticipante && !isHost then Err(SessaoJaConcluida)
    else Ok(s)
  }

  /** How many times `x` occurs in `xs`. */
  function Ocorrencias<T(==)>(xs: seq<T>, x: T): nat {
    if xs == [] then 0
    else Ocorrencias(xs[..|xs| - 1], x) + (if xs[|xs| - 1] == x then 1 else 0)
  }

  lemma {:induction false} OcorrenciasAcrescentar<T>(xs: seq<T>, y: T, x: T)
    ensures Ocorrencias(xs + [y], x) == Ocorrencias(xs, x) + (if y == x then 1 else 0)
  {
    assert (xs + [y])[..|xs|] == xs;
  }

  lemma {:induction false} OcorrenciasPositivas<T>(xs: seq<T>, x: T)
    ensures Ocorrencias(xs, x) > 0 <==> x in xs
  {
    if xs != [] {
      var p := xs[..|xs| - 1];
      assert xs == p + [xs[|xs| - 1]];
      OcorrenciasPositivas(p, x);
    }
  }

  /** Both join paths keep the 50-participant cap: a document that passed
      validation still passes it after a successful join. */
  lemma EntradaPreservaValidade(s: Sessao, ator: UserId, senha: Option<string>)
    requires SessaoValida(s)
    ensures Entrar(s, ator, senha).Ok? ==> SessaoValida(Entrar(s, ator, senha).value)
    ensures Participar(s, ator).Ok? ==> SessaoValida(Participar(s, ator).value)
  {
  }

  /** After a successful join the user is in the list exactly once if they
      were not before, and as often as before otherwise: the append happens
      at most once. */
  lemma EntradaUmaVez(s: Sessao, ator: UserId, senha: Option<string>)
    ensures Entrar(s, ator, senha).Ok? ==>
      Ocorrencias(Entrar(s, ator, senha).value.participantes, ator) ==
        if ator in s.participantes then Ocorrencias(s.participantes, ator) else 1
  {
    OcorrenciasPositivas(s.participantes, ator);
    OcorrenciasAcrescentar(s.participantes, ator, ator);
  }

  /** Joining twice is joining once, on either path. */
  lemma EntradaIdempotente(s: Sessao, ator: UserId, senha: Option<string>)
    ensures Entrar(s, ator, senha).Ok? ==>
      Entrar(Entrar(s, ator, senha).value, ator, senha) == Entrar(s, ator, senha)
    ensures Participar(s, ator).Ok? ==>
      Participar(Participar(s, ator).value, ator) == Participar(s, ator)
  {
  }

  // ---------------------------------------------------------------------
  // iniciarSessao, pausarSessao, concluirSessao

  /** `iniciarSessao` (HTTP): only the host, and only from waiting or
      paused; the document becomes active and nothing else changes. */
  function Iniciar(s: Sessao, ator: UserId): (r: Result<Sessao, Erro>)
    ensures ator != s.host ==> r == Err(ApenasHost)
    ensures ator == s.host && s.status != AguardandoInicio && s.status != Pausada ==> r == Err(EstadoNaoPermite)
    ensures r.Ok? <==> ator == s.host && (s.status == AguardandoInicio || s.status == Pausada)
    ensures r.Ok? ==> r.value == s.(status := Ativa)
  {
    if s.host != ator then Err(ApenasHost)
    else if s.status != AguardandoInicio && s.status != Pausada then Err(EstadoNaoPermite)
    else Ok(s.(status := Ativa))
  }

  /** `configuracaoNiveis[0]?.segundos || 60`: the first level's seconds,
      or 60 when there is no level (or its seconds are 0, which a valid
      configuration never holds). */
  function TempoInicial(niveis: seq<Nivel>): (t: int)
    ensures |niveis| > 0 && niveis[0].segundos != 0 ==> t == niveis[0].segundos
    ensures |niveis| == 0 ==> t == 60
    ensures ConfiguracaoValida(niveis) && |niveis| > 0 ==> t == niveis[0].segundos
  {
    if |niveis| > 0 && niveis[0].segundos != 0 then niveis[0].segundos else 60
  }

  /** The history entry `pausarSessao` appends. */
  function AcaoPausa(ator: UserId, agora: int): Acao {
    Acao(Pausa, ator, agora, "Sessão pausada pelo host")
  }

  /** `pausarSessao` (HTTP): only the host, and only when active; the
      document becomes paused and its history grows by one `pausa` entry. */
  function Pausar(s: Sessao, ator: UserId, agora: int): (r: Result<Sessao, Erro>)
    ensures ator != s.host ==> r == Err(ApenasHost)
    ensures ator == s.host && s.status != Ativa ==> r == Err(EstadoNaoPermite)
    ensures r.Ok? <==> ator == s.host && s.status == Ativa
    ensures r.Ok? ==> r.value == s.(status := Pausada, historicoAcoes := s.historicoAcoes + [AcaoPausa(ator, agora)])
  {
    if s.host != ator then Err(ApenasHost)
    else if s.status != Ativa then Err(EstadoNaoPermite)
    else Ok(s.(status := Pausada, historicoAcoes := s.historicoAcoes + [AcaoPausa(ator, agora)]))
  }

  /** Pausing and starting again returns to the active state with one more
      history entry; starting an active session and pausing a paused one are
      both refused. */
  lemma CicloPausa(s: Sessao, agora: int)
    requires s.status == Ativa
    ensures Pausar(s, s.host, agora).Ok?
    ensures Iniciar(Pausar(s, s.host, agora).value, s.host) ==
      Ok(s.(historicoAcoes := s.historicoAcoes + [AcaoPausa(s.host, agora)]))
    ensures Iniciar(s, s.host) == Err(EstadoNaoPermite)
    ensures Pausar(Pausar(s, s.host, agora).value, s.host, agora) == Err(EstadoNaoPermite)
  {
  }

  /** `concluirSessao` (HTTP) on the document: only the host; there is no
      status check, so an already concluded session is concluded again. */
  function Concluir(s: Sessao, ator: UserId): (r: Result<Sessao, Erro>)
    ensures r.Ok? <==> ator == s.host
    ensures r.Err? ==> r == Err(ApenasHost)
    ensures r.Ok? ==> r.value == s.(status := Concluida)
  {
    if s.host != ator then Err(ApenasHost) else Ok(s.(status := Concluida))
  }

  /** `$addToSet`: `x` appended unless already present. */
  function AdicionarAoConjunto(xs: seq<SessionId>, x: SessionId): seq<SessionId> {
    if x in xs then xs else xs + [x]
  }

  /** The `updateMany` of `concluirSessao` on one participant's record. */
  function Participou(u: User, id: SessionId): User {
    u.(sessoesParticipadas := AdicionarAoConjunto(u.sessoesParticipadas, id),
       metricas := u.metricas.(sessoesParticipadas := u.metricas.sessoesParticipadas + 1))
  }

  /** The `findByIdAndUpdate` of `concluirSessao` on the host's record. */
  function Criou(u: User): User {
    u.(metricas := u.metricas.(sessoesCriadas := u.metricas.sessoesCriadas + 1))
  }

  /** The two user updates of `concluirSessao`. Only existing records are
      touched and none is created; every participant's counter goes up by
      exactly one (a participant listed twice is still one matched
      document), the session is added to their list at most once, and the
      host's created-count goes up by one. */
  function AtualizarMetricas(users: map<UserId, User>, s: Sessao): (r: map<UserId, User>)
    ensures r.Keys == users.Keys
    ensures forall u :: u in users ==>
      r[u].metricas.sessoesParticipadas ==
        users[u].metricas.sessoesParticipadas + (if u in s.participantes then 1 else 0)
    ensures forall u :: u in users ==>
      r[u].metricas.sessoesCriadas == users[u].metricas.sessoesCriadas + (if u == s.host then 1 else 0)
    ensures forall u :: u in users ==>
      r[u].metricas.ideiasContribuidas == users[u].metricas.ideiasContribuidas
    ensures forall u :: u in users ==>
      r[u].sessoesParticipadas ==
        if u in s.participantes then AdicionarAoConjunto(users[u].sessoesParticipadas, s.id)
        else users[u].sessoesParticipadas
    ensures forall u :: u in users ==>
      (forall x :: x in r[u].sessoesParticipadas <==>
        x in users[u].sessoesParticipadas || (u in s.participantes && x == s.id))
    ensures forall u :: u in users ==>
      r[u].(metricas := users[u].metricas, sessoesParticipadas := users[u].sessoesParticipadas) == users[u]
    ensures forall u :: u in users && u !in s.participantes && u != s.host ==> r[u] == users[u]
  {
    var depois := map u | u in users :: if u in s.participantes then Participou(users[u], s.id) else users[u];
    if s.host in depois then
      var r := depois[s.host := Criou(depois[s.host])];
      assert forall u :: u in users ==> r[u] == if u == s.host then Criou(depois[u]) else depois[u];
      r
    else depois
  }

  /** After a conclusion the concluded session occurs exactly once in the
      list of each participant: the set-insert never duplicates it. */
  lemma {:induction false} ConclusaoUmaVezNaLista(users: map<UserId, User>, s: Sessao, u: UserId)
    requires u in users && u in s.participantes
    requires Ocorrencias(users[u].sessoesParticipadas, s.id) <= 1
    ensures Ocorrencias(AtualizarMetricas(users, s)[u].sessoesParticipadas, s.id) == 1
  {
    var xs := users[u].sessoesParticipadas;
    var ys := AtualizarMetricas(users, s)[u].sessoesParticipadas;
    assert ys == AdicionarAoConjunto(xs, s.id);
    OcorrenciasPositivas(xs, s.id);
    if s.id !in xs {
      OcorrenciasAcrescentar(xs, s.id, s.id);
    }
  }

  /** Concluding twice, which nothing prevents, counts the session twice in
      every participant's and the host's counters, while the lists are the
      same as after one conclusion. */
  lemma ConclusaoRepetida(users: map<UserId, User>, s: Sessao)
    ensures var uma := AtualizarMetricas(users, s);
            var duas := AtualizarMetricas(uma, s);
            forall u :: u in users ==>
              && duas[u].metricas.sessoesParticipadas ==
                   users[u].metricas.sessoesParticipadas + (if u in s.participantes then 2 else 0)
              && duas[u].metricas.sessoesCriadas ==
                   users[u].metricas.sessoesCriadas + (if u == s.host then 2 else 0)
              && duas[u].sessoesParticipadas == uma[u].sessoesParticipadas
  {
  }

  // ---------------------------------------------------------------------
  // expulsarParticipante

  /** `participantes.filter(p => !p.equals(x))` */
  function Remover(xs: seq<UserId>, x: UserId): (r: seq<UserId>)
    ensures x !in r
    ensures forall y :: y != x ==> (y in r <==> y in xs)
    ensures |r| == |xs| - Ocorrencias(xs, x)
    ensures x !in xs ==> r == xs
  {
    if xs == [] then []
    else
      var p := xs[..|xs| - 1];
      assert xs == p + [xs[|xs| - 1]];
      OcorrenciasPositivas(p, x);
      Remover(p, x) + (if xs[|xs| - 1] == x then [] else [xs[|xs| - 1]])
  }

  /** The filter keeps the order of the others: removing from a list laid
      out as two parts is removing from each part. */
  lemma {:induction false} RemoverConcatenado(a: seq<UserId>, b: seq<UserId>, x: UserId)
    ensures Remover(a + b, x) == Remover(a, x) + Remover(b, x)
  {
    if b == [] {
      assert a + b == a;
    } else {
      var b' := b[..|b| - 1];
      assert (a + b)[..|a + b| - 1] == a + b';
      assert (a + b)[|a + b| - 1] == b[|b| - 1];
      RemoverConcatenado(a, b', x);
    }
  }

  /** The history entry an expulsion appends. */
  function AcaoExpulsao(ator: UserId, alvo: User, agora: int): Acao {
    Acao(Expulsao, ator, agora, "Participante " + NomeVisivel(alvo) + " expulso da sessão")
  }

  /** `expulsarParticipante` on the document (shared by the HTTP and the
      socket handler): only the host may expel, the target must be a known
      user and not the host; then every occurrence of the target is removed
      and one `expulsao` entry is appended to the history. A known user who
      is not a participant is "expelled" too, leaving the list as it is. */
  function Expulsar(s: Sessao, ator: UserId, alvo: UserId, users: map<UserId, User>, agora: int): (r: Result<Sessao, Erro>)
    ensures ator != s.host ==> r == Err(ApenasHost)
    ensures ator == s.host && alvo !in users ==> r == Err(ParticipanteNaoEncontrado)
    ensures ator == s.host && alvo in users && alvo == s.host ==> r == Err(HostNaoExpulsavel)
    ensures r.Ok? <==> ator == s.host && alvo in users && alvo != s.host
    ensures r.Ok? ==> r.value == s.(participantes := Remover(s.participantes, alvo),
                                   historicoAcoes := s.historicoAcoes + [AcaoExpulsao(ator, users[alvo], agora)])
  {
    if s.host != ator then Err(ApenasHost)
    else if alvo !in users then Err(ParticipanteNaoEncontrado)
    else if alvo == s.host then Err(HostNaoExpulsavel)
    else Ok(s.(participantes := Remover(s.participantes, alvo),
               historicoAcoes := s.historicoAcoes + [AcaoExpulsao(ator, users[alvo], agora)]))
  }

  /** An expulsion keeps the document valid and keeps the host in the list
      if it was there. */
  lemma ExpulsaoPreservaValidade(s: Sessao, ator: UserId, alvo: UserId, users: map<UserId, User>, agora: int)
    requires SessaoValida(s)
    ensures Expulsar(s, ator, alvo, users, agora).Ok? ==>
      SessaoValida(Expulsar(s, ator, alvo, users, agora).value)
      && (s.host in s.participantes ==> s.host in Expulsar(s, ator, alvo, users, agora).value.participantes)
  {
  }

  // ---------------------------------------------------------------------
  // submeterPalavras

  /** The ideas `submeterPalavras` pushes: one per submitted word whose
      trimmed text is not empty, in submission order, each by `autor` at time
      `agora`. */
  function IdeiasNaoVazias(palavras: seq<string>, autor: UserId, agora: int): (r: seq<Ideia>)
    ensures |r| <= |palavras|
    ensures forall i :: 0 <= i < |r| ==>
      r[i].autor == autor && r[i].timestamp == agora && !Blank(r[i].texto) && r[i].texto in palavras
  {
    if palavras == [] then []
    else
      var p, w := palavras[..|palavras| - 1], palavras[|palavras| - 1];
      assert palavras == p + [w];
      IdeiasNaoVazias(p, autor, agora) + (if |Trim(w)| > 0 then [Ideia(w, autor, agora)] else [])
  }

  /** When no submitted word is blank, every word becomes an idea, in order. */
  lemma {:induction false} IdeiasSemBrancos(palavras: seq<string>, autor: UserId, agora: int)
    requires forall i :: 0 <= i < |palavras| ==> !Blank(palavras[i])
    ensures |IdeiasNaoVazias(palavras, autor, agora)| == |palavras|
    ensures forall i :: 0 <= i < |palavras| ==> IdeiasNaoVazias(palavras, autor, agora)[i].texto == palavras[i]
  {
    if palavras != [] {
      var p, w := palavras[..|palavras| - 1], palavras[|palavras| - 1];
      IdeiasSemBrancos(p, autor, agora);
      assert |Trim(w)| > 0;
      var q := IdeiasNaoVazias(p, autor, agora);
      assert IdeiasNaoVazias(palavras, autor, agora) == q + [Ideia(w, autor, agora)];
      forall i | 0 <= i < |palavras|
        ensures IdeiasNaoVazias(palavras, autor, agora)[i].texto == palavras[i]
      {
        if i < |p| {
          assert palavras[i] == p[i];
        }
      }
    }
  }

  /** When every submitted word is blank, no idea is pushed. */
  lemma {:induction false} IdeiasSoBrancos(palavras: seq<string>, autor: UserId, agora: int)
    requires forall i :: 0 <= i < |palavras| ==> Blank(palavras[i])
    ensures IdeiasNaoVazias(palavras, autor, agora) == []
  {
    if palavras != [] {
      var p := palavras[..|palavras| - 1];
      IdeiasSoBrancos(p, autor, agora);
    }
  }

  /** Words submitted in two batches give the ideas of the first batch
      followed by those of the second. */
  lemma {:induction false} IdeiasConcatenadas(a: seq<string>, b: seq<string>, autor: UserId, agora: int)
    ensures IdeiasNaoVazias(a + b, autor, agora) == IdeiasNaoVazias(a, autor, agora) + IdeiasNaoVazias(b, autor, agora)
  {
    if b == [] {
      assert a + b == a;
    } else {
      var b' := b[..|b| - 1];
      assert (a + b)[..|a + b| - 1] == a + b';
      assert (a + b)[|a + b| - 1] == b[|b| - 1];
      IdeiasConcatenadas(a, b', autor, agora);
    }
  }

  /** `submeterPalavras` on the document: refused for a non-participant and
      for a session that is not active; otherwise the non-blank words are
      appended as ideas and the reply counts every submitted word, blank
      ones included. */
  function Submeter(s: Sessao, ator: UserId, palavras: seq<string>, agora: int): (r: Result<(Sessao, nat), Erro>)
    ensures ator !in s.participantes ==> r == Err(NaoParticipante)
    ensures ator in s.participantes && s.status != Ativa ==> r == Err(SessaoNaoAtiva)
    ensures r.Ok? <==> ator in s.participantes && s.status == Ativa
    ensures r.Ok? ==> r.value.1 == |palavras| && |r.value.0.ideias| <= |s.ideias| + r.value.1
    ensures r.Ok? ==> r.value.0 == s.(ideias := s.ideias + IdeiasNaoVazias(palavras, ator, agora))
  {
    if ator !in s.participantes then Err(NaoParticipante)
    else if s.status != Ativa then Err(SessaoNaoAtiva)
    else Ok((s.(ideias := s.ideias + IdeiasNaoVazias(palavras, ator, agora)), |palavras|))
  }

  // ---------------------------------------------------------------------
  // The record store and the handlers

  /** What the HTTP handlers broadcast to a session's room. */
  datatype Difusao =
    | AtualizarParticipantes(sessao: SessionId, participantes: seq<UserId>)
    | SessaoIniciada(sessao: SessionId, nivelAtual: int, tempoRestante: int, status: Status)
    | SessaoPausada(sessao: SessionId)
    | SessaoConcluida(sessao: SessionId)
    | ParticipanteExpulso(sessao: SessionId, participanteId: UserId, participanteNome: string)

  predicate CodigoEmUsoEm(sessoes: map<SessionId, Sessao>, codigo: string) {
    exists id :: id in sessoes && sessoes[id].codigoSala == codigo
  }

  /** A valid session under the next id with a code no stored session
      uses keeps the collection's ids and codes consistent. */
  lemma InserirPreservaValida(sessoes: map<SessionId, Sessao>, proximoId: nat, nova: Sessao)
    requires forall id :: id in sessoes ==> id < proximoId && sessoes[id].id == id && SessaoValida(sessoes[id])
    requires forall a, b :: a in sessoes && b in sessoes && sessoes[a].codigoSala == sessoes[b].codigoSala ==> a == b
    requires nova.id == proximoId && SessaoValida(nova) && !CodigoEmUsoEm(sessoes, nova.codigoSala)
    ensures var m := sessoes[proximoId := nova];
      && (forall id :: id in m ==> id < proximoId + 1 && m[id].id == id && SessaoValida(m[id]))
      && (forall a, b :: a in m && b in m && m[a].codigoSala == m[b].codigoSala ==> a == b)
  {
  }

  /** The session and user collections, and the log of room broadcasts. */
  class Store {
    var sessoes: map<SessionId, Sessao>
    var users: map<UserId, User>
    var proximoId: SessionId
    var difusoes: seq<Difusao>

    /** Every stored document passed validation and sits under its own id,
        and no two share a room code (the unique index). */
    ghost predicate Valid()
      reads this
    {
      && (forall id :: id in sessoes ==> id < proximoId && sessoes[id].id == id && SessaoValida(sessoes[id]))
      && (forall a, b :: a in sessoes && b in sessoes && sessoes[a].codigoSala == sessoes[b].codigoSala ==> a == b)
    }

    constructor (users: map<UserId, User>)
      ensures Valid()
      ensures sessoes == map[] && this.users == users && proximoId == 0 && difusoes == []
    {
      sessoes := map[];
      this.users := users;
      proximoId := 0;
      difusoes := [];
    }

    /** `sessao.save()` of a document that is already stored. */
    method Guardar(sessao: Sessao)
      requires Valid()
      requires sessao.id in sessoes && SessaoValida(sessao)
      requires sessao.codigoSala == sessoes[sessao.id].codigoSala
      modifies this
      ensures Valid()
      ensures sessoes == old(sessoes)[sessao.id := sessao]
      ensures users == old(users) && proximoId == old(proximoId) && difusoes == old(difusoes)
    {
      sessoes := sessoes[sessao.id := sessao];
    }

    /** `criarSessao`: on success the new document is stored under a fresh
        id; no session exists for a refused request. */
    method CriarSessao(host: UserId, pedido: PedidoCriacao) returns (r: Result<SessionId, Erro>)
      requires Valid()
      modifies this
      ensures Valid()
      ensures users == old(users) && difusoes == old(difusoes)
      ensures var c := Criar(old(proximoId), host, pedido);
        if c.Err? then r == Err(c.error) && sessoes == old(sessoes) && proximoId == old(proximoId)
        else if CodigoEmUsoEm(old(sessoes), c.value.codigoSala) then
          r == Err(CodigoEmUso) && sessoes == old(sessoes) && proximoId == old(proximoId)
        else
          r == Ok(old(proximoId)) && sessoes == old(sessoes)[old(proximoId) := c.value]
          && proximoId == old(proximoId) + 1
    {
      var c := Criar(proximoId, host, pedido);
      if c.Err? {
        return Err(c.error);
      }
      var novaSessao := c.value;
      if CodigoEmUsoEm(sessoes, novaSessao.codigoSala) {
        return Err(CodigoEmUso);
      }
      InserirPreservaValida(sessoes, proximoId, novaSessao);
      sessoes := sessoes[proximoId := novaSessao];
      r := Ok(proximoId);
      proximoId := proximoId + 1;
    }

    /** `entrarSessao`: the session is looked up by its exact code. */
    method EntrarSessao(ator: UserId, codigo: string, senha: Option<string>) returns (r: Result<SessionId, Erro>)
      requires Valid()
      modifies this
      ensures Valid()
      ensures users == old(users) && proximoId == old(proximoId) && difusoes == old(difusoes)
      ensures !CodigoEmUsoEm(old(sessoes), codigo) ==> r == Err(SessaoNaoEncontrada) && sessoes == old(sessoes)
      ensures forall id :: id in old(sessoes) && old(sessoes)[id].codigoSala == codigo ==>
        match Entrar(old(sessoes)[id], ator, senha)
        case Err(e) => r == Err(e) && sessoes == old(sessoes)
        case Ok(s) => r == Ok(id) && sessoes == old(sessoes)[id := s]
    {
      if !CodigoEmUsoEm(sessoes, codigo) {
        return Err(SessaoNaoEncontrada);
      }
      var id :| id in sessoes && sessoes[id].codigoSala == codigo;
      var sessao := sessoes[id];
      if sessao.status == Concluida {
        return Err(SessaoJaConcluida);
      }
      if sessao.salaProtegida && sessao.senhaSala != senha {
        return Err(SenhaIncorreta);
      }
      if ator !in sessao.participantes {
        if |sessao.participantes| >= MaxParticipantes {
          return Err(LimiteAtingido);
        }
        sessao := sessao.(participantes := sessao.participantes + [ator]);
        Guardar(sessao);
      }
      return Ok(id);
    }

    /** `participarSessao`: a successful add is broadcast with the new list. */
    method ParticiparSessao(id: SessionId, ator: UserId) returns (r: Result<(), Erro>)
      requires Valid()
      modifies this
      ensures Valid()
      ensures users == old(users) && proximoId == old(proximoId)
      ensures id !in old(sessoes) ==>
        r == Err(SessaoNaoEncontrada) && sessoes == old(sessoes) && difusoes == old(difusoes)
      ensures id in old(sessoes) ==>
        match Participar(old(sessoes)[id], ator)
        case Err(e) => r == Err(e) && sessoes == old(sessoes) && difusoes == old(difusoes)
        case Ok(s) =>
          r == Ok(()) && sessoes == old(sessoes)[id := s]
          && difusoes == old(difusoes) +
               (if s == old(sessoes)[id] then [] else [AtualizarParticipantes(id, s.participantes)])
    {
      if id !in sessoes {
        return Err(SessaoNaoEncontrada);
      }
      var sessao := sessoes[id];
      var isHost := sessao.host == ator;
      var isParticipante := ator in sessao.participantes;
      if !isParticipante && !isHost && sessao.status != Concluida {
        if |sessao.participantes| >= MaxParticipantes {
          return Err(LimiteAtingido);
        }
        sessao := sessao.(participantes := sessao.participantes + [ator]);
        Guardar(sessao);
        difusoes := difusoes + [AtualizarParticipantes(id, sessao.participantes)];
      } else if sessao.status == Concluida && !isParticipante && !isHost {
        return Err(SessaoJaConcluida);
      }
      return Ok(());
    }

    /** `iniciarSessao` (HTTP): answers with the `tempoRestante` it broadcasts. */
    method IniciarSessao(id: SessionId, ator: UserId) returns (r: Result<int, Erro>)
      requires Valid()
      modifies this
      ensures Valid()
      ensures users == old(users) && proximoId == old(proximoId)
      ensures id !in old(sessoes) ==>
        r == Err(SessaoNaoEncontrada) && sessoes == old(sessoes) && difusoes == old(difusoes)
      ensures id in old(sessoes) ==>
        match Iniciar(old(sessoes)[id], ator)
        case Err(e) => r == Err(e) && sessoes == old(sessoes) && difusoes == old(difusoes)
        case Ok(s) =>
          var t := TempoInicial(s.configuracaoNiveis);
          r == Ok(t) && sessoes == old(sessoes)[id := s]
          && difusoes == old(difusoes) + [SessaoIniciada(id, 1, t, Ativa)]
    {
      if id !in sessoes {
        return Err(SessaoNaoEncontrada);
      }
      var sessao := sessoes[id];
      if sessao.host != ator {
        return Err(ApenasHost);
      }
      if sessao.status != AguardandoInicio && sessao.status != Pausada {
        return Err(EstadoNaoPermite);
      }
      sessao := sessao.(status := Ativa);
      Guardar(sessao);
      var tempo := TempoInicial(sessao.configuracaoNiveis);
      difusoes := difusoes + [SessaoIniciada(id, 1, tempo, Ativa)];
      return Ok(tempo);
    }

    /** `pausarSessao` (HTTP). */
    method PausarSessao(id: SessionId, ator: UserId, agora: int) returns (r: Result<(), Erro>)
      requires Valid()
      modifies this
      ensures Valid()
      ensures users == old(users) && proximoId == old(proximoId)
      ensures id !in old(sessoes) ==>
        r == Err(SessaoNaoEncontrada) && sessoes == old(sessoes) && difusoes == old(difusoes)
      ensures id in old(sessoes) ==>
        match Pausar(old(sessoes)[id], ator, agora)
        case Err(e) => r == Err(e) && sessoes == old(sessoes) && difusoes == old(difusoes)
        case Ok(s) =>
          r == Ok(()) && sessoes == old(sessoes)[id := s] && difusoes == old(difusoes) + [SessaoPausada(id)]
    {
      if id !in sessoes {
        return Err(SessaoNaoEncontrada);
      }
      var sessao := sessoes[id];
      if sessao.host != ator {
        return Err(ApenasHost);
      }
      if sessao.status != Ativa {
        return Err(EstadoNaoPermite);
      }
      sessao := sessao.(status := Pausada);
      sessao := sessao.(historicoAcoes := sessao.historicoAcoes + [AcaoPausa(ator, agora)]);
      Guardar(sessao);
      difusoes := difusoes + [SessaoPausada(id)];
      return Ok(());
    }

    /** `concluirSessao` (HTTP): the user metrics are updated first, then the
        document is marked concluded. */
    method ConcluirSessao(id: SessionId, ator: UserId) returns (r: Result<(), Erro>)
      requires Valid()
      modifies this
      ensures Valid()
      ensures proximoId == old(proximoId)
      ensures id !in old(sessoes) ==>
        r == Err(SessaoNaoEncontrada) && sessoes == old(sessoes) && users == old(users) && difusoes == old(difusoes)
      ensures id in old(sessoes) ==>
        match Concluir(old(sessoes)[id], ator)
        case Err(e) => r == Err(e) && sessoes == old(sessoes) && users == old(users) && difusoes == old(difusoes)
        case Ok(s) =>
          && r == Ok(()) && sessoes == old(sessoes)[id := s]
          && users == AtualizarMetricas(old(users), old(sessoes)[id])
          && difusoes == old(difusoes) + [SessaoConcluida(id)]
    {
      if id !in sessoes {
        return Err(SessaoNaoEncontrada);
      }
      var sessao := sessoes[id];
      if sessao.host != ator {
        return Err(ApenasHost);
      }
      users := AtualizarMetricas(users, sessao);
      sessao := sessao.(status := Concluida);
      Guardar(sessao);
      difusoes := difusoes + [SessaoConcluida(id)];
      return Ok(());
    }

    /** `expulsarParticipante` (HTTP). */
    method ExpulsarParticipante(id: SessionId, ator: UserId, alvo: UserId, agora: int) returns (r: Result<(), Erro>)
      requires Valid()
      modifies this
      ensures Valid()
      ensures users == old(users) && proximoId == old(proximoId)
      ensures id !in old(sessoes) ==>
        r == Err(SessaoNaoEncontrada) && sessoes == old(sessoes) && difusoes == old(difusoes)
      ensures id in old(sessoes) ==>
        match Expulsar(old(sessoes)[id], ator, alvo, old(users), agora)
        case Err(e) => r == Err(e) && sessoes == old(sessoes) && difusoes == old(difusoes)
        case Ok(s) =>
          && r == Ok(()) && sessoes == old(sessoes)[id := s]
          && difusoes == old(difusoes) + [ParticipanteExpulso(id, alvo, NomeVisivel(users[alvo]))]
    {
      if id !in sessoes {
        return Err(SessaoNaoEncontrada);
      }
      var sessao := sessoes[id];
      if sessao.host != ator {
        return Err(ApenasHost);
      }
      if alvo !in users {
        return Err(ParticipanteNaoEncontrado);
      }
      var participante := users[alvo];
      if alvo == sessao.host {
        return Err(HostNaoExpulsavel);
      }
      sessao := sessao.(participantes := Remover(sessao.participantes, alvo));
      sessao := sessao.(historicoAcoes := sessao.historicoAcoes + [AcaoExpulsao(ator, participante, agora)]);
      Guardar(sessao);
      difusoes := difusoes + [ParticipanteExpulso(id, alvo, NomeVisivel(participante))];
      return Ok(());
    }

    /** `submeterPalavras`: answers with `palavrasCount`. */
    method SubmeterPalavras(id: SessionId, ator: UserId, palavras: seq<string>, agora: int) returns (r: Result<nat, Erro>)
      requires Valid()
      modifies this
      ensures Valid()
      ensures users == old(users) && proximoId == old(proximoId) && difusoes == old(difusoes)
      ensures id !in old(sessoes) ==> r == Err(SessaoNaoEncontrada) && sessoes == old(sessoes)
      ensures id in old(sessoes) ==>
        match Submeter(old(sessoes)[id], ator, palavras, agora)
        case Err(e) => r == Err(e) && sessoes == old(sessoes)
        case Ok(res) => r == Ok(res.1) && sessoes == old(sessoes)[id := res.0]
    {
      if id !in sessoes {
        return Err(SessaoNaoEncontrada);
      }
      var sessao := sessoes[id];
      if ator !in sessao.participantes {
        return Err(NaoParticipante);
      }
      if sessao.status != Ativa {
        return Err(SessaoNaoAtiva);
      }
      var novasIdeias := IdeiasNaoVazias(palavras, ator, agora);
      Guardar(sessao.(ideias := sessao.ideias + novasIdeias));
      return Ok(|palavras|);
    }

    /** A status change written by the real-time handlers (`sessao.status = ...; save()`). */
    method DefinirStatus(id: SessionId, status: Status)
      requires Valid() && id in sessoes
      modifies this
      ensures Valid()
      ensures sessoes == old(sessoes)[id := old(sessoes)[id].(status := status)]
      ensures users == old(users) && proximoId == old(proximoId) && difusoes == old(difusoes)
    {
      Guardar(sessoes[id].(status := status));
    }
  }
}
