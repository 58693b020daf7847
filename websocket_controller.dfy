/** The real-time side of controllers/websocketController.js: the
    module-level registry `sessoesDados` of runtime entries, the socket
    handlers that read and write it (and the session record), the ranking
    recomputation, and the once-per-second level timer. The timer is modelled
    as a step function applied by whoever drives time (`Registo.Tick`); there
    is no clock. */
module WebsocketController {
  import opened Wrappers
  import opened UserModel
  import opened SessaoModel
  import opened Erros
  import opened Sorting
  import SessaoController

  // ---------------------------------------------------------------------
  // participantesPalavras: a Map from user id to that user's words

  /** One entry of the Map. */
  datatype Lista = Lista(participante: UserId, palavras: seq<string>)

  /** A JavaScript `Map`, as its entries in insertion order. */
  type Tabela = seq<Lista>

  function Chave(l: Lista): UserId { l.participante }

  /** `map.get(u)`, `None` for `undefined`. */
  function Obter(t: Tabela, u: UserId): (r: Option<seq<string>>)
    ensures r.None? <==> forall i :: 0 <= i < |t| ==> t[i].participante != u
    ensures r.Some? ==> Lista(u, r.value) in t
  {
    if t == [] then None
    else if t[0].participante == u then Some(t[0].palavras)
    else
      assert forall i :: 1 <= i < |t| ==> t[1..][i - 1] == t[i];
      Obter(t[1..], u)
  }

  /** `map.set(u, l)`: an existing key keeps its place, a new one goes last. */
  function Definir(t: Tabela, u: UserId, l: seq<string>): (r: Tabela)
    ensures Obter(r, u) == Some(l)
    ensures forall v :: v != u ==> Obter(r, v) == Obter(t, v)
    ensures Obter(t, u).None? ==> r == t + [Lista(u, l)]
  {
    if t == [] then [Lista(u, l)]
    else if t[0].participante == u then
      assert ([Lista(u, l)] + t[1..])[1..] == t[1..];
      [Lista(u, l)] + t[1..]
    else
      var rest := Definir(t[1..], u, l);
      var r := [t[0]] + rest;
      assert r[1..] == rest;
      assert forall v :: Obter(r, v) == if t[0].participante == v then Some(t[0].palavras) else Obter(rest, v);
      assert Obter(t, u) == Obter(t[1..], u);
      AcrescentarCauda(t, Lista(u, l));
      r
  }

  /** Appending after the head is appending to the whole table. */
  lemma AcrescentarCauda(t: Tabela, x: Lista)
    requires t != []
    ensures [t[0]] + (t[1..] + [x]) == t + [x]
  {
    assert t == [t[0]] + t[1..];
  }

  /** Setting a key already present keeps every entry's key in place. */
  lemma {:induction false} DefinirMantemChaves(t: Tabela, u: UserId, l: seq<string>)
    requires Obter(t, u).Some?
    ensures var r := Definir(t, u, l);
      |r| == |t| && forall i :: 0 <= i < |t| ==> r[i].participante == t[i].participante
  {
    var r := Definir(t, u, l);
    if t[0].participante == u {
      assert r == [Lista(u, l)] + t[1..];
      forall i | 0 <= i < |t| ensures r[i].participante == t[i].participante {
        if i > 0 {
          assert r[i] == t[1..][i - 1] == t[i];
        }
      }
    } else {
      DefinirMantemChaves(t[1..], u, l);
      var rest := Definir(t[1..], u, l);
      assert r == [t[0]] + rest;
      forall i | 0 <= i < |t| ensures r[i].participante == t[i].participante {
        if i > 0 {
          assert r[i] == rest[i - 1] && t[i] == t[1..][i - 1];
        }
      }
    }
  }

  /** `map.set` keeps the Map's key order and appends a new key last. */
  lemma DefinirOrdem(t: Tabela, u: UserId, l: seq<string>)
    ensures Project(Definir(t, u, l), Chave) == Project(t, Chave) + (if Obter(t, u).None? then [u] else [])
  {
    var r := Definir(t, u, l);
    if Obter(t, u).Some? {
      DefinirMantemChaves(t, u, l);
      assert forall i :: 0 <= i < |t| ==> Project(r, Chave)[i] == Project(t, Chave)[i];
    } else {
      ProjectAppend(t, [Lista(u, l)], Chave);
      assert Project([Lista(u, l)], Chave) == [u];
    }
  }

  /** No key occurs twice: what makes a `Tabela` a faithful Map. */
  predicate ChavesDistintas(t: Tabela) {
    forall i, j :: 0 <= i < j < |t| ==> t[i].participante != t[j].participante
  }

  lemma DefinirPreservaDistintas(t: Tabela, u: UserId, l: seq<string>)
    requires ChavesDistintas(t)
    ensures ChavesDistintas(Definir(t, u, l))
  {
    var r := Definir(t, u, l);
    if Obter(t, u).Some? {
      DefinirMantemChaves(t, u, l);
      forall i, j | 0 <= i < j < |r| ensures r[i].participante != r[j].participante {
        assert r[i].participante == t[i].participante && r[j].participante == t[j].participante;
      }
    } else {
      assert r == t + [Lista(u, l)];
      forall i, j | 0 <= i < j < |r| ensures r[i].participante != r[j].participante {
        assert r[i] == t[i];
        if j < |t| {
          assert r[j] == t[j];
        } else {
          assert r[j].participante == u != t[i].participante;
        }
      }
    }
  }

  /** With distinct keys, looking up the key of an entry finds that entry. */
  lemma {:induction false} ObterEntrada(t: Tabela, j: nat)
    requires ChavesDistintas(t) && j < |t|
    ensures Obter(t, t[j].participante) == Some(t[j].palavras)
  {
    if j > 0 {
      assert t[0].participante != t[j].participante;
      assert t[1..][j - 1] == t[j];
      ObterEntrada(t[1..], j - 1);
    }
  }

  /** `map.get(u) || []` */
  function ListaDe(t: Tabela, u: UserId): seq<string> {
    match Obter(t, u)
    case Some(l) => l
    case None => []
  }

  // ---------------------------------------------------------------------
  // atualizarRanking

  datatype EntradaRanking = EntradaRanking(participanteId: UserId, palavrasCount: nat)

  function Contagem(e: EntradaRanking): int { e.palavrasCount }

  function Participante(e: EntradaRanking): UserId { e.participanteId }

  /** The element `forEach` pushes for one Map entry. */
  function Contar(l: Lista): EntradaRanking { EntradaRanking(l.participante, |l.palavras|) }

  /** The ranking `atualizarRanking` computes: one element per Map entry,
      sorted stably by decreasing word count. */
  function Ranking(t: Tabela): seq<EntradaRanking> {
    SortDesc(Project(t, Contar), Contagem)
  }

  /** The ranking holds exactly one element per key of the Map, each with
      the length of that key's list, ordered by non-increasing count, and
      users with equal counts appear in the Map's insertion order. */
  lemma RankingCorreto(t: Tabela)
    ensures |Ranking(t)| == |t|
    ensures SortedDesc(Ranking(t), Contagem)
    ensures multiset(Ranking(t)) == multiset(Project(t, Contar))
    ensures multiset(Project(Ranking(t), Participante)) == multiset(Project(t, Chave))
    ensures forall c :: WithKey(Ranking(t), Contagem, c) == WithKey(Project(t, Contar), Contagem, c)
    ensures ChavesDistintas(t) ==> forall i :: 0 <= i < |Ranking(t)| ==>
      Obter(t, Ranking(t)[i].participanteId).Some? &&
      Ranking(t)[i].palavrasCount == |ListaDe(t, Ranking(t)[i].participanteId)|
  {
    var c := Project(t, Contar);
    var r := SortDesc(c, Contagem);
    SortDescSorted(c, Contagem);
    SortDescProject(c, Contagem, Participante);
    assert Project(c, Participante) == Project(t, Chave);
    forall k ensures WithKey(r, Contagem, k) == WithKey(c, Contagem, k) {
      SortDescStable(c, Contagem, k);
    }
    if ChavesDistintas(t) {
      forall i | 0 <= i < |r|
        ensures Obter(t, r[i].participanteId).Some? && r[i].palavrasCount == |ListaDe(t, r[i].participanteId)|
      {
        assert r[i] in multiset(c);
        var j :| 0 <= j < |c| && c[j] == r[i];
        ObterEntrada(t, j);
      }
    }
  }

  // ---------------------------------------------------------------------
  // Runtime entries

  /** The fields of one runtime entry of `sessoesDados`. */
  datatype DadosSessao = DadosSessao(
    nivelAtual: int,
    status: Status,
    tempoRestante: int,
    participantesPalavras: Tabela,
    ranking: seq<EntradaRanking>)

  /** The entry the first socket `entrarSessao` creates, mirroring the
      record's status. */
  function NovaEntrada(status: Status): DadosSessao {
    DadosSessao(0, status, 0, [], [])
  }

  /** The entry after a participant's socket `entrarSessao`: a missing entry
      is created from the record's status, an existing one is never reset,
      and the user's list is added empty only if it is absent. */
  function Juntar(e: Option<DadosSessao>, status: Status, ator: UserId): (r: DadosSessao)
    ensures e.None? ==> r == NovaEntrada(status).(participantesPalavras := [Lista(ator, [])])
    ensures e.Some? ==> r.(participantesPalavras := e.value.participantesPalavras) == e.value
    ensures e.Some? ==> forall v :: v != ator ==> Obter(r.participantesPalavras, v) == Obter(e.value.participantesPalavras, v)
    ensures e.Some? ==> (Obter(r.participantesPalavras, ator) ==
      if Obter(e.value.participantesPalavras, ator).Some? then Obter(e.value.participantesPalavras, ator) else Some([]))
    ensures e.Some? ==> (Project(r.participantesPalavras, Chave) ==
      Project(e.value.participantesPalavras, Chave) + (if Obter(e.value.participantesPalavras, ator).None? then [ator] else []))
  {
    var d := if e.Some? then e.value else NovaEntrada(status);
    if Obter(d.participantesPalavras, ator).Some? then d
    else
      DefinirOrdem(d.participantesPalavras, ator, []);
      d.(participantesPalavras := Definir(d.participantesPalavras, ator, []))
  }

  /** Joining with no entry is joining the entry the first join creates. */
  lemma JuntarNova(status: Status, ator: UserId)
    ensures Juntar(Some(NovaEntrada(status)), status, ator) == Juntar(None, status, ator)
  {
  }

  /** A second join by the same user changes nothing, whatever the record's
      status is by then. */
  lemma JuntarIdempotente(e: Option<DadosSessao>, status: Status, status': Status, ator: UserId)
    ensures Juntar(Some(Juntar(e, status, ator)), status', ator) == Juntar(e, status, ator)
  {
  }

  /** `submeterPalavra` on the entry: refused when there is no entry, when
      the entry is not active, or when `nivel` is not strictly equal to the
      current level; otherwise the submitter's list (created if absent)
      grows by the word at its end, every other list is untouched and the
      ranking is recomputed. There is no participant check. */
  function Submissao(e: Option<DadosSessao>, ator: UserId, nivel: Option<int>, palavra: string): (r: Result<DadosSessao, Erro>)
    ensures e.None? ==> r == Err(SessaoNaoInicializada)
    ensures e.Some? && e.value.status != Ativa ==> r == Err(SessaoNaoAtiva)
    ensures e.Some? && e.value.status == Ativa && nivel != Some(e.value.nivelAtual) ==> r == Err(NivelInvalido)
    ensures r.Ok? <==> e.Some? && e.value.status == Ativa && nivel == Some(e.value.nivelAtual)
    ensures r.Ok? ==> (Obter(r.value.participantesPalavras, ator) ==
      Some(ListaDe(e.value.participantesPalavras, ator) + [palavra]))
    ensures r.Ok? ==> forall v :: v != ator ==>
      Obter(r.value.participantesPalavras, v) == Obter(e.value.participantesPalavras, v)
    ensures r.Ok? ==> (r.value.nivelAtual == e.value.nivelAtual && r.value.status == e.value.status
      && r.value.tempoRestante == e.value.tempoRestante)
    ensures r.Ok? ==> r.value.ranking == Ranking(r.value.participantesPalavras)
    ensures r.Ok? ==> (Project(r.value.participantesPalavras, Chave) ==
      Project(e.value.participantesPalavras, Chave) + (if Obter(e.value.participantesPalavras, ator).None? then [ator] else []))
  {
    if e.None? then Err(SessaoNaoInicializada)
    else if e.value.status != Ativa then Err(SessaoNaoAtiva)
    else if nivel != Some(e.value.nivelAtual) then Err(NivelInvalido)
    else
      DefinirOrdem(e.value.participantesPalavras, ator, ListaDe(e.value.participantesPalavras, ator) + [palavra]);
      var t := Definir(e.value.participantesPalavras, ator, ListaDe(e.value.participantesPalavras, ator) + [palavra]);
      Ok(e.value.(participantesPalavras := t, ranking := Ranking(t)))
  }

  /** Ties in the ranking follow the Map's insertion order through a
      submission: with users 1 and 2 at one word each after user 1 submits,
      user 1, inserted first, is ranked first. */
  lemma SubmissaoEmpateOrdem(d: DadosSessao)
    requires d.status == Ativa && d.participantesPalavras == [Lista(1, []), Lista(2, ["y"])]
    ensures Submissao(Some(d), 1, Some(d.nivelAtual), "x") ==
      Ok(d.(participantesPalavras := [Lista(1, ["x"]), Lista(2, ["y"])],
            ranking := [EntradaRanking(1, 1), EntradaRanking(2, 1)]))
  {
    var t := [Lista(1, ["x"]), Lista(2, ["y"])];
    assert ListaDe(d.participantesPalavras, 1) + ["x"] == ["x"];
    assert Definir(d.participantesPalavras, 1, ["x"]) == t;
    var c := Project(t, Contar);
    assert c == [EntradaRanking(1, 1), EntradaRanking(2, 1)];
    var um := [EntradaRanking(1, 1)];
    assert c[..1] == um && c[1] == EntradaRanking(2, 1);
    assert SortDesc(um, Contagem) == um by {
      assert um[..0] == [];
    }
    assert Insert(um, EntradaRanking(2, 1), Contagem) == c;
    assert Ranking(t) == c;
  }

  /** The entry after the host's socket `iniciarSessao`: created or reset to
      level 1, active, with the seconds of the level at position 0; word
      lists and ranking of an existing entry are kept. With no level at
      all, reading position 0 throws: an existing entry has already been
      set to level 1 and active and keeps its seconds, while a missing one
      is never created (`None`). */
  function EntradaAoIniciar(e: Option<DadosSessao>, niveis: seq<Nivel>): (r: Option<DadosSessao>)
    ensures r.None? <==> e.None? && |niveis| == 0
    ensures r.Some? ==> r.value.nivelAtual == 1 && r.value.status == Ativa
    ensures r.Some? ==> r.value.tempoRestante == if |niveis| > 0 then niveis[0].segundos else e.value.tempoRestante
    ensures r.Some? && e.Some? ==>
      r.value.participantesPalavras == e.value.participantesPalavras && r.value.ranking == e.value.ranking
    ensures r.Some? && e.None? ==> r.value.participantesPalavras == [] && r.value.ranking == []
  {
    if |niveis| == 0 then
      if e.Some? then Some(e.value.(nivelAtual := 1, status := Ativa)) else None
    else
      var d := if e.Some? then e.value else NovaEntrada(Ativa);
      Some(d.(nivelAtual := 1, status := Ativa, tempoRestante := niveis[0].segundos))
  }

  /** A start on a session with no levels still leaves an existing entry
      active at level 1, so a participant who joined before it can submit
      words at level 1, although no timer runs. */
  lemma InicioSemNiveis(d: DadosSessao, ator: UserId, palavra: string)
    ensures EntradaAoIniciar(Some(d), []) == Some(d.(nivelAtual := 1, status := Ativa))
    ensures Submissao(EntradaAoIniciar(Some(d), []), ator, Some(1), palavra).Ok?
    ensures EntradaAoIniciar(None, []) == None
  {
  }

  // ---------------------------------------------------------------------
  // The level timer

  /** `configuracaoNiveis.find(n => n.ordem === ordem)` */
  function ProcurarNivel(niveis: seq<Nivel>, ordem: int): (r: Option<Nivel>)
    ensures r.None? <==> forall i :: 0 <= i < |niveis| ==> niveis[i].ordem != ordem
    ensures r.Some? ==> r.value in niveis && r.value.ordem == ordem
  {
    if niveis == [] then None
    else if niveis[0].ordem == ordem then Some(niveis[0])
    else
      assert forall i :: 1 <= i < |niveis| ==> niveis[1..][i - 1] == niveis[i];
      ProcurarNivel(niveis[1..], ordem)
  }

  /** In a configuration the schema accepts, orders are unique, so the search
      finds the one level carrying the order. */
  lemma {:induction false} ProcurarUnico(niveis: seq<Nivel>, i: nat)
    requires ConfiguracaoValida(niveis) && i < |niveis|
    ensures ProcurarNivel(niveis, niveis[i].ordem) == Some(niveis[i])
  {
    OrdensUnicasSeDistintas(niveis);
    var r := ProcurarNivel(niveis, niveis[i].ordem);
    var k :| 0 <= k < |niveis| && niveis[k] == r.value;
    assert k == i;
  }

  /** For levels as `criarSessao` builds them, level `k` is the `k`-th
      entry, and levels outside 1..n do not exist. */
  lemma ProcurarNormalizado(segundos: seq<int>, k: int)
    ensures var niveis := SessaoController.NormalizarNiveis(segundos);
      ProcurarNivel(niveis, k) == if 1 <= k <= |niveis| then Some(niveis[k - 1]) else None
  {
    var niveis := SessaoController.NormalizarNiveis(segundos);
    if 1 <= k <= |niveis| {
      ProcurarUnico(niveis, k - 1);
    }
  }

  /** The state of one `setInterval` closure: the level it was started for
      (`nivelAtual` captured at the start) and its local `tempoRestante`. */
  datatype Relogio = Relogio(nivel: int, restante: int)

  /** `iniciarTemporizadorNivel` on an existing entry: nothing when no level
      has the entry's current order; otherwise the entry shows that level's
      seconds and a timer starts counting them down. */
  function Arranque(d: DadosSessao, niveis: seq<Nivel>): (r: Option<(DadosSessao, Relogio)>)
    ensures r.None? <==> forall i :: 0 <= i < |niveis| ==> niveis[i].ordem != d.nivelAtual
    ensures r.Some? ==> exists n :: (n in niveis && n.ordem == d.nivelAtual
      && r.value == (d.(tempoRestante := n.segundos), Relogio(d.nivelAtual, n.segundos)))
  {
    match ProcurarNivel(niveis, d.nivelAtual)
    case None => None
    case Some(n) => Some((d.(tempoRestante := n.segundos), Relogio(d.nivelAtual, n.segundos)))
  }

  /** The outcome of one tick. */
  datatype Tique =
    | Parou                                         // the interval clears itself, nothing changes
    | Contou(dados: DadosSessao, relogio: Relogio)  // the countdown goes on
    | Avancou(dados: DadosSessao, proximo: Nivel)   // the next level started, its timer is scheduled
    | Concluiu(dados: DadosSessao)                  // no next level: the session is finalised

  /** One tick of the interval over the entry it captured (`registada` is
      whether the registry still has an entry for the session). It stops
      when the entry is gone or not active; otherwise the countdown drops by
      exactly one and, when it reaches zero, the entry rolls over to level
      `nivel + 1` if the configuration has it, or the session concludes. */
  function Passo(registada: bool, d: DadosSessao, r: Relogio, niveis: seq<Nivel>): (t: Tique)
    ensures !registada || d.status != Ativa ==> t == Parou
    ensures registada && d.status == Ativa && r.restante - 1 > 0 ==>
      t == Contou(d.(tempoRestante := r.restante - 1), Relogio(r.nivel, r.restante - 1))
    ensures registada && d.status == Ativa && r.restante - 1 <= 0 ==>
      && (t.Avancou? || t.Concluiu?)
      && (t.Avancou? <==> exists i :: 0 <= i < |niveis| && niveis[i].ordem == r.nivel + 1)
      && (t.Avancou? ==> (t.proximo in niveis && t.proximo.ordem == r.nivel + 1
            && t.dados == d.(nivelAtual := r.nivel + 1, tempoRestante := t.proximo.segundos)))
      && (t.Concluiu? ==> t.dados == d.(tempoRestante := r.restante - 1))
  {
    if !registada || d.status != Ativa then Parou
    else
      var tempoRestante := r.restante - 1;
      var d' := d.(tempoRestante := tempoRestante);
      if tempoRestante > 0 then Contou(d', Relogio(r.nivel, tempoRestante))
      else
        match ProcurarNivel(niveis, r.nivel + 1)
        case Some(p) => Avancou(d'.(nivelAtual := r.nivel + 1, tempoRestante := p.segundos), p)
        case None => Concluiu(d')
  }

  /** The outcome of the `n`-th tick of a timer whose entry stays registered
      and is not touched by anything else; `Parou` once the timer has
      already stopped. */
  function Correr(d: DadosSessao, r: Relogio, niveis: seq<Nivel>, n: nat): Tique
    requires n >= 1
    decreases n
  {
    var t := Passo(true, d, r, niveis);
    if n == 1 then t
    else match t
      case Contou(d', r') => Correr(d', r', niveis, n - 1)
      case _ => Parou
  }

  /** A level of `s >= 1` seconds on an active entry ticks down for exactly
      `s - 1` ticks, and the `s`-th tick rolls over to the next level or
      concludes, the first exactly when level `nivel + 1` exists. */
  lemma {:induction false} DuracaoExata(d: DadosSessao, r: Relogio, niveis: seq<Nivel>, k: nat)
    requires d.status == Ativa && r.restante >= 1 && 1 <= k <= r.restante
    decreases k
    ensures k < r.restante ==>
      Correr(d, r, niveis, k) == Contou(d.(tempoRestante := r.restante - k), Relogio(r.nivel, r.restante - k))
    ensures k == r.restante ==>
      && (Correr(d, r, niveis, k).Avancou? || Correr(d, r, niveis, k).Concluiu?)
      && (Correr(d, r, niveis, k).Avancou? <==> ProcurarNivel(niveis, r.nivel + 1).Some?)
  {
    if k > 1 {
      var d1, r1 := d.(tempoRestante := r.restante - 1), Relogio(r.nivel, r.restante - 1);
      assert Passo(true, d, r, niveis) == Contou(d1, r1);
      assert Correr(d, r, niveis, k) == Correr(d1, r1, niveis, k - 1);
      DuracaoExata(d1, r1, niveis, k - 1);
      assert d1.(tempoRestante := r1.restante - (k - 1)) == d.(tempoRestante := r.restante - k);
    }
  }

  /** Started on a level of a valid configuration, the timer runs that
      level's seconds (at least five) before the level ends. */
  lemma ArranqueDuraNivel(d: DadosSessao, niveis: seq<Nivel>, i: nat)
    requires d.status == Ativa && ConfiguracaoValida(niveis) && i < |niveis| && niveis[i].ordem == d.nivelAtual
    ensures Arranque(d, niveis).Some?
    ensures var (d', r) := Arranque(d, niveis).value;
      && r == Relogio(d.nivelAtual, niveis[i].segundos) && r.restante >= MinSegundos
      && (forall k :: 1 <= k < r.restante ==> Correr(d', r, niveis, k).Contou?)
      && !Correr(d', r, niveis, r.restante).Contou? && !Correr(d', r, niveis, r.restante).Parou?
  {
    ProcurarUnico(niveis, i);
    var (d', r) := Arranque(d, niveis).value;
    forall k | 1 <= k < r.restante ensures Correr(d', r, niveis, k).Contou? {
      DuracaoExata(d', r, niveis, k);
    }
    DuracaoExata(d', r, niveis, r.restante);
  }

  // ---------------------------------------------------------------------
  // Record changes of the socket handlers

  /** The record change of the socket `iniciarSessao`, `pausarSessao` and
      `concluirSessao`: host-only, with no status guard at all. */
  function MudancaHost(s: Sessao, ator: UserId, status: Status): (r: Result<Sessao, Erro>)
    ensures r.Ok? <==> ator == s.host
    ensures r.Err? ==> r == Err(ApenasHost)
    ensures r.Ok? ==> r.value == s.(status := status) && (SessaoValida(s) ==> SessaoValida(r.value))
  {
    if s.host != ator then Err(ApenasHost) else Ok(s.(status := status))
  }

  /** The two start paths differ: the host can restart an active or a
      concluded session over the socket, which the HTTP handler refuses. */
  lemma InicioSemGuarda(s: Sessao)
    requires s.status == Ativa || s.status == Concluida
    ensures MudancaHost(s, s.host, Ativa) == Ok(s.(status := Ativa))
    ensures SessaoController.Iniciar(s, s.host) == Err(EstadoNaoPermite)
  {
  }

  // ---------------------------------------------------------------------
  // The registry and the handlers

  /** A runtime entry: a mutable object shared by the registry and by every
      timer closure that captured it. */
  class Entrada {
    var nivelAtual: int
    var status: Status
    var tempoRestante: int
    var participantesPalavras: Tabela
    var ranking: seq<EntradaRanking>

    function Estado(): DadosSessao
      reads this
    {
      DadosSessao(nivelAtual, status, tempoRestante, participantesPalavras, ranking)
    }

    constructor (nivelAtual: int, status: Status, tempoRestante: int)
      ensures Estado() == DadosSessao(nivelAtual, status, tempoRestante, [], [])
    {
      this.nivelAtual := nivelAtual;
      this.status := status;
      this.tempoRestante := tempoRestante;
      participantesPalavras := [];
      ranking := [];
    }
  }

  /** What the handlers and the timer emit, to one socket or to a room. */
  datatype Emissao =
    | Falha(destino: UserId, erro: Erro)
    | EstadoSessao(destino: UserId, nivelAtual: int, status: Status, tempoRestante: int, ranking: seq<EntradaRanking>)
    | ParticipanteEntrou(sessao: SessionId, participante: UserId)
    | PalavraAceite(destino: UserId, palavra: string, nivel: int)
    | RankingAtualizado(sessao: SessionId, ranking: seq<EntradaRanking>)
    | SessaoIniciada(sessao: SessionId, nivelAtual: int, tempoRestante: int)
    | SessaoPausada(sessao: SessionId)
    | SessaoConcluida(sessao: SessionId)
    | Expulsado(sessao: SessionId, participante: UserId)
    | ParticipanteExpulso(sessao: SessionId, participanteId: UserId, participanteNome: string)
    | TempoAtualizado(sessao: SessionId, nivel: int, tempoRestante: int)
    | NivelAvancado(sessao: SessionId, nivelAnterior: int, nivelAtual: int, tempoRestante: int)

  /** A running `setInterval`: the session id, the entry object it captured,
      its own countdown and the level list of the record it was given. */
  datatype Temporizador = Temporizador(sessao: SessionId, dados: Entrada, relogio: Relogio, niveis: seq<Nivel>)

  /** A pending `setTimeout` that will start the next level's timer. */
  datatype Agendamento = Agendamento(sessao: SessionId, niveis: seq<Nivel>)

  /** `sessoesDados`, the running intervals, the pending timeouts and the
      log of emissions. */
  class Registo {
    var sessoesDados: map<SessionId, Entrada>
    var temporizadores: map<nat, Temporizador>
    var proximoTemporizador: nat
    var agendados: seq<Agendamento>
    var emissoes: seq<Emissao>

    /** Each session has its own entry object, each registered entry's word
        table is a faithful Map, and timer handles are never reused. */
    ghost predicate Valid()
      reads this, sessoesDados.Values
    {
      && (forall h :: h in temporizadores ==> h < proximoTemporizador)
      && (forall a, b :: a in sessoesDados && b in sessoesDados && a != b ==> sessoesDados[a] != sessoesDados[b])
      && (forall id :: id in sessoesDados ==> ChavesDistintas(sessoesDados[id].participantesPalavras))
    }

    constructor ()
      ensures Valid()
      ensures sessoesDados == map[] && temporizadores == map[] && proximoTemporizador == 0
      ensures agendados == [] && emissoes == []
    {
      sessoesDados := map[];
      temporizadores := map[];
      proximoTemporizador := 0;
      agendados := [];
      emissoes := [];
    }

    /** The entry registered for `id`, as a set (empty when there is none). */
    function Alvo(id: SessionId): set<Entrada>
      reads this
    {
      if id in sessoesDados then {sessoesDados[id]} else {}
    }

    /** The fields of the entry registered for `id`. */
    function EstadoDe(id: SessionId): Option<DadosSessao>
      reads this, Alvo(id)
    {
      if id in sessoesDados then Some(sessoesDados[id].Estado()) else None
    }

    /** Socket `entrarSessao`. The record is only read; a non-participant
        gets an error and the registry is left as it was. */
    method EntrarSessao(id: SessionId, ator: UserId, store: SessaoController.Store)
      requires Valid()
      modifies this, Alvo(id)
      ensures Valid()
      ensures temporizadores == old(temporizadores) && proximoTemporizador == old(proximoTemporizador)
      ensures agendados == old(agendados)
      ensures id !in store.sessoes ==>
        && sessoesDados == old(sessoesDados) && EstadoDe(id) == old(EstadoDe(id))
        && emissoes == old(emissoes) + [Falha(ator, SessaoNaoEncontrada)]
      ensures id in store.sessoes && ator !in store.sessoes[id].participantes ==>
        && sessoesDados == old(sessoesDados) && EstadoDe(id) == old(EstadoDe(id))
        && emissoes == old(emissoes) + [Falha(ator, NaoParticipante)]
      ensures id in store.sessoes && ator in store.sessoes[id].participantes ==>
        && (id in old(sessoesDados) ==> sessoesDados == old(sessoesDados))
        && (id !in old(sessoesDados) ==>
              id in sessoesDados && fresh(sessoesDados[id]) && sessoesDados == old(sessoesDados)[id := sessoesDados[id]])
        && EstadoDe(id) == Some(Juntar(old(EstadoDe(id)), store.sessoes[id].status, ator))
        && var d := EstadoDe(id).value;
           emissoes == old(emissoes) + [EstadoSessao(ator, d.nivelAtual, d.status, d.tempoRestante, d.ranking),
                                        ParticipanteEntrou(id, ator)]
    {
      if id !in store.sessoes {
        emissoes := emissoes + [Falha(ator, SessaoNaoEncontrada)];
        return;
      }
      var sessao := store.sessoes[id];
      if ator !in sessao.participantes {
        emissoes := emissoes + [Falha(ator, NaoParticipante)];
        return;
      }
      Acolher(id, ator, sessao.status);
      var dados := sessoesDados[id];
      emissoes := emissoes + [EstadoSessao(ator, dados.nivelAtual, dados.status, dados.tempoRestante, dados.ranking),
                              ParticipanteEntrou(id, ator)];
    }

    /** The entry part of `entrarSessao` for a participant: the entry is
        created from the record's status if missing, and the user's list is
        added empty if absent. */
    method Acolher(id: SessionId, ator: UserId, status: Status)
      requires Valid()
      modifies this, Alvo(id)
      ensures Valid()
      ensures temporizadores == old(temporizadores) && proximoTemporizador == old(proximoTemporizador)
      ensures agendados == old(agendados) && emissoes == old(emissoes)
      ensures id in sessoesDados
      ensures id in old(sessoesDados) ==> sessoesDados == old(sessoesDados)
      ensures id !in old(sessoesDados) ==> fresh(sessoesDados[id]) && sessoesDados == old(sessoesDados)[id := sessoesDados[id]]
      ensures EstadoDe(id) == Some(Juntar(old(EstadoDe(id)), status, ator))
    {
      if id !in sessoesDados {
        var nova := new Entrada(0, status, 0);
        sessoesDados := sessoesDados[id := nova];
        JuntarNova(status, ator);
      }
      AcrescentarLista(id, ator, status);
    }

    /** Adds the user's empty list to the registered entry if it is absent. */
    method AcrescentarLista(id: SessionId, ator: UserId, status: Status)
      requires Valid() && id in sessoesDados
      modifies Alvo(id)
      ensures Valid()
      ensures EstadoDe(id) == Some(Juntar(old(EstadoDe(id)), status, ator))
    {
      var dados := sessoesDados[id];
      if Obter(dados.participantesPalavras, ator).None? {
        DefinirPreservaDistintas(dados.participantesPalavras, ator, []);
        dados.participantesPalavras := Definir(dados.participantesPalavras, ator, []);
      }
    }

    /** `atualizarRanking`: the list is built entry by entry, then sorted. */
    method AtualizarRanking(id: SessionId)
      requires Valid()
      modifies Alvo(id)
      ensures Valid()
      ensures sessoesDados == old(sessoesDados) && temporizadores == old(temporizadores)
      ensures proximoTemporizador == old(proximoTemporizador) && agendados == old(agendados) && emissoes == old(emissoes)
      ensures id in sessoesDados ==>
        sessoesDados[id].Estado() == old(sessoesDados[id].Estado()).(ranking := Ranking(old(sessoesDados[id].participantesPalavras)))
    {
      if id !in sessoesDados {
        return;
      }
      var dados := sessoesDados[id];
      var palavras := dados.participantesPalavras;
      var ranking: seq<EntradaRanking> := [];
      var i := 0;
      while i < |palavras|
        invariant 0 <= i <= |palavras|
        invariant |ranking| == i
        invariant forall k :: 0 <= k < i ==> ranking[k] == Contar(palavras[k])
      {
        ranking := ranking + [EntradaRanking(palavras[i].participante, |palavras[i].palavras|)];
        i := i + 1;
      }
      assert ranking == Project(palavras, Contar);
      dados.ranking := SortDesc(ranking, Contagem);
    }

    /** Socket `submeterPalavra`. */
    method SubmeterPalavra(id: SessionId, ator: UserId, nivel: Option<int>, palavra: string)
      requires Valid()
      modifies this, Alvo(id)
      ensures Valid()
      ensures sessoesDados == old(sessoesDados) && temporizadores == old(temporizadores)
      ensures proximoTemporizador == old(proximoTemporizador) && agendados == old(agendados)
      ensures match Submissao(old(EstadoDe(id)), ator, nivel, palavra)
        case Err(e) => EstadoDe(id) == old(EstadoDe(id)) && emissoes == old(emissoes) + [Falha(ator, e)]
        case Ok(d) =>
          EstadoDe(id) == Some(d)
          && emissoes == old(emissoes) + [PalavraAceite(ator, palavra, nivel.value), RankingAtualizado(id, d.ranking)]
    {
      if id !in sessoesDados {
        emissoes := emissoes + [Falha(ator, SessaoNaoInicializada)];
        return;
      }
      var dados := sessoesDados[id];
      if dados.status != Ativa {
        emissoes := emissoes + [Falha(ator, SessaoNaoAtiva)];
        return;
      }
      if nivel != Some(dados.nivelAtual) {
        emissoes := emissoes + [Falha(ator, NivelInvalido)];
        return;
      }
      ghost var antes := dados.Estado();
      var palavrasUtilizador := ListaDe(dados.participantesPalavras, ator);
      palavrasUtilizador := palavrasUtilizador + [palavra];
      DefinirPreservaDistintas(dados.participantesPalavras, ator, palavrasUtilizador);
      var tabela := Definir(dados.participantesPalavras, ator, palavrasUtilizador);
      dados.participantesPalavras := tabela;
      assert Valid();
      AtualizarRanking(id);
      assert dados.Estado() == antes.(participantesPalavras := tabela, ranking := Ranking(tabela));
      assert Submissao(Some(antes), ator, nivel, palavra) == Ok(dados.Estado());
      emissoes := emissoes + [PalavraAceite(ator, palavra, nivel.value), RankingAtualizado(id, dados.ranking)];
    }

    /** `iniciarTemporizadorNivel`: starts an interval for the entry's
        current level, or does nothing when the entry or the level is
        missing. */
    method IniciarTemporizadorNivel(id: SessionId, niveis: seq<Nivel>)
      requires Valid()
      modifies this, Alvo(id)
      ensures Valid()
      ensures sessoesDados == old(sessoesDados) && agendados == old(agendados) && emissoes == old(emissoes)
      ensures id !in old(sessoesDados) ==>
        temporizadores == old(temporizadores) && proximoTemporizador == old(proximoTemporizador)
      ensures id in old(sessoesDados) ==>
        var a := Arranque(old(sessoesDados[id].Estado()), niveis);
        && (a.None? ==> EstadoDe(id) == old(EstadoDe(id)) && temporizadores == old(temporizadores)
                        && proximoTemporizador == old(proximoTemporizador))
        && (a.Some? ==> EstadoDe(id) == Some(a.value.0)
                        && temporizadores == old(temporizadores)[old(proximoTemporizador) := Temporizador(id, sessoesDados[id], a.value.1, niveis)]
                        && proximoTemporizador == old(proximoTemporizador) + 1)
    {
      if id !in sessoesDados {
        return;
      }
      var dados := sessoesDados[id];
      var nivelAtual := dados.nivelAtual;
      var nivelConfig := ProcurarNivel(niveis, nivelAtual);
      if nivelConfig.None? {
        return;
      }
      var tempoRestante := nivelConfig.value.segundos;
      dados.tempoRestante := tempoRestante;
      temporizadores := temporizadores[proximoTemporizador := Temporizador(id, dados, Relogio(nivelAtual, tempoRestante), niveis)];
      proximoTemporizador := proximoTemporizador + 1;
    }

    /** The entry part of the socket `iniciarSessao`: an existing entry is
        set to level 1 and active before the seconds of the level at
        position 0 are read; a new entry is built from those seconds, so
        with no levels nothing is created. */
    method ReiniciarEntrada(id: SessionId, niveis: seq<Nivel>)
      requires Valid()
      modifies this, Alvo(id)
      ensures Valid()
      ensures temporizadores == old(temporizadores) && proximoTemporizador == old(proximoTemporizador)
      ensures agendados == old(agendados) && emissoes == old(emissoes)
      ensures id in sessoesDados <==> id in old(sessoesDados) || |niveis| > 0
      ensures id in old(sessoesDados) || |niveis| == 0 ==> sessoesDados == old(sessoesDados)
      ensures id !in old(sessoesDados) && |niveis| > 0 ==>
        fresh(sessoesDados[id]) && sessoesDados == old(sessoesDados)[id := sessoesDados[id]]
      ensures EstadoDe(id) == EntradaAoIniciar(old(EstadoDe(id)), niveis)
    {
      if id in sessoesDados {
        var dados := sessoesDados[id];
        dados.nivelAtual := 1;
        dados.status := Ativa;
        if |niveis| > 0 {
          dados.tempoRestante := niveis[0].segundos;
        }
      } else if |niveis| > 0 {
        var nova := new Entrada(1, Ativa, niveis[0].segundos);
        sessoesDados := sessoesDados[id := nova];
      }
    }

    /** The part of the socket `iniciarSessao` after the record has been
        saved as active: the entry is reset; with no levels the read of the
        first level's seconds throws and an error is sent back, otherwise
        the timer is started and the start announced. */
    method Arrancar(id: SessionId, ator: UserId, niveis: seq<Nivel>)
      requires Valid()
      modifies this, Alvo(id)
      ensures Valid()
      ensures agendados == old(agendados)
      ensures EntradaAoIniciar(old(EstadoDe(id)), niveis).Some? <==> id in sessoesDados
      ensures |niveis| == 0 ==>
        && sessoesDados == old(sessoesDados) && EstadoDe(id) == EntradaAoIniciar(old(EstadoDe(id)), niveis)
        && temporizadores == old(temporizadores) && emissoes == old(emissoes) + [Falha(ator, FalhaInicio)]
      ensures |niveis| > 0 ==>
        && id in sessoesDados
        && (id in old(sessoesDados) ==> sessoesDados == old(sessoesDados))
        && (id !in old(sessoesDados) ==> sessoesDados == old(sessoesDados)[id := sessoesDados[id]])
        && var d := EntradaAoIniciar(old(EstadoDe(id)), niveis).value;
           var a := Arranque(d, niveis);
           && EstadoDe(id) == Some(if a.Some? then a.value.0 else d)
           && temporizadores == (if a.Some?
                then old(temporizadores)[old(proximoTemporizador) := Temporizador(id, sessoesDados[id], a.value.1, niveis)]
                else old(temporizadores))
           && emissoes == old(emissoes) + [SessaoIniciada(id, 1, niveis[0].segundos)]
    {
      ReiniciarEntrada(id, niveis);
      if |niveis| == 0 {
        emissoes := emissoes + [Falha(ator, FalhaInicio)];
        return;
      }
      IniciarTemporizadorNivel(id, niveis);
      emissoes := emissoes + [SessaoIniciada(id, 1, niveis[0].segundos)];
    }

    /** Socket `iniciarSessao`: host-only, no status guard. The record is
        saved as active before the entry is touched, so a session without
        levels is left active, an existing entry at level 1 and active with
        no timer, and an error is sent back. */
    method IniciarSessao(id: SessionId, ator: UserId, store: SessaoController.Store)
      requires Valid() && store.Valid()
      modifies this, Alvo(id), store
      ensures Valid() && store.Valid()
      ensures store.users == old(store.users) && store.proximoId == old(store.proximoId)
      ensures store.difusoes == old(store.difusoes) && agendados == old(agendados)
      ensures id !in old(store.sessoes) ==>
        && store.sessoes == old(store.sessoes) && sessoesDados == old(sessoesDados) && EstadoDe(id) == old(EstadoDe(id))
        && temporizadores == old(temporizadores) && emissoes == old(emissoes) + [Falha(ator, SessaoNaoEncontrada)]
      ensures id in old(store.sessoes) ==>
        match MudancaHost(old(store.sessoes[id]), ator, Ativa)
        case Err(e) =>
          && store.sessoes == old(store.sessoes) && sessoesDados == old(sessoesDados) && EstadoDe(id) == old(EstadoDe(id))
          && temporizadores == old(temporizadores) && emissoes == old(emissoes) + [Falha(ator, e)]
        case Ok(s) =>
          && store.sessoes == old(store.sessoes)[id := s]
          && var niveis := s.configuracaoNiveis;
             if |niveis| == 0 then
               && sessoesDados == old(sessoesDados) && EstadoDe(id) == EntradaAoIniciar(old(EstadoDe(id)), niveis)
               && temporizadores == old(temporizadores) && emissoes == old(emissoes) + [Falha(ator, FalhaInicio)]
             else
               && id in sessoesDados
               && (id in old(sessoesDados) ==> sessoesDados == old(sessoesDados))
               && (id !in old(sessoesDados) ==> sessoesDados == old(sessoesDados)[id := sessoesDados[id]])
               && var d := EntradaAoIniciar(old(EstadoDe(id)), niveis).value;
                  var a := Arranque(d, niveis);
                  && EstadoDe(id) == Some(if a.Some? then a.value.0 else d)
                  && temporizadores == (if a.Some?
                       then old(temporizadores)[old(proximoTemporizador) := Temporizador(id, sessoesDados[id], a.value.1, niveis)]
                       else old(temporizadores))
                  && emissoes == old(emissoes) + [SessaoIniciada(id, 1, niveis[0].segundos)]
    {
      if id !in store.sessoes {
        emissoes := emissoes + [Falha(ator, SessaoNaoEncontrada)];
        return;
      }
      var sessao := store.sessoes[id];
      if sessao.host != ator {
        emissoes := emissoes + [Falha(ator, ApenasHost)];
        return;
      }
      store.DefinirStatus(id, Ativa);
      sessao := store.sessoes[id];
      Arrancar(id, ator, sessao.configuracaoNiveis);
    }

    /** Socket `pausarSessao`: host-only, no status guard; the entry, if
        any, mirrors the new status, which stops its timers at their next
        tick. */
    method PausarSessao(id: SessionId, ator: UserId, store: SessaoController.Store)
      requires Valid() && store.Valid()
      modifies this, Alvo(id), store
      ensures Valid() && store.Valid()
      ensures store.users == old(store.users) && store.proximoId == old(store.proximoId)
      ensures store.difusoes == old(store.difusoes)
      ensures sessoesDados == old(sessoesDados) && temporizadores == old(temporizadores)
      ensures proximoTemporizador == old(proximoTemporizador) && agendados == old(agendados)
      ensures id !in old(store.sessoes) ==>
        store.sessoes == old(store.sessoes) && EstadoDe(id) == old(EstadoDe(id))
        && emissoes == old(emissoes) + [Falha(ator, SessaoNaoEncontrada)]
      ensures id in old(store.sessoes) ==>
        match MudancaHost(old(store.sessoes[id]), ator, Pausada)
        case Err(e) =>
          store.sessoes == old(store.sessoes) && EstadoDe(id) == old(EstadoDe(id))
          && emissoes == old(emissoes) + [Falha(ator, e)]
        case Ok(s) =>
          && store.sessoes == old(store.sessoes)[id := s]
          && EstadoDe(id) == (if id in sessoesDados then Some(old(sessoesDados[id].Estado()).(status := Pausada)) else None)
          && emissoes == old(emissoes) + [SessaoPausada(id)]
    {
      if id !in store.sessoes {
        emissoes := emissoes + [Falha(ator, SessaoNaoEncontrada)];
        return;
      }
      var sessao := store.sessoes[id];
      if sessao.host != ator {
        emissoes := emissoes + [Falha(ator, ApenasHost)];
        return;
      }
      store.DefinirStatus(id, Pausada);
      if id in sessoesDados {
        var dados := sessoesDados[id];
        dados.status := Pausada;
      }
      emissoes := emissoes + [SessaoPausada(id)];
    }

    /** Socket `concluirSessao`: host-only, no status guard; the entry is
        dropped from the registry and no user metric changes. */
    method ConcluirSessao(id: SessionId, ator: UserId, store: SessaoController.Store)
      requires Valid() && store.Valid()
      modifies this, store
      ensures Valid() && store.Valid()
      ensures store.users == old(store.users) && store.proximoId == old(store.proximoId)
      ensures store.difusoes == old(store.difusoes)
      ensures temporizadores == old(temporizadores) && proximoTemporizador == old(proximoTemporizador)
      ensures agendados == old(agendados)
      ensures id !in old(store.sessoes) ==>
        store.sessoes == old(store.sessoes) && sessoesDados == old(sessoesDados)
        && emissoes == old(emissoes) + [Falha(ator, SessaoNaoEncontrada)]
      ensures id in old(store.sessoes) ==>
        match MudancaHost(old(store.sessoes[id]), ator, Concluida)
        case Err(e) =>
          store.sessoes == old(store.sessoes) && sessoesDados == old(sessoesDados)
          && emissoes == old(emissoes) + [Falha(ator, e)]
        case Ok(s) =>
          store.sessoes == old(store.sessoes)[id := s] && sessoesDados == old(sessoesDados) - {id}
          && emissoes == old(emissoes) + [SessaoConcluida(id)]
    {
      if id !in store.sessoes {
        emissoes := emissoes + [Falha(ator, SessaoNaoEncontrada)];
        return;
      }
      var sessao := store.sessoes[id];
      if sessao.host != ator {
        emissoes := emissoes + [Falha(ator, ApenasHost)];
        return;
      }
      store.DefinirStatus(id, Concluida);
      sessoesDados := sessoesDados - {id};
      emissoes := emissoes + [SessaoConcluida(id)];
    }

    /** Socket `expulsarParticipante`: the same record change as the HTTP
        handler; the runtime entry (and the expelled user's words in it) is
        left as it is. */
    method ExpulsarParticipante(id: SessionId, ator: UserId, alvo: UserId, agora: int, store: SessaoController.Store)
      requires store.Valid()
      modifies this, store
      ensures store.Valid()
      ensures store.users == old(store.users) && store.proximoId == old(store.proximoId)
      ensures store.difusoes == old(store.difusoes)
      ensures sessoesDados == old(sessoesDados) && temporizadores == old(temporizadores)
      ensures proximoTemporizador == old(proximoTemporizador) && agendados == old(agendados)
      ensures id !in old(store.sessoes) ==>
        store.sessoes == old(store.sessoes) && emissoes == old(emissoes) + [Falha(ator, SessaoNaoEncontrada)]
      ensures id in old(store.sessoes) ==>
        match SessaoController.Expulsar(old(store.sessoes[id]), ator, alvo, store.users, agora)
        case Err(e) => store.sessoes == old(store.sessoes) && emissoes == old(emissoes) + [Falha(ator, e)]
        case Ok(s) =>
          store.sessoes == old(store.sessoes)[id := s]
          && emissoes == old(emissoes) + [Expulsado(id, alvo), ParticipanteExpulso(id, alvo, NomeVisivel(store.users[alvo]))]
    {
      if id !in store.sessoes {
        emissoes := emissoes + [Falha(ator, SessaoNaoEncontrada)];
        return;
      }
      var sessao := store.sessoes[id];
      if sessao.host != ator {
        emissoes := emissoes + [Falha(ator, ApenasHost)];
        return;
      }
      if alvo !in store.users {
        emissoes := emissoes + [Falha(ator, ParticipanteNaoEncontrado)];
        return;
      }
      var participante := store.users[alvo];
      if alvo == sessao.host {
        emissoes := emissoes + [Falha(ator, HostNaoExpulsavel)];
        return;
      }
      SessaoController.ExpulsaoPreservaValidade(sessao, ator, alvo, store.users, agora);
      sessao := sessao.(participantes := SessaoController.Remover(sessao.participantes, alvo));
      sessao := sessao.(historicoAcoes := sessao.historicoAcoes + [SessaoController.AcaoExpulsao(ator, participante, agora)]);
      store.Guardar(sessao);
      emissoes := emissoes + [Expulsado(id, alvo), ParticipanteExpulso(id, alvo, NomeVisivel(participante))];
    }

    /** `finalizarSessao`: the session the timer was given is saved as
        concluded and its entry dropped; if the record no longer exists the
        save fails and nothing else happens. */
    method FinalizarSessao(id: SessionId, store: SessaoController.Store)
      requires Valid() && store.Valid()
      modifies this, store
      ensures Valid() && store.Valid()
      ensures store.users == old(store.users) && store.proximoId == old(store.proximoId)
      ensures store.difusoes == old(store.difusoes)
      ensures temporizadores == old(temporizadores) && proximoTemporizador == old(proximoTemporizador)
      ensures agendados == old(agendados)
      ensures id !in old(store.sessoes) ==>
        store.sessoes == old(store.sessoes) && sessoesDados == old(sessoesDados) && emissoes == old(emissoes)
      ensures id in old(store.sessoes) ==>
        && store.sessoes == old(store.sessoes)[id := old(store.sessoes[id]).(status := Concluida)]
        && sessoesDados == old(sessoesDados) - {id}
        && emissoes == old(emissoes) + [SessaoConcluida(id)]
    {
      if id !in store.sessoes {
        return;
      }
      store.DefinirStatus(id, Concluida);
      sessoesDados := sessoesDados - {id};
      emissoes := emissoes + [SessaoConcluida(id)];
    }

    /** The end of a level's countdown, once the interval is cleared: the
        captured entry moves to the next level and its timer is scheduled,
        or, with no next level, the session is finalised. */
    method FimDoNivel(t: Temporizador, store: SessaoController.Store)
      requires Valid() && store.Valid()
      modifies this, t.dados, store
      ensures Valid() && store.Valid()
      ensures store.users == old(store.users) && store.proximoId == old(store.proximoId)
      ensures store.difusoes == old(store.difusoes)
      ensures temporizadores == old(temporizadores) && proximoTemporizador == old(proximoTemporizador)
      ensures match ProcurarNivel(t.niveis, t.relogio.nivel + 1)
        case Some(p) =>
          && t.dados.Estado() == old(t.dados.Estado()).(nivelAtual := t.relogio.nivel + 1, tempoRestante := p.segundos)
          && sessoesDados == old(sessoesDados) && store.sessoes == old(store.sessoes)
          && agendados == old(agendados) + [Agendamento(t.sessao, t.niveis)]
          && emissoes == old(emissoes) + [NivelAvancado(t.sessao, t.relogio.nivel, t.relogio.nivel + 1, p.segundos)]
        case None =>
          && t.dados.Estado() == old(t.dados.Estado()) && agendados == old(agendados)
          && (t.sessao !in old(store.sessoes) ==>
                store.sessoes == old(store.sessoes) && sessoesDados == old(sessoesDados) && emissoes == old(emissoes))
          && (t.sessao in old(store.sessoes) ==>
                && store.sessoes == old(store.sessoes)[t.sessao := old(store.sessoes[t.sessao]).(status := Concluida)]
                && sessoesDados == old(sessoesDados) - {t.sessao}
                && emissoes == old(emissoes) + [SessaoConcluida(t.sessao)])
    {
      var dados := t.dados;
      var proximoNivel := t.relogio.nivel + 1;
      var proximoNivelConfig := ProcurarNivel(t.niveis, proximoNivel);
      if proximoNivelConfig.Some? {
        dados.nivelAtual := proximoNivel;
        dados.tempoRestante := proximoNivelConfig.value.segundos;
        emissoes := emissoes + [NivelAvancado(t.sessao, t.relogio.nivel, proximoNivel, proximoNivelConfig.value.segundos)];
        agendados := agendados + [Agendamento(t.sessao, t.niveis)];
      } else {
        FinalizarSessao(t.sessao, store);
      }
    }

    /** One second of the interval `h`: the step `Passo` applied to the
        entry object the interval captured. */
    method Tick(h: nat, store: SessaoController.Store)
      requires Valid() && store.Valid() && h in temporizadores
      modifies this, temporizadores[h].dados, store
      ensures Valid() && store.Valid()
      ensures store.users == old(store.users) && store.proximoId == old(store.proximoId)
      ensures store.difusoes == old(store.difusoes) && proximoTemporizador == old(proximoTemporizador)
      ensures var t := old(temporizadores[h]);
        match Passo(t.sessao in old(sessoesDados), old(t.dados.Estado()), t.relogio, t.niveis)
        case Parou =>
          && t.dados.Estado() == old(t.dados.Estado())
          && temporizadores == old(temporizadores) - {h} && sessoesDados == old(sessoesDados)
          && store.sessoes == old(store.sessoes) && agendados == old(agendados) && emissoes == old(emissoes)
        case Contou(d, r) =>
          && t.dados.Estado() == d
          && temporizadores == old(temporizadores)[h := t.(relogio := r)] && sessoesDados == old(sessoesDados)
          && store.sessoes == old(store.sessoes) && agendados == old(agendados)
          && emissoes == old(emissoes) + [TempoAtualizado(t.sessao, t.relogio.nivel, r.restante)]
        case Avancou(d, p) =>
          && t.dados.Estado() == d
          && temporizadores == old(temporizadores) - {h} && sessoesDados == old(sessoesDados)
          && store.sessoes == old(store.sessoes) && agendados == old(agendados) + [Agendamento(t.sessao, t.niveis)]
          && emissoes == old(emissoes) + [TempoAtualizado(t.sessao, t.relogio.nivel, t.relogio.restante - 1),
                                          NivelAvancado(t.sessao, t.relogio.nivel, t.relogio.nivel + 1, p.segundos)]
        case Concluiu(d) =>
          && t.dados.Estado() == d
          && temporizadores == old(temporizadores) - {h} && agendados == old(agendados)
          && (t.sessao !in old(store.sessoes) ==>
                && store.sessoes == old(store.sessoes) && sessoesDados == old(sessoesDados)
                && emissoes == old(emissoes) + [TempoAtualizado(t.sessao, t.relogio.nivel, t.relogio.restante - 1)])
          && (t.sessao in old(store.sessoes) ==>
                && store.sessoes == old(store.sessoes)[t.sessao := old(store.sessoes[t.sessao]).(status := Concluida)]
                && sessoesDados == old(sessoesDados) - {t.sessao}
                && emissoes == old(emissoes) + [TempoAtualizado(t.sessao, t.relogio.nivel, t.relogio.restante - 1),
                                                SessaoConcluida(t.sessao)])
    {
      var t := temporizadores[h];
      var dados := t.dados;
      ghost var passo := Passo(t.sessao in sessoesDados, dados.Estado(), t.relogio, t.niveis);
      if t.sessao !in sessoesDados || dados.status != Ativa {
        assert passo == Parou;
        temporizadores := temporizadores - {h};
        return;
      }
      var tempoRestante := t.relogio.restante - 1;
      ghost var d' := dados.Estado().(tempoRestante := tempoRestante);
      dados.tempoRestante := tempoRestante;
      assert dados.Estado() == d';
      emissoes := emissoes + [TempoAtualizado(t.sessao, t.relogio.nivel, tempoRestante)];
      if tempoRestante <= 0 {
        ghost var proximo := ProcurarNivel(t.niveis, t.relogio.nivel + 1);
        assert passo == if proximo.Some?
          then Avancou(d'.(nivelAtual := t.relogio.nivel + 1, tempoRestante := proximo.value.segundos), proximo.value)
          else Concluiu(d');
        temporizadores := temporizadores - {h};
        FimDoNivel(t, store);
      } else {
        assert passo == Contou(d', Relogio(t.relogio.nivel, tempoRestante));
        temporizadores := temporizadores[h := t.(relogio := Relogio(t.relogio.nivel, tempoRestante))];
      }
    }

    /** A pending timeout fires: the next level's timer starts. */
    method DispararAgendado(k: nat)
      requires Valid() && k < |agendados|
      modifies this, Alvo(agendados[k].sessao)
      ensures Valid()
      ensures agendados == old(agendados[..k] + agendados[k + 1..])
      ensures sessoesDados == old(sessoesDados) && emissoes == old(emissoes)
      ensures var a := old(agendados[k]);
        if a.sessao in old(sessoesDados) && Arranque(old(sessoesDados[a.sessao].Estado()), a.niveis).Some? then
          var (d, r) := Arranque(old(sessoesDados[a.sessao].Estado()), a.niveis).value;
          && EstadoDe(a.sessao) == Some(d)
          && temporizadores == old(temporizadores)[old(proximoTemporizador) := Temporizador(a.sessao, sessoesDados[a.sessao], r, a.niveis)]
        else
          EstadoDe(a.sessao) == old(EstadoDe(a.sessao)) && temporizadores == old(temporizadores)
    {
      var a := agendados[k];
      agendados := agendados[..k] + agendados[k + 1..];
      IniciarTemporizadorNivel(a.sessao, a.niveis);
    }
  }
}
