/** The session document of models/sessao.js: its fields, the level
    sub-document, and the validators Mongoose runs before every `save`. */
module SessaoModel {
  import opened Wrappers
  import opened Strings
  import opened UserModel

  const MaxParticipantes: nat := 50
  const MinOrdem: int := 1
  const MinSegundos: int := 5
  const MaxSegundos: int := 300
  const MaxTema: nat := 120
  const MinSenha: nat := 6
  const MinCodigo: nat := 6
  const MaxCodigo: nat := 20

  datatype Status = AguardandoInicio | Ativa | Pausada | Concluida

  /** A new document's `status` when none is given. */
  const StatusPorOmissao: Status := AguardandoInicio

  function NomeStatus(s: Status): string {
    match s
    case AguardandoInicio => "aguardando_inicio"
    case Ativa => "ativa"
    case Pausada => "pausada"
    case Concluida => "concluida"
  }

  /** The `enum` validator of `status`: a string is accepted exactly when it
      is the name of one of the four states, and then names that state. */
  function ValidarStatus(nome: string): (r: Option<Status>)
    ensures r.Some? ==> NomeStatus(r.value) == nome
    ensures r.None? ==> forall s: Status :: NomeStatus(s) != nome
  {
    if nome == "aguardando_inicio" then Some(AguardandoInicio)
    else if nome == "ativa" then Some(Ativa)
    else if nome == "pausada" then Some(Pausada)
    else if nome == "concluida" then Some(Concluida)
    else None
  }

  /** One entry of `configuracaoNiveis`. */
  datatype Nivel = Nivel(ordem: int, segundos: int)

  /** The `min`/`max` bounds of `NivelSchema`. */
  predicate NivelValido(n: Nivel) {
    n.ordem >= MinOrdem && MinSegundos <= n.segundos <= MaxSegundos
  }

  /** `niveis.map((n) => n.ordem)` */
  function Ordens(niveis: seq<Nivel>): (r: seq<int>)
    ensures |r| == |niveis|
    ensures forall i :: 0 <= i < |niveis| ==> r[i] == niveis[i].ordem
  {
    if niveis == [] then [] else Ordens(niveis[..|niveis| - 1]) + [niveis[|niveis| - 1].ordem]
  }

  /** `new Set(xs)`: the distinct values of `xs`. */
  function ConjuntoDe(xs: seq<int>): (r: set<int>)
    ensures forall x :: x in r <==> x in xs
  {
    if xs == [] then {} else ConjuntoDe(xs[..|xs| - 1]) + {xs[|xs| - 1]}
  }

  predicate Distintos(xs: seq<int>) {
    forall i, j :: 0 <= i < j < |xs| ==> xs[i] != xs[j]
  }

  /** A list with one more value at its end has no repeated value exactly
      when the shorter list has none and does not hold the new value. */
  lemma DistintosAcrescentar(p: seq<int>, x: int)
    ensures Distintos(p + [x]) <==> Distintos(p) && x !in p
  {
    var xs := p + [x];
    if Distintos(xs) {
      forall i, j | 0 <= i < j < |p| ensures p[i] != p[j] {
        assert xs[i] == p[i] && xs[j] == p[j];
      }
      forall k | 0 <= k < |p| ensures p[k] != x {
        assert xs[k] == p[k] && xs[|p|] == x;
      }
    }
    if Distintos(p) && x !in p {
      forall i, j | 0 <= i < j < |xs| ensures xs[i] != xs[j] {
        assert xs[i] == p[i];
        if j < |p| {
          assert xs[j] == p[j];
        }
      }
    }
  }

  /** A `Set` is never larger than the list it is built from, and is as large
      exactly when the list has no repeated value. */
  lemma {:induction false} TamanhoConjunto(xs: seq<int>)
    ensures |ConjuntoDe(xs)| <= |xs|
    ensures |ConjuntoDe(xs)| == |xs| <==> Distintos(xs)
  {
    if xs != [] {
      var p, x := xs[..|xs| - 1], xs[|xs| - 1];
      assert xs == p + [x];
      TamanhoConjunto(p);
      DistintosAcrescentar(p, x);
      if x in ConjuntoDe(p) {
        assert ConjuntoDe(xs) == ConjuntoDe(p);
      } else {
        assert |ConjuntoDe(xs)| == |ConjuntoDe(p)| + 1;
      }
    }
  }

  /** The validator of `configuracaoNiveis`:
      `new Set(ordens).size === ordens.length`. */
  predicate OrdensUnicas(niveis: seq<Nivel>) {
    |ConjuntoDe(Ordens(niveis))| == |Ordens(niveis)|
  }

  /** The size comparison in the validator means exactly "no two levels
      share an `ordem`". */
  lemma {:induction false} OrdensUnicasSeDistintas(niveis: seq<Nivel>)
    ensures OrdensUnicas(niveis) <==>
      forall i, j :: 0 <= i < j < |niveis| ==> niveis[i].ordem != niveis[j].ordem
  {
    var os := Ordens(niveis);
    TamanhoConjunto(os);
    assert OrdensUnicas(niveis) <==> Distintos(os);
    DistintosOrdens(niveis);
  }

  lemma DistintosOrdens(niveis: seq<Nivel>)
    ensures Distintos(Ordens(niveis)) <==>
      forall i, j :: 0 <= i < j < |niveis| ==> niveis[i].ordem != niveis[j].ordem
  {
    var os := Ordens(niveis);
    assert forall i :: 0 <= i < |niveis| ==> os[i] == niveis[i].ordem;
  }

  /** Every level within its bounds and all orders unique. */
  predicate ConfiguracaoValida(niveis: seq<Nivel>) {
    (forall i :: 0 <= i < |niveis| ==> NivelValido(niveis[i])) && OrdensUnicas(niveis)
  }

  /** The validator of `participantes`. */
  predicate ParticipantesValidos(p: seq<UserId>) {
    |p| <= MaxParticipantes
  }

  /** The validator of `senhaSala`: always valid for an unprotected room;
      for a protected one the password must be present with a `length` of at
      least 6 UTF-16 code units. */
  predicate SenhaValida(protegida: bool, senha: Option<string>) {
    !protegida || (senha.Some? && Utf16Len(senha.value) >= MinSenha)
  }

  predicate CaracterCodigo(c: char) {
    'A' <= c <= 'Z' || '0' <= c <= '9' || c == '-'
  }

  /** `/^[A-Z0-9-]{6,20}$/.test(codigo)` */
  predicate CodigoSalaValido(codigo: string) {
    MinCodigo <= |codigo| <= MaxCodigo
    && forall k :: 0 <= k < |codigo| ==> CaracterCodigo(codigo[k])
  }

  /** A code that matches the pattern is left as it is by both normalisations
      applied to it before it is stored: `toUpperCase()` in the handler and
      the schema's `trim`. */
  lemma CodigoValidoNormalizado(codigo: string)
    requires CodigoSalaValido(codigo)
    ensures ToUpper(codigo) == codigo
    ensures Trim(ToUpper(codigo)) == codigo
  {
    assert ToUpper(codigo) == codigo;
  }

  /** The stored `tema` (after the schema's `trim`): required, so not empty,
      and a `maxlength` of 120 UTF-16 code units. */
  predicate TemaValido(tema: string) {
    0 < |tema| && Utf16Len(tema) <= MaxTema
  }

  /** Both limits count UTF-16 code units, as JavaScript's `length` does,
      not characters: a theme of 61 characters outside the Basic
      Multilingual Plane (an emoji each) is too long, and a password of 3
      such characters is long enough. */
  lemma LimitesEmUnidades(tema: string, senha: string)
    requires |tema| == 61 && forall k :: 0 <= k < |tema| ==> (tema[k] as int) >= 0x1_0000
    requires |senha| == 3 && forall k :: 0 <= k < |senha| ==> (senha[k] as int) >= 0x1_0000
    ensures !TemaValido(tema)
    ensures SenhaValida(true, Some(senha))
  {
    Utf16LenAstral(tema);
    Utf16LenAstral(senha);
  }

  /** The `tempoTotalEstimado` virtual: the sum of every level's `segundos`,
      folded from left to right starting at 0. */
  function TempoTotalEstimado(niveis: seq<Nivel>): int {
    if niveis == [] then 0
    else TempoTotalEstimado(niveis[..|niveis| - 1]) + niveis[|niveis| - 1].segundos
  }

  /** The estimate of two configurations laid end to end is the sum of
      their estimates. */
  lemma {:induction false} TempoTotalConcatenado(a: seq<Nivel>, b: seq<Nivel>)
    ensures TempoTotalEstimado(a + b) == TempoTotalEstimado(a) + TempoTotalEstimado(b)
  {
    if b != [] {
      var b' := b[..|b| - 1];
      assert (a + b)[..|a + b| - 1] == a + b';
      TempoTotalConcatenado(a, b');
    } else {
      assert a + b == a;
    }
  }

  /** With every level within its bounds, `n` levels take between 5n and
      300n seconds. */
  lemma {:induction false} TempoTotalLimites(niveis: seq<Nivel>)
    requires forall i :: 0 <= i < |niveis| ==> NivelValido(niveis[i])
    ensures MinSegundos * |niveis| <= TempoTotalEstimado(niveis) <= MaxSegundos * |niveis|
  {
    if niveis != [] {
      var p := niveis[..|niveis| - 1];
      assert forall i :: 0 <= i < |p| ==> p[i] == niveis[i];
      TempoTotalLimites(p);
      assert NivelValido(niveis[|niveis| - 1]);
    }
  }

  /** An element of `ideias`. */
  datatype Ideia = Ideia(texto: string, autor: UserId, timestamp: int)

  datatype TipoAcao = Pausa | Reinicio | Expulsao

  /** An element of `historicoAcoes`. */
  datatype Acao = Acao(tipo: TipoAcao, executadoPor: UserId, timestamp: int, detalhes: string)

  datatype Sessao = Sessao(
    id: SessionId,
    tema: string,
    codigoSala: string,
    host: UserId,
    participantes: seq<UserId>,
    ideias: seq<Ideia>,
    configuracaoNiveis: seq<Nivel>,
    status: Status,
    salaProtegida: bool,
    senhaSala: Option<string>,
    historicoAcoes: seq<Acao>)

  /** Everything `save` checks: a document failing this is never written. */
  predicate SessaoValida(s: Sessao) {
    && TemaValido(s.tema)
    && CodigoSalaValido(s.codigoSala)
    && ParticipantesValidos(s.participantes)
    && ConfiguracaoValida(s.configuracaoNiveis)
    && SenhaValida(s.salaProtegida, s.senhaSala)
  }
}
