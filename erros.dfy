/** The error outcomes of the HTTP and real-time handlers. Each names the
    condition that fails; most stand for their own flash message, JSON error
    or `erro` event. `CodigoInvalido` and `FalhaCriacao` are told apart for
    the proofs only: criarSessao logs the code-format message, and the user
    gets the same flash 'Erro ao criar sessão' for both. */
module Erros {

  datatype Erro =
    | CodigoInvalido             // bad code format; flashed as "Erro ao criar sessão"
    | FalhaCriacao               // any other exception in criarSessao before saving; same flash
    | FalhaValidacao             // Mongoose ValidationError on save
    | CodigoEmUso                // duplicate-key error on codigoSala
    | SessaoNaoEncontrada        // "Sessão não encontrada"
    | SessaoJaConcluida          // "Esta sessão já foi concluída"
    | SenhaIncorreta             // "Senha incorreta"
    | LimiteAtingido             // "... limite máximo de 50 participantes"
    | ApenasHost                 // "Apenas o host pode ..."
    | EstadoNaoPermite           // "A sessão não pode ser iniciada/pausada neste momento"
    | ParticipanteNaoEncontrado  // "Participante não encontrado"
    | HostNaoExpulsavel          // "O host não pode ser expulso"
    | NaoParticipante            // "Você não é participante desta sessão"
    | SessaoNaoAtiva             // "A sessão não está ativa"
    | SessaoNaoInicializada      // "Sessão não inicializada"
    | NivelInvalido              // "Nível inválido"
    | FalhaInicio                // "Erro ao iniciar sessão" (exception in the socket handler)
}
