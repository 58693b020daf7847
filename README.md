# Brainstorming sessions: a verified model of the session lifecycle

This project models, in Dafny, the core of a brainstorming-session web
application (Node.js, Express, Mongoose, Socket.IO):

- the validators of the session record (`models/sessao.js`);
- the HTTP handlers that create, join, start, pause, conclude and moderate
  sessions, and that take word submissions (`controllers/sessaoController.js`);
- the real-time side (`controllers/websocketController.js`), made of:
  - the in-memory registry `sessoesDados` of runtime entries;
  - the socket handlers;
  - the ranking recomputation;
  - the once-per-second level timer;
- the leaderboard query (`controllers/userController.js`, `getLeaderboard`).

The database is an in-memory record store, the class
`SessaoController.Store`:
- `findById` returns a copy of the stored document;
- each handler changes that copy step by step;
- `save` (`Store.Guardar`) writes it back.

The store's invariant `Valid()` says that:
- every stored document passes the schema validators;
- no two documents share a room code, as the unique index requires.

Socket broadcasts are appended to event logs (`Store.difusoes`,
`Registo.emissoes`).

The registry is the class `WebsocketController.Registo`. It maps each
session id to a mutable `Entrada` object. Each running interval is a
`Temporizador`, which holds:
- the entry object it captured;
- its own countdown;
- the level list of the record it was given.

`Registo.Tick` performs one second of one interval. It is the pure step
`Passo` applied to the captured entry. Pending `setTimeout`s that start the
next level are kept in `Registo.agendados`, and `Registo.DispararAgendado`
fires one of them.

Modules:
- `Wrappers`: `Option` and `Result`.
- `Strings`: JavaScript `trim` and `toUpperCase`.
- `Sorting`: a stable descending sort, with its sortedness, permutation and
  stability lemmas.
- `UserModel`: the user record fields the core touches.
- `Erros`: the error outcomes.
- `SessaoModel`: the schema validators and `tempoTotalEstimado`.
- `SessaoController`: the HTTP lifecycle.
- `WebsocketController`: the registry, socket handlers and timer.
- `UserController`: the leaderboard.

Identifiers are natural numbers.

Some behaviour of the code that the model follows as written:
- The schema sets no length limit on an idea's text, so none is modelled.
- `metricas.ideiasContribuidas` is never incremented anywhere in the code,
  so the model never increments it. A leaderboard sorted by `ideias` then
  ranks users by a counter that stays at its initial value.
- Neither `concluirSessao` refuses a session that is already concluded.
- The socket `iniciarSessao` and `pausarSessao` have no status guard. The
  HTTP ones do.

## Model

| member | source | states |
|---|---|---|
| Strings.Trim | models/sessao.js:47 | The trim is never longer than the input. It is empty exactly when the input is blank, it neither starts nor ends with whitespace, and a string that does neither is its own trim. |
| Strings.Utf16Len | models/sessao.js:48 | JavaScript's `length` counts UTF-16 code units: at least one and at most two per character. |
| Strings.Utf16LenBmp | models/sessao.js:119 | The length equals the character count exactly when every character lies in the Basic Multilingual Plane. |
| Strings.Utf16LenAstral | models/sessao.js:119 | A string of characters outside the Basic Multilingual Plane has two code units per character. |
| Strings.Utf16LenConcatenado | models/sessao.js:48 | The length of two strings laid end to end is the sum of their lengths. |
| Strings.ToUpper | controllers/sessaoController.js:95 | Upper-casing keeps the length, maps each ASCII lower-case letter to its capital and leaves every other character alone. |
| Strings.TrimFatia | models/sessao.js:47 | The trim is a slice of the input whose cut-off prefix and suffix are both blank. |
| SessaoModel.NivelValido | models/sessao.js:6-17 | A level is valid when its order is at least 1 and its seconds lie in [5, 300]. |
| SessaoModel.ConfiguracaoValida | models/sessao.js:87-97 | A level list is valid when every level is and no two share an order, by the `Set`-size check. |
| SessaoModel.ParticipantesValidos | models/sessao.js:69-80 | The participant list holds at most 50 entries. |
| SessaoModel.SenhaValida | models/sessao.js:114-123 | An unprotected room always passes. A protected one needs a password of at least 6 UTF-16 code units. |
| SessaoModel.CodigoSalaValido | models/sessao.js:51-63 | A code is 6 to 20 characters, each a capital ASCII letter, a digit or `-`. |
| SessaoModel.TemaValido | models/sessao.js:44-49 | The stored theme is not empty and is at most 120 UTF-16 code units long. |
| SessaoModel.LimitesEmUnidades | models/sessao.js:48 | A theme of 61 characters outside the Basic Multilingual Plane is too long, while a password of 3 such characters is long enough. |
| SessaoModel.SessaoValida | models/sessao.js:42-144 | A document can be saved exactly when the theme, code, participant list, level list and password validators all pass. |
| SessaoModel.TempoTotalEstimado | models/sessao.js:152-157 | The estimated total time is the left fold of the levels' seconds, starting at 0. |
| SessaoModel.ValidarStatus | models/sessao.js:98-105 | A status name is accepted exactly when it is the name of one of the four statuses. An unknown name matches no status. |
| SessaoModel.Ordens | models/sessao.js:92 | The list of orders has one element per level, in level order. |
| SessaoModel.ConjuntoDe | models/sessao.js:93 | The `Set` built from a list holds exactly the list's values. |
| SessaoModel.DistintosAcrescentar | models/sessao.js:93 | A list with one more value at its end has no repeated value exactly when the shorter list has none and does not hold the new value. |
| SessaoModel.TamanhoConjunto | models/sessao.js:93 | The `Set` is never larger than the list. It is equally large exactly when the list has no repeated value. |
| SessaoModel.OrdensUnicasSeDistintas | models/sessao.js:91-94 | The `Set`-size validator holds exactly when no two levels share an `ordem`. |
| SessaoModel.CodigoValidoNormalizado | models/sessao.js:57-59 | A code that matches the pattern is unchanged by upper-casing and trimming. The stored code therefore equals the submitted one. |
| SessaoModel.TempoTotalConcatenado | models/sessao.js:152-157 | The estimated total of two level lists laid end to end is the sum of their totals. |
| SessaoModel.TempoTotalLimites | models/sessao.js:152-157 | For valid levels the estimated total lies between 5·n and 300·n seconds. It is 0 for no levels. |
| SessaoController.Limitar | controllers/sessaoController.js:89 | The clamped seconds lie in [5, 300]. A value already in range is kept, a lower one becomes 5 and a higher one becomes 300. |
| SessaoController.NormalizarNiveis | controllers/sessaoController.js:87-90 | There is one level per input, and level i has `ordem` i+1 and the clamped seconds. The result always passes the level validators, including unique orders. |
| SessaoController.Criar | controllers/sessaoController.js:80-101 | A code that does not match the pattern is refused before anything else. A missing level list is a creation failure. Otherwise creation fails exactly when a level is NaN, the trimmed theme is empty or longer than 120 UTF-16 code units, or a protected room lacks a password of 6 code units. A created session is valid: its host is its only participant, its status is the default, it has no ideas or history, and it holds the normalised levels. It is protected exactly when the flag is `'on'`, and only then does it keep the password. |
| SessaoController.Entrar | controllers/sessaoController.js:153-179 | A concluded session is refused, members included. A protected room with a wrong password is refused. A member leaves the document unchanged. A non-member is refused exactly when the list already holds 50, and is appended otherwise. |
| SessaoController.Participar | controllers/sessaoController.js:212-244 | The only refusals are these two. A non-member who is not the host is refused for a concluded session, and exactly then. On a live session they are refused at 50 participants, and exactly then. So members and the host always pass and leave the document unchanged, and any other user is otherwise appended. There is no password check. |
| SessaoController.EntradaUmaVez | controllers/sessaoController.js:165-179 | After a join the user occurs exactly once if they were absent before. Otherwise they occur as often as before. |
| SessaoController.EntradaIdempotente | controllers/sessaoController.js:165-179 | Joining twice gives the same result as joining once, on both join paths. |
| SessaoController.EntradaPreservaValidade | controllers/sessaoController.js:171 | A successful join keeps the document valid, including the 50-participant cap. |
| SessaoController.Iniciar | controllers/sessaoController.js:270-283 | It succeeds exactly for the host on a waiting or paused session. The result is active and nothing else changes. |
| SessaoController.TempoInicial | controllers/sessaoController.js:290 | The broadcast time is the first level's seconds, or 60 when there are no levels. |
| SessaoController.Pausar | controllers/sessaoController.js:321-343 | It succeeds exactly for the host on an active session. The result is paused, with exactly one `pausa` entry appended to the history. |
| SessaoController.CicloPausa | controllers/sessaoController.js:276-327 | Pausing and then starting returns to active with one more history entry. Starting an active session and pausing a paused one are refused. |
| SessaoController.Concluir | controllers/sessaoController.js:382-404 | It succeeds exactly for the host, whatever the current status, and the result is concluded. |
| SessaoController.AdicionarAoConjunto | controllers/sessaoController.js:391 | `$addToSet` appends the session id unless the list holds it already. |
| SessaoController.Participou | controllers/sessaoController.js:388-394 | The `updateMany` on one participant adds the session to their list and 1 to their participation counter. |
| SessaoController.Criou | controllers/sessaoController.js:397-400 | The host's update adds 1 to their created-count. |
| SessaoController.AtualizarMetricas | controllers/sessaoController.js:388-400 | No user record is created. Each participant's counter rises by exactly 1, and a participant listed twice still counts once. Each participant's list becomes the `$addToSet` of the session, so it gains the session at its end unless it holds it already. The host's created-count rises by 1. Every other field of every user keeps its value, and users who are neither participant nor host do not change at all. |
| SessaoController.ConclusaoUmaVezNaLista | controllers/sessaoController.js:390 | After a conclusion the session occurs exactly once in each participant's list, because `$addToSet` never duplicates it. |
| SessaoController.ConclusaoRepetida | controllers/sessaoController.js:382-404 | Concluding twice raises every counter by 2, while the lists are the same as after one conclusion. |
| SessaoController.Remover | controllers/sessaoController.js:456 | The target is gone, every other user keeps their membership, and the length drops by the target's occurrence count. |
| SessaoController.RemoverConcatenado | controllers/sessaoController.js:456 | The filter respects concatenation, so the remaining participants keep their order. |
| SessaoController.Expulsar | controllers/sessaoController.js:440-466 | It is refused for a non-host actor, an unknown target, or a target that is the host, and it succeeds exactly otherwise. On success every occurrence of the target is removed and one `expulsao` entry naming the target is appended. |
| SessaoController.ExpulsaoPreservaValidade | controllers/sessaoController.js:451-456 | An expulsion keeps the document valid, and a host who was in the list stays in it. |
| SessaoController.IdeiasNaoVazias | controllers/sessaoController.js:518-530 | There are never more ideas than words. No idea is blank, and each idea is a submitted word, authored by the actor at the given time. |
| SessaoController.IdeiasSemBrancos | controllers/sessaoController.js:518-530 | When no word is blank, every word becomes an idea, in submission order. |
| SessaoController.IdeiasSoBrancos | controllers/sessaoController.js:530 | When every word is blank, no idea is pushed. |
| SessaoController.IdeiasConcatenadas | controllers/sessaoController.js:518-530 | Two batches of words give the first batch's ideas followed by the second's, so submission order is kept. |
| SessaoController.Submeter | controllers/sessaoController.js:506-540 | A non-participant is refused, and so is a session that is not active. Otherwise the non-blank words are appended as ideas, and the reply counts every submitted word, blank ones included. |
| SessaoController.Store.Guardar | controllers/sessaoController.js:178 | `save` of a loaded valid document replaces exactly that record and keeps the store valid. |
| SessaoController.InserirPreservaValida | controllers/sessaoController.js:104-115 | Storing a valid document under the next id, with a code no stored document uses, keeps ids below the counter and room codes unique. |
| SessaoController.Store.CriarSessao | controllers/sessaoController.js:77-137 | The store gains the created document under a fresh id, or it is unchanged when creation is refused or the code is already in use. |
| SessaoController.Store.EntrarSessao | controllers/sessaoController.js:140-186 | The session is looked up by code, an unknown code is not found, and the store changes exactly as `Entrar` says. |
| SessaoController.Store.ParticiparSessao | controllers/sessaoController.js:189-256 | The store changes exactly as `Participar` says. A participant list is broadcast exactly when a user was added. |
| SessaoController.Store.IniciarSessao | controllers/sessaoController.js:259-307 | The store changes as `Iniciar` says, and `sessaoIniciada` is broadcast with level 1 and `TempoInicial`. |
| SessaoController.Store.PausarSessao | controllers/sessaoController.js:310-368 | The store changes as `Pausar` says, and a pause is broadcast. |
| SessaoController.Store.ConcluirSessao | controllers/sessaoController.js:371-427 | The user metrics change as `AtualizarMetricas` says and the record becomes concluded, but only for the host. |
| SessaoController.Store.ExpulsarParticipante | controllers/sessaoController.js:430-491 | The store changes as `Expulsar` says, and the expelled user's id and display name are broadcast. |
| SessaoController.Store.SubmeterPalavras | controllers/sessaoController.js:494-545 | The store changes as `Submeter` says, and the reply is `palavrasCount`. |
| SessaoController.Store.DefinirStatus | controllers/websocketController.js:173-174 | A socket handler's `status =` plus `save` changes only that record's status and keeps the store valid. |
| Sorting.SortDesc | controllers/websocketController.js:492 | Sorting keeps the length and the multiset of elements, so it is a permutation. |
| Sorting.SortDescSorted | controllers/websocketController.js:492 | The sorted result has non-increasing keys. |
| Sorting.SortDescStable | controllers/websocketController.js:492 | For every key value, the elements carrying it keep their input order. |
| Sorting.SortDescProject | controllers/websocketController.js:492 | Any projection of the elements, such as their ids, has the same multiset before and after sorting. |
| WebsocketController.Obter | controllers/websocketController.js:134 | `Map.get` finds a value exactly when some entry has the key, and the value found belongs to an entry with that key. |
| WebsocketController.Definir | controllers/websocketController.js:136 | `Map.set` makes the key map to the new list and leaves every other key's value. A new key is appended last. |
| WebsocketController.DefinirMantemChaves | controllers/websocketController.js:136 | Setting a key that is already present keeps the length and every entry's key in its place. |
| WebsocketController.DefinirOrdem | controllers/websocketController.js:136 | `Map.set` keeps the key order. A key that was absent is appended last. |
| WebsocketController.DefinirPreservaDistintas | controllers/websocketController.js:88 | Setting a key never creates a duplicate key. |
| WebsocketController.ObterEntrada | controllers/websocketController.js:134 | With distinct keys, looking up an entry's key finds that entry's list. |
| WebsocketController.Ranking | controllers/websocketController.js:483-495 | The ranking is the Map's entries, each with its word count, stably sorted by decreasing count. |
| WebsocketController.RankingCorreto | controllers/websocketController.js:483-495 | The ranking has exactly one element per key of the word map, each counting that key's list. Counts never increase along the ranking, and users with equal counts keep the map's insertion order. |
| WebsocketController.Juntar | controllers/websocketController.js:74-89 | The first join creates the entry at level 0 and time 0, with the record's status, no ranking and only the user's empty list. Later joins never reset the entry and leave every other user's list alone. The user's list is added empty only if it is absent. The map's keys keep their order, and a new user goes last. |
| WebsocketController.JuntarNova | controllers/websocketController.js:74-89 | Joining with no entry gives the same entry as joining the entry that the first join creates. |
| WebsocketController.JuntarIdempotente | controllers/websocketController.js:74-89 | A second join by the same user changes nothing. |
| WebsocketController.Submissao | controllers/websocketController.js:114-139 | It is refused with no change when there is no entry, the entry is not active, or `nivel` differs from the current level. Otherwise only the submitter's list changes, growing by the word at its end, and the ranking is recomputed. The map's keys keep their order, and a first-time submitter goes last. |
| WebsocketController.SubmissaoEmpateOrdem | controllers/websocketController.js:132-138 | With users 1 and 2 tied at one word each after user 1's submission, user 1 comes first in the ranking. User 1 was inserted first. |
| WebsocketController.EntradaAoIniciar | controllers/websocketController.js:177-190 | Starting makes the entry level 1 and active, with the seconds of the level at position 0. Existing word lists and ranking are kept. With no levels, an existing entry is still set to level 1 and active and keeps its seconds, and a missing entry is not created. |
| WebsocketController.InicioSemNiveis | controllers/websocketController.js:186-189 | After a start with no levels, an existing entry is active at level 1, so a word for level 1 is accepted. With no entry, none is created. |
| WebsocketController.ProcurarNivel | controllers/websocketController.js:361 | `find` fails exactly when no level has the order. What it finds is a level with that order. |
| WebsocketController.ProcurarUnico | models/sessao.js:91-94 | In a valid configuration, the search for a level's order finds that level. |
| WebsocketController.ProcurarNormalizado | controllers/sessaoController.js:87-90 | In levels built at creation, level k is entry k-1, and orders outside 1..n are not found. |
| WebsocketController.Arranque | controllers/websocketController.js:357-366 | The timer does not start when no level has the entry's current order. Otherwise the entry and the countdown get that level's seconds. |
| WebsocketController.Passo | controllers/websocketController.js:370-417 | A tick stops with no change when the entry is gone or not active. Otherwise the countdown drops by exactly 1. At zero the entry moves to level `nivel+1` with its seconds when that level exists, and otherwise the session concludes. |
| WebsocketController.Correr | controllers/websocketController.js:370-417 | The outcome of the n-th tick of an interval whose entry nothing else touches: the step applied n times, stopping once a tick does not simply count down. |
| WebsocketController.DuracaoExata | controllers/websocketController.js:365-385 | A countdown of s ≥ 1 seconds ticks for exactly s-1 ticks. The s-th tick rolls over when the next level exists and concludes otherwise. |
| WebsocketController.ArranqueDuraNivel | controllers/websocketController.js:360-385 | A timer started on a level of a valid configuration runs that level's seconds, at least 5, before the level ends. |
| WebsocketController.MudancaHost | controllers/websocketController.js:167-173 | The socket start, pause and conclude change the record for the host only, with no status guard. |
| WebsocketController.InicioSemGuarda | controllers/websocketController.js:166-174 | The host can start an active or a concluded session over the socket, while the HTTP handler refuses it. |
| WebsocketController.Registo.EntrarSessao | controllers/websocketController.js:48-109 | An unknown session or a non-participant gets an error and leaves the registry unchanged. Otherwise the entry changes as `Juntar` says and its state is sent back. |
| WebsocketController.Registo.Acolher | controllers/websocketController.js:74-89 | The entry is created if missing, as a fresh object under that id only, and then changes as `Juntar` says. Timers and emissions are untouched. |
| WebsocketController.Registo.AcrescentarLista | controllers/websocketController.js:84-89 | A registered entry changes as `Juntar` says, and the table keeps distinct keys. |
| WebsocketController.Registo.AtualizarRanking | controllers/websocketController.js:478-496 | The loop builds one element per map entry, then sorts them. The entry's ranking becomes `Ranking` of its word map. |
| WebsocketController.Registo.SubmeterPalavra | controllers/websocketController.js:112-154 | The entry changes exactly as `Submissao` says. A rejection is reported to the sender. An acceptance is confirmed and the new ranking broadcast. |
| WebsocketController.Registo.IniciarTemporizadorNivel | controllers/websocketController.js:356-366 | Nothing happens without an entry. Otherwise the entry changes as `Arranque` says, and a new interval holding the entry object is registered exactly when `Arranque` finds the level. |
| WebsocketController.Registo.ReiniciarEntrada | controllers/websocketController.js:177-190 | The entry is created or reset as `EntradaAoIniciar` says. A new entry object is created only when there is a level at position 0. |
| WebsocketController.Registo.Arrancar | controllers/websocketController.js:175-206 | With no levels, the entry is reset as `EntradaAoIniciar` says (an existing one becomes active at level 1), no timer starts, and an error is sent back. Otherwise the entry is reset as `EntradaAoIniciar` says, the timer starts as `Arranque` says, and the start is announced with level 1 and the first level's seconds. |
| WebsocketController.Registo.IniciarSessao | controllers/websocketController.js:157-206 | The host's start saves the record as active with no status guard. Then the entry is reset and the timer started. With no levels, the record is saved active, an existing entry becomes active at level 1 with no timer, and an error follows. |
| WebsocketController.Registo.PausarSessao | controllers/websocketController.js:209-244 | The host's pause saves the record as paused with no status guard, and the entry, if there is one, mirrors it. |
| WebsocketController.Registo.ConcluirSessao | controllers/websocketController.js:247-279 | The host's conclude saves the record as concluded and deletes the entry. User metrics are not touched. |
| WebsocketController.Registo.ExpulsarParticipante | controllers/websocketController.js:282-344 | The record changes exactly as the HTTP `Expulsar` says. The runtime entry is not touched. |
| WebsocketController.Registo.FinalizarSessao | controllers/websocketController.js:457-475 | The record becomes concluded, the entry is deleted and the conclusion is broadcast. If the record no longer exists, nothing changes. |
| WebsocketController.Registo.FimDoNivel | controllers/websocketController.js:390-417 | When a countdown reaches zero, the entry moves to the next level with its seconds and a timeout is queued if that level exists. Otherwise the session is finalised as `FinalizarSessao` says. |
| WebsocketController.Registo.Tick | controllers/websocketController.js:368-419 | The captured entry, the interval table, the pending timeouts, the record and the log change exactly as `Passo` says. |
| WebsocketController.Registo.DispararAgendado | controllers/websocketController.js:408-410 | A pending timeout is consumed and starts the next level's interval through `IniciarTemporizadorNivel`. |
| UserController.ParametroNumerico | controllers/userController.js:105-106 | `parseInt(x) \|\| d` is `d` for NaN and for 0, and keeps every other value, including negative ones. |
| UserController.Metrica | controllers/userController.js:107 | The metric defaults to `'ideias'` when it is missing or empty. |
| UserController.CampoDe | controllers/userController.js:111-133 | `'ideias'` sorts by `ideiasContribuidas`, `'sessoes'` sorts by `sessoesParticipadas`, and any other metric has no field. |
| UserController.CeilDiv | controllers/userController.js:147 | The number of pages is the least q with q·limit ≥ n, and it is 0 exactly for no users. |
| UserController.Leaderboard | controllers/userController.js:105-150 | An unknown metric gives 400. The reply is 200 exactly when the page and limit are both at least 1, and otherwise the aggregation fails with 500. On 200 the rows are the sorted users, skipping `Salto(page, limit)` and at most limit of them. The page number and metric are echoed, and `totalPages` is `CeilDiv`. |
| UserController.SaltoProduto | controllers/userController.js:138 | The skip of page p is (p-1)·limit. |
| UserController.LeaderboardOrdenado | controllers/userController.js:137 | A page lists its users with non-increasing `valorMetrica`. |
| UserController.PaginasPrefixo | controllers/userController.js:138-139 | Pages 1..k laid end to end are the sorted rows up to the skip of page k+1. |
| UserController.PaginaK | controllers/userController.js:105-140 | A request for page k with a valid limit and metric answers with that page's slice of the sorted users. |
| UserController.PaginasCobrem | controllers/userController.js:138-147 | The pages up to the page count, laid end to end, are the whole sorted collection. |
| UserController.LinhasSaoUsers | controllers/userController.js:135-140 | The projected sorted rows carry every user's id exactly as often as the collection does. |
| UserController.TodasAsPaginas | controllers/userController.js:135-147 | Each of the requests for pages 1..totalPages answers with its page's slice. Those pages together are the sorted collection, listing every user's id exactly as often as the collection does. |

## Left out

- Express routing, rendering, flash messages and redirects:
  - These are presentation only.
  - Each handler's decision is kept as its `Result`. The error kinds of `Erros.Erro` carry the source's messages.
- Mongoose persistence: `findById`, `populate`, `save`, `updateMany`, `aggregate` and the unique index are replaced by the in-memory store.
  - Errors the database itself would raise are not modelled, for instance a failed connection.
- `populate`:
  - It silently drops participants whose user record no longer exists.
  - The model checks membership on the stored ids.
- The lookup of `entrarSessao` is by the exact code submitted.
  - Whether Mongoose applies the schema's `trim` to the query filter is not modelled.
- `SessaoModel.SenhaValida` states the password validator as written.
  - Mongoose does not run custom validators on an undefined value, so a protected room created with no password at all would pass.
  - That Mongoose behaviour is not modelled.
- `SessaoController.Submeter` and `SessaoController.Store.SubmeterPalavras`: the schema declares `ideias` as ObjectId references (models/sessao.js:81-86), but the handler pushes plain `{texto, autor, timestamp}` objects with `$push … $each` (sessaoController.js:527-536).
  - Mongoose casts each pushed value to an ObjectId, and an object without `_id` does not cast. So the update most likely rejects with a cast error whenever at least one word is non-blank.
  - The source then answers 500 "Erro ao submeter palavras: …" and stores nothing. A batch of only blank words pushes nothing and succeeds.
  - The model instead stores the pushed objects and answers with the word count, as if the schema declared idea subdocuments.
  - The model takes `palavras` as a list of strings. In the source, a missing or non-array `palavras` throws at `palavras.map` (sessaoController.js:518), and a non-string element throws at `ideia.texto.trim()` (:530). Both cases answer 500 "Erro ao submeter palavras: …".
- `historicoAcoes` is `select: false` (models/sessao.js:124-143), so `findById` does not load it.
  - The model treats it as an ordinary, loaded field that handlers append to.
  - Mongoose does not apply the schema default to a path left out by a projection, so the loaded document most likely has no `historicoAcoes` at all.
- `WebsocketController.Registo.ExpulsarParticipante`: the socket kick pushes onto `historicoAcoes` without the HTTP handlers' defensive check (websocketController.js:314).
  - If the field is not loaded, that push throws. The catch then answers "Erro ao expulsar participante", nothing is saved and nobody is expelled.
  - The model expels the user, appends the entry and broadcasts, as if the field were loaded.
- `SessaoController.Pausar`: the handler replaces a missing history by `[]` before pushing (sessaoController.js:336-338). The `save` then most likely overwrites the stored history with that one entry.
  - The model appends the entry to the full stored history.
- `SessaoController.Expulsar`: the same defensive check (sessaoController.js:459-461) most likely makes `save` overwrite the stored history with the one `expulsao` entry.
  - The model appends it to the full stored history.
- Socket.IO transport is replaced by appended event logs:
  - rooms, `join`/`leave` and `fetchSockets`;
  - the handshake authentication.
- The HTTP handlers' branch for a missing Socket.IO instance is not modelled; the instance is taken to be present.
- The socket handlers emit to the acting socket and to rooms. This becomes one log with a destination where it matters.
- Timing and concurrency:
  - Real `setInterval`/`setTimeout` are left out, and so is the 5-second delay between levels.
  - The interleaving of callbacks with handlers is left out too.
  - Ticks and pending timeouts are explicit steps (`Registo.Tick`, `Registo.DispararAgendado`) that any scheduler may call in any order.
- `WebsocketController.Registo.Tick`: `finalizarSessao` saves the document captured when the timer started, not a fresh copy.
  - The model writes only its status, which is the only field that handler changes.
  - The asynchronous save runs at once.
- `processarPalavrasNivel` is a placeholder. It builds display text for an AI result and emits it after a delay, so it does not change state.
- `Strings.ToUpper` maps only the ASCII letters. `toUpperCase` also maps other letters, which cannot occur in a code that passes the pattern.
- `UserController.Leaderboard`: MongoDB's `$sort` does not promise any order among users with equal values.
  - The model fixes one order, the collection order (stable).
  - The properties of a single request hold for any tie order: `UserController.LeaderboardOrdenado`, `UserController.LinhasSaoUsers` and `UserController.PaginaK`.
- `UserController.PaginasCobrem`, `UserController.PaginasPrefixo` and `UserController.TodasAsPaginas` cut every page from one sorted list. They assume that all the page requests order ties the same way.
  - In the source each page is a separate `$sort`/`$skip`/`$limit` query, and MongoDB may order ties differently on each one.
  - Users with equal values can then be skipped or repeated across pages, which these lemmas do not capture.
- `UserController.Leaderboard`: `req.query` values are taken to be single strings. A repeated query parameter (an array) is not modelled.
- JavaScript numbers are modelled as unbounded integers. Query values that `parseInt` reads as fractions, or too large to be safe integers, are not modelled.
- User records are only the fields the core reads and writes. Authentication, profile handling, the email pattern and the other controllers are outside this model.
