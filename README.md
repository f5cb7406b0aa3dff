# PIX ledger server, modelled in Dafny

This project models the server side of the `sistema-pix` system. A socket server,
`PixServer`, reads one JSON request per line and switches on its `operacao` field. It can
create an account, log in, log out, read the profile, transfer money, list the statement,
deposit and update the profile. The data lives in two MySQL tables, `usuarios` and
`transacoes`, behind `UsuarioDAO` and `TransacaoDAO`. Sessions live in `TokenManager`, an
in-memory table from UUID token to (cpf, creation time) with a 24-hour expiry.

The model has these modules:

- **Base**: `Option` for Java's nullable references, and the types for money (integer cents),
  time (whole seconds) and CPF/token.
  - It also has Java's `String.trim`, which drops every leading and trailing character up to
    U+0020. `Trim` is proved to return the empty string exactly when the text is all blanks, to
    be idempotent and to leave no blank at either end.
- **Model**: the mutable `Usuario` class and the immutable `Transacao` record.
  - `ContadorIds` is the static `AtomicLong` id counter.
  - The `RespostaBase` response bean is a class whose `Valor()` is the `Envelope` Jackson would
    write.
- **Service**: `TokenManager` as a class over a `map`, specified by the pure `Validar` and
  `Varridos`. `ChronoUnit.HOURS.between` truncates toward zero, and the model writes that out.
- **Dao**:
  - the `usuarios` table as a map from cpf to row;
  - `transacoes` as an append-only sequence;
  - `Soma`, the sum of all balances;
  - the `ORDER BY criado_em DESC` listing, modelled as a stable insertion order;
  - the `UsuarioDAO` and `TransacaoDAO` classes over one shared `Banco`. `TransacaoDAO.Salvar`
    models the commit and, when one of its three statements fails, the rollback.
- **Handlers**: each `op*` method of `PixServer`, and the `switch`, as a function from the
  whole state (tables, sessions, id counter) and one typed request to the new state and the
  response.
  - `Despachar` is the switch as written. Its `usuario_atualizar` branch measures the text as
    received (`UsuarioAtualizarComoEscrito`).
  - `DespacharCorrigido` differs only in that branch: it measures the trimmed text it stores
    (`UsuarioAtualizar`). This is the correction of the finding below.
- **Server**: the imperative `PixServer` class. Each `Op*` method calls the DAOs and the
  `TokenManager` as the Java does. It is proved to produce exactly the state and response of
  its `Handlers` function. `Processar` is proved equal to the as-written `Despachar`.
- **Properties**: the accept/reject condition and message of every operation, and that a
  rejected request changes nothing beyond evicting an expired token.
  - A transfer conserves the total balance; only a deposit changes it.
  - A profile update touches only the fields it names.
  - The statement shows exactly the caller's movements in the ledger.
  - An invariant of the database holds from the empty start. Under it, balances are never
    negative and every session and record names an existing account. Record ids run 1, 2,
    3, … (see "## Left out" for why). The invariant also bounds how long names and passwords
    are:
    - the switch as written keeps them at 1–120 characters;
    - only the corrected switch keeps them at 6–120 characters. As written, a padded name
      can store a shorter trim (see "## Findings").
- **Cenarios**: the command-line test client's session.
  - `src/main/java/com/pix/test/PixClientTest.java`: 25-64, which is two sign-ups, login, profile,
    deposit 1500.00, transfer 300.00, statement, update, logout, and logging in again with the
    old password.
  - It is proved for any two accounts and token of the right shape, then for the client's own
    literals.
  - It also holds the input that exposes the finding below.

Some behaviour is modelled as the code has it:

- `listarTodas` rebuilds each row with `new Transacao(...)`. Each listed transaction therefore
  takes a fresh id from the process counter and the current time.
  - A statement's ids and dates are not the stored ones.
  - Every `transacao_ler` advances the counter by the number of stored records.
- The transfer and deposit handlers never see the SQL failures that the DAOs print and swallow.
  The server calls `TransacaoDAO.Salvar` with no failure.

The system-level members follow the code as written. These are `Despachar`,
`Processar`, `OpUsuarioAtualizar`, `AtualizarCampos` and `GravarCampos`. The one
correction, `DespacharCorrigido`, stands beside them. The evidence of intent is
`usuario_criar`, which measures the trimmed texts (PixServer.java:144-156).

## Model

| member | source | states |
|---|---|---|
| Base.SemBrancosIniciais | src/main/java/com/pix/server/PixServer.java:144-146 | the leading-blank strip of `trim` is no longer than its input and starts with a non-blank (or is empty) |
| Base.SemBrancosIniciaisSufixo | src/main/java/com/pix/server/PixServer.java:144-146 | the strip is a suffix of the input and everything it dropped is blank |
| Base.SemBrancosFinais | src/main/java/com/pix/server/PixServer.java:144-146 | the trailing-blank strip of `trim` is no longer than its input and ends with a non-blank (or is empty) |
| Base.SemBrancosFinaisPrefixo | src/main/java/com/pix/server/PixServer.java:144-146 | the strip is a prefix of the input and everything it dropped is blank |
| Base.Trim | src/main/java/com/pix/server/PixServer.java:144-146 | `trim` never lengthens its input, and its result is empty or has no blank at either end |
| Base.TrimVazioSse | src/main/java/com/pix/server/PixServer.java:148 | `s.trim().isEmpty()` holds exactly when every character of `s` is at most U+0020 |
| Base.TrimSemBrancosNasPontas | src/main/java/com/pix/server/PixServer.java:144-146 | a text with no blank at either end (or empty) is left unchanged by `trim` |
| Base.TrimIdempotente | src/main/java/com/pix/server/PixServer.java:384 | trimming twice is trimming once |
| Model.Usuario.constructor | sistema-pix/src/main/java/com/pix/model/Usuario.java:13-18 | a new account holds the given nome, cpf and senha, balance 0 and no transactions |
| Model.Usuario.SetCpf | sistema-pix/src/main/java/com/pix/model/Usuario.java:20-22 | only the cpf changes |
| Model.Usuario.SetNome | sistema-pix/src/main/java/com/pix/model/Usuario.java:25 | only the name changes |
| Model.Usuario.SetSenha | sistema-pix/src/main/java/com/pix/model/Usuario.java:30 | only the password changes |
| Model.Usuario.AddSaldo | sistema-pix/src/main/java/com/pix/model/Usuario.java:33 | the balance grows by the amount |
| Model.Usuario.SubSaldo | sistema-pix/src/main/java/com/pix/model/Usuario.java:34 | the balance shrinks by the amount |
| Model.Usuario.AddTransacao | sistema-pix/src/main/java/com/pix/model/Usuario.java:38 | the transaction is appended and the earlier ones stay in place |
| Model.CreditoEstornado | sistema-pix/src/main/java/com/pix/model/Usuario.java:33-34 | addSaldo(v) then subSaldo(v) restores the balance and changes no other field |
| Model.ContadorIds.constructor | sistema-pix/src/main/java/com/pix/model/Transacao.java:7 | the id counter starts at 1 |
| Model.ContadorIds.NovaTransacao | sistema-pix/src/main/java/com/pix/model/Transacao.java:16-23 | a new Transacao takes the counter's value as id and the clock reading as both dates; the counter advances by one |
| Model.PrimeirasTransacoes | sistema-pix/src/main/java/com/pix/model/Transacao.java:7-17 | the first Transacao of a process gets id 1 and the next gets id 2 |
| Model.NovaResposta | sistema-pix/src/main/java/com/pix/model/RespostaBase.java:7-22 | a new response carries the given operation, status and info, an empty dados map and no usuario, transacoes or token |
| Model.RespostaBase.constructor | sistema-pix/src/main/java/com/pix/model/RespostaBase.java:18-22 | the bean serialises to that new response |
| Model.RespostaBase.SetUsuario | sistema-pix/src/main/java/com/pix/model/RespostaBase.java:28-30 | only the usuario property changes |
| Model.RespostaBase.SetTransacoes | sistema-pix/src/main/java/com/pix/model/RespostaBase.java:36-38 | only the transacoes property changes |
| Model.RespostaBase.SetToken | sistema-pix/src/main/java/com/pix/model/RespostaBase.java:44-46 | only the token property changes |
| Model.RespostaBase.SetOperacao | sistema-pix/src/main/java/com/pix/model/RespostaBase.java:52-54 | only the operacao property changes |
| Model.RespostaBase.SetStatus | sistema-pix/src/main/java/com/pix/model/RespostaBase.java:60-62 | only the status property changes |
| Model.RespostaBase.SetInfo | sistema-pix/src/main/java/com/pix/model/RespostaBase.java:68-70 | only the info property changes |
| Model.RespostaBase.SetDados | sistema-pix/src/main/java/com/pix/model/RespostaBase.java:76-78 | only the dados map is replaced |
| Model.RespostaBase.PutDado | sistema-pix/src/main/java/com/pix/model/RespostaBase.java:72-74 | `getDados().put(k, v)` adds or overwrites one entry of the bean's own map and nothing else |
| Model.RespostaBase.IsSucesso | sistema-pix/src/main/java/com/pix/model/RespostaBase.java:81-83 | the legacy isSucesso answers the serialised status |
| Model.RespostaBase.SetSucesso | sistema-pix/src/main/java/com/pix/model/RespostaBase.java:85-87 | the legacy setSucesso sets the status only |
| Model.RespostaBase.GetMensagem | sistema-pix/src/main/java/com/pix/model/RespostaBase.java:89-91 | the legacy getMensagem answers the serialised info |
| Model.RespostaBase.SetMensagem | sistema-pix/src/main/java/com/pix/model/RespostaBase.java:93-95 | the legacy setMensagem sets the info only |
| Service.HorasEntre | src/main/java/com/pix/service/TokenManager.java:22 | HOURS.between is the count of whole hours elapsed, truncated toward zero in both directions |
| Service.ExpiradoSse | src/main/java/com/pix/service/TokenManager.java:21-23 | a token is expired exactly when at least 25 full hours have passed since issue |
| Service.Expirado | src/main/java/com/pix/service/TokenManager.java:21-23 | isExpired: a token is never expired at or before the instant it was issued |
| Service.Validar | src/main/java/com/pix/service/TokenManager.java:38-54 | a cpf comes back iff the token is non-empty, known and unexpired, and it is the token's owner; the table is unchanged except that an expired token is removed, and only then |
| Service.VarreduraExata | src/main/java/com/pix/service/TokenManager.java:66-68 | the sweep keeps exactly the unexpired entries, unchanged |
| Service.Varridos | src/main/java/com/pix/service/TokenManager.java:66-68 | removeIf never adds an entry |
| Service.VarreduraIdempotente | src/main/java/com/pix/service/TokenManager.java:66-68 | sweeping twice is sweeping once |
| Service.VarreduraPreservaValidacao | src/main/java/com/pix/service/TokenManager.java:38-68 | a sweep never changes what validateToken answers at the same instant |
| Service.CicloDaSessao | src/main/java/com/pix/service/TokenManager.java:29-54 | a token just issued validates to its cpf for under 25 hours, then fails and is evicted |
| Service.RevogadoNaoValida | src/main/java/com/pix/service/TokenManager.java:43-46 | a removed token never validates |
| Service.TokenManager.constructor | src/main/java/com/pix/service/TokenManager.java:9 | the session table starts empty |
| Service.TokenManager.GenerateToken | src/main/java/com/pix/service/TokenManager.java:29-33 | the fresh token is recorded for the cpf at the current instant and every other session is kept |
| Service.TokenManager.ValidateToken | src/main/java/com/pix/service/TokenManager.java:38-54 | the answer and the new table are those of `Validar` |
| Service.TokenManager.RemoveToken | src/main/java/com/pix/service/TokenManager.java:59-61 | true exactly when the token was present; afterwards it is absent |
| Service.TokenManager.CleanupExpiredTokens | src/main/java/com/pix/service/TokenManager.java:66-68 | the table becomes its sweep |
| Service.LogoutDuplo | src/main/java/com/pix/service/TokenManager.java:59-61 | removing a live token twice answers true then false |
| Dao.SomaSeparando | sistema-pix/src/main/java/com/pix/dao/TransacaoDAO.java:34-44 | the balance total is any one account's balance plus the total of the others |
| Dao.SomaAlterada | src/main/java/com/pix/dao/UsuarioDAO.java:39-56 | overwriting one row changes the total by that row's change of balance |
| Dao.SomaAjustada | sistema-pix/src/main/java/com/pix/dao/TransacaoDAO.java:34-44 | `saldo = saldo ± v WHERE cpf = ?` changes the total by ±v when the row exists, else not at all |
| Dao.SomaAtualizada | src/main/java/com/pix/dao/UsuarioDAO.java:39-56 | an update that keeps the balance keeps the total |
| Dao.TransferenciaConserva | sistema-pix/src/main/java/com/pix/dao/TransacaoDAO.java:34-46 | a committed transfer between existing accounts leaves the total balance unchanged |
| Dao.TransferenciaEfeito | sistema-pix/src/main/java/com/pix/dao/TransacaoDAO.java:34-44 | the origin loses valor, the destination gains it, and every other row is untouched |
| Dao.SalvarNaoConfereSaldo | sistema-pix/src/main/java/com/pix/dao/TransacaoDAO.java:34-38 | the DAO's debit has no funds check: it can take a balance below zero |
| Dao.InserirPorData | sistema-pix/src/main/java/com/pix/dao/TransacaoDAO.java:63 | placing one row in the listing keeps every row (as a multiset) and adds exactly that one |
| Dao.MaisRecentesPrimeiro | sistema-pix/src/main/java/com/pix/dao/TransacaoDAO.java:63 | the listing has the same rows as the table |
| Dao.InserirLimitado | sistema-pix/src/main/java/com/pix/dao/TransacaoDAO.java:63 | placing a row keeps every date under a common bound |
| Dao.InserirMantemOrdem | sistema-pix/src/main/java/com/pix/dao/TransacaoDAO.java:63 | placing a row into a newest-first list keeps it newest first |
| Dao.MaisRecentesPrimeiroOrdena | sistema-pix/src/main/java/com/pix/dao/TransacaoDAO.java:63 | `ORDER BY criado_em DESC` is newest first and a permutation of the table |
| Dao.CronologicoInverte | sistema-pix/src/main/java/com/pix/dao/TransacaoDAO.java:63 | when insertion times never go backwards, the listing is exactly the table reversed |
| Dao.Listagem | sistema-pix/src/main/java/com/pix/dao/TransacaoDAO.java:69-75 | the i-th rebuilt Transacao has the i-th row's origin, destination and valor, id `primeiro + i` and the current instant |
| Dao.Reconstruir | src/main/java/com/pix/dao/UsuarioDAO.java:70-73 | a zero-balance Usuario plus addSaldo/subSaldo of the difference mirrors the row exactly |
| Dao.UsuarioDAO.constructor | src/main/java/com/pix/server/PixServer.java:31 | the DAO works on the given database |
| Dao.UsuarioDAO.Salvar | src/main/java/com/pix/dao/UsuarioDAO.java:15-37 | INSERT, or atualizar on a duplicate key: either way the row of the cpf becomes the object's data, and `transacoes` is untouched |
| Dao.UsuarioDAO.Atualizar | src/main/java/com/pix/dao/UsuarioDAO.java:39-56 | the row of the cpf, if any, is overwritten; no row is added |
| Dao.UsuarioDAO.BuscarPorCpf | src/main/java/com/pix/dao/UsuarioDAO.java:58-83 | null exactly for an unknown cpf, else a new object mirroring the row |
| Dao.UsuarioDAO.SalvarEBuscar | src/main/java/com/pix/dao/UsuarioDAO.java:15-83 | `buscarPorCpf(u.cpf)` after `salvar(u)` returns a new object, not `u`, with u's cpf, nome, senha and saldo; only that row of `usuarios` changes |
| Dao.UsuarioDAO.ListarTodos | src/main/java/com/pix/dao/UsuarioDAO.java:85-110 | one new mirroring object per row, no cpf twice, every row present |
| Dao.TransacaoDAO.constructor | src/main/java/com/pix/server/PixServer.java:32 | the DAO works on the given database |
| Dao.TransacaoDAO.Salvar | sistema-pix/src/main/java/com/pix/dao/TransacaoDAO.java:15-59 | with no failure the record is appended and the balances are debited and credited; if any statement fails, both tables are as before |
| Dao.TransacaoDAO.ListarTodas | sistema-pix/src/main/java/com/pix/dao/TransacaoDAO.java:61-82 | the list is the rows newest first, rebuilt with fresh ids from the counter; the counter advances by the row count |
| Handlers.Extrato | src/main/java/com/pix/server/PixServer.java:295-318 | the statement is no longer than the listing; every line involves the caller and repeats criado_em as atualizado_em |
| Handlers.SessaoDaRequisicao | src/main/java/com/pix/server/PixServer.java:136-139 | validateToken on the request's token changes only the session table, and changes nothing when it names a cpf, whose token is then in the table |
| Handlers.UsuarioCriar | src/main/java/com/pix/server/PixServer.java:143-171 | the response is under "usuario_criar"; only the usuarios table may change, and a refusal changes nothing |
| Handlers.UsuarioLogin | src/main/java/com/pix/server/PixServer.java:173-195 | the response is under "usuario_login"; only the session table may change; a refusal changes nothing; success returns the drawn token and records it |
| Handlers.UsuarioLogout | src/main/java/com/pix/server/PixServer.java:197-212 | the response is under "usuario_logout"; only the session table changes, and a non-empty token is gone from it afterwards |
| Handlers.UsuarioLer | src/main/java/com/pix/server/PixServer.java:214-235 | the response is under "usuario_ler"; the read changes nothing but token eviction; the profile is answered exactly on success |
| Handlers.TransacaoCriar | src/main/java/com/pix/server/PixServer.java:237-283 | the response is under "transacao_criar"; a refusal changes nothing but token eviction |
| Handlers.TransferenciaDe | src/main/java/com/pix/server/PixServer.java:243-282 | the checks after validateToken: a refusal changes nothing; an accepted transfer has a positive valor covered by the origin's balance |
| Handlers.Efetivada | src/main/java/com/pix/server/PixServer.java:274-282 | the commit succeeds, keeps the sessions, appends one record to the earlier ones, advances the counter and answers the Transacao's id |
| Handlers.TransacaoLer | src/main/java/com/pix/server/PixServer.java:285-324 | the response is under "transacao_ler"; the read never changes the usuarios or transacoes tables |
| Handlers.Depositar | src/main/java/com/pix/server/PixServer.java:326-351 | the response is under "depositar"; the ledger and the counter are never changed |
| Handlers.DepositoEm | src/main/java/com/pix/server/PixServer.java:332-350 | after validateToken: only the usuarios table may change, a refusal changes nothing, and success needs a positive valor and an existing account |
| Handlers.AtualizarPerfil | src/main/java/com/pix/server/PixServer.java:353-398 | for either length rule: the response is under "usuario_atualizar", the ledger and counter are untouched, and a refusal changes nothing but token eviction |
| Handlers.PerfilDe | src/main/java/com/pix/server/PixServer.java:362-397 | after validateToken: a refusal changes nothing; success needs an existing account and a given field |
| Handlers.CamposNoLimite | src/main/java/com/pix/server/PixServer.java:379-397 | the length checks and the write-back touch only the usuarios table, a refusal changes nothing, and success keeps the account's balance |
| Handlers.UsuarioAtualizarComoEscrito | src/main/java/com/pix/server/PixServer.java:353-398 | opUsuarioAtualizar as written, measuring the received text; the response is under "usuario_atualizar" |
| Handlers.UsuarioAtualizar | src/main/java/com/pix/server/PixServer.java:144-156 | the corrected update, measuring the trimmed text as usuario_criar does; the response is under "usuario_atualizar" |
| Handlers.Despachar | src/main/java/com/pix/server/PixServer.java:88-115 | the switch as written: every response, known code or not, is under the request's own operation code |
| Handlers.DespacharCorrigido | src/main/java/com/pix/server/PixServer.java:88-115 | the switch with the corrected update: every response is under the request's own operation code |
| Properties.UsuarioCriarSse | src/main/java/com/pix/server/PixServer.java:143-171 | sign-up succeeds iff the trimmed fields are non-empty, name and password are 6–120 characters and the cpf is new; success adds exactly that row with balance 0, failure changes nothing |
| Properties.UsuarioCriarExistente | src/main/java/com/pix/server/PixServer.java:160-164 | a valid sign-up with a known cpf answers "Usuário já existente" and changes nothing |
| Properties.UsuarioLoginSse | src/main/java/com/pix/server/PixServer.java:173-195 | login succeeds iff the account exists and the password matches, with the message of each refusal; success adds one session and returns its token in both places |
| Properties.SessaoDoLogin | src/main/java/com/pix/server/PixServer.java:190-235 | the token a login returns reads the caller's profile for under 25 hours; after that the read is refused and the token evicted |
| Properties.UsuarioLogoutSse | src/main/java/com/pix/server/PixServer.java:197-212 | logout succeeds iff the token is non-empty and present in the session table, expired or not; any non-empty token is removed |
| Properties.SegundoLogoutFalha | src/main/java/com/pix/server/PixServer.java:204-211 | a second logout with the same token fails and changes nothing |
| Properties.UsuarioLerSse | src/main/java/com/pix/server/PixServer.java:214-235 | the profile read succeeds iff the session is live and the account exists, and it returns that account's nome, cpf and saldo |
| Properties.TransacaoCriarRecusas | src/main/java/com/pix/server/PixServer.java:237-272 | each of the seven checks, in order, gives its own message; the transfer succeeds iff all pass; a refusal changes nothing but token eviction |
| Properties.TransacaoCriarEfeito | src/main/java/com/pix/server/PixServer.java:274-282 | an accepted transfer moves valor from origin to destination and conserves the total; it appends one record, advances the counter and answers the new id |
| Properties.DepositarEfeito | src/main/java/com/pix/server/PixServer.java:326-351 | a deposit succeeds iff the session is live, valor > 0 and the account exists; it raises that balance and the total by valor and answers the new balance |
| Properties.UsuarioAtualizarSoCamposInformados | src/main/java/com/pix/server/PixServer.java:353-398 | for the update as written (the received text measured) and the corrected one alike: success iff the session is live, a field is given, the account exists and each given field's measured length is 6–120, with "Nenhum campo para atualizar" when none is given; success writes the given fields trimmed and changes nothing else, not even the balance; a refusal writes nothing |
| Properties.MovimentosInserir | sistema-pix/src/main/java/com/pix/dao/TransacaoDAO.java:63 | placing a row in the listing adds exactly its movement |
| Properties.MovimentosOrdenados | sistema-pix/src/main/java/com/pix/dao/TransacaoDAO.java:63 | the listing order has the same movements as the table |
| Properties.ExtratoMostraMovimentos | src/main/java/com/pix/server/PixServer.java:295-318 | the statement shows exactly the movements of the listed transactions that involve the caller |
| Properties.MovimentosCorrespondentes | sistema-pix/src/main/java/com/pix/dao/TransacaoDAO.java:69-75 | rebuilt transactions have the same movements as the rows they came from |
| Properties.ExtratoDaListagem | src/main/java/com/pix/server/PixServer.java:292-318 | the statement built from listarTodas shows exactly the listed rows' movements involving the caller |
| Properties.TransacaoLerExato | src/main/java/com/pix/server/PixServer.java:285-324 | with a live session the statement holds exactly the caller's movements in the ledger, each with atualizado_em = criado_em; the counter advances by the ledger size; otherwise the read is refused |
| Properties.Encaminhamento | src/main/java/com/pix/server/PixServer.java:88-112 | each operation code reaches its own handler, and usuario_atualizar reaches the as-written update |
| Properties.OperacaoDesconhecida | src/main/java/com/pix/server/PixServer.java:113-114 | any other code answers "Operação desconhecida" under that code and changes nothing |
| Properties.RecusaNaoMudaNada | src/main/java/com/pix/server/PixServer.java:88-115 | under the switch as written, a refused request leaves the state as it was, except for evicting an expired token |
| Properties.DinheiroSoEntraPorDeposito | src/main/java/com/pix/server/PixServer.java:88-115 | under the switch as written, the total balance changes only by a successful deposit, and then by exactly its valor |
| Properties.LivroSoCresceComTransferencia | src/main/java/com/pix/server/PixServer.java:88-115 | under the switch as written, the ledger only grows, by one record, on a successful transfer; earlier records are kept |
| Properties.InicialValido | src/main/java/com/pix/server/PixServer.java:29-36 | the empty start satisfies the invariant for any minimum length |
| Properties.ContaGravada | src/main/java/com/pix/dao/UsuarioDAO.java:39-56 | writing a row that meets the minimum keeps the invariant |
| Properties.SessaoValida | src/main/java/com/pix/server/PixServer.java:136-139 | validating a token keeps the invariant, and a validated cpf has an account |
| Properties.SessaoSempreTemConta | src/main/java/com/pix/server/PixServer.java:221-223 | under the invariant a live session's account always exists, so "Usuário não encontrado" is unreachable there |
| Properties.UsuarioCriarPreserva | src/main/java/com/pix/server/PixServer.java:143-171 | sign-up keeps the invariant for any minimum length up to 6, since it stores trimmed texts of 6–120 characters |
| Properties.UsuarioLoginPreserva | src/main/java/com/pix/server/PixServer.java:173-195 | login keeps the invariant |
| Properties.UsuarioLogoutPreserva | src/main/java/com/pix/server/PixServer.java:197-212 | logout keeps the invariant |
| Properties.TransacaoCriarPreserva | src/main/java/com/pix/server/PixServer.java:237-283 | a transfer keeps the invariant, because the handler's balance check rules out overdrafts |
| Properties.TransacaoLerPreserva | src/main/java/com/pix/server/PixServer.java:285-324 | the statement read keeps the invariant |
| Properties.DepositarPreserva | src/main/java/com/pix/server/PixServer.java:326-351 | a deposit keeps the invariant |
| Properties.CampoGravado | src/main/java/com/pix/server/PixServer.java:379-390 | a field the update stores trimmed has at most 120 characters, and at least 6 when the trim is measured, at least 1 when the received text is |
| Properties.UsuarioAtualizarPreserva | src/main/java/com/pix/server/PixServer.java:353-398 | the corrected update keeps names and passwords at 6–120 characters; the update as written keeps them only at 1–120 |
| Properties.DespacharPreservaInvariante | src/main/java/com/pix/server/PixServer.java:88-115 | the switch as written keeps the invariant with names and passwords at 1–120 characters: balances never negative, every session and record naming an existing account |
| Properties.DemaisOperacoesPreservam | src/main/java/com/pix/server/PixServer.java:88-115 | every operation but usuario_atualizar keeps the invariant for any minimum length up to 6 |
| Properties.DespacharCorrigidoPreservaInvariante | src/main/java/com/pix/server/PixServer.java:88-115 | the corrected switch keeps the invariant with names and passwords at 6–120 characters |
| Server.PixServer.constructor | src/main/java/com/pix/server/PixServer.java:29-36 | a server starts on an empty database with no sessions and the counter at 1 |
| Server.PixServer.ValidarToken | src/main/java/com/pix/server/PixServer.java:136-139 | the answer and the new session table are those of validateToken on the request's token |
| Server.PixServer.OpUsuarioCriar | src/main/java/com/pix/server/PixServer.java:143-171 | the new state and response are exactly `UsuarioCriar` |
| Server.PixServer.OpUsuarioLogin | src/main/java/com/pix/server/PixServer.java:173-195 | exactly `UsuarioLogin` |
| Server.PixServer.OpUsuarioLogout | src/main/java/com/pix/server/PixServer.java:197-212 | exactly `UsuarioLogout` |
| Server.PixServer.OpUsuarioLer | src/main/java/com/pix/server/PixServer.java:214-235 | exactly `UsuarioLer` |
| Server.PixServer.OpTransacaoCriar | src/main/java/com/pix/server/PixServer.java:237-283 | exactly `TransacaoCriar` |
| Server.PixServer.Transferir | src/main/java/com/pix/server/PixServer.java:243-282 | after the token check, exactly `TransferenciaDe` |
| Server.PixServer.Efetivar | src/main/java/com/pix/server/PixServer.java:274-282 | the commit step, exactly `Efetivada` |
| Server.PixServer.OpTransacaoLer | src/main/java/com/pix/server/PixServer.java:285-324 | exactly `TransacaoLer` |
| Server.PixServer.MontarExtrato | src/main/java/com/pix/server/PixServer.java:295-318 | the loop builds exactly `Extrato` of the listing, with names looked up by buscarPorCpf |
| Server.PixServer.OpDepositar | src/main/java/com/pix/server/PixServer.java:326-351 | exactly `Depositar` |
| Server.PixServer.DepositarEm | src/main/java/com/pix/server/PixServer.java:332-350 | after the token check, exactly `DepositoEm` |
| Server.PixServer.OpUsuarioAtualizar | src/main/java/com/pix/server/PixServer.java:353-398 | exactly the as-written `UsuarioAtualizarComoEscrito` |
| Server.PixServer.AtualizarCampos | src/main/java/com/pix/server/PixServer.java:362-397 | after the token check, exactly `PerfilDe` measuring the received text |
| Server.PixServer.GravarCampos | src/main/java/com/pix/server/PixServer.java:379-397 | the length checks on the received text (lines 381, 387), the trimmed write-back (384, 390) and `atualizar`: exactly `CamposNoLimite` as written |
| Server.PixServer.Processar | src/main/java/com/pix/server/PixServer.java:85-115 | one request line: exactly the as-written `Despachar` |
| Cenarios.CriacaoDoPrimeiro | src/main/java/com/pix/test/PixClientTest.java:27-28 | the first sign-up on an empty server succeeds and stores the account with balance 0 |
| Cenarios.CriacaoDoSegundo | src/main/java/com/pix/test/PixClientTest.java:31-32 | the second sign-up succeeds too |
| Cenarios.LoginDoPrimeiro | src/main/java/com/pix/test/PixClientTest.java:35-36 | the login answers the drawn token and opens that session |
| Cenarios.SessaoViva | src/main/java/com/pix/test/PixClientTest.java:36-60 | the session opened at login validates to the first account throughout the run |
| Cenarios.LeituraDoPrimeiro | src/main/java/com/pix/test/PixClientTest.java:39-40 | the profile read answers name, cpf and balance 0 |
| Cenarios.DepositoDoPrimeiro | src/main/java/com/pix/test/PixClientTest.java:43-44 | depositing 1500.00 answers novo_saldo 1500.00 |
| Cenarios.TransferenciaDoPrimeiro | src/main/java/com/pix/test/PixClientTest.java:47-48 | transferring 300.00 answers id 1 and leaves balances 1200.00 and 300.00 |
| Cenarios.ContasDaTransferencia | sistema-pix/src/main/java/com/pix/dao/TransacaoDAO.java:34-44 | the debit and credit of that transfer give those two balances |
| Cenarios.ExtratoDoPrimeiro | src/main/java/com/pix/test/PixClientTest.java:51-52 | the statement has the one transfer, renumbered 2 by the listing |
| Cenarios.AlteracaoDoPrimeiro | src/main/java/com/pix/test/PixClientTest.java:55-56 | the update as written stores the new name and password and keeps the balance |
| Cenarios.SaidaDoPrimeiro | src/main/java/com/pix/test/PixClientTest.java:59-60 | logout succeeds and leaves no session |
| Cenarios.SenhaAntigaRecusada | src/main/java/com/pix/test/PixClientTest.java:63-64 | the final login with the old password is refused with "Senha inválida" and changes nothing |
| Cenarios.Roteiro | src/main/java/com/pix/test/PixClientTest.java:25-64 | the whole ten-request run through the dispatcher gives those answers and states |
| Cenarios.RoteiroTerminaValido | src/main/java/com/pix/test/PixClientTest.java:25-64 | the run ends in a state satisfying the invariant with the 6-character minimum, holding the one 1500.00 deposit in total |
| Cenarios.LiteralAceitavel | src/main/java/com/pix/server/PixServer.java:144-146 | a 6–120 character text with no blank at either end is left as it is by trim |
| Cenarios.ElencoDoTesteValido | src/main/java/com/pix/test/PixClientTest.java:28-56 | the client's literal names, cpfs, passwords and token meet the run's conditions |
| Cenarios.RoteiroDoCliente | src/main/java/com/pix/test/PixClientTest.java:25-64 | for the client's own literals the transfer reaches the expected state and the total ends at 1500.00 |
| Cenarios.ComoEscritoGravaNomeCurto | src/main/java/com/pix/server/PixServer.java:379-384 | as written, a padded name whose trim is under 6 characters is accepted; the short trim is stored and the invariant is broken |
| Cenarios.CorrigidoRecusaNomeCurto | src/main/java/com/pix/server/PixServer.java:379-384 | with the check on the trimmed value, the same request is refused with the length message and changes nothing |
| Cenarios.TrimAcolchoado | src/main/java/com/pix/server/PixServer.java:384 | "  Ana  ".trim() is "Ana" |
| Cenarios.NomeAcolchoado | src/main/java/com/pix/server/PixServer.java:381-384 | the concrete input "  Ana  ": accepted and stored as "Ana" as written, refused once corrected |

## Left out

- Sockets, threads, `start`/`stop`, and concurrent clients are not modelled. Requests are
  handled one at a time, each as one atomic step, so races between client threads are not
  covered.
- Jackson (JSON parsing and serialisation) and `validador.Validator` are not modelled. A
  request is already a typed record, and a response is the `Envelope` value. The catch-all
  that answers "Erro no processamento" (PixServer.java:121-124) is not modelled, because its
  exceptions come from those libraries.
- JDBC and SQL are not modelled. The tables are a map and a sequence.
  - `DatabaseManager` is not part of this model.
  - A failing statement is modelled only in `TransacaoDAO.Salvar`, through its `falha`
    parameter (the real SQL error is not modelled).
  - The `UsuarioDAO` methods print and swallow their SQL errors, and that path is not
    modelled.
- Money is integer cents, not Java `double`. Rounding and NaN are not modelled.
- The clock is a parameter.
  - In the model, every clock read within one request gives the same instant
    `agora`, though the real reads may differ slightly.
  - Dates are whole seconds. ISO formatting of `data_hora`, `criado_em` and the UTC offset is
    not modelled.
- The random UUID of `generateToken` is a parameter. The model does not assume it differs
  from an existing token.
- Lengths are counted in `char`s of `seq<char>`, not in UTF-16 code units.
- `asText(null)` for missing profile fields is `None`. A JSON `null` token on logout is not
  distinguished from a missing one.
- The no-argument `RespostaBase()` constructor is not modelled; it is only used by Jackson.
- The getters of `Usuario`, `Transacao` and `RespostaBase` are the fields themselves.
  `getOrigem`, `getDestino` and `getDataHora` read the same fields as `getCpfOrigem`,
  `getCpfDestino` and `getCriadoEm`.
- The GUI, the client (`PixClient`) and `TransferResponse` are not part of this model.
- Ties in `ORDER BY criado_em DESC` are resolved with the later-inserted row first. SQL leaves
  this order unspecified.
- The static `usuarioDAO`, `transacaoDAO`, token table and id counter are fields of one
  `PixServer` object.
- The database id of a `transacoes` row is modelled as its position plus one (`NovoRegistro`).
  This assumes an AUTO_INCREMENT with no gaps, although a rolled-back insert
  (TransacaoDAO.java:46-53) can use up an id. The code never reads this id back:
  `listarTodas` renumbers from the process counter. So the "record ids run 1, 2, 3, …" part
  of the invariant is a property of the model only.
- Properties.TransacaoLerExato: states the statement's movements as a multiset. The
  newest-first order of the lines is carried by `Server.PixServer.OpTransacaoLer`, which
  equals `Extrato` over `MaisRecentesPrimeiro` (ordered by `Dao.MaisRecentesPrimeiroOrdena`).
  The lemma does not restate that order.
- Dao.UsuarioDAO.ListarTodos: the result is stated as a set of mirrored rows, not in the
  order MySQL returns them.

## Findings

| source | as written | input that shows it | evidently intended | confidence | as-written member | corrected member |
|---|---|---|---|---|---|---|
| src/main/java/com/pix/server/PixServer.java:381-390 | `usuario_atualizar` checks the length of the name and of the password as received (lines 381, 387), then stores the trimmed value (lines 384, 390) | a profile update with nome "  Ana  " (7 characters, trimmed "Ana"): accepted, and the stored name has 3 characters | measure the trimmed value, as `usuario_criar` does (lines 144-156), so every stored name and password has 6–120 characters | not executed | Handlers.UsuarioAtualizarComoEscrito, Handlers.Despachar, Server.PixServer.OpUsuarioAtualizar, Cenarios.ComoEscritoGravaNomeCurto, Cenarios.NomeAcolchoado | Handlers.UsuarioAtualizar, Handlers.DespacharCorrigido, Properties.DespacharCorrigidoPreservaInvariante, Cenarios.CorrigidoRecusaNomeCurto |
