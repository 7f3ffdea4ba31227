# FacillitHub teacher tools — a Dafny model

This project models the client-side logic of the FacillitHub teacher app in Dafny:

- the student record (four grading periods `b1`..`b4` of assessments, and an attendance map from ISO date to `presente` / `ausente` / `atestado`);
- the grade table's `calcularStatus` (totals over all periods and the Reprovado / Recuperação / Aprovado status);
- the grade-entry modal (edit, add and remove assessments, period totals, submit);
- the attendance page (load the day's working map, change one status, commit one write per changed student);
- the student sheet (per-period totals, absence days);
- the in-memory student list and its `atualizarDadosAluno` merge;
- the pre-registration modal's generated e-mail address;
- the dashboard's avatar initials, student fetch and choice of view;
- the organization service as operations on in-memory `invitation_codes`, `organization_members` and `organizations` tables.

Modules, one per source file (plus two shared ones):

| file | module | source | form |
|---|---|---|---|
| `ascii.dfy` | `Ascii` | JavaScript `toLowerCase` / `toUpperCase` on ASCII | functions, lemmas |
| `records.dfy` | `Records` | the shared record shape and the `reduce` sums | datatypes, functions, lemmas |
| `notas_faltas.dfy` | `NotasFaltas` | `src/pages/NotasFaltas.js` | a method with nested loops, specified by sum functions |
| `lancamento_modal.dfy` | `LancamentoModal` | `src/components/LancamentoModal.js` | class `Lancamento` over the form state, pure list functions |
| `frequencia.dfy` | `Frequencia` | `src/pages/Frequencia.js` | class `Chamada` over the page state, loops for the load effect and the commit |
| `ficha_aluno.dfy` | `FichaAluno` | `src/pages/FichaAluno.js` | functions, lemmas |
| `alunos.dfy` | `Alunos` | `src/data/alunos.js` | class `BaseAlunos` over the module-level list |
| `pre_cadastro.dfy` | `PreCadastro` | `src/components/PreCadastroAlunoModal.js` | functions, class `Modal` |
| `dashboard.dfy` | `Dashboard` | `src/pages/Dashboard.js` | functions, lemmas |
| `organization_service.dfy` | `OrganizationService` | `src/services/organizationService.js` | class `Banco` over the tables, query functions |

Modelling choices:

- Scores are exact `real`s. A score that is missing or not a number is `None`, and `x || 0` is `Pontos(x)`, which reads `None` as 0.
- A period is `Missing`, an array (`Lista`), or `NotArray`. A falsy value (`null`, `""`, `0`, `false`) is represented by `Missing`: every use reads it as no assessments (`|| []` in the modal, `!bimestre` in the sheet, `Array.isArray` in the grade table). `NotArray` stands only for a truthy value that is not an array.
- `calcularStatus` skips non-array periods, and so does the model. Where the source would throw on a truthy non-array period, the model requires that it is not one: spreading it or calling `map` / `reduce` on it in the modal, or `reduce` in the sheet.
- The 50 / 70 percent thresholds are proved in cross-multiplied form.
- Student records in `src/data/alunos.js` are maps from field name to value, so object spread is map union.
- Time, `nanoid(8)`, the database's new row ids and the success or failure of each backend request are parameters.

## Model

| member | source | states |
|---|---|---|
| Records.PresencaValue | src/pages/Frequencia.js:60-64 | each status has its own string: `presente` iff Presente, `ausente` iff Ausente, `atestado` iff Atestado |
| Records.Pontos | src/pages/NotasFaltas.js:23-24 | the default to 0: a missing score counts 0, a present one counts its value |
| Records.Soma | src/components/LancamentoModal.js:45-46 | the `reduce` total of an empty list is 0, and of non-negative values is non-negative |
| Records.Notas.With | src/components/LancamentoModal.js:24 | replacing one period leaves the other three periods as they were |
| Records.Notas.Values | src/pages/NotasFaltas.js:20 | the periods visited, in the order b1, b2, b3, b4; an absent key appears as `Missing`, which contributes 0 just as the skipped key does |
| Records.SomaConcat | src/components/LancamentoModal.js:45-46 | the sum of `nota` (or `valorMax`) over two lists joined is the sum of the two sums |
| Records.SomaCons | src/pages/FichaAluno.js:49-50 | the left-to-right `reduce` total equals the first value plus the total of the rest |
| NotasFaltas.CalcularStatus | src/pages/NotasFaltas.js:17-33 | the nested loops return the `nota` total and the `valorMax` total over all array periods, and the status of their percentage |
| NotasFaltas.SomaPeriodosTodas | src/pages/NotasFaltas.js:20-27 | summing period by period equals summing over all assessments of the array periods, each missing value counting 0 |
| NotasFaltas.Total | src/pages/NotasFaltas.js:20-27 | `notaFinal` / `valorMaxFinal` are the sums over every assessment of every array period |
| NotasFaltas.TotalPorBimestre | src/pages/NotasFaltas.js:20-27 | the total is the sum of the four periods' contributions |
| NotasFaltas.SomaPeriodosPontual | src/pages/NotasFaltas.js:20-27 | period lists that contribute the same, position by position, have the same total |
| NotasFaltas.NaoArrayIgnorado | src/pages/NotasFaltas.js:21 | a period that is not an array contributes nothing, like an empty one |
| NotasFaltas.Percentual | src/pages/NotasFaltas.js:28 | with a positive maximum, the percentage times the maximum is 100 times the score; otherwise 0 |
| NotasFaltas.Classificar | src/pages/NotasFaltas.js:29-31 | Reprovado iff below 50, Recuperação iff from 50 to below 70, Aprovado iff 70 or more |
| NotasFaltas.ClassificarLimites | src/pages/NotasFaltas.js:28-31 | Reprovado iff the maximum is not positive or 100·nota < 50·max; Recuperação iff max > 0 and 50·max ≤ 100·nota < 70·max; Aprovado iff max > 0 and 70·max ≤ 100·nota |
| NotasFaltas.LimitesExatos | src/pages/NotasFaltas.js:28-31 | exactly 50 % is Recuperação, exactly 70 % is Aprovado, a zero maximum is Reprovado |
| NotasFaltas.Rotulo | src/pages/NotasFaltas.js:29-31 | each status gets its own label: `Reprovado` iff Reprovado, `Recuperação` iff Recuperação, `Aprovado` iff Aprovado |
| NotasFaltas.RotuloInjetivo | src/pages/NotasFaltas.js:29-31 | distinct statuses have distinct labels |
| LancamentoModal.Aplicar | src/components/LancamentoModal.js:17-22 | an input change sets only the named field and keeps the id; a numeric field gets the number, or 0 when it is not one |
| LancamentoModal.Editar | src/components/LancamentoModal.js:21-23 | the list keeps its length and order; assessments with another id are unchanged, those with the id get the change |
| LancamentoModal.Remover | src/components/LancamentoModal.js:33 | the result holds exactly the assessments whose id differs; an absent id changes nothing |
| LancamentoModal.RemoverConcat | src/components/LancamentoModal.js:33 | removal keeps order: removing from a concatenation removes from each part |
| LancamentoModal.RemoverAdicionado | src/components/LancamentoModal.js:27-35 | removing the assessment just appended, by its fresh id, gives back the earlier list |
| LancamentoModal.Itens | src/components/LancamentoModal.js:29 | a missing period reads as the empty list, an array as itself |
| LancamentoModal.Decimal | src/components/LancamentoModal.js:28 | the timestamp in a new id is printed as a non-empty string of decimal digits, with no leading zero |
| LancamentoModal.DecimalValor | src/components/LancamentoModal.js:28 | the printed digits, read back as a decimal number, give the timestamp |
| LancamentoModal.IdsNovosDistintos | src/components/LancamentoModal.js:28 | assessments added at different timestamps get different ids |
| LancamentoModal.NovaAvaliacao | src/components/LancamentoModal.js:28 | a new assessment is named `Nova Avaliação`, has maximum 10 and score 0 |
| LancamentoModal.Adicionar | src/components/LancamentoModal.js:29 | adding appends exactly the new assessment at the end of the period's list |
| LancamentoModal.TotaisDoBimestre | src/components/LancamentoModal.js:44-46 | the two totals are the sums of `nota` and `valorMax`; a missing period gives 0 and 0 |
| LancamentoModal.AdicionarTotais | src/components/LancamentoModal.js:27-46 | after adding, the period's score total is unchanged and its maximum total grows by 10 |
| LancamentoModal.EditarNotaInalterada | src/components/LancamentoModal.js:16-25 | editing a name or a maximum, or an absent id, leaves the score total unchanged |
| LancamentoModal.EditarNotaSubstitui | src/components/LancamentoModal.js:16-25 | editing the score of the assessment with a unique id replaces its contribution to the total by the new value |
| LancamentoModal.EditarIdempotente | src/components/LancamentoModal.js:21-23 | repeating the same change is the same as making it once |
| LancamentoModal.Lancamento.constructor | src/components/LancamentoModal.js:5-6 | the form starts as four empty periods on tab b1 |
| LancamentoModal.Lancamento.SincronizarAluno | src/components/LancamentoModal.js:8-12 | the form takes the student's grades when they are present and is kept otherwise |
| LancamentoModal.Lancamento.SelecionarAba | src/components/LancamentoModal.js:5 | the active tab becomes the chosen period |
| LancamentoModal.Lancamento.HandleInputChange | src/components/LancamentoModal.js:16-25 | only the given period changes, to its list with the change applied by id |
| LancamentoModal.Lancamento.AddAvaliacao | src/components/LancamentoModal.js:27-30 | only the given period changes, gaining the new assessment at its end, and its score total is unchanged |
| LancamentoModal.Lancamento.RemoveAvaliacao | src/components/LancamentoModal.js:32-35 | only the given period changes, losing every assessment with that id |
| LancamentoModal.Lancamento.HandleSubmit | src/components/LancamentoModal.js:37-41 | the whole four-period form is handed over unchanged with the student's id |
| LancamentoModal.Lancamento.TotaisDaAba | src/components/LancamentoModal.js:43-46 | the totals shown are those of the active period |
| Frequencia.StatusOptionsCompletas | src/pages/Frequencia.js:60-64 | the buttons offer each of the three statuses exactly once |
| Frequencia.Salva | src/pages/Frequencia.js:24-30 | every student with a status stored for the date has an entry, and every entry is the stored status of a student with that id |
| Frequencia.SalvaChaves | src/pages/Frequencia.js:24-30 | the loaded map holds exactly the students with a status stored for the date, each mapped to a stored status |
| Frequencia.SalvaValor | src/pages/Frequencia.js:24-30 | with distinct ids, each such student is mapped to its own stored status |
| Frequencia.SalvaUltimoVence | src/pages/Frequencia.js:24-30 | last one wins: a student's status is loaded when no later student with the same id has one stored for the date |
| Frequencia.Decisao | src/pages/Frequencia.js:43-47 | no write iff the student has no working status or the stored status equals it; a write keeps every other date and sets the selected date |
| Frequencia.Escritas | src/pages/Frequencia.js:42-50 | no more writes than students, and each write is the one `Decisao` asks for a student with that id |
| Frequencia.Recarregar | src/pages/Frequencia.js:52-56 | the reloaded list keeps its students and changes only their attendance maps: a student written to gets the last map written for its id, any other is unchanged |
| Frequencia.UltimaEscrita | src/pages/Frequencia.js:52-56 | after the writes, a student's stored map is the one written for its id with no later write to that id; none iff no write names it |
| Frequencia.EscritasCorretas | src/pages/Frequencia.js:42-50 | every write stores the working status for its student, and every student that needs a write gets one |
| Frequencia.EscritasVazias | src/pages/Frequencia.js:42-50 | the commit issues no write iff no student needs one |
| Frequencia.CommitRegistra | src/pages/Frequencia.js:40-56 | after the commit, every student with a working status has that status stored for the date |
| Frequencia.SegundoCommitVazio | src/pages/Frequencia.js:40-56 | committing the same working map again, against the reloaded records, issues no write |
| Frequencia.StatusChangeUltimoVence | src/pages/Frequencia.js:33-38 | setting a status and then another keeps only the second |
| Frequencia.Chamada.constructor | src/pages/Frequencia.js:6-9 | no students, the given date, an empty working map |
| Frequencia.Chamada.CarregarFrequenciaDoDia | src/pages/Frequencia.js:23-31 | the loop rebuilds the working map from the stored records for the selected date |
| Frequencia.Chamada.CarregarAlunos | src/pages/Frequencia.js:12-31 | the students are replaced and the working map is rebuilt for them |
| Frequencia.Chamada.SelecionarData | src/pages/Frequencia.js:22-31 | the date is replaced and the working map is rebuilt for it |
| Frequencia.Chamada.HandleStatusChange | src/pages/Frequencia.js:33-38 | only that student's entry of the working map changes |
| Frequencia.Chamada.HandleSalvarChamada | src/pages/Frequencia.js:40-57 | the loop issues exactly the needed writes in student order; the records are reloaded and the working map rebuilt |
| FichaAluno.DetalheBimestre | src/pages/FichaAluno.js:39-50 | "no assessment" iff the period is missing or empty; otherwise the sums of `nota` and `valorMax` |
| FichaAluno.Detalhes | src/pages/FichaAluno.js:95-98 | the four panels come in the order b1, b2, b3, b4 |
| FichaAluno.DetalhesSomam | src/pages/FichaAluno.js:49-50 | the four panel totals add up to the grade table's totals |
| FichaAluno.DiasDeFalta | src/pages/FichaAluno.js:110 | the absence days are exactly the dates marked `ausente`; none without an attendance map |
| FichaAluno.DiasDeFaltaAposRegistro | src/pages/FichaAluno.js:110 | recording a status for a date changes the absence days at that date only |
| FichaAluno.AtestadoNaoEFalta | src/pages/FichaAluno.js:110 | a `presente` or `atestado` date is not an absence day |
| Alunos.Mesclar | src/data/alunos.js:62 | the merged record has the fields of both; the new values win, the other fields keep their values |
| Alunos.Atualizados | src/data/alunos.js:61-63 | the list keeps its length, and every record whose id does not match is unchanged |
| Alunos.AtualizadosEm | src/data/alunos.js:61-63 | position by position, the record with the matching id is merged and every other record is unchanged |
| Alunos.CamposPreservados | src/data/alunos.js:62 | fields not in the update keep their values on the updated record |
| Alunos.IdDesconhecido | src/data/alunos.js:61-63 | an id no record carries leaves the list unchanged |
| Alunos.Idempotente | src/data/alunos.js:62 | applying the same update twice is applying it once |
| Alunos.AmostraBemFormada | src/data/alunos.js:3-57 | each sample record has an id, four array periods and an attendance map |
| Alunos.AmostraStatus | src/data/alunos.js:14-50 | the samples total 46 / 50 and 18 / 25, both Aprovado |
| Alunos.BaseAlunos.constructor | src/data/alunos.js:3-57 | the list starts as the two sample records |
| Alunos.BaseAlunos.AtualizarDadosAluno | src/data/alunos.js:60-64 | the list is replaced by its updated copy |
| Ascii.ToLower | src/components/PreCadastroAlunoModal.js:23 | lower-casing keeps the length and maps each letter `A-Z` to `a-z` |
| Ascii.LowerOfUpper | src/components/PreCadastroAlunoModal.js:23 | lower-casing forgets whether the input was upper-cased first |
| Ascii.LowerSemMaiusculas | src/components/PreCadastroAlunoModal.js:23 | a string without capitals is its own lower-case form |
| Ascii.ToUpper | src/services/organizationService.js:35 | upper-casing keeps the length and leaves no letter `a-z` |
| Ascii.UpperIdempotent | src/services/organizationService.js:35 | upper-casing twice is upper-casing once |
| Ascii.UpperOfLower | src/services/organizationService.js:67 | upper-casing forgets whether the input was lower-cased first |
| PreCadastro.Limpar | src/components/PreCadastroAlunoModal.js:23 | the result holds only `a-z0-9`, all taken from the input, and is no longer than it |
| PreCadastro.EmailGerado | src/components/PreCadastroAlunoModal.js:23 | the address ends in `@facillithub.com`, and everything before the domain is `a-z0-9` and no longer than the login |
| PreCadastro.Sanitizar | src/components/PreCadastroAlunoModal.js:23 | the local part holds only `a-z0-9` and is no longer than the login |
| PreCadastro.LimparFixo | src/components/PreCadastroAlunoModal.js:23 | a string of `a-z0-9` is kept whole |
| PreCadastro.LimparVazio | src/components/PreCadastroAlunoModal.js:23 | a string with no `a-z0-9` is removed entirely |
| PreCadastro.LimparConcat | src/components/PreCadastroAlunoModal.js:23 | the filter keeps order: filtering a concatenation filters each part |
| PreCadastro.SanitizarIdempotente | src/components/PreCadastroAlunoModal.js:23 | sanitizing an already sanitized local part changes nothing |
| PreCadastro.SanitizarIgnoraCaixa | src/components/PreCadastroAlunoModal.js:23 | the address does not depend on the case of the login |
| PreCadastro.LoginSemPermitidos | src/components/PreCadastroAlunoModal.js:23 | a login with no letter or digit is not rejected and gives the bare `@facillithub.com` |
| PreCadastro.EmailSeparavel | src/components/PreCadastroAlunoModal.js:23 | the address has exactly one `@`, with the local part before it and the domain after it |
| PreCadastro.ExemploPedroMaia | src/components/PreCadastroAlunoModal.js:59 | the login `Pedro.Maia` gives the local part `pedromaia` |
| PreCadastro.Modal.constructor | src/components/PreCadastroAlunoModal.js:7-9 | empty fields, not loading, no error |
| PreCadastro.Modal.HandleChange | src/components/PreCadastroAlunoModal.js:13-15 | only the named field takes the typed value |
| PreCadastro.Modal.HandleSubmit | src/components/PreCadastroAlunoModal.js:17-40 | one invitation row is created, carrying the name, the birth date and the generated address, and its code is returned; on failure nothing is inserted and the error message is set |
| Dashboard.Split | src/pages/Dashboard.js:16 | splitting gives at least one piece, and no piece holds a space |
| Dashboard.JoinSplit | src/pages/Dashboard.js:16 | joining the pieces with single spaces gives the name back |
| Dashboard.Primeiras | src/pages/Dashboard.js:16 | there is at most one first character per piece |
| Dashboard.PrimeirasSaoInicios | src/pages/Dashboard.js:16 | the first characters of the pieces are exactly the characters that start a word |
| Dashboard.Prefixo2 | src/pages/Dashboard.js:16 | the substring is the first two characters, or the whole string when it is shorter |
| Dashboard.Iniciais | src/pages/Dashboard.js:15-17 | `?` for a missing or empty name; otherwise at most two characters, none a lower-case letter |
| Dashboard.IniciaisDasPalavras | src/pages/Dashboard.js:16 | the initials are the first two word-starting characters, upper-cased |
| Dashboard.InicioDeEspacos | src/pages/Dashboard.js:16 | a string of spaces has no word-starting character |
| Dashboard.NomeSoDeEspacos | src/pages/Dashboard.js:16 | a name of spaces only gets empty initials, not `?` |
| Dashboard.Busca | src/pages/Dashboard.js:52-63 | the effect queries iff the session has loaded and there is a user and a teacher profile; it queries with the user's id |
| Dashboard.Efeito | src/pages/Dashboard.js:50-89 | nothing happens while the session loads; afterwards loading ends; a failed call sets the error and keeps the list; a successful one clears the error and stores `data`, or `[]` without data |
| Dashboard.Cartoes | src/pages/Dashboard.js:132-138 | one card per student, in order, with its id and initials |
| Dashboard.Mostrar | src/pages/Dashboard.js:95-139 | the session-loading view iff the session loads; the restricted view iff it has loaded and the profile is not a teacher's; otherwise, in order: loading students, then the error, then the empty-class message, then the grid of `Cartoes` of the list |
| Dashboard.NaoProfessor | src/pages/Dashboard.js:52-111 | a non-teacher profile triggers no query and sees the restricted view |
| Dashboard.EfeitoConcluido | src/pages/Dashboard.js:50-120 | once the session and the effect are done, no loading message is shown, and a failed call shows the error |
| Dashboard.ProfessorSemAlunos | src/pages/Dashboard.js:69-138 | for a teacher, no data or an empty list shows the empty-class message; a non-empty list shows its cards |
| Dashboard.SemPerfilMostraVazio | src/pages/Dashboard.js:52-130 | without a profile the page shows the empty-class message |
| OrganizationService.NaoUsados | src/services/organizationService.js:67-68 | the selected rows are exactly the rows with that code and no consumer; never more rows than the table |
| OrganizationService.NaoUsadosConcat | src/services/organizationService.js:64-68 | the filter keeps table order and each row's occurrences: selecting from two tables joined is selecting from each in turn |
| OrganizationService.Validate | src/services/organizationService.js:63-79 | a row is returned only if its code is the upper-cased input and it is unused, and only when exactly one such row exists; a failed request gives null |
| OrganizationService.NovoConvite | src/services/organizationService.js:34-44 | a new row has the given id and the upper-cased `nanoid(8)` as its code (8 characters, no lower-case letter), the given organization and creator, role `student`, and no consumer |
| OrganizationService.Marcados | src/services/organizationService.js:108-111 | the rows with that id get the consumer and the time; all other rows are unchanged |
| OrganizationService.PrimeiroVinculo | src/services/organizationService.js:11-18 | the one membership row `.limit(1)` returns, chosen as the user's first in table order; none iff the user has no membership |
| OrganizationService.BuscarOrganizacao | src/services/organizationService.js:13-15 | the joined organization row has the membership's organization id |
| OrganizationService.MinhaOrganizacao | src/services/organizationService.js:10-26 | a member whose organization row exists gets that organization; any result is the organization of the user's membership; null with no membership or on a failed request |
| OrganizationService.ValidateIgnoraCaixa | src/services/organizationService.js:67 | validation does not depend on the case of the input |
| OrganizationService.CriadoValida | src/services/organizationService.js:34-69 | a freshly created code validates to the new row when no other unused row has the same code |
| OrganizationService.NaoUsadosVazio | src/services/organizationService.js:67-68 | with no unused row carrying the code, the selection is empty |
| OrganizationService.MarcadoNaoValida | src/services/organizationService.js:63-117 | after a row is marked as used, no validation returns it |
| OrganizationService.UsoUnico | src/services/organizationService.js:63-117 | a code that validated no longer validates once its row is marked as used |
| OrganizationService.RemarcarSobrescreve | src/services/organizationService.js:107-111 | marking again overwrites the earlier consumer and time |
| OrganizationService.Banco.GetMinhaOrganizacao | src/services/organizationService.js:10-26 | returns the user's organization as the query defines it, changing nothing |
| OrganizationService.Banco.CriarCodigoConvite | src/services/organizationService.js:34-54 | appends exactly the new row and returns it; on failure returns null and inserts nothing |
| OrganizationService.Banco.ValidateInvitationCode | src/services/organizationService.js:63-79 | returns the validation result over the current rows, changing nothing |
| OrganizationService.Banco.LinkUserToOrganization | src/services/organizationService.js:87-100 | appends exactly one membership `(user, organization, role)`; on failure it reports the error and adds nothing; codes are untouched |
| OrganizationService.Banco.MarkCodeAsUsed | src/services/organizationService.js:107-117 | marks the rows with that id; on failure it reports the error and changes nothing |

## Left out

- Floating point: scores and the percentage are exact reals. JavaScript's rounding in `(notaFinal / valorMaxFinal) * 100` is not modelled.
- `Number(value)`: parsing an input string is not modelled. An edit carries the parsed number, or `None` for NaN; an empty input is also read as 0 in the source.
- Unicode case mapping: only ASCII letters are mapped by `toLowerCase` / `toUpperCase`.
- Dashboard.Iniciais: strings are sequences of code points, while `n[0]` and `substring(0, 2)` index UTF-16 code units. For a name starting with a character outside the Basic Multilingual Plane the source takes half a surrogate pair and the model the whole character. `toUpperCase` can also lengthen a string (`ß` becomes `SS`), so the promise of at most two characters holds only for the ASCII case mapping modelled here.
- OrganizationService.PrimeiroVinculo: the query uses `.limit(1)` without `.order()`, so which membership comes back for a user with several is left to the database. Taking the first in table order is a choice of the model.
- Records.Notas.Values: `Object.values` skips an absent key, while the model visits it as `Missing`, which contributes 0. The totals are the same; the list of visited values is not.
- LancamentoModal.Lancamento.HandleInputChange: requires the edited period to be an array; the source throws on `map` otherwise.
- LancamentoModal.Lancamento.RemoveAvaliacao: requires the edited period to be an array; the source throws on `filter` otherwise.
- LancamentoModal.Lancamento.AddAvaliacao: requires the period not to be `NotArray`; spreading a truthy non-array value throws, or spreads the characters of a string.
- FichaAluno.DetalheBimestre: requires the period not to be `NotArray`; a truthy non-array value throws on `reduce`. Falsy values are `Missing` and show "no assessment", as the source does.
- FichaAluno.DiasDeFalta: a set of dates; the key order of `Object.keys` is not modelled.
- `handleSalvarChamada` runs its writes concurrently and reloads with `getAlunos()`. The model issues the writes in student order, assumes each succeeds, and takes the reloaded records to be the old ones with each student's last written map. The success alert is not modelled.
- The page's `loading` flag in `src/pages/Frequencia.js` is not modelled. The `NotasFaltas` page stores the value of `getAlunos()` directly (src/pages/NotasFaltas.js:14); that service call is not part of this model.
- Only the keys `b1`..`b4` of `notas` are modelled; `Object.values` over extra keys is not.
- Backend requests: each success or failure is a parameter `falhaBackend`, and row ids, `nanoid(8)` and `new Date()` are parameters too. `console.error` logging and the `PGRST116` distinction in `validateInvitationCode` are not modelled (both give null).
- OrganizationService.BuscarOrganizacao: the joined organization is looked up by id in an `organizations` table; the other columns it returns are carried but not interpreted.
- The pre-registration modal passes its pre-registration data as the second argument of `criarCodigoConvite`, whose parameter is documented as the creating user's id and is stored in `created_by`. The model stores the data in that column as the code does (`CreatedBy.Prefilled`).
- The e-mail sanitiser follows the code: every character outside `a-z0-9` is removed, so `.`, `_` and `-` are dropped, and an empty local part is not rejected. The form's `required` attribute only rejects an empty login, which is browser behaviour and is not modelled.
- Dashboard: navigation on a card click, avatar images, the `Nome não disponível` / `sem apelido` fallbacks and the header greeting are presentation and are not modelled.
- Not part of this model: `src/components/Frequencia.js`, `CalendarioPresenca.js`, `GraficoDesempenho.js`, `GeradorCodigo.js`, `Header.js`, `Sidebar.js`, `StatusBadge.js`, `src/context/*`, `src/pages/Login.js`, `src/pages/Cadastro.js`, `src/services/alunoService.js`, `src/services/supabaseClient.js`, `src/App.js`, `src/index.js`. They are authentication, routing, presentation or thin wrappers around the backend.
