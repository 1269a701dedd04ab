# Sports-equipment stock: a Dafny model

This project models the core of a small stock application for sports
equipment (balls, bibs, socks). A school lends material to users and takes
it back. The backend (`backend-meias/src/server.js`) keeps three tables:

- `materiais`: name, quantity and minimum stock;
- `movimentacoes`: a ledger of loans (`emprestimo`) and returns (`devolucao`);
- `usuarios`: the users.

The React front end has a stock page (`Estoque.jsx`) that records loans and
returns. It also has a materials page (`Materiais.jsx`) for creating,
editing, deleting and searching materials.

The model has these modules:

- `Text`: JavaScript `trim`, lower-casing, SQL `LIKE` and the name order.
- `Numbers`: JavaScript `Number(...)` on form text, and `String(id)`.
- `Sorting`: a sort by a total preorder, with permutation and duplicate facts.
- `Inventory`: the backend's entities, requests and errors, and the pure
  parts of each handler. These are the movement checks, the signed delta,
  the new ledger row, the listing with its search and order, get, the
  partial update, the history join and order, and login.
- `Server`: a `Store` class. Its fields are the three tables and their id
  counters. Its methods are the handlers that change the tables: create,
  update and delete a material, record a movement, and register a user.
  Recording a movement is written step by step: BEGIN, UPDATE, INSERT, then
  COMMIT or ROLLBACK.
- `Client`: what both pages share. A number travels in JSON (NaN becomes
  null), and an alert shows the server's error text or a fallback.
- `Estoque`: the stock page. It holds the form check, the selected material,
  the payload, the badge, and an `EstoquePage` class whose handlers drive a
  `Store`.
- `Materiais`: the materials page. It holds the form check, the request
  bodies, the search query, the row status, and a `MateriaisPage` class
  whose handlers drive a `Store`.

Modelling choices:

- A numeric request field is absent, a JSON integer, or non-numeric text
  that PostgreSQL would refuse. Numbers sent as JSON text and fractional
  numbers are left out (see `Inventory.NumField` under "## Left out").
- A text field counts as present when it is a non-empty string, as
  JavaScript truthiness does.
- Dates are read by a function passed in as a parameter. The database clock
  `NOW()` is a parameter `now`.
- Whether the database accepts an INSERT (foreign keys, CHECK constraints, a
  failed connection) is a boolean parameter `insertAccepted` of
  `CreateMaterial`, `RecordMovement` and `RegisterUser`. A duplicate e-mail
  is the exception: `RegisterUser` finds it by looking up the user table.
- Ids come from per-table counters, as SERIAL columns do.
- Name order compares lower-cased names character by character.

Two behaviours of the server are worth knowing when reading the lemmas:

- The server refuses only a quantity of 0, which is falsy
  (backend-meias/src/server.js:156), and records `|q|` for a negative `q`
  (backend-meias/src/server.js:163).
- The server never checks that stock stays non-negative
  (backend-meias/src/server.js:170-178): `ServerAcceptsOverdraw` takes a
  quantity to −4. Only the stock page's form guards against this
  (`FormKeepsStockNonNegative`, `EstoquePage.RegistrarMovimentacao`).

## Model

| member | source | states |
|---|---|---|
| Text.Trim | backend-meias/src/server.js:78 | `.trim()`: the result is no longer than the input and neither starts nor ends with white space |
| Text.TrimSpec | backend-meias/src/server.js:78 | the result is the input with only white space removed at each end, and it neither starts nor ends with white space |
| Text.TrimIdempotent | front-meias/src/pages/Materiais.jsx:83 | trimming an already trimmed name changes nothing |
| Text.TrimEmptyIffBlank | front-meias/src/pages/Materiais.jsx:68 | a name trims to empty exactly when every character is white space |
| Text.TrimEmpty | front-meias/src/pages/Materiais.jsx:18 | the empty search term trims to empty |
| Text.Lower | backend-meias/src/server.js:84 | lower-casing keeps the length |
| Text.LowerAt | backend-meias/src/server.js:84 | lower-casing works character by character |
| Text.LowerIdempotent | backend-meias/src/server.js:159 | lower-casing twice equals lower-casing once |
| Text.LowerAppend | backend-meias/src/server.js:84 | lower-casing distributes over concatenation |
| Text.Like | backend-meias/src/server.js:84 | PostgreSQL `LIKE` with `%`, `_` and backslash escapes; a pattern without special characters matches exactly itself |
| Text.LikePrefix | backend-meias/src/server.js:84 | a pattern ending in `%` matches exactly the strings with that prefix |
| Text.LikeAnything | backend-meias/src/server.js:87 | `%` matches every string |
| Text.LikeContains | backend-meias/src/server.js:84-87 | `%term%` matches exactly the strings containing `term`, for a term without wildcards |
| Text.LowerPlain | backend-meias/src/server.js:84 | lower-casing a term adds no wildcard |
| Text.LexLeTotal | backend-meias/src/server.js:85 | any two names are ordered one way or the other |
| Text.LexLeTransitive | backend-meias/src/server.js:85 | the name order is transitive |
| Text.LexLeAntisymmetric | backend-meias/src/server.js:85 | names ordered both ways are equal |
| Numbers.ToNumber | front-meias/src/pages/Estoque.jsx:67 | blank text is 0; otherwise the trimmed text read as a signed decimal integer, or NaN |
| Numbers.IntToString | front-meias/src/pages/Estoque.jsx:73 | the text is non-empty and starts with `-` exactly for a negative number |
| Numbers.NatToString | front-meias/src/pages/Estoque.jsx:186 | the text is all digits with no leading zero |
| Numbers.IntToStringRoundTrip | front-meias/src/pages/Estoque.jsx:186 | `Number(String(n))` is `n` |
| Numbers.IntToStringTrimmed | front-meias/src/pages/Estoque.jsx:186 | `String(n)` has no surrounding white space for `Number` to strip |
| Numbers.IntToStringInjective | front-meias/src/pages/Estoque.jsx:186 | different ids give different strings |
| Sorting.InsertBy | front-meias/src/pages/Estoque.jsx:42-46 | inserting into a sorted list keeps it sorted and adds exactly one element |
| Sorting.SortBy | front-meias/src/pages/Estoque.jsx:42-46 | the result is sorted and is a permutation of the input |
| Sorting.SortedAllPairs | front-meias/src/pages/Estoque.jsx:42-46 | under a transitive order, a sequence sorted by neighbours is in order between any two positions |
| Sorting.NoDupCounts | backend-meias/src/server.js:77-91 | a list has no duplicates exactly when no element occurs twice in its multiset |
| Sorting.PermutationNoDup | backend-meias/src/server.js:77-91 | a permutation of a duplicate-free list is duplicate-free |
| Sorting.PermutationMembers | backend-meias/src/server.js:77-91 | a permutation has the same members |
| Inventory.ParseKind | backend-meias/src/server.js:159 | a kind is recognised exactly when its lower-cased text is `emprestimo` or `devolucao`, and it names that text |
| Inventory.LowerOfLower | backend-meias/src/server.js:188 | text without capitals is its own lower case |
| Inventory.KindRoundTrip | backend-meias/src/server.js:188 | the stored kind name parses back to the same kind |
| Inventory.ParseKindIgnoresCase | backend-meias/src/server.js:159 | case does not change which kind is read |
| Inventory.ValidateMovement | backend-meias/src/server.js:155-160 | a missing or falsy field gives the 400 missing-fields error; otherwise an unknown kind gives the 400 invalid-kind error; otherwise it accepts, with the lower-cased kind |
| Inventory.ZeroQuantityRefused | backend-meias/src/server.js:156 | quantity 0 is refused as missing |
| Inventory.Delta | backend-meias/src/server.js:162-163 | the delta has the magnitude of the quantity and is positive exactly for a return |
| Inventory.ApplyDelta | backend-meias/src/server.js:170-172 | only the target row's quantity changes, by the delta; every other row and field stays |
| Inventory.LoanThenReturnRestores | backend-meias/src/server.js:163 | a loan then a return of the same quantity restores the table |
| Inventory.StatusFor | backend-meias/src/server.js:192 | the caller's status if given; otherwise `emprestado` for a loan and `devolvido` for a return |
| Inventory.DateParamOf | backend-meias/src/server.js:190-191 | an absent or empty date is no date; otherwise the instant the database reads from it, or unreadable when it reads none |
| Inventory.MovementInstant | backend-meias/src/server.js:183 | `COALESCE($5, NOW())`: the instant read from the date given, and `now` when none was given |
| Inventory.ReturnInstant | backend-meias/src/server.js:183 | the return date is null exactly when none was given, and otherwise the instant given |
| Inventory.NewMovement | backend-meias/src/server.js:181-194 | the ledger row carries the ids, the lower-cased kind, `\|q\|`, the defaulted status, the new id, and as dates the ones given (read by the database) or else `NOW()` and null |
| Inventory.NewMovementWellFormed | backend-meias/src/server.js:181-194 | a row built from integer fields has a known kind and a positive quantity, and its signed quantity is the delta applied |
| Inventory.ListedOf | backend-meias/src/server.js:81-82 | a listed row copies the material and flags it exactly when quantity < minimum |
| Inventory.NumberOrZero | backend-meias/src/server.js:116 | a number stays; missing or non-numeric input becomes 0 |
| Inventory.Patch | backend-meias/src/server.js:127-133 | each supplied field overwrites; each missing field keeps its old value |
| Inventory.PatchIdempotent | backend-meias/src/server.js:127-133 | sending the same update twice is the same as once |
| Inventory.EmptyPatchKeeps | backend-meias/src/server.js:127-133 | an update that supplies nothing changes nothing |
| Inventory.GetMaterial | backend-meias/src/server.js:94-105 | found exactly when the id is stored, with its fields and flag; otherwise 404 |
| Inventory.SearchTerm | backend-meias/src/server.js:78 | the query's `q`, or the empty string, trimmed: empty when no term is sent; otherwise the sent term with only outer white space removed, none left at either end |
| Inventory.NameMatches | backend-meias/src/server.js:79-87 | no term keeps every row; otherwise `lower(nome) LIKE lower($1)` with `$1` the term wrapped in `%`, and lowering that pattern lowers only the term |
| Inventory.SearchFindsSubstrings | backend-meias/src/server.js:84-87 | for a term without wildcards, a name matches exactly when it contains the term, ignoring case |
| Inventory.RowsBelow | backend-meias/src/server.js:80-84 | every enumerated row is a stored material below the bound whose name matches, shown with its flag |
| Inventory.RowsBelowComplete | backend-meias/src/server.js:80-84 | every stored material below the bound whose name matches is enumerated |
| Inventory.RowsBelowIncreasing | backend-meias/src/server.js:80-84 | the enumeration runs in strictly increasing id order, so no row appears twice |
| Inventory.ByNameTotal | backend-meias/src/server.js:85 | the name order is total |
| Inventory.ByNameTransitive | backend-meias/src/server.js:85 | the name order is transitive |
| Inventory.ListMateriais | backend-meias/src/server.js:77-91 | sorted by name; holds exactly the matching stored materials, as listed rows, each once |
| Inventory.SortedListing | backend-meias/src/server.js:77-91 | sorting the enumerated rows keeps the same rows, each once |
| Inventory.DistinctRowsDistinctIds | backend-meias/src/server.js:77-91 | distinct listed rows have distinct ids |
| Inventory.JoinAll | backend-meias/src/server.js:217-224 | every joined row comes from a ledger row whose material and user exist and that passes the filter, joined with both names |
| Inventory.JoinAllComplete | backend-meias/src/server.js:217-224 | every kept ledger row is joined |
| Inventory.JoinAllIncreasing | backend-meias/src/server.js:217-224 | a ledger in increasing id order joins to rows in increasing id order |
| Inventory.JoinedIdsBelow | backend-meias/src/server.js:217-224 | joined rows keep ids below the ledger's bound |
| Inventory.NewestFirstTotal | backend-meias/src/server.js:225 | the newest-first order is total |
| Inventory.History | backend-meias/src/server.js:214-231 | an unparseable filter is a 500; otherwise exactly the kept rows, newest first with ties broken by higher id, each once |
| Inventory.SortedHistory | backend-meias/src/server.js:225 | ordering the joined rows keeps exactly the same rows, with distinct ids when the ledger's are |
| Inventory.FindCredentials | backend-meias/src/server.js:63-66 | finds a user with this e-mail and password, or shows there is none |
| Inventory.Login | backend-meias/src/server.js:59-70 | missing credentials give 400; otherwise it succeeds exactly when some user has this e-mail and password, and returns that user without the password, else 401 |
| Inventory.LoginUnique | backend-meias/src/server.js:63-68 | with unique e-mails, login returns the user owning that e-mail |
| Server.Store.constructor | backend-meias/src/server.js:8-14 | the store starts with empty tables and counters at 1 |
| Server.Store.ListAll | backend-meias/src/server.js:77-91 | every stored matching material is listed |
| Server.Store.HistoryAll | backend-meias/src/server.js:214-231 | no movement appears twice in the history |
| Server.Store.LoginAll | backend-meias/src/server.js:59-70 | with both credentials given, login succeeds exactly when a stored user has them |
| Server.Store.CreateMaterial | backend-meias/src/server.js:108-120 | without a name, 400; a refused insert gives 500 and no change; otherwise it adds one material under the next id, with missing or non-numeric quantities as 0 |
| Server.Store.UpdateMaterial | backend-meias/src/server.js:123-138 | a non-numeric quantity gives 500; an unknown id gives 404; otherwise exactly that row is patched; nothing changes on error |
| Server.Store.DeleteMaterial | backend-meias/src/server.js:141-147 | removes exactly that id when stored; otherwise 404 and no change |
| Server.Store.RecordMovement | backend-meias/src/server.js:154-211 | each error changes nothing (400, 500 for non-numeric ids, 404, 500 for a failed insert); a commit applies the delta to that one material, appends exactly one ledger row, and returns it with the updated row and flag |
| Server.Store.AddToQuantity | backend-meias/src/server.js:169-173 | the UPDATE adds the delta to that one stored row and keeps the store valid; nothing else changes |
| Server.Store.AppendMovement | backend-meias/src/server.js:180-194 | the INSERT appends one well-formed row under the next ledger id and keeps the store valid |
| Server.Store.RegisterUser | backend-meias/src/server.js:41-56 | missing fields give 400; a taken e-mail gives 409; a fresh e-mail whose INSERT the database refuses gives 500; otherwise it adds one user under the next id, with `aluno` as the default kind; materials, ledger and their counters never change |
| Client.JsonNumber | front-meias/src/pages/Estoque.jsx:89-101 | NaN is sent as null; a number as itself |
| Inventory.ErrorMessage | backend-meias/src/server.js:20-23 | `fail`: a handler's own message is sent as it is, and a 500 sends `Erro interno`; the text is empty only for an empty own message |
| Client.AlertText | front-meias/src/pages/Estoque.jsx:104-107 | the server's message when it has one, else the page's fallback; never empty |
| Estoque.FindById | front-meias/src/pages/Estoque.jsx:50 | `Array.find`: the first loaded material with that id, or none exactly when no loaded material has it |
| Estoque.MaterialSelecionado | front-meias/src/pages/Estoque.jsx:49-51 | no selection for NaN; a selection is the first loaded material whose id is `Number(materialId)` |
| Estoque.SelectingACardSelectsIt | front-meias/src/pages/Estoque.jsx:186 | clicking a card selects exactly that material |
| Estoque.ValidarForm | front-meias/src/pages/Estoque.jsx:62-78 | checks in the order user, material, kind, quantity, stock, and reports the first failure; a loan above the stock reports the available quantity; passes exactly when all pass |
| Estoque.AcceptedLoanFitsStock | front-meias/src/pages/Estoque.jsx:70-75 | an accepted loan asks for no more than the selected material shows |
| Estoque.UncheckedAgainstStock | front-meias/src/pages/Estoque.jsx:70-75 | returns, and loans of a material missing from the list, are never checked against stock |
| Estoque.Payload | front-meias/src/pages/Estoque.jsx:88-96 | the selected id, the user's id, the typed kind and quantity; the typed movement date, or null when empty; the return date only for a loan that has one; status `emprestado` exactly for a loan |
| Estoque.FormPassesServerChecks | front-meias/src/pages/Estoque.jsx:62-96 | a payload from an accepted form passes the server's checks with the same kind, and moves exactly the quantity typed |
| Estoque.PayloadPassesServerChecks | front-meias/src/pages/Estoque.jsx:88-96 | a body built from a known kind, a positive typed quantity, a non-zero material id and a logged-in user passes the server's checks with that kind, and its delta is the typed quantity, negated for a loan |
| Estoque.RequestValidatesAs | backend-meias/src/server.js:156-160 | a request whose ids and quantity are truthy and whose kind is a kind's own name is accepted as that kind |
| Estoque.FormKeepsStockNonNegative | front-meias/src/pages/Estoque.jsx:70-75 | an accepted loan, with the list as fresh as the store, leaves stock at 0 or more |
| Estoque.LoanPayloadWithinStock | front-meias/src/pages/Estoque.jsx:70-96 | an accepted loan posts the selected id and a positive quantity within the stored stock |
| Estoque.ServerAcceptsOverdraw | backend-meias/src/server.js:162-172 | the server alone accepts a loan larger than the stock and leaves it negative |
| Estoque.LoanIsEmprestimo | backend-meias/src/server.js:159 | the loan radio value is read as a loan |
| Estoque.PostMovement | front-meias/src/pages/Estoque.jsx:98-107 | succeeds exactly when the server's checks pass, the material is stored and the INSERT goes through; a failed post changes nothing; a successful one applies the payload's delta to that material and appends exactly the movement the server builds under the next id; users and the other sequences stay; a loan within stock keeps it at 0 or more |
| Estoque.StockBadge | front-meias/src/pages/Estoque.jsx:202-208 | `Baixo` exactly below the minimum; otherwise `Esgotado` exactly at 0; otherwise OK |
| Estoque.EsgotadoNeedsZeroMinimum | front-meias/src/pages/Estoque.jsx:202-208 | with a non-negative minimum, `Esgotado` shows only when the minimum is 0 |
| Estoque.BadgeMatchesServerFlag | front-meias/src/pages/Estoque.jsx:202 | the card's warning equals the server's below-minimum flag |
| Estoque.EstoquePage.constructor | front-meias/src/pages/Estoque.jsx:5-15 | empty fields, kind `emprestimo`, not busy |
| Client.SortedByName | front-meias/src/pages/Estoque.jsx:42-46 | the sorted view both pages show: ordered by name and a permutation of the loaded list |
| Client.SortedByNameInOrder | front-meias/src/pages/Materiais.jsx:44-48 | any two rows of the sorted view, not only neighbours, are in name order |
| Estoque.EstoquePage.LimparForm | front-meias/src/pages/Estoque.jsx:54-59 | clears quantity, note and both dates; the material and the kind stay |
| Estoque.EstoquePage.SelecionarMaterial | front-meias/src/pages/Estoque.jsx:186 | the selection becomes `String(id)`; nothing else changes |
| Estoque.EstoquePage.Enviar | front-meias/src/pages/Estoque.jsx:85-126 | on failure an alert and no change to the store, the list, the quantity, the note or either date; on success exactly the payload's movement recorded and its delta applied, a reloaded list and a cleared form; users stay; the selection and kind stay; not busy afterwards |
| Estoque.EstoquePage.Concluir | front-meias/src/pages/Estoque.jsx:104-126 | a failed answer shows the server's message or the generic one and keeps the list, quantity, note and dates; a good one warns exactly when the material is below its minimum, reloads the list and clears the form; the page is not busy afterwards |
| Estoque.EstoquePage.RegistrarMovimentacao | front-meias/src/pages/Estoque.jsx:81-127 | a refused form gives its message and leaves the page and the store untouched; otherwise it sends `Payload` of the form as it was, with the outcome `Enviar` states; an accepted loan with the list as fresh as the store never drives stock negative |
| Materiais.NumberOf | front-meias/src/pages/Materiais.jsx:69-70 | `Number(...)` of a form field: a number as itself, typed text as JavaScript reads it |
| Materiais.ValidarForm | front-meias/src/pages/Materiais.jsx:67-72 | checks in the order name (blank after trim), quantity < 0, minimum < 0, and reports the first failure; passes exactly when all pass |
| Materiais.EmptyFormNeedsOnlyAName | front-meias/src/pages/Materiais.jsx:10 | zeros are accepted: the empty form with a name passes exactly when the name is not blank |
| Materiais.CreateBody | front-meias/src/pages/Materiais.jsx:82-86 | sends the trimmed name and both numbers |
| Materiais.UpdateBody | front-meias/src/pages/Materiais.jsx:123-127 | sends the trimmed name and both numbers |
| Materiais.ValidFormCreatesCleanMaterial | front-meias/src/pages/Materiais.jsx:74-86 | an accepted form creates a material with the trimmed non-blank name and non-negative quantities |
| Materiais.ValidFormUpdatesCleanly | front-meias/src/pages/Materiais.jsx:113-127 | an accepted form never makes the update fail for a non-number; it renames to the trimmed name; it sets no negative value; a NaN field keeps its old value |
| Materiais.EditForm | front-meias/src/pages/Materiais.jsx:104-109 | the form carries the material's id, name, quantity and minimum |
| Materiais.UntouchedEditKeepsMaterial | front-meias/src/pages/Materiais.jsx:102-127 | saving an untouched edit writes back what is stored, when the name is already trimmed |
| Materiais.SearchQuery | front-meias/src/pages/Materiais.jsx:18-20 | `?q=` is sent exactly when the trimmed term is not empty, and carries the term as typed |
| Materiais.SearchQueryMeansTrimmedTerm | front-meias/src/pages/Materiais.jsx:18-20 | the server searches for exactly the trimmed term, and a blank term lists everything |
| Materiais.StatusOf | front-meias/src/pages/Materiais.jsx:312-316 | `Baixo` exactly below the minimum |
| Materiais.StatusAgreesWithServer | front-meias/src/pages/Materiais.jsx:301 | the row warning equals the server's below-minimum flag |
| Materiais.MateriaisPage.constructor | front-meias/src/pages/Materiais.jsx:5-12 | an empty list, an empty term, the empty form, editing nothing |
| Materiais.MateriaisPage.CarregarMateriais | front-meias/src/pages/Materiais.jsx:15-36 | the list becomes the server's listing for the term's query |
| Materiais.MateriaisPage.LimparBusca | front-meias/src/pages/Materiais.jsx:56-59 | empties the term and lists everything |
| Materiais.MateriaisPage.LimparForm | front-meias/src/pages/Materiais.jsx:62-65 | the empty form, editing nothing |
| Materiais.MateriaisPage.Editing | front-meias/src/pages/Materiais.jsx:114 | `!editandoId` is false: exactly when the edited id is JavaScript-truthy, i.e. set and not 0 |
| Materiais.MateriaisPage.IniciarEdicao | front-meias/src/pages/Materiais.jsx:102-111 | edits that id, with the material's values in the form; nothing else changes |
| Materiais.MateriaisPage.EnviarCriacao | front-meias/src/pages/Materiais.jsx:78-99 | success exactly when the insert is accepted: the store gains exactly the posted material under the next id, which advances by one, then reload and clear; on failure the store, the form, the edited id and the list stay; the ledger, the users and their sequences never change |
| Materiais.MateriaisPage.CriarMaterial | front-meias/src/pages/Materiais.jsx:74-100 | a refused form gives its message and leaves the page and the store untouched; success adds exactly the trimmed name and both numbers (NaN as 0) under the next id, which advances by one, reloads and clears; a failed post keeps the form, the edited id and the list; the ledger, the users and their sequences never change |
| Materiais.MateriaisPage.EnviarEdicao | front-meias/src/pages/Materiais.jsx:119-140 | success exactly when the id is stored: that row is patched, then reload and clear; on failure the store, the form, the edited id and the list stay; the ledger, the users and their sequences never change, and so does the material sequence |
| Materiais.MateriaisPage.SalvarMaterial | front-meias/src/pages/Materiais.jsx:113-141 | leaves the page and the store untouched when not editing (null or 0) or when the form is refused; otherwise patches the edited row with the trimmed name; a failed put keeps the form, the edited id and the list; the ledger, the users and their sequences never change, and so does the material sequence |
| Materiais.MateriaisPage.ExcluirMaterial | front-meias/src/pages/Materiais.jsx:143-161 | does nothing unless confirmed; otherwise removes exactly that id when stored and reloads; a failed delete keeps the store and the list; the form is never touched; the ledger, the users and their sequences never change, and so does the material sequence |

## Left out

- HTTP and Express plumbing: each handler's response is a `Result` whose error carries the status class and message. The `/health` route and CORS are not modelled.
- PostgreSQL connection handling and logging: the pool, `client.release` and `console.error` are not modelled.
- Foreign-key, CHECK and unique constraints: the schema is not part of this model. Whether an INSERT is accepted is a parameter. Deleting a material does not touch movements that refer to it.
- A failed UPDATE, other than a non-numeric field or a missing row, is not modelled, in `PUT /materiais/:id` or in the `POST /movimentacoes` transaction: a CHECK constraint on `quantidade` or an integer overflow of the column would make it fail, and the model applies every delta to a stored row.
- A counter value used by a failed INSERT is not modelled: the model does not advance the counter on failure, while a SERIAL column would.
- Concurrency: the model is sequential. `quantidade = quantidade + $1` is one map update.
- `NOW()`, `Date` and `toISOString` are not modelled: the time is a parameter, and reading a date string is a function parameter.
- Path ids that are not numbers are not modelled: `:id` is an integer.
- Inventory.NumField: a number sent as JSON text ("0", "5") and a fractional JSON number are not modelled; a field is absent, a JSON integer, or text that is not a number. In the source, the text "0" is truthy, so `{"quantidade":"0"}` passes the 400 check (backend-meias/src/server.js:156), and `Math.abs("0")` is 0 (server.js:163, 189), so the transaction commits a ledger row with quantity 0. A `material_id` of "0" reaches the UPDATE and gets 404, not 400. A fraction such as 2.5 passes the checks and fails as an integer parameter with 500 (server.js:116, 172, 183). The model's claims that every stored movement has a positive quantity (`Server.Store.Valid`, `Inventory.NewMovementWellFormed`) therefore hold only for requests whose numeric fields are integers.
- Numbers.ToNumber: reads only optionally signed decimal integers. Fractions, exponents, hexadecimal and `Infinity` become NaN.
- Text.Lower: lower-cases only ASCII and Latin-1 capitals, not all of Unicode.
- Inventory.ByName: the `pt-BR` collation of `localeCompare` and PostgreSQL's `ORDER BY nome` are modelled as a character-by-character order on lower-cased names. Accents are not folded, and the database's case-sensitive order is not separated from the pages' case-insensitive one.
- Server.Store.RegisterUser: a `tipo` sent as null is stored as the default `aluno`. The source stores null, since its default applies only to an absent field.
- Server.Store.RegisterUser: a duplicate e-mail is found by looking up the table, standing in for the database's unique-violation message.
- Page loading state, `alert`, `confirm` and `scrollTo` are not modelled. An alert is the handler's returned text, and confirmation is a boolean parameter.
- A failed list request (`Erro ao carregar materiais`) is not modelled: the reload after a change always succeeds.
- `encodeURIComponent` and URL decoding are not modelled: the query value is the term itself.
- The observation field on the stock page is cleared by `limparForm` but never sent, as in the source.
- `Login.jsx`, `Home.jsx` and `App.jsx` are not part of this model.
