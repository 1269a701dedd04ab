/**
 * The tables of the stock backend and the pure part of its request handling
 * (backend-meias/src/server.js): the checks on a movement request, the signed
 * delta it applies, the below-minimum flag, the material listing with its
 * search, the movement history query and the credential lookup. The class
 * that holds the tables and changes them is in module Server.
 */
module Inventory {
  import opened Wrappers
  import opened Text
  import opened Sorting

  /** Row identifiers, handed out by the tables' serial sequences (1, 2, ...). */
  type Id = int

  /** A point in time as the database stores it. */
  type Instant = int

  /** A row of `materiais`; its id is the key it is stored under. */
  datatype Material = Material(nome: string, quantidade: int, estoqueMinimo: int)

  /** A material as the list and get endpoints return it, with the derived flag. */
  datatype MaterialRow = MaterialRow(id: Id, nome: string, quantidade: int, estoqueMinimo: int, abaixoDoMinimo: bool)

  /** A material as create and update return it (`RETURNING id, nome, quantidade, estoque_minimo`). */
  datatype MaterialRecord = MaterialRecord(id: Id, nome: string, quantidade: int, estoqueMinimo: int)

  /** A row of `usuarios`. */
  datatype User = User(nome: string, email: string, senha: string, tipo: string)

  /** A user as register and login return it: everything but the password. */
  datatype UserView = UserView(id: Id, nome: string, email: string, tipo: string)

  /** The two kinds of movement: a loan takes stock out, a return puts it back. */
  datatype Kind = Emprestimo | Devolucao

  /** A row of `movimentacoes`; rows are only ever appended. */
  datatype Movement = Movement(
    id: Id,
    materialId: Id,
    usuarioId: Id,
    tipo: string,
    quantidade: int,
    dataMovimentacao: Instant,
    dataDevolucao: Option<Instant>,
    status: string)

  /**
   * A request field the handler uses as a number. `Absent` is a missing or
   * null field; `Num` is a JSON integer; `Junk` is a non-empty text that is
   * not a number: truthy in JavaScript, refused by the database as an
   * integer parameter. Numbers sent as JSON text ("0", "5") and fractional
   * numbers have no case of their own.
   */
  datatype NumField = Absent | Num(n: int) | Junk

  /** JavaScript truthiness of a numeric field: 0 and a missing value are falsy. */
  predicate NumTruthy(f: NumField)
  {
    f.Junk? || (f.Num? && f.n != 0)
  }

  /** JavaScript truthiness of a text field: the empty string and a missing value are falsy. */
  predicate TextTruthy(f: Option<string>)
  {
    f.Some? && f.value != ""
  }

  /** The body of `POST /movimentacoes`. Dates are texts for the database to read. */
  datatype MovementRequest = MovementRequest(
    materialId: NumField,
    usuarioId: NumField,
    tipo: Option<string>,
    quantidade: NumField,
    dataMovimentacao: Option<string>,
    dataDevolucao: Option<string>,
    status: Option<string>)

  /** The body of `POST /materiais`. */
  datatype CreateRequest = CreateRequest(nome: Option<string>, quantidade: NumField, estoqueMinimo: NumField)

  /** The body of `PUT /materiais/:id`; a missing field keeps the stored value. */
  datatype UpdateRequest = UpdateRequest(nome: Option<string>, quantidade: NumField, estoqueMinimo: NumField)

  /** The failures a handler reports, by HTTP status: 400, 401, 404, 409 and 500. */
  datatype Error =
    | BadRequest(message: string)
    | Unauthorized(message: string)
    | NotFound(message: string)
    | Conflict(message: string)
    | Internal

  datatype Result<+T> = Ok(value: T) | Err(error: Error)

  /** The `error` text of a failed response: the handler's own message, or a generic one for a 500. */
  function ErrorMessage(e: Error): (m: string)
    ensures !e.Internal? ==> m == e.message
    ensures m == "" <==> !e.Internal? && e.message == ""
  {
    if e.Internal? then "Erro interno" else e.message
  }

  /** What a committed movement returns: the new ledger row and the updated material. */
  datatype Receipt = Receipt(movimento: Movement, material: MaterialRow)

  const MissingMovementFields := "Campos obrigatórios: material_id, usuario_id, tipo, quantidade"
  const InvalidKind := "tipo deve ser 'emprestimo' ou 'devolucao'"
  const MaterialNotFound := "Material não encontrado"
  const MissingName := "Campo obrigatório: nome"
  const MaterialDeleted := "Material excluído"
  const MissingUserFields := "Campos obrigatórios: nome, email, senha"
  const EmailTaken := "E-mail já cadastrado"
  const MissingCredentials := "Informe email e senha"
  const BadCredentials := "Credenciais inválidas"
  const DefaultUserKind := "aluno"

  // ---------------------------------------------------------------------------
  // Movement requests
  // ---------------------------------------------------------------------------

  function KindName(k: Kind): string
  {
    match k
    case Emprestimo => "emprestimo"
    case Devolucao => "devolucao"
  }

  /** The kind named by `tipo`, compared after lower-casing. */
  function ParseKind(tipo: string): (r: Option<Kind>)
    ensures r.Some? <==> Lower(tipo) == "emprestimo" || Lower(tipo) == "devolucao"
    ensures r.Some? ==> KindName(r.value) == Lower(tipo)
  {
    var t := Lower(tipo);
    if t == "emprestimo" then Some(Emprestimo)
    else if t == "devolucao" then Some(Devolucao)
    else None
  }

  lemma LowerOfLower(s: string)
    requires forall i :: 0 <= i < |s| ==> !IsUpper(s[i])
    ensures Lower(s) == s
  {
    LowerAt(s);
  }

  /** The stored kind name reads back as the same kind. */
  lemma KindRoundTrip(k: Kind)
    ensures ParseKind(KindName(k)) == Some(k)
  {
    match k
    case Emprestimo => LowerOfLower("emprestimo");
    case Devolucao => LowerOfLower("devolucao");
  }

  /** Case does not matter: `tipo` and its lower-cased form name the same kind. */
  lemma ParseKindIgnoresCase(tipo: string)
    ensures ParseKind(Lower(tipo)) == ParseKind(tipo)
  {
    LowerIdempotent(tipo);
  }

  /** The four fields the handler insists on, by JavaScript truthiness. */
  predicate HasRequiredFields(req: MovementRequest)
  {
    NumTruthy(req.materialId) && NumTruthy(req.usuarioId) && TextTruthy(req.tipo) && NumTruthy(req.quantidade)
  }

  /**
   * The checks made before any table is touched: the required fields, then
   * the kind. On success, the kind the request names.
   */
  function ValidateMovement(req: MovementRequest): (r: Result<Kind>)
    ensures !HasRequiredFields(req) ==> r == Err(BadRequest(MissingMovementFields))
    ensures HasRequiredFields(req) && ParseKind(req.tipo.value).None? ==> r == Err(BadRequest(InvalidKind))
    ensures r.Ok? <==> HasRequiredFields(req) && ParseKind(req.tipo.value).Some?
    ensures r.Ok? ==> KindName(r.value) == Lower(req.tipo.value)
  {
    if !HasRequiredFields(req) then Err(BadRequest(MissingMovementFields))
    else match ParseKind(req.tipo.value)
      case None => Err(BadRequest(InvalidKind))
      case Some(k) => Ok(k)
  }

  /** A zero quantity is refused like a missing one, since 0 is falsy. */
  lemma ZeroQuantityRefused(req: MovementRequest)
    requires req.quantidade == Num(0)
    ensures ValidateMovement(req) == Err(BadRequest(MissingMovementFields))
  {
  }

  function Abs(n: int): int
  {
    if n < 0 then -n else n
  }

  /** The signed change in stock: a return adds the magnitude, a loan subtracts it. */
  function Delta(k: Kind, q: int): (d: int)
    ensures Abs(d) == Abs(q)
    ensures q != 0 ==> (d > 0 <==> k == Devolucao)
  {
    if k == Devolucao then Abs(q) else -Abs(q)
  }

  /** `quantidade = quantidade + delta` on one row; every other row is left alone. */
  function ApplyDelta(materiais: map<Id, Material>, id: Id, delta: int): (r: map<Id, Material>)
    requires id in materiais
    ensures r.Keys == materiais.Keys
    ensures r[id].quantidade == materiais[id].quantidade + delta
    ensures r[id].nome == materiais[id].nome && r[id].estoqueMinimo == materiais[id].estoqueMinimo
    ensures forall other :: other in materiais && other != id ==> r[other] == materiais[other]
  {
    materiais[id := materiais[id].(quantidade := materiais[id].quantidade + delta)]
  }

  /** A loan followed by a return of the same quantity leaves the table as it was. */
  lemma LoanThenReturnRestores(materiais: map<Id, Material>, id: Id, q: int)
    requires id in materiais
    ensures ApplyDelta(ApplyDelta(materiais, id, Delta(Emprestimo, q)), id, Delta(Devolucao, q)) == materiais
  {
    var after := ApplyDelta(ApplyDelta(materiais, id, Delta(Emprestimo, q)), id, Delta(Devolucao, q));
    assert after[id] == materiais[id];
  }

  /** The status recorded: the caller's, or the default for the kind. */
  function StatusFor(status: Option<string>, k: Kind): (r: string)
    ensures r != ""
    ensures TextTruthy(status) ==> r == status.value
    ensures !TextTruthy(status) ==> r == (if k == Emprestimo then "emprestado" else "devolvido")
  {
    if TextTruthy(status) then status.value
    else if k == Emprestimo then "emprestado" else "devolvido"
  }

  /** How the database sees an optional date parameter. */
  datatype DateParam = NoDate | Readable(at: Instant) | Unreadable

  /** `date || null`, then read by the database with `readDate`. */
  function DateParamOf(date: Option<string>, readDate: string -> Option<Instant>): (r: DateParam)
    ensures !TextTruthy(date) <==> r == NoDate
    ensures TextTruthy(date) && readDate(date.value).Some? ==> r == Readable(readDate(date.value).value)
    ensures TextTruthy(date) && readDate(date.value).None? ==> r == Unreadable
  {
    if !TextTruthy(date) then NoDate
    else match readDate(date.value)
      case Some(t) => Readable(t)
      case None => Unreadable
  }

  /** `COALESCE($5, NOW())`: the given date, else the current instant. */
  function MovementInstant(p: DateParam, now: Instant): (t: Instant)
    requires !p.Unreadable?
    ensures ReturnInstant(p).Some? ==> t == ReturnInstant(p).value
    ensures ReturnInstant(p).None? ==> t == now
  {
    if p.Readable? then p.at else now
  }

  /** The expected return date: null when none was given. */
  function ReturnInstant(p: DateParam): (r: Option<Instant>)
    requires !p.Unreadable?
    ensures r.None? <==> p.NoDate?
    ensures p.Readable? ==> r == Some(p.at)
  {
    if p.Readable? then Some(p.at) else None
  }

  /**
   * Whether the `INSERT INTO movimentacoes` goes through: the user id and
   * the dates must be readable, and the database must accept the row
   * (`insertAccepted` stands for its constraints, which are not modelled).
   */
  predicate InsertSucceeds(req: MovementRequest, readDate: string -> Option<Instant>, insertAccepted: bool)
  {
    insertAccepted && req.usuarioId.Num?
    && !DateParamOf(req.dataMovimentacao, readDate).Unreadable?
    && !DateParamOf(req.dataDevolucao, readDate).Unreadable?
  }

  /** The ledger row a valid request appends. */
  function NewMovement(movId: Id, req: MovementRequest, k: Kind, now: Instant, readDate: string -> Option<Instant>): (m: Movement)
    requires req.materialId.Num? && req.usuarioId.Num? && req.quantidade.Num?
    requires !DateParamOf(req.dataMovimentacao, readDate).Unreadable?
    requires !DateParamOf(req.dataDevolucao, readDate).Unreadable?
    ensures m.id == movId && m.materialId == req.materialId.n && m.usuarioId == req.usuarioId.n
    ensures m.tipo == KindName(k) && m.quantidade == Abs(req.quantidade.n)
    ensures m.status == StatusFor(req.status, k)
    ensures !TextTruthy(req.dataMovimentacao) ==> m.dataMovimentacao == now
    ensures TextTruthy(req.dataMovimentacao) ==> Some(m.dataMovimentacao) == readDate(req.dataMovimentacao.value)
    ensures !TextTruthy(req.dataDevolucao) <==> m.dataDevolucao.None?
    ensures TextTruthy(req.dataDevolucao) ==> m.dataDevolucao == readDate(req.dataDevolucao.value)
  {
    Movement(movId, req.materialId.n, req.usuarioId.n, KindName(k), Abs(req.quantidade.n),
             MovementInstant(DateParamOf(req.dataMovimentacao, readDate), now),
             ReturnInstant(DateParamOf(req.dataDevolucao, readDate)),
             StatusFor(req.status, k))
  }

  /** A ledger row as the handler writes it from integer fields: a known kind, a positive quantity, a status. */
  predicate WellFormed(m: Movement)
  {
    (m.tipo == "emprestimo" || m.tipo == "devolucao") && m.quantidade > 0 && m.status != ""
  }

  /** Every row a valid request appends is well formed, and its sign follows from its kind. */
  lemma NewMovementWellFormed(movId: Id, req: MovementRequest, k: Kind, now: Instant, readDate: string -> Option<Instant>)
    requires ValidateMovement(req) == Ok(k)
    requires req.materialId.Num? && req.usuarioId.Num? && req.quantidade.Num?
    requires !DateParamOf(req.dataMovimentacao, readDate).Unreadable?
    requires !DateParamOf(req.dataDevolucao, readDate).Unreadable?
    ensures WellFormed(NewMovement(movId, req, k, now, readDate))
    ensures Delta(k, req.quantidade.n) == SignedQuantity(NewMovement(movId, req, k, now, readDate))
  {
  }

  /** The change in stock a ledger row stands for, recovered from its kind and quantity. */
  function SignedQuantity(m: Movement): int
  {
    if m.tipo == "devolucao" then m.quantidade else -m.quantidade
  }

  // ---------------------------------------------------------------------------
  // Materials
  // ---------------------------------------------------------------------------

  /** A stored material with its freshly computed below-minimum flag. */
  function ListedOf(id: Id, m: Material): (row: MaterialRow)
    ensures row.id == id && row.nome == m.nome
    ensures row.quantidade == m.quantidade && row.estoqueMinimo == m.estoqueMinimo
    ensures row.abaixoDoMinimo <==> row.quantidade < row.estoqueMinimo
  {
    MaterialRow(id, m.nome, m.quantidade, m.estoqueMinimo, m.quantidade < m.estoqueMinimo)
  }

  /** `Number(x) || 0` after the `= 0` default: the number, or 0 when missing or not a number. */
  function NumberOrZero(f: NumField): (n: int)
    ensures f.Num? ==> n == f.n
    ensures !f.Num? ==> n == 0
  {
    if f.Num? then f.n else 0
  }

  /** `COALESCE(new, old)` per column: a supplied value, even 0 or "", replaces the stored one. */
  function Patch(m: Material, req: UpdateRequest): (r: Material)
    requires !req.quantidade.Junk? && !req.estoqueMinimo.Junk?
    ensures r.nome == (if req.nome.Some? then req.nome.value else m.nome)
    ensures r.quantidade == (if req.quantidade.Num? then req.quantidade.n else m.quantidade)
    ensures r.estoqueMinimo == (if req.estoqueMinimo.Num? then req.estoqueMinimo.n else m.estoqueMinimo)
  {
    Material(req.nome.GetOr(m.nome),
             if req.quantidade.Num? then req.quantidade.n else m.quantidade,
             if req.estoqueMinimo.Num? then req.estoqueMinimo.n else m.estoqueMinimo)
  }

  /** Sending the same update twice is the same as sending it once. */
  lemma PatchIdempotent(m: Material, req: UpdateRequest)
    requires !req.quantidade.Junk? && !req.estoqueMinimo.Junk?
    ensures Patch(Patch(m, req), req) == Patch(m, req)
  {
  }

  /** An update that supplies nothing changes nothing. */
  lemma EmptyPatchKeeps(m: Material)
    ensures Patch(m, UpdateRequest(None, Absent, Absent)) == m
  {
  }

  function RecordOf(id: Id, m: Material): MaterialRecord
  {
    MaterialRecord(id, m.nome, m.quantidade, m.estoqueMinimo)
  }

  /** `GET /materiais/:id`. */
  function GetMaterial(materiais: map<Id, Material>, id: Id): (r: Result<MaterialRow>)
    ensures r.Ok? <==> id in materiais
    ensures r.Ok? ==> r.value.id == id && r.value.nome == materiais[id].nome
                      && r.value.quantidade == materiais[id].quantidade
                      && r.value.estoqueMinimo == materiais[id].estoqueMinimo
                      && (r.value.abaixoDoMinimo <==> materiais[id].quantidade < materiais[id].estoqueMinimo)
    ensures r.Err? ==> r.error == NotFound(MaterialNotFound)
  {
    if id in materiais then Ok(ListedOf(id, materiais[id])) else Err(NotFound(MaterialNotFound))
  }

  /** The search filter: no term keeps every row, a term is a case-insensitive `LIKE '%term%'`. */
  predicate NameMatches(term: string, nome: string)
    ensures NameMatches(term, nome) <==> term == [] || Like(Lower(nome), "%" + Lower(term) + "%")
  {
    LowerAppend("%", term);
    LowerAppend("%" + term, "%");
    assert Lower("%") == "%";
    term == [] || Like(Lower(nome), Lower("%" + term + "%"))
  }

  /** A search term free of LIKE's special characters finds exactly the names containing it, ignoring case. */
  lemma SearchFindsSubstrings(term: string, nome: string)
    requires term != [] && IsPlainPattern(term)
    ensures NameMatches(term, nome) <==> IsSubstring(Lower(term), Lower(nome))
  {
    LowerAppend("%", term);
    LowerAppend("%" + term, "%");
    assert Lower("%") == "%";
    LowerPlain(term);
    LikeContains(Lower(nome), Lower(term));
  }

  /** The rows with ids in [1, n) whose names match, in increasing id order. */
  function RowsBelow(materiais: map<Id, Material>, term: string, n: Id): (r: seq<MaterialRow>)
    decreases n
    ensures forall i :: 0 <= i < |r| ==> r[i].id in materiais && 1 <= r[i].id < n
                                         && r[i] == ListedOf(r[i].id, materiais[r[i].id])
                                         && NameMatches(term, r[i].nome)
  {
    if n <= 1 then []
    else
      var r := RowsBelow(materiais, term, n - 1);
      var id := n - 1;
      if id in materiais && NameMatches(term, materiais[id].nome) then r + [ListedOf(id, materiais[id])]
      else r
  }

  /** Every stored material below the bound whose name matches is enumerated. */
  lemma {:induction false} RowsBelowComplete(materiais: map<Id, Material>, term: string, n: Id)
    ensures forall id :: 1 <= id < n && id in materiais && NameMatches(term, materiais[id].nome)
                         ==> ListedOf(id, materiais[id]) in RowsBelow(materiais, term, n)
    decreases n
  {
    if n > 1 {
      RowsBelowComplete(materiais, term, n - 1);
    }
  }

  /** Listed rows in strictly increasing id order. */
  predicate RowIdsIncreasing(r: seq<MaterialRow>)
  {
    forall i, j :: 0 <= i < j < |r| ==> r[i].id < r[j].id
  }

  /** The enumeration runs in strictly increasing id order. */
  lemma {:induction false} RowsBelowIncreasing(materiais: map<Id, Material>, term: string, n: Id)
    ensures RowIdsIncreasing(RowsBelow(materiais, term, n))
    decreases n
  {
    if n > 1 {
      RowsBelowIncreasing(materiais, term, n - 1);
      var r := RowsBelow(materiais, term, n - 1);
      var id := n - 1;
      if id in materiais && NameMatches(term, materiais[id].nome) {
        var row := ListedOf(id, materiais[id]);
        assert RowsBelow(materiais, term, n) == r + [row];
        assert forall i :: 0 <= i < |r| ==> r[i].id < row.id;
      } else {
        assert RowsBelow(materiais, term, n) == r;
      }
    }
  }

  /** Names in ascending order, ignoring case. */
  predicate ByName(a: MaterialRow, b: MaterialRow)
  {
    LexLe(Lower(a.nome), Lower(b.nome))
  }

  lemma ByNameTotal()
    ensures Total(ByName)
  {
    forall a: MaterialRow, b: MaterialRow ensures ByName(a, b) || ByName(b, a) {
      LexLeTotal(Lower(a.nome), Lower(b.nome));
    }
  }

  lemma ByNameTransitive()
    ensures Transitive(ByName)
  {
    forall a: MaterialRow, b: MaterialRow, c: MaterialRow | ByName(a, b) && ByName(b, c) ensures ByName(a, c) {
      LexLeTransitive(Lower(a.nome), Lower(b.nome), Lower(c.nome));
    }
  }

  /** `(req.query.q || '').trim()`. */
  function SearchTerm(q: Option<string>): (t: string)
    ensures NoOuterWhitespace(t)
    ensures q.None? ==> t == []
    ensures q.Some? ==> |t| <= |q.value| && exists i :: PaddedAt(t, q.value, i)
  {
    TrimSpec(q.GetOr(""));
    TrimEmpty();
    Trim(q.GetOr(""))
  }

  /**
   * `GET /materiais?q=`: the materials (all those with ids below `bound`)
   * whose names match the trimmed search term, each once, ordered by name,
   * each with its below-minimum flag.
   */
  function ListMateriais(materiais: map<Id, Material>, bound: Id, q: Option<string>): (r: seq<MaterialRow>)
    ensures SortedBy(r, ByName)
    ensures forall row :: row in r ==> row.id in materiais && row == ListedOf(row.id, materiais[row.id])
                                       && NameMatches(SearchTerm(q), row.nome)
    ensures forall id :: 1 <= id < bound && id in materiais && NameMatches(SearchTerm(q), materiais[id].nome)
                         ==> ListedOf(id, materiais[id]) in r
    ensures forall i, j :: 0 <= i < j < |r| ==> r[i].id != r[j].id
  {
    var rows := RowsBelow(materiais, SearchTerm(q), bound);
    ByNameTotal();
    var r := SortBy(rows, ByName);
    SortedListing(materiais, bound, SearchTerm(q), rows, r);
    r
  }

  /** What sorting the enumerated rows keeps: the same rows, each once. */
  lemma SortedListing(materiais: map<Id, Material>, bound: Id, term: string, rows: seq<MaterialRow>, r: seq<MaterialRow>)
    requires rows == RowsBelow(materiais, term, bound) && multiset(r) == multiset(rows)
    ensures forall row :: row in r ==> row.id in materiais && row == ListedOf(row.id, materiais[row.id])
                                       && NameMatches(term, row.nome)
    ensures forall id :: 1 <= id < bound && id in materiais && NameMatches(term, materiais[id].nome)
                         ==> ListedOf(id, materiais[id]) in r
    ensures forall i, j :: 0 <= i < j < |r| ==> r[i].id != r[j].id
  {
    RowsBelowComplete(materiais, term, bound);
    RowsBelowIncreasing(materiais, term, bound);
    PermutationMembers(rows, r);
    PermutationNoDup(rows, r);
    DistinctRowsDistinctIds(materiais, r);
  }

  /** Distinct rows that each show their stored material have distinct ids. */
  lemma DistinctRowsDistinctIds(materiais: map<Id, Material>, r: seq<MaterialRow>)
    requires NoDup(r)
    requires forall row :: row in r ==> row.id in materiais && row == ListedOf(row.id, materiais[row.id])
    ensures forall i, j :: 0 <= i < j < |r| ==> r[i].id != r[j].id
  {
    forall i, j | 0 <= i < j < |r| ensures r[i].id != r[j].id {
      assert r[i] in r && r[j] in r;
    }
  }

  // ---------------------------------------------------------------------------
  // Movement history
  // ---------------------------------------------------------------------------

  /** A ledger row joined with its material's name and its user's name. */
  datatype HistoryRow = HistoryRow(
    id: Id,
    materialId: Id,
    materialNome: string,
    usuarioId: Id,
    responsavelNome: string,
    tipo: string,
    quantidade: int,
    dataMovimentacao: Instant,
    dataDevolucao: Option<Instant>,
    status: string)

  /** The `?material_id=` query parameter: absent or empty, a number, or text the database cannot read. */
  datatype MaterialFilter = AllMaterials | OnlyMaterial(id: Id) | Unparseable

  /** The inner joins and the optional filter keep this ledger row. */
  predicate Kept(m: Movement, materiais: map<Id, Material>, usuarios: map<Id, User>, filter: MaterialFilter)
  {
    m.materialId in materiais && m.usuarioId in usuarios
    && (filter.OnlyMaterial? ==> m.materialId == filter.id)
  }

  function Joined(m: Movement, materiais: map<Id, Material>, usuarios: map<Id, User>): HistoryRow
    requires m.materialId in materiais && m.usuarioId in usuarios
  {
    HistoryRow(m.id, m.materialId, materiais[m.materialId].nome, m.usuarioId, usuarios[m.usuarioId].nome,
               m.tipo, m.quantidade, m.dataMovimentacao, m.dataDevolucao, m.status)
  }

  /** The kept ledger rows, joined, in ledger order. */
  function JoinAll(ledger: seq<Movement>, materiais: map<Id, Material>, usuarios: map<Id, User>, filter: MaterialFilter)
    : (r: seq<HistoryRow>)
    ensures forall row :: row in r ==> exists k :: 0 <= k < |ledger| && Kept(ledger[k], materiais, usuarios, filter)
                                                   && row == Joined(ledger[k], materiais, usuarios)
  {
    if ledger == [] then []
    else
      var init := ledger[..|ledger| - 1];
      var last := ledger[|ledger| - 1];
      var r := JoinAll(init, materiais, usuarios, filter);
      assert forall k :: 0 <= k < |init| ==> init[k] == ledger[k];
      if Kept(last, materiais, usuarios, filter) then r + [Joined(last, materiais, usuarios)]
      else r
  }

  /** Every kept ledger row is joined. */
  lemma {:induction false} JoinAllComplete(ledger: seq<Movement>, materiais: map<Id, Material>, usuarios: map<Id, User>,
                                           filter: MaterialFilter)
    ensures forall k :: 0 <= k < |ledger| && Kept(ledger[k], materiais, usuarios, filter)
                        ==> Joined(ledger[k], materiais, usuarios) in JoinAll(ledger, materiais, usuarios, filter)
    decreases |ledger|
  {
    if ledger != [] {
      var init := ledger[..|ledger| - 1];
      JoinAllComplete(init, materiais, usuarios, filter);
      assert forall k :: 0 <= k < |init| ==> init[k] == ledger[k];
    }
  }

  /** History rows in strictly increasing id order. */
  predicate HistoryIdsIncreasing(r: seq<HistoryRow>)
  {
    forall i, j :: 0 <= i < j < |r| ==> r[i].id < r[j].id
  }

  /** A ledger in increasing id order joins to rows in increasing id order. */
  lemma {:induction false} JoinAllIncreasing(ledger: seq<Movement>, materiais: map<Id, Material>, usuarios: map<Id, User>,
                                             filter: MaterialFilter)
    requires forall i, j :: 0 <= i < j < |ledger| ==> ledger[i].id < ledger[j].id
    ensures HistoryIdsIncreasing(JoinAll(ledger, materiais, usuarios, filter))
    decreases |ledger|
  {
    if ledger != [] {
      var init := ledger[..|ledger| - 1];
      var last := ledger[|ledger| - 1];
      assert forall k :: 0 <= k < |init| ==> init[k] == ledger[k];
      JoinAllIncreasing(init, materiais, usuarios, filter);
      var r := JoinAll(init, materiais, usuarios, filter);
      JoinedIdsBelow(init, materiais, usuarios, filter, r, last.id);
      if Kept(last, materiais, usuarios, filter) {
        var row := Joined(last, materiais, usuarios);
        assert JoinAll(ledger, materiais, usuarios, filter) == r + [row];
        assert forall i :: 0 <= i < |r| ==> r[i].id < row.id;
      } else {
        assert JoinAll(ledger, materiais, usuarios, filter) == r;
      }
    }
  }

  /** Joining keeps ids: if every ledger id is below `bound`, so is every joined row's. */
  lemma JoinedIdsBelow(ledger: seq<Movement>, materiais: map<Id, Material>, usuarios: map<Id, User>,
                       filter: MaterialFilter, r: seq<HistoryRow>, bound: Id)
    requires forall row :: row in r ==> exists k :: 0 <= k < |ledger| && Kept(ledger[k], materiais, usuarios, filter)
                                                   && row == Joined(ledger[k], materiais, usuarios)
    ensures (forall k :: 0 <= k < |ledger| ==> ledger[k].id < bound) ==> forall i :: 0 <= i < |r| ==> r[i].id < bound
  {
    if forall k :: 0 <= k < |ledger| ==> ledger[k].id < bound {
      forall i | 0 <= i < |r| ensures r[i].id < bound {
        assert r[i] in r;
        var k :| 0 <= k < |ledger| && Kept(ledger[k], materiais, usuarios, filter)
                 && r[i] == Joined(ledger[k], materiais, usuarios);
      }
    }
  }

  /** Newest first: by movement date descending, then by id descending. */
  predicate NewestFirst(a: HistoryRow, b: HistoryRow)
  {
    a.dataMovimentacao > b.dataMovimentacao || (a.dataMovimentacao == b.dataMovimentacao && a.id >= b.id)
  }

  lemma NewestFirstTotal()
    ensures Total(NewestFirst)
  {
  }

  /**
   * `GET /movimentacoes`: the ledger rows whose material and user still
   * exist, optionally only those of one material, joined with both names,
   * newest first.
   */
  function History(ledger: seq<Movement>, materiais: map<Id, Material>, usuarios: map<Id, User>, filter: MaterialFilter)
    : (r: Result<seq<HistoryRow>>)
    ensures r.Err? <==> filter.Unparseable?
    ensures r.Err? ==> r.error == Internal
    ensures r.Ok? ==> SortedBy(r.value, NewestFirst)
    ensures r.Ok? ==> forall row :: row in r.value ==>
                        exists k :: 0 <= k < |ledger| && Kept(ledger[k], materiais, usuarios, filter)
                                    && row == Joined(ledger[k], materiais, usuarios)
    ensures r.Ok? ==> forall k :: 0 <= k < |ledger| && Kept(ledger[k], materiais, usuarios, filter)
                                  ==> Joined(ledger[k], materiais, usuarios) in r.value
    ensures r.Ok? && (forall i, j :: 0 <= i < j < |ledger| ==> ledger[i].id < ledger[j].id)
            ==> forall i, j :: 0 <= i < j < |r.value| ==> r.value[i].id != r.value[j].id
  {
    if filter.Unparseable? then Err(Internal)
    else
      var rows := JoinAll(ledger, materiais, usuarios, filter);
      NewestFirstTotal();
      var r := SortBy(rows, NewestFirst);
      SortedHistory(ledger, materiais, usuarios, filter, rows, r);
      Ok(r)
  }

  /** What sorting the joined rows keeps: the same rows, and distinct ids when the ledger's are. */
  lemma SortedHistory(ledger: seq<Movement>, materiais: map<Id, Material>, usuarios: map<Id, User>, filter: MaterialFilter,
                      rows: seq<HistoryRow>, r: seq<HistoryRow>)
    requires rows == JoinAll(ledger, materiais, usuarios, filter) && multiset(r) == multiset(rows)
    ensures forall row :: row in r ==> exists k :: 0 <= k < |ledger| && Kept(ledger[k], materiais, usuarios, filter)
                                                   && row == Joined(ledger[k], materiais, usuarios)
    ensures forall k :: 0 <= k < |ledger| && Kept(ledger[k], materiais, usuarios, filter)
                        ==> Joined(ledger[k], materiais, usuarios) in r
    ensures (forall i, j :: 0 <= i < j < |ledger| ==> ledger[i].id < ledger[j].id)
            ==> forall i, j :: 0 <= i < j < |r| ==> r[i].id != r[j].id
  {
    PermutationMembers(rows, r);
    JoinAllComplete(ledger, materiais, usuarios, filter);
    if forall i, j :: 0 <= i < j < |ledger| ==> ledger[i].id < ledger[j].id {
      JoinAllIncreasing(ledger, materiais, usuarios, filter);
      assert NoDup(rows);
      PermutationNoDup(rows, r);
      forall i, j | 0 <= i < j < |r| ensures r[i].id != r[j].id {
        assert r[i] in rows && r[j] in rows;
      }
    }
  }

  // ---------------------------------------------------------------------------
  // Users
  // ---------------------------------------------------------------------------

  function ViewOf(id: Id, u: User): UserView
  {
    UserView(id, u.nome, u.email, u.tipo)
  }

  /** The user with this email and password among the ids below `n`, the highest such id first. */
  function FindCredentials(usuarios: map<Id, User>, email: string, senha: string, n: Id): (r: Option<Id>)
    decreases n
    ensures r.Some? ==> r.value in usuarios && r.value < n
                        && usuarios[r.value].email == email && usuarios[r.value].senha == senha
    ensures r.None? ==> forall id :: 1 <= id < n && id in usuarios ==> !(usuarios[id].email == email && usuarios[id].senha == senha)
  {
    if n <= 1 then None
    else if n - 1 in usuarios && usuarios[n - 1].email == email && usuarios[n - 1].senha == senha then Some(n - 1)
    else FindCredentials(usuarios, email, senha, n - 1)
  }

  /** `POST /auth/login`: both fields required; the user whose email and password match, else 401. */
  function Login(usuarios: map<Id, User>, bound: Id, email: Option<string>, senha: Option<string>): (r: Result<UserView>)
    ensures !(TextTruthy(email) && TextTruthy(senha)) ==> r == Err(BadRequest(MissingCredentials))
    ensures r.Ok? ==> exists id :: id in usuarios && r.value == ViewOf(id, usuarios[id])
                                   && usuarios[id].email == email.value && usuarios[id].senha == senha.value
    ensures TextTruthy(email) && TextTruthy(senha) && r.Err? ==>
              && r.error == Unauthorized(BadCredentials)
              && forall id :: 1 <= id < bound && id in usuarios
                              ==> !(usuarios[id].email == email.value && usuarios[id].senha == senha.value)
  {
    if !(TextTruthy(email) && TextTruthy(senha)) then Err(BadRequest(MissingCredentials))
    else match FindCredentials(usuarios, email.value, senha.value, bound)
      case Some(id) => Ok(ViewOf(id, usuarios[id]))
      case None => Err(Unauthorized(BadCredentials))
  }

  /** No two users share an email (the table's unique constraint). */
  ghost predicate EmailsUnique(usuarios: map<Id, User>)
  {
    forall a, b :: a in usuarios && b in usuarios && usuarios[a].email == usuarios[b].email ==> a == b
  }

  /** With unique emails, a successful login names the one account that has that email. */
  lemma LoginUnique(usuarios: map<Id, User>, bound: Id, email: Option<string>, senha: Option<string>, id: Id)
    requires EmailsUnique(usuarios)
    requires Login(usuarios, bound, email, senha).Ok?
    requires id in usuarios && usuarios[id].email == email.value
    ensures Login(usuarios, bound, email, senha).value == ViewOf(id, usuarios[id])
  {
  }
}
