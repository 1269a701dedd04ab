/**
 * The backend's tables as one in-memory store, and the handlers that change
 * them (backend-meias/src/server.js). `materiais` and `usuarios` are maps
 * from id to row; `movimentacoes` is the append-only ledger; the three
 * counters are the tables' serial sequences.
 */
module Server {
  import opened Wrappers
  import opened Text
  import opened Inventory

  class Store {
    var materiais: map<Id, Material>
    var movimentacoes: seq<Movement>
    var usuarios: map<Id, User>
    var nextMaterialId: Id
    var nextMovimentacaoId: Id
    var nextUsuarioId: Id

    /** Every id was handed out by its sequence, ledger ids grow, ledger rows are well formed, emails are unique. */
    ghost predicate Valid()
      reads this
    {
      && 1 <= nextMaterialId && 1 <= nextMovimentacaoId && 1 <= nextUsuarioId
      && (forall id :: id in materiais ==> 1 <= id < nextMaterialId)
      && (forall id :: id in usuarios ==> 1 <= id < nextUsuarioId)
      && (forall i :: 0 <= i < |movimentacoes| ==> 1 <= movimentacoes[i].id < nextMovimentacaoId)
      && (forall i, j :: 0 <= i < j < |movimentacoes| ==> movimentacoes[i].id < movimentacoes[j].id)
      && (forall i :: 0 <= i < |movimentacoes| ==> WellFormed(movimentacoes[i]))
      && EmailsUnique(usuarios)
    }

    constructor ()
      ensures Valid()
      ensures materiais == map[] && movimentacoes == [] && usuarios == map[]
      ensures nextMaterialId == 1 && nextMovimentacaoId == 1 && nextUsuarioId == 1
    {
      materiais, movimentacoes, usuarios := map[], [], map[];
      nextMaterialId, nextMovimentacaoId, nextUsuarioId := 1, 1, 1;
    }

    // -------------------------------------------------------------------------
    // Queries
    // -------------------------------------------------------------------------

    /** `GET /materiais`: every stored material that matches, ordered by name. */
    function ListAll(q: Option<string>): (r: seq<MaterialRow>)
      reads this
      requires Valid()
      ensures forall id :: id in materiais && NameMatches(SearchTerm(q), materiais[id].nome)
                           ==> ListedOf(id, materiais[id]) in r
    {
      ListMateriais(materiais, nextMaterialId, q)
    }

    /** `GET /movimentacoes`: every ledger row whose material and user exist, newest first, each once. */
    function HistoryAll(filter: MaterialFilter): (r: Result<seq<HistoryRow>>)
      reads this
      requires Valid()
      ensures r.Ok? ==> forall i, j :: 0 <= i < j < |r.value| ==> r.value[i].id != r.value[j].id
    {
      History(movimentacoes, materiais, usuarios, filter)
    }

    /** `POST /auth/login` against the stored users. */
    function LoginAll(email: Option<string>, senha: Option<string>): (r: Result<UserView>)
      reads this
      requires Valid()
      ensures TextTruthy(email) && TextTruthy(senha) ==>
                (r.Ok? <==> exists id :: id in usuarios && usuarios[id].email == email.value
                                         && usuarios[id].senha == senha.value)
    {
      Login(usuarios, nextUsuarioId, email, senha)
    }

    // -------------------------------------------------------------------------
    // Materials
    // -------------------------------------------------------------------------

    /**
     * `POST /materiais`: a name is required; a missing quantity or minimum is
     * 0, and so is one that is not a number.
     */
    method CreateMaterial(req: CreateRequest, insertAccepted: bool) returns (r: Result<MaterialRecord>)
      requires Valid()
      modifies this
      ensures Valid()
      ensures movimentacoes == old(movimentacoes) && usuarios == old(usuarios)
      ensures nextMovimentacaoId == old(nextMovimentacaoId) && nextUsuarioId == old(nextUsuarioId)
      ensures !TextTruthy(req.nome) ==> r == Err(BadRequest(MissingName))
      ensures TextTruthy(req.nome) && !insertAccepted ==> r == Err(Internal)
      ensures r.Err? ==> materiais == old(materiais) && nextMaterialId == old(nextMaterialId)
      ensures r.Ok? ==>
                && var m := Material(req.nome.value, NumberOrZero(req.quantidade), NumberOrZero(req.estoqueMinimo));
                && old(nextMaterialId) !in old(materiais)
                && materiais == old(materiais)[old(nextMaterialId) := m]
                && r.value == RecordOf(old(nextMaterialId), m)
                && nextMaterialId == old(nextMaterialId) + 1
      ensures TextTruthy(req.nome) && insertAccepted ==> r.Ok?
    {
      if !TextTruthy(req.nome) {
        return Err(BadRequest(MissingName));
      }
      if !insertAccepted {
        return Err(Internal);
      }
      var id := nextMaterialId;
      var m := Material(req.nome.value, NumberOrZero(req.quantidade), NumberOrZero(req.estoqueMinimo));
      materiais := materiais[id := m];
      nextMaterialId := nextMaterialId + 1;
      r := Ok(RecordOf(id, m));
    }

    /**
     * `PUT /materiais/:id`: each supplied field overwrites, each missing one
     * keeps the stored value. A field the database cannot read as an integer
     * fails the statement; an unknown id is 404. Either way nothing changes.
     */
    method UpdateMaterial(id: Id, req: UpdateRequest) returns (r: Result<MaterialRecord>)
      requires Valid()
      modifies this
      ensures Valid()
      ensures movimentacoes == old(movimentacoes) && usuarios == old(usuarios)
      ensures nextMaterialId == old(nextMaterialId) && nextMovimentacaoId == old(nextMovimentacaoId)
      ensures nextUsuarioId == old(nextUsuarioId)
      ensures req.quantidade.Junk? || req.estoqueMinimo.Junk? ==> r == Err(Internal)
      ensures !req.quantidade.Junk? && !req.estoqueMinimo.Junk? && id !in old(materiais)
              ==> r == Err(NotFound(MaterialNotFound))
      ensures r.Err? ==> materiais == old(materiais)
      ensures r.Ok? ==> id in old(materiais) && materiais == old(materiais)[id := Patch(old(materiais)[id], req)]
                        && r.value == RecordOf(id, materiais[id])
      ensures !req.quantidade.Junk? && !req.estoqueMinimo.Junk? && id in old(materiais) ==> r.Ok?
    {
      if req.quantidade.Junk? || req.estoqueMinimo.Junk? {
        return Err(Internal);
      }
      if id !in materiais {
        return Err(NotFound(MaterialNotFound));
      }
      materiais := materiais[id := Patch(materiais[id], req)];
      r := Ok(RecordOf(id, materiais[id]));
    }

    /** `DELETE /materiais/:id`: removes exactly that row; ledger rows that name it stay. */
    method DeleteMaterial(id: Id) returns (r: Result<string>)
      requires Valid()
      modifies this
      ensures Valid()
      ensures movimentacoes == old(movimentacoes) && usuarios == old(usuarios)
      ensures nextMaterialId == old(nextMaterialId) && nextMovimentacaoId == old(nextMovimentacaoId)
      ensures nextUsuarioId == old(nextUsuarioId)
      ensures r.Ok? <==> id in old(materiais)
      ensures r.Ok? ==> r.value == MaterialDeleted && materiais == old(materiais) - {id}
      ensures r.Err? ==> r.error == NotFound(MaterialNotFound) && materiais == old(materiais)
    {
      if id !in materiais {
        return Err(NotFound(MaterialNotFound));
      }
      materiais := materiais - {id};
      r := Ok(MaterialDeleted);
    }

    // -------------------------------------------------------------------------
    // Movements
    // -------------------------------------------------------------------------

    /**
     * `POST /movimentacoes`. Checks the request, then, as one transaction,
     * adds the signed delta to the material's quantity and appends one
     * ledger row. A missing material or a failed insert rolls everything
     * back. `now` is the database's clock, `readDate` how it reads a date
     * text, and `insertAccepted` whether its constraints accept the row.
     */
    method RecordMovement(req: MovementRequest, now: Instant, readDate: string -> Option<Instant>, insertAccepted: bool)
      returns (r: Result<Receipt>)
      requires Valid()
      modifies this
      ensures Valid()
      ensures usuarios == old(usuarios)
      ensures nextMaterialId == old(nextMaterialId) && nextUsuarioId == old(nextUsuarioId)
      // all or nothing
      ensures r.Err? ==> materiais == old(materiais) && movimentacoes == old(movimentacoes)
                         && nextMovimentacaoId == old(nextMovimentacaoId)
      // which error
      ensures ValidateMovement(req).Err? ==> r == Err(ValidateMovement(req).error)
      ensures ValidateMovement(req).Ok? && (req.materialId.Junk? || req.quantidade.Junk?) ==> r == Err(Internal)
      ensures ValidateMovement(req).Ok? && req.materialId.Num? && req.quantidade.Num? && req.materialId.n !in old(materiais)
              ==> r == Err(NotFound(MaterialNotFound))
      ensures ValidateMovement(req).Ok? && req.materialId.Num? && req.quantidade.Num? && req.materialId.n in old(materiais)
              ==> (r.Ok? <==> InsertSucceeds(req, readDate, insertAccepted)) && (r.Err? ==> r.error == Internal)
      // what a commit does
      ensures r.Ok? ==>
                && var id := req.materialId.n;
                && var k := ValidateMovement(req).value;
                && ValidateMovement(req).Ok? && req.materialId.Num? && req.quantidade.Num?
                && id in old(materiais)
                && materiais == ApplyDelta(old(materiais), id, Delta(k, req.quantidade.n))
                && r.value.movimento == NewMovement(old(nextMovimentacaoId), req, k, now, readDate)
                && movimentacoes == old(movimentacoes) + [r.value.movimento]
                && nextMovimentacaoId == old(nextMovimentacaoId) + 1
                && r.value.material == ListedOf(id, materiais[id])
                && materiais[id].quantidade == old(materiais)[id].quantidade + SignedQuantity(r.value.movimento)
    {
      var v := ValidateMovement(req);
      if v.Err? {
        return Err(v.error);
      }
      var kind := v.value;
      if req.materialId.Junk? || req.quantidade.Junk? {
        // the UPDATE's parameters are not integers: the statement fails, ROLLBACK, 500
        return Err(Internal);
      }
      var id, q := req.materialId.n, req.quantidade.n;
      var delta := if Lower(req.tipo.value) == "devolucao" then Abs(q) else -Abs(q);
      assert delta == Delta(kind, q);

      // BEGIN
      var before := materiais;
      if id !in materiais {
        // UPDATE matched no row: ROLLBACK, 404
        return Err(NotFound(MaterialNotFound));
      }
      AddToQuantity(id, delta);
      var updated := materiais[id];

      if !InsertSucceeds(req, readDate, insertAccepted) {
        // the INSERT failed: ROLLBACK undoes the UPDATE, 500
        materiais := before;
        return Err(Internal);
      }
      var movimento := NewMovement(nextMovimentacaoId, req, kind, now, readDate);
      NewMovementWellFormed(nextMovimentacaoId, req, kind, now, readDate);
      AppendMovement(movimento);
      // COMMIT
      r := Ok(Receipt(movimento, ListedOf(id, updated)));
    }

    /** The transaction's `UPDATE materiais SET quantidade = quantidade + delta WHERE id = ...` on a stored row. */
    method AddToQuantity(id: Id, delta: int)
      requires Valid() && id in materiais
      modifies this
      ensures Valid()
      ensures materiais == ApplyDelta(old(materiais), id, delta)
      ensures movimentacoes == old(movimentacoes) && usuarios == old(usuarios)
      ensures nextMaterialId == old(nextMaterialId) && nextMovimentacaoId == old(nextMovimentacaoId)
              && nextUsuarioId == old(nextUsuarioId)
    {
      materiais := ApplyDelta(materiais, id, delta);
    }

    /** The transaction's `INSERT INTO movimentacoes`: one well-formed row under the next ledger id. */
    method AppendMovement(m: Movement)
      requires Valid() && m.id == nextMovimentacaoId && WellFormed(m)
      modifies this
      ensures Valid()
      ensures movimentacoes == old(movimentacoes) + [m] && nextMovimentacaoId == old(nextMovimentacaoId) + 1
      ensures materiais == old(materiais) && usuarios == old(usuarios)
      ensures nextMaterialId == old(nextMaterialId) && nextUsuarioId == old(nextUsuarioId)
    {
      movimentacoes := movimentacoes + [m];
      nextMovimentacaoId := nextMovimentacaoId + 1;
    }

    // -------------------------------------------------------------------------
    // Users
    // -------------------------------------------------------------------------

    /** `POST /usuarios`: name, email and password required; an email already in use is 409. */
    method RegisterUser(nome: Option<string>, email: Option<string>, senha: Option<string>, tipo: Option<string>,
                        insertAccepted: bool)
      returns (r: Result<UserView>)
      requires Valid()
      modifies this
      ensures Valid()
      ensures materiais == old(materiais) && movimentacoes == old(movimentacoes)
      ensures nextMaterialId == old(nextMaterialId) && nextMovimentacaoId == old(nextMovimentacaoId)
      ensures !(TextTruthy(nome) && TextTruthy(email) && TextTruthy(senha)) ==> r == Err(BadRequest(MissingUserFields))
      ensures TextTruthy(nome) && TextTruthy(email) && TextTruthy(senha) ==>
                (r == Err(Conflict(EmailTaken)) <==> exists id :: id in old(usuarios) && old(usuarios)[id].email == email.value)
      ensures r.Err? ==> usuarios == old(usuarios) && nextUsuarioId == old(nextUsuarioId)
      ensures r.Ok? ==>
                && var u := User(nome.value, email.value, senha.value, tipo.GetOr(DefaultUserKind));
                && usuarios == old(usuarios)[old(nextUsuarioId) := u]
                && r.value == ViewOf(old(nextUsuarioId), u)
                && nextUsuarioId == old(nextUsuarioId) + 1
      ensures && TextTruthy(nome) && TextTruthy(email) && TextTruthy(senha)
              && (forall id :: id in old(usuarios) ==> old(usuarios)[id].email != email.value)
              ==> (r.Ok? <==> insertAccepted) && (r.Err? ==> r.error == Internal)
    {
      if !(TextTruthy(nome) && TextTruthy(email) && TextTruthy(senha)) {
        return Err(BadRequest(MissingUserFields));
      }
      if exists id :: id in usuarios && usuarios[id].email == email.value {
        return Err(Conflict(EmailTaken));
      }
      if !insertAccepted {
        // any other failure of the INSERT: 500
        return Err(Internal);
      }
      var u := User(nome.value, email.value, senha.value, tipo.GetOr(DefaultUserKind));
      usuarios := usuarios[nextUsuarioId := u];
      r := Ok(ViewOf(nextUsuarioId, u));
      nextUsuarioId := nextUsuarioId + 1;
    }
  }
}
