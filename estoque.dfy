/**
 * The stock page of the front end (front-meias/src/pages/Estoque.jsx): the
 * movement form's checks, the material it points at, the request it sends,
 * the stock badge, and the page state those handlers update.
 */
module Estoque {
  import opened Wrappers
  import opened Text
  import opened Numbers
  import opened Sorting
  import opened Inventory
  import opened Client
  import Server

  const NotLoggedIn := "Você precisa estar logado."
  const NoMaterial := "Selecione um material."
  const NoKind := "Selecione o tipo de movimentação."
  const BadQuantity := "Informe uma quantidade válida (maior que 0)."
  const RequestFailed := "Erro ao registrar movimentação"

  function InsufficientStock(disponivel: int): string
  {
    "Estoque insuficiente! Disponível: " + IntToString(disponivel)
  }

  /** `materiais[k]` is the first loaded material with this id. */
  predicate FirstWithId(materiais: seq<MaterialRow>, id: Id, k: int)
  {
    0 <= k < |materiais| && materiais[k].id == id && forall j :: 0 <= j < k ==> materiais[j].id != id
  }

  /** The first loaded material with this id, as `Array.prototype.find` returns it. */
  function FindById(materiais: seq<MaterialRow>, id: Id): (r: Option<MaterialRow>)
    ensures r.None? <==> forall i :: 0 <= i < |materiais| ==> materiais[i].id != id
    ensures r.Some? ==> exists k :: FirstWithId(materiais, id, k) && materiais[k] == r.value
  {
    if materiais == [] then None
    else if materiais[0].id == id then
      assert FirstWithId(materiais, id, 0);
      Some(materiais[0])
    else
      var r := FindById(materiais[1..], id);
      if r.Some? then FirstAfterHead(materiais, id, r.value); r
      else r
  }

  /** A first match in the tail is the first match overall when the head does not match. */
  lemma FirstAfterHead(materiais: seq<MaterialRow>, id: Id, m: MaterialRow)
    requires materiais != [] && materiais[0].id != id
    requires exists k :: FirstWithId(materiais[1..], id, k) && materiais[1..][k] == m
    ensures exists k :: FirstWithId(materiais, id, k) && materiais[k] == m
  {
    var k :| FirstWithId(materiais[1..], id, k) && materiais[1..][k] == m;
    assert FirstWithId(materiais, id, k + 1);
  }

  /** `materialSelecionado`: `materiais.find(m => m.id === Number(materialId))`. */
  function MaterialSelecionado(materiais: seq<MaterialRow>, materialId: string): (r: Option<MaterialRow>)
    ensures ToNumber(materialId).NaN? ==> r.None?
    ensures r.Some? ==> r.value in materiais && ToNumber(materialId) == JsNumber.Num(r.value.id)
    ensures r.Some? ==> exists k :: FirstWithId(materiais, r.value.id, k) && materiais[k] == r.value
    ensures r.None? && ToNumber(materialId).Num? ==> forall m :: m in materiais ==> m.id != ToNumber(materialId).value
  {
    match ToNumber(materialId)
    case NaN => None
    case Num(n) => FindById(materiais, n)
  }

  /** Clicking a card stores `String(material.id)`, which selects that material back. */
  lemma SelectingACardSelectsIt(materiais: seq<MaterialRow>, k: nat)
    requires k < |materiais|
    requires forall i, j :: 0 <= i < j < |materiais| ==> materiais[i].id != materiais[j].id
    ensures MaterialSelecionado(materiais, IntToString(materiais[k].id)) == Some(materiais[k])
  {
    IntToStringRoundTrip(materiais[k].id);
  }

  /** `!qtd || qtd <= 0` fails: a number, not 0, not negative. */
  predicate PositiveQuantity(quantidade: string)
  {
    ToNumber(quantidade).Num? && ToNumber(quantidade).value > 0
  }

  /**
   * `validarForm`: the first failing check's message, in the order user,
   * material, kind, quantity, stock; `None` when all pass.
   */
  function ValidarForm(user: Option<UserView>, materiais: seq<MaterialRow>, materialId: string, tipo: string, quantidade: string)
    : (r: Option<string>)
    ensures user.None? ==> r == Some(NotLoggedIn)
    ensures user.Some? && materialId == "" ==> r == Some(NoMaterial)
    ensures user.Some? && materialId != "" && tipo == "" ==> r == Some(NoKind)
    ensures user.Some? && materialId != "" && tipo != "" && !PositiveQuantity(quantidade) ==> r == Some(BadQuantity)
    ensures && user.Some? && materialId != "" && tipo != "" && PositiveQuantity(quantidade)
            && tipo == "emprestimo" && MaterialSelecionado(materiais, materialId).Some?
            && ToNumber(quantidade).value > MaterialSelecionado(materiais, materialId).value.quantidade
            ==> r == Some(InsufficientStock(MaterialSelecionado(materiais, materialId).value.quantidade))
    ensures r.None? <==>
              && user.Some? && materialId != "" && tipo != "" && PositiveQuantity(quantidade)
              && !(tipo == "emprestimo" && MaterialSelecionado(materiais, materialId).Some?
                   && ToNumber(quantidade).value > MaterialSelecionado(materiais, materialId).value.quantidade)
  {
    if user.None? then Some(NotLoggedIn)
    else if materialId == "" then Some(NoMaterial)
    else if tipo == "" then Some(NoKind)
    else if !PositiveQuantity(quantidade) then Some(BadQuantity)
    else
      var qtd := ToNumber(quantidade).value;
      var sel := MaterialSelecionado(materiais, materialId);
      if tipo == "emprestimo" && sel.Some? && qtd > sel.value.quantidade then Some(InsufficientStock(sel.value.quantidade))
      else None
  }

  /** A loan the form lets through never asks for more than the selected material shows. */
  lemma AcceptedLoanFitsStock(user: Option<UserView>, materiais: seq<MaterialRow>, materialId: string, quantidade: string)
    requires ValidarForm(user, materiais, materialId, "emprestimo", quantidade).None?
    requires MaterialSelecionado(materiais, materialId).Some?
    ensures 0 < ToNumber(quantidade).value <= MaterialSelecionado(materiais, materialId).value.quantidade
  {
  }

  /** A return is never checked against stock, and neither is a loan of a material missing from the list. */
  lemma UncheckedAgainstStock(user: UserView, materiais: seq<MaterialRow>, materialId: string, tipo: string, quantidade: string)
    requires materialId != "" && tipo != "" && PositiveQuantity(quantidade)
    requires tipo != "emprestimo" || MaterialSelecionado(materiais, materialId).None?
    ensures ValidarForm(Some(user), materiais, materialId, tipo, quantidade).None?
  {
  }

  /**
   * The body `registrarMovimentacao` posts: the expected return date only
   * for a loan that has one, the status fixed by the kind, and an empty
   * movement date sent as null.
   */
  function Payload(user: UserView, materialId: string, tipo: string, quantidade: string,
                   dataMovimentacao: string, dataDevolucao: string): (p: MovementRequest)
    ensures p.dataDevolucao.Some? <==> tipo == "emprestimo" && dataDevolucao != ""
    ensures p.dataDevolucao.Some? ==> p.dataDevolucao.value == dataDevolucao
    ensures p.status == Some(if tipo == "emprestimo" then "emprestado" else "devolvido")
    ensures p.dataMovimentacao.None? <==> dataMovimentacao == ""
    ensures dataMovimentacao != "" ==> p.dataMovimentacao == Some(dataMovimentacao)
    ensures p.materialId == JsonNumber(ToNumber(materialId)) && p.quantidade == JsonNumber(ToNumber(quantidade))
    ensures p.usuarioId == NumField.Num(user.id) && p.tipo == Some(tipo)
  {
    MovementRequest(
      JsonNumber(ToNumber(materialId)),
      NumField.Num(user.id),
      Some(tipo),
      JsonNumber(ToNumber(quantidade)),
      if dataMovimentacao != "" then Some(dataMovimentacao) else None,
      if tipo == "emprestimo" && dataDevolucao != "" then Some(dataDevolucao) else None,
      Some(if tipo == "emprestimo" then "emprestado" else "devolvido"))
  }

  /** The kind a radio button of the form stands for. */
  function KindOf(tipo: string): Option<Kind>
  {
    if tipo == "emprestimo" then Some(Emprestimo) else if tipo == "devolucao" then Some(Devolucao) else None
  }

  /**
   * What the form lets through, the server accepts: a payload from a form
   * that passes `validarForm`, with one of the two radio values and an id
   * taken from the list, passes the server's checks with the same kind,
   * and the server moves exactly the quantity typed.
   */
  lemma FormPassesServerChecks(user: UserView, materiais: seq<MaterialRow>, materialId: string, tipo: string,
                               quantidade: string, dataMovimentacao: string, dataDevolucao: string)
    requires ValidarForm(Some(user), materiais, materialId, tipo, quantidade).None?
    requires KindOf(tipo).Some? && user.id != 0
    requires ToNumber(materialId).Num? && ToNumber(materialId).value != 0
    ensures ValidateMovement(Payload(user, materialId, tipo, quantidade, dataMovimentacao, dataDevolucao))
            == Ok(KindOf(tipo).value)
    ensures Delta(KindOf(tipo).value, Payload(user, materialId, tipo, quantidade, dataMovimentacao, dataDevolucao).quantidade.n)
            == if tipo == "emprestimo" then -ToNumber(quantidade).value else ToNumber(quantidade).value
  {
    AcceptedFormFields(Some(user), materiais, materialId, tipo, quantidade);
    PayloadPassesServerChecks(user, materialId, tipo, quantidade, dataMovimentacao, dataDevolucao);
  }

  /** What `validarForm` lets through has a user, a material, a kind and a positive quantity. */
  lemma AcceptedFormFields(user: Option<UserView>, materiais: seq<MaterialRow>, materialId: string, tipo: string,
                           quantidade: string)
    requires ValidarForm(user, materiais, materialId, tipo, quantidade).None?
    ensures user.Some? && materialId != "" && tipo != "" && PositiveQuantity(quantidade)
  {
  }

  /** The payload of a form with those fields passes the server's checks, with the typed quantity. */
  lemma PayloadPassesServerChecks(user: UserView, materialId: string, tipo: string, quantidade: string,
                                  dataMovimentacao: string, dataDevolucao: string)
    requires PositiveQuantity(quantidade) && KindOf(tipo).Some? && user.id != 0
    requires ToNumber(materialId).Num? && ToNumber(materialId).value != 0
    ensures ValidateMovement(Payload(user, materialId, tipo, quantidade, dataMovimentacao, dataDevolucao))
            == Ok(KindOf(tipo).value)
    ensures Delta(KindOf(tipo).value, Payload(user, materialId, tipo, quantidade, dataMovimentacao, dataDevolucao).quantidade.n)
            == if tipo == "emprestimo" then -ToNumber(quantidade).value else ToNumber(quantidade).value
  {
    var p := Payload(user, materialId, tipo, quantidade, dataMovimentacao, dataDevolucao);
    var k := KindOf(tipo).value;
    PayloadFields(user, materialId, tipo, quantidade, dataMovimentacao, dataDevolucao);
    KindOfNames(tipo);
    RequestValidatesAs(p, k);
  }

  /** The numeric fields of such a payload are the typed numbers, all of them truthy. */
  lemma PayloadFields(user: UserView, materialId: string, tipo: string, quantidade: string,
                      dataMovimentacao: string, dataDevolucao: string)
    requires PositiveQuantity(quantidade) && user.id != 0
    requires ToNumber(materialId).Num? && ToNumber(materialId).value != 0
    ensures var p := Payload(user, materialId, tipo, quantidade, dataMovimentacao, dataDevolucao);
            && NumTruthy(p.materialId) && NumTruthy(p.usuarioId) && NumTruthy(p.quantidade)
            && p.quantidade == NumField.Num(ToNumber(quantidade).value) && p.tipo == Some(tipo)
  {
  }

  /** A radio value's kind is named by that value. */
  lemma KindOfNames(tipo: string)
    requires KindOf(tipo).Some?
    ensures KindName(KindOf(tipo).value) == tipo
    ensures KindOf(tipo).value == Emprestimo <==> tipo == "emprestimo"
  {
  }

  /** A request with every required field truthy and a kind's own name is accepted as that kind. */
  lemma RequestValidatesAs(p: MovementRequest, k: Kind)
    requires NumTruthy(p.materialId) && NumTruthy(p.usuarioId) && NumTruthy(p.quantidade)
    requires p.tipo == Some(KindName(k))
    ensures ValidateMovement(p) == Ok(k)
  {
    KindRoundTrip(k);
    assert HasRequiredFields(p);
  }

  /**
   * The only guard against negative stock is the form's: a loan it lets
   * through, of a material whose listed quantity is still the stored one,
   * leaves the stored quantity at zero or more.
   */
  lemma FormKeepsStockNonNegative(user: UserView, materiais: seq<MaterialRow>, materialId: string, quantidade: string,
                                  dataMovimentacao: string, dataDevolucao: string, stored: map<Id, Material>)
    requires ValidarForm(Some(user), materiais, materialId, "emprestimo", quantidade).None?
    requires MaterialSelecionado(materiais, materialId).Some?
    requires var m := MaterialSelecionado(materiais, materialId).value;
             m.id in stored && stored[m.id].quantidade == m.quantidade
    ensures var m := MaterialSelecionado(materiais, materialId).value;
            var p := Payload(user, materialId, "emprestimo", quantidade, dataMovimentacao, dataDevolucao);
            ApplyDelta(stored, m.id, Delta(Emprestimo, p.quantidade.n))[m.id].quantidade >= 0
  {
  }

  /** A loan the form lets through posts the selected id and a quantity within what the store holds. */
  lemma LoanPayloadWithinStock(user: UserView, materiais: seq<MaterialRow>, materialId: string, quantidade: string,
                               dataMovimentacao: string, dataDevolucao: string, stored: map<Id, Material>)
    requires ValidarForm(Some(user), materiais, materialId, "emprestimo", quantidade).None?
    requires MaterialSelecionado(materiais, materialId).Some?
    requires var m := MaterialSelecionado(materiais, materialId).value;
             m.id in stored && stored[m.id].quantidade == m.quantidade
    ensures var m := MaterialSelecionado(materiais, materialId).value;
            var p := Payload(user, materialId, "emprestimo", quantidade, dataMovimentacao, dataDevolucao);
            && p.tipo == Some("emprestimo") && p.materialId == NumField.Num(m.id) && p.quantidade.Num?
            && 0 < p.quantidade.n <= stored[m.id].quantidade
  {
  }

  /** The server on its own takes a loan larger than the stock and leaves a negative quantity. */
  lemma ServerAcceptsOverdraw()
    ensures ValidateMovement(MovementRequest(NumField.Num(1), NumField.Num(1), Some("emprestimo"), NumField.Num(5),
                                             None, None, None)) == Ok(Emprestimo)
    ensures ApplyDelta(map[1 := Material("Cone", 1, 0)], 1, Delta(Emprestimo, 5))[1].quantidade == -4
  {
    var req := MovementRequest(NumField.Num(1), NumField.Num(1), Some("emprestimo"), NumField.Num(5), None, None, None);
    assert HasRequiredFields(req);
    KindRoundTrip(Emprestimo);
  }

  /** The status badge of a material card. */
  datatype Badge = Baixo | Esgotado | Disponivel

  /** Below the minimum wins; otherwise an empty stock is sold out; otherwise OK. */
  function StockBadge(m: MaterialRow): (b: Badge)
    ensures b == Baixo <==> m.quantidade < m.estoqueMinimo
    ensures b == Esgotado <==> m.quantidade >= m.estoqueMinimo && m.quantidade == 0
    ensures b == Disponivel <==> m.quantidade >= m.estoqueMinimo && m.quantidade != 0
  {
    if m.quantidade < m.estoqueMinimo then Baixo
    else if m.quantidade == 0 then Esgotado
    else Disponivel
  }

  /** With a non-negative minimum, a card shows "sold out" only when the minimum is 0. */
  lemma EsgotadoNeedsZeroMinimum(m: MaterialRow)
    requires m.estoqueMinimo >= 0 && StockBadge(m) == Esgotado
    ensures m.estoqueMinimo == 0
  {
  }

  /** The card's warning agrees with the server's flag on every listed row. */
  lemma BadgeMatchesServerFlag(id: Id, m: Material)
    ensures StockBadge(ListedOf(id, m)) == Baixo <==> ListedOf(id, m).abaixoDoMinimo
  {
  }

  /** A request whose `tipo` is the loan radio value is read by the server as a loan. */
  lemma LoanIsEmprestimo(req: MovementRequest)
    requires ValidateMovement(req).Ok? && req.tipo == Some("emprestimo")
    ensures ValidateMovement(req).value == Emprestimo
  {
    KindRoundTrip(Emprestimo);
  }

  /** Lending no more than the stored quantity leaves that quantity non-negative. */
  lemma LoanWithinStock(materiais: map<Id, Material>, id: Id, q: int)
    requires id in materiais
    ensures 0 <= q <= materiais[id].quantidade ==> ApplyDelta(materiais, id, Delta(Emprestimo, q))[id].quantidade >= 0
  {
  }

  /**
   * What the store holds once it has accepted `payload`: the payload's
   * delta applied to that one material, and exactly the movement the
   * INSERT builds appended under the next ledger id.
   */
  twostate predicate Recorded(store: Server.Store, payload: MovementRequest, now: Instant,
                              readDate: string -> Option<Instant>)
    reads store
  {
    && ValidateMovement(payload).Ok? && payload.materialId.Num? && payload.quantidade.Num? && payload.usuarioId.Num?
    && !DateParamOf(payload.dataMovimentacao, readDate).Unreadable?
    && !DateParamOf(payload.dataDevolucao, readDate).Unreadable?
    && payload.materialId.n in old(store.materiais)
    && store.materiais == ApplyDelta(old(store.materiais), payload.materialId.n,
                                     Delta(ValidateMovement(payload).value, payload.quantidade.n))
    && store.movimentacoes == old(store.movimentacoes) +
         [NewMovement(old(store.nextMovimentacaoId), payload, ValidateMovement(payload).value, now, readDate)]
    && store.nextMovimentacaoId == old(store.nextMovimentacaoId) + 1
  }

  /** A movement never touches the users, nor the material and user sequences. */
  twostate predicate OtherTablesKept(store: Server.Store)
    reads store
  {
    && store.usuarios == old(store.usuarios)
    && store.nextMaterialId == old(store.nextMaterialId) && store.nextUsuarioId == old(store.nextUsuarioId)
  }

  /**
   * `api.post('/movimentacoes', payload)`: the store's transaction, seen
   * from the page: it succeeds exactly when the server's checks pass, the
   * material is stored and the INSERT goes through; a failure changes
   * nothing, a success records exactly that movement, and a loan no larger
   * than the stored quantity leaves it non-negative.
   */
  method PostMovement(store: Server.Store, payload: MovementRequest, now: Instant,
                      readDate: string -> Option<Instant>, insertAccepted: bool)
    returns (response: Result<Receipt>)
    requires store.Valid()
    modifies store
    ensures store.Valid() && OtherTablesKept(store)
    ensures response.Ok? <==> && ValidateMovement(payload).Ok? && payload.materialId.Num? && payload.quantidade.Num?
                              && payload.materialId.n in old(store.materiais)
                              && InsertSucceeds(payload, readDate, insertAccepted)
    ensures response.Err? ==> && store.materiais == old(store.materiais) && store.movimentacoes == old(store.movimentacoes)
                              && store.nextMovimentacaoId == old(store.nextMovimentacaoId)
    ensures response.Ok? ==> Recorded(store, payload, now, readDate)
    ensures && payload.tipo == Some("emprestimo") && payload.materialId.Num? && payload.quantidade.Num?
            && payload.materialId.n in old(store.materiais)
            && 0 <= payload.quantidade.n <= old(store.materiais)[payload.materialId.n].quantidade
            ==> payload.materialId.n in store.materiais && store.materiais[payload.materialId.n].quantidade >= 0
  {
    ghost var before := store.materiais;
    response := store.RecordMovement(payload, now, readDate, insertAccepted);
    if response.Ok? && payload.tipo == Some("emprestimo") {
      LoanIsEmprestimo(payload);
      LoanWithinStock(before, payload.materialId.n, payload.quantidade.n);
    }
  }

  /** What the page tells the user after a submission. */
  datatype Notice = Alert(message: string) | LowStockWarning | Registered

  class EstoquePage {
    const user: Option<UserView>
    var materiais: seq<MaterialRow>
    var materialId: string
    var tipo: string
    var quantidade: string
    var dataMovimentacao: string
    var dataDevolucao: string
    var observacao: string
    var processando: bool

    constructor (user: Option<UserView>)
      ensures this.user == user && materiais == [] && materialId == "" && tipo == "emprestimo"
      ensures quantidade == "" && dataMovimentacao == "" && dataDevolucao == "" && observacao == ""
      ensures !processando
    {
      this.user := user;
      materiais, materialId, tipo := [], "", "emprestimo";
      quantidade, dataMovimentacao, dataDevolucao, observacao := "", "", "", "";
      processando := false;
    }

    /** `materiaisOrdenados`: the loaded list as the table shows it. */
    function MateriaisOrdenados(): seq<MaterialRow>
      reads this
    {
      SortedByName(materiais)
    }

    /** `limparForm`: clears the quantity, the note and both dates; the material and the kind stay. */
    method LimparForm()
      modifies this
      ensures quantidade == "" && observacao == "" && dataMovimentacao == "" && dataDevolucao == ""
      ensures materialId == old(materialId) && tipo == old(tipo)
      ensures materiais == old(materiais) && processando == old(processando)
    {
      quantidade := "";
      observacao := "";
      dataMovimentacao := "";
      dataDevolucao := "";
    }

    /**
     * What the page does with the server's answer: an alert with the
     * server's message (or the generic one) on failure; on success a notice
     * that warns when the material is now below its minimum, then
     * `carregarMateriais()` and `limparForm()`; in every case the page is
     * no longer busy.
     */
    method Concluir(store: Server.Store, response: Result<Receipt>) returns (notice: Notice)
      requires store.Valid()
      modifies this
      ensures response.Err? ==> && notice == Alert(AlertText(response.error, RequestFailed))
                                && materiais == old(materiais) && quantidade == old(quantidade) && observacao == old(observacao)
                                && dataMovimentacao == old(dataMovimentacao) && dataDevolucao == old(dataDevolucao)
      ensures response.Ok? ==> && notice == (if response.value.material.abaixoDoMinimo then LowStockWarning else Registered)
                               && materiais == store.ListAll(None)
                               && quantidade == "" && observacao == "" && dataMovimentacao == "" && dataDevolucao == ""
      ensures materialId == old(materialId) && tipo == old(tipo) && !processando
    {
      if response.Err? {
        notice := Alert(AlertText(response.error, RequestFailed));
      } else {
        notice := if response.value.material.abaixoDoMinimo then LowStockWarning else Registered;
        materiais := store.ListAll(None);
        LimparForm();
      }
      processando := false;
    }

    /** Clicking a material card selects it. */
    method SelecionarMaterial(m: MaterialRow)
      modifies this
      ensures materialId == IntToString(m.id)
      ensures materiais == old(materiais) && tipo == old(tipo) && quantidade == old(quantidade)
      ensures dataMovimentacao == old(dataMovimentacao) && dataDevolucao == old(dataDevolucao)
      ensures observacao == old(observacao) && processando == old(processando)
    {
      materialId := IntToString(m.id);
    }

    /**
     * What sending `payload` did: nothing but an alert when the server
     * refused, and otherwise exactly that movement recorded, a reloaded list
     * and a cleared form; the selection stays and the page is no longer busy.
     */
    twostate predicate Sent(store: Server.Store, notice: Notice, payload: MovementRequest, now: Instant,
                            readDate: string -> Option<Instant>)
      reads this, store
    {
      && store.Valid() && OtherTablesKept(store)
      && !processando && materialId == old(materialId) && tipo == old(tipo)
      && (notice.Alert? <==> store.movimentacoes == old(store.movimentacoes))
      && (notice.Alert? ==> && store.materiais == old(store.materiais)
                            && store.nextMovimentacaoId == old(store.nextMovimentacaoId)
                            && materiais == old(materiais) && quantidade == old(quantidade) && observacao == old(observacao)
                            && dataMovimentacao == old(dataMovimentacao) && dataDevolucao == old(dataDevolucao))
      && (!notice.Alert? ==>
            && Recorded(store, payload, now, readDate)
            && materiais == store.ListAll(None)
            && quantidade == "" && observacao == "" && dataMovimentacao == "" && dataDevolucao == "")
    }

    /**
     * The part of `registrarMovimentacao` after the checks: post the
     * payload; on success reload the list and clear the form, on failure
     * show the server's message, or a generic one when it sent none.
     */
    method Enviar(store: Server.Store, payload: MovementRequest, now: Instant, readDate: string -> Option<Instant>,
                  insertAccepted: bool)
      returns (notice: Notice)
      requires store.Valid()
      modifies this, store
      ensures store.Valid()
      ensures Sent(store, notice, payload, now, readDate)
      ensures var p := payload;
              && p.tipo == Some("emprestimo") && p.materialId.Num? && p.quantidade.Num?
              && p.materialId.n in old(store.materiais)
              && 0 <= p.quantidade.n <= old(store.materiais)[p.materialId.n].quantidade
              ==> p.materialId.n in store.materiais && store.materiais[p.materialId.n].quantidade >= 0
    {
      processando := true;
      var response := PostMovement(store, payload, now, readDate, insertAccepted);
      notice := Concluir(store, response);
    }

    /**
     * `registrarMovimentacao` against the backend's store: refuse what
     * `validarForm` refuses and change nothing, otherwise send.
     */
    method RegistrarMovimentacao(store: Server.Store, now: Instant, readDate: string -> Option<Instant>, insertAccepted: bool)
      returns (notice: Notice)
      requires store.Valid()
      modifies this, store
      ensures store.Valid()
      ensures ValidarForm(user, old(materiais), old(materialId), old(tipo), old(quantidade)).Some? ==>
                && notice == Alert(ValidarForm(user, old(materiais), old(materialId), old(tipo), old(quantidade)).value)
                && unchanged(this) && unchanged(store)
      ensures ValidarForm(user, old(materiais), old(materialId), old(tipo), old(quantidade)).None? ==>
                && user.Some?
                && Sent(store, notice, Payload(user.value, old(materialId), old(tipo), old(quantidade),
                                               old(dataMovimentacao), old(dataDevolucao)), now, readDate)
      // with the form's check and a list as fresh as the store, a loan cannot take the stock below zero
      ensures (&& ValidarForm(user, old(materiais), old(materialId), old(tipo), old(quantidade)).None?
               && old(tipo) == "emprestimo" && MaterialSelecionado(old(materiais), old(materialId)).Some?
               && var m := MaterialSelecionado(old(materiais), old(materialId)).value;
                  m.id in old(store.materiais) && old(store.materiais)[m.id].quantidade == m.quantidade)
              ==> var m := MaterialSelecionado(old(materiais), old(materialId)).value;
                  m.id in store.materiais && store.materiais[m.id].quantidade >= 0
    {
      var erro := ValidarForm(user, materiais, materialId, tipo, quantidade);
      if erro.Some? {
        notice := Alert(erro.value);
      } else {
        var payload := Payload(user.value, materialId, tipo, quantidade, dataMovimentacao, dataDevolucao);
        ghost var sel := MaterialSelecionado(materiais, materialId);
        if tipo == "emprestimo" && sel.Some? && sel.value.id in store.materiais
           && store.materiais[sel.value.id].quantidade == sel.value.quantidade {
          LoanPayloadWithinStock(user.value, materiais, materialId, quantidade, dataMovimentacao, dataDevolucao, store.materiais);
        }
        notice := Enviar(store, payload, now, readDate, insertAccepted);
      }
    }
  }
}
