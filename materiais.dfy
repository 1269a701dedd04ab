/**
 * The materials page of the front end (front-meias/src/pages/Materiais.jsx):
 * the material form and its checks, the bodies it sends, the search query,
 * the table's row flag, and the page state the handlers update.
 */
module Materiais {
  import opened Wrappers
  import opened Text
  import opened Numbers
  import opened Sorting
  import opened Inventory
  import opened Client
  import Server

  const MissingName := "Informe o nome do material."
  const NegativeQuantity := "Quantidade não pode ser negativa."
  const NegativeMinimum := "Estoque mínimo não pode ser negativo."
  const CreateFailed := "Erro ao criar material"
  const SaveFailed := "Erro ao salvar material"
  const DeleteFailed := "Erro ao excluir material"
  const Created := "Material cadastrado com sucesso!"
  const Saved := "Material atualizado com sucesso!"
  const Deleted := "Material excluído com sucesso!"

  /**
   * A number field of the form: a number while it holds what the page put
   * there (0 or a copied material), the input's text once the user types.
   */
  datatype FormValue = Number(n: int) | Typed(text: string)

  /** `Number(value)`. */
  function NumberOf(v: FormValue): (r: JsNumber)
    ensures v.Number? ==> r == JsNumber.Num(v.n)
    ensures v.Typed? ==> r == ToNumber(v.text)
  {
    match v
    case Number(n) => JsNumber.Num(n)
    case Typed(t) => ToNumber(t)
  }

  /** `Number(value) < 0`: false for NaN, so text that is not a number passes. */
  predicate Negative(v: FormValue)
  {
    NumberOf(v).Num? && NumberOf(v).value < 0
  }

  datatype Form = Form(id: Option<Id>, nome: string, quantidade: FormValue, estoqueMinimo: FormValue)

  /** `emptyForm`. */
  const EmptyForm := Form(None, "", Number(0), Number(0))

  /** `validarForm`: name, then quantity, then minimum; the first failure is reported. */
  function ValidarForm(f: Form): (r: Option<string>)
    ensures Trim(f.nome) == [] ==> r == Some(MissingName)
    ensures Trim(f.nome) != [] && Negative(f.quantidade) ==> r == Some(NegativeQuantity)
    ensures Trim(f.nome) != [] && !Negative(f.quantidade) && Negative(f.estoqueMinimo) ==> r == Some(NegativeMinimum)
    ensures r.None? <==> Trim(f.nome) != [] && !Negative(f.quantidade) && !Negative(f.estoqueMinimo)
  {
    if Trim(f.nome) == [] then Some(MissingName)
    else if Negative(f.quantidade) then Some(NegativeQuantity)
    else if Negative(f.estoqueMinimo) then Some(NegativeMinimum)
    else None
  }

  /** Zero is not negative: the empty form fails only for its name. */
  lemma EmptyFormNeedsOnlyAName(nome: string)
    ensures ValidarForm(EmptyForm.(nome := nome)).None? <==> Trim(nome) != []
  {
  }

  /** The body of `POST /materiais`: the trimmed name and both numbers, NaN as null. */
  function CreateBody(f: Form): (req: CreateRequest)
    ensures req.nome == Some(Trim(f.nome))
    ensures req.quantidade == JsonNumber(NumberOf(f.quantidade))
    ensures req.estoqueMinimo == JsonNumber(NumberOf(f.estoqueMinimo))
  {
    CreateRequest(Some(Trim(f.nome)), JsonNumber(NumberOf(f.quantidade)), JsonNumber(NumberOf(f.estoqueMinimo)))
  }

  /** The body of `PUT /materiais/:id`, built the same way. */
  function UpdateBody(f: Form): (req: UpdateRequest)
    ensures req.nome == Some(Trim(f.nome))
    ensures req.quantidade == JsonNumber(NumberOf(f.quantidade))
    ensures req.estoqueMinimo == JsonNumber(NumberOf(f.estoqueMinimo))
  {
    UpdateRequest(Some(Trim(f.nome)), JsonNumber(NumberOf(f.quantidade)), JsonNumber(NumberOf(f.estoqueMinimo)))
  }

  /**
   * A form that passes `validarForm` creates, on the server, a material
   * whose name is the trimmed, non-blank form name, with no surrounding
   * whitespace, and whose quantities are not negative.
   */
  lemma ValidFormCreatesCleanMaterial(f: Form)
    requires ValidarForm(f).None?
    ensures TextTruthy(CreateBody(f).nome)
    ensures var req := CreateBody(f);
            var m := Material(req.nome.value, NumberOrZero(req.quantidade), NumberOrZero(req.estoqueMinimo));
            && m.nome == Trim(f.nome) && Trim(m.nome) == m.nome
            && m.quantidade >= 0 && m.estoqueMinimo >= 0
  {
    TrimIdempotent(f.nome);
  }

  /**
   * A form that passes `validarForm` sends no field the server cannot
   * store, renames to the trimmed name, and never sets a negative
   * quantity or minimum; a field that is not a number keeps its old value.
   */
  lemma ValidFormUpdatesCleanly(f: Form, m: Material)
    requires ValidarForm(f).None?
    ensures !UpdateBody(f).quantidade.Junk? && !UpdateBody(f).estoqueMinimo.Junk?
    ensures var r := Patch(m, UpdateBody(f));
            && r.nome == Trim(f.nome) && Trim(r.nome) == r.nome
            && (NumberOf(f.quantidade).Num? ==> r.quantidade == NumberOf(f.quantidade).value >= 0)
            && (NumberOf(f.quantidade).NaN? ==> r.quantidade == m.quantidade)
            && (NumberOf(f.estoqueMinimo).Num? ==> r.estoqueMinimo == NumberOf(f.estoqueMinimo).value >= 0)
            && (NumberOf(f.estoqueMinimo).NaN? ==> r.estoqueMinimo == m.estoqueMinimo)
  {
    TrimIdempotent(f.nome);
  }

  /** The form `iniciarEdicao` fills from a listed material. */
  function EditForm(m: MaterialRow): (f: Form)
    ensures f.id == Some(m.id) && f.nome == m.nome
    ensures NumberOf(f.quantidade) == JsNumber.Num(m.quantidade)
    ensures NumberOf(f.estoqueMinimo) == JsNumber.Num(m.estoqueMinimo)
  {
    Form(Some(m.id), m.nome, Number(m.quantidade), Number(m.estoqueMinimo))
  }

  /** Saving a material opened for editing and left untouched writes back what is stored, when its name is already trimmed. */
  lemma UntouchedEditKeepsMaterial(id: Id, m: Material)
    requires Trim(m.nome) == m.nome
    ensures Patch(m, UpdateBody(EditForm(ListedOf(id, m)))) == m
  {
  }

  /** The `q` parameter of the list request: the term as typed, only when it is not blank. */
  function SearchQuery(term: string): (q: Option<string>)
    ensures q.Some? <==> Trim(term) != []
    ensures q.Some? ==> q.value == term
  {
    if Trim(term) != [] then Some(term) else None
  }

  /** The server searches for exactly the trimmed term the user typed, and a blank term lists everything. */
  lemma SearchQueryMeansTrimmedTerm(term: string)
    ensures SearchTerm(SearchQuery(term)) == Trim(term)
  {
    TrimEmpty();
  }

  /** The status column of a table row: warning below the minimum, OK otherwise. */
  datatype RowStatus = Baixo | Normal

  function StatusOf(m: MaterialRow): (s: RowStatus)
    ensures s == Baixo <==> m.quantidade < m.estoqueMinimo
  {
    if m.quantidade < m.estoqueMinimo then Baixo else Normal
  }

  /** The table's warning, the server's flag and the stock page's badge agree on every listed material. */
  lemma StatusAgreesWithServer(id: Id, m: Material)
    ensures StatusOf(ListedOf(id, m)) == Baixo <==> ListedOf(id, m).abaixoDoMinimo
  {
  }

  /** The material screen never touches the ledger, the users, or their sequences. */
  twostate predicate LedgerAndUsersKept(store: Server.Store)
    reads store
  {
    && store.movimentacoes == old(store.movimentacoes) && store.usuarios == old(store.usuarios)
    && store.nextMovimentacaoId == old(store.nextMovimentacaoId) && store.nextUsuarioId == old(store.nextUsuarioId)
  }

  class MateriaisPage {
    var materiais: seq<MaterialRow>
    var q: string
    var form: Form
    var editandoId: Option<Id>

    constructor ()
      ensures materiais == [] && q == "" && form == EmptyForm && editandoId.None?
    {
      materiais, q, form, editandoId := [], "", EmptyForm, None;
    }

    /** `!editandoId`: nothing is being edited when the id is null or 0. */
    predicate Editing()
      reads this
      ensures Editing() <==> NumTruthy(if editandoId.Some? then NumField.Num(editandoId.value) else NumField.Absent)
    {
      editandoId.Some? && editandoId.value != 0
    }

    /** `materiaisOrdenados`: the loaded list as the table shows it. */
    function MateriaisOrdenados(): seq<MaterialRow>
      reads this
    {
      SortedByName(materiais)
    }

    /** `carregarMateriais(term)`: the list for that search. */
    method CarregarMateriais(store: Server.Store, term: string)
      requires store.Valid()
      modifies this
      ensures materiais == store.ListAll(SearchQuery(term))
      ensures q == old(q) && form == old(form) && editandoId == old(editandoId)
    {
      materiais := store.ListAll(SearchQuery(term));
    }

    /** `limparBusca`: clear the term and list everything. */
    method LimparBusca(store: Server.Store)
      requires store.Valid()
      modifies this
      ensures q == "" && materiais == store.ListAll(None)
      ensures form == old(form) && editandoId == old(editandoId)
    {
      q := "";
      TrimEmpty();
      CarregarMateriais(store, "");
    }

    /** `limparForm`: back to the empty form, editing nothing. */
    method LimparForm()
      modifies this
      ensures form == EmptyForm && editandoId.None?
      ensures materiais == old(materiais) && q == old(q)
    {
      form := EmptyForm;
      editandoId := None;
    }

    /** `iniciarEdicao`: edit this material, with its values in the form. */
    method IniciarEdicao(m: MaterialRow)
      modifies this
      ensures editandoId == Some(m.id) && form == EditForm(m)
      ensures materiais == old(materiais) && q == old(q)
    {
      editandoId := Some(m.id);
      form := Form(Some(m.id), m.nome, Number(m.quantidade), Number(m.estoqueMinimo));
    }

    /** The request half of `criarMaterial`: post; on success reload the current search and clear the form. */
    method EnviarCriacao(store: Server.Store, body: CreateRequest, insertAccepted: bool) returns (alerta: string)
      requires store.Valid() && TextTruthy(body.nome)
      modifies this, store
      ensures store.Valid()
      ensures alerta == Created <==> insertAccepted
      ensures alerta == Created ==>
                && old(store.nextMaterialId) !in old(store.materiais)
                && store.materiais == old(store.materiais)[old(store.nextMaterialId) :=
                     Material(body.nome.value, NumberOrZero(body.quantidade), NumberOrZero(body.estoqueMinimo))]
                && materiais == store.ListAll(SearchQuery(q))
                && form == EmptyForm && editandoId.None?
      ensures alerta != Created ==>
                && store.materiais == old(store.materiais)
                && form == old(form) && editandoId == old(editandoId) && materiais == old(materiais)
      ensures q == old(q) && LedgerAndUsersKept(store)
      ensures store.nextMaterialId == old(store.nextMaterialId) + (if alerta == Created then 1 else 0)
    {
      var r := store.CreateMaterial(body, insertAccepted);
      if r.Err? {
        alerta := AlertText(r.error, CreateFailed);
      } else {
        CarregarMateriais(store, q);
        LimparForm();
        alerta := Created;
      }
    }

    /** `criarMaterial`: refuse what `validarForm` refuses, otherwise send the form. Returns the alert shown. */
    method CriarMaterial(store: Server.Store, insertAccepted: bool) returns (alerta: string)
      requires store.Valid()
      modifies this, store
      ensures store.Valid()
      ensures ValidarForm(old(form)).Some? ==>
                && alerta == ValidarForm(old(form)).value
                && unchanged(this) && unchanged(store)
      ensures alerta == Created <==> ValidarForm(old(form)).None? && insertAccepted
      ensures alerta == Created ==>
                && old(store.nextMaterialId) !in old(store.materiais)
                && store.materiais == old(store.materiais)[old(store.nextMaterialId) :=
                     Material(Trim(old(form).nome),
                              NumberOrZero(JsonNumber(NumberOf(old(form).quantidade))),
                              NumberOrZero(JsonNumber(NumberOf(old(form).estoqueMinimo))))]
                && materiais == store.ListAll(SearchQuery(q))
                && form == EmptyForm && editandoId.None?
      ensures alerta != Created ==>
                && store.materiais == old(store.materiais)
                && form == old(form) && editandoId == old(editandoId) && materiais == old(materiais)
      ensures q == old(q) && LedgerAndUsersKept(store)
      ensures store.nextMaterialId == old(store.nextMaterialId) + (if alerta == Created then 1 else 0)
    {
      var erro := ValidarForm(form);
      if erro.Some? {
        alerta := erro.value;
      } else {
        ValidFormCreatesCleanMaterial(form);
        alerta := EnviarCriacao(store, CreateBody(form), insertAccepted);
      }
    }

    /** The request half of `salvarMaterial`: put; on success reload the current search and clear the form. */
    method EnviarEdicao(store: Server.Store, id: Id, body: UpdateRequest) returns (alerta: string)
      requires store.Valid() && !body.quantidade.Junk? && !body.estoqueMinimo.Junk?
      modifies this, store
      ensures store.Valid()
      ensures alerta == Saved <==> id in old(store.materiais)
      ensures alerta == Saved ==>
                && store.materiais == old(store.materiais)[id := Patch(old(store.materiais)[id], body)]
                && materiais == store.ListAll(SearchQuery(q))
                && form == EmptyForm && editandoId.None?
      ensures alerta != Saved ==>
                && store.materiais == old(store.materiais)
                && form == old(form) && editandoId == old(editandoId) && materiais == old(materiais)
      ensures q == old(q) && LedgerAndUsersKept(store) && store.nextMaterialId == old(store.nextMaterialId)
    {
      var r := store.UpdateMaterial(id, body);
      if r.Err? {
        alerta := AlertText(r.error, SaveFailed);
      } else {
        CarregarMateriais(store, q);
        LimparForm();
        alerta := Saved;
      }
    }

    /**
     * `salvarMaterial`: nothing at all unless a material is being edited;
     * otherwise refuse what `validarForm` refuses, else send the form to
     * `PUT /materiais/:editandoId`.
     */
    method SalvarMaterial(store: Server.Store) returns (alerta: Option<string>)
      requires store.Valid()
      modifies this, store
      ensures store.Valid()
      ensures !old(Editing()) ==> alerta.None? && unchanged(this) && unchanged(store)
      ensures old(Editing()) && ValidarForm(old(form)).Some? ==>
                && alerta == Some(ValidarForm(old(form)).value)
                && unchanged(this) && unchanged(store)
      ensures alerta == Some(Saved) <==>
                old(Editing()) && ValidarForm(old(form)).None? && old(editandoId).value in old(store.materiais)
      ensures alerta == Some(Saved) ==>
                && var id := old(editandoId).value;
                && store.materiais == old(store.materiais)[id := Patch(old(store.materiais)[id], UpdateBody(old(form)))]
                && store.materiais[id].nome == Trim(old(form).nome)
                && materiais == store.ListAll(SearchQuery(q))
                && form == EmptyForm && editandoId.None?
      ensures alerta != Some(Saved) ==>
                && store.materiais == old(store.materiais)
                && form == old(form) && editandoId == old(editandoId) && materiais == old(materiais)
      ensures q == old(q) && LedgerAndUsersKept(store) && store.nextMaterialId == old(store.nextMaterialId)
    {
      if !Editing() {
        alerta := None;
      } else {
        var erro := ValidarForm(form);
        if erro.Some? {
          alerta := erro;
        } else {
          ValidFormUpdatesCleanly(form, if editandoId.value in store.materiais then store.materiais[editandoId.value] else Material("", 0, 0));
          var texto := EnviarEdicao(store, editandoId.value, UpdateBody(form));
          alerta := Some(texto);
        }
      }
    }

    /**
     * `excluirMaterial(id)`: nothing unless the user confirms; otherwise
     * delete and, on success, reload the current search. The form is left
     * as it is.
     */
    method ExcluirMaterial(store: Server.Store, id: Id, confirmed: bool) returns (alerta: Option<string>)
      requires store.Valid()
      modifies this, store
      ensures store.Valid()
      ensures !confirmed ==> alerta.None? && store.materiais == old(store.materiais) && materiais == old(materiais)
      ensures alerta == Some(Deleted) <==> confirmed && id in old(store.materiais)
      ensures alerta == Some(Deleted) ==>
                store.materiais == old(store.materiais) - {id} && materiais == store.ListAll(SearchQuery(q))
      ensures alerta != Some(Deleted) ==> store.materiais == old(store.materiais) && materiais == old(materiais)
      ensures form == old(form) && editandoId == old(editandoId) && q == old(q)
      ensures LedgerAndUsersKept(store) && store.nextMaterialId == old(store.nextMaterialId)
    {
      if !confirmed {
        alerta := None;
      } else {
        var r := store.DeleteMaterial(id);
        if r.Err? {
          alerta := Some(AlertText(r.error, DeleteFailed));
          assert alerta.value != Deleted;
        } else {
          CarregarMateriais(store, q);
          alerta := Some(Deleted);
        }
      }
    }
  }
}
