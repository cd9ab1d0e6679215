/** The comment controller over the `Comentarios` collection. Failures
    answer `success: false` and leave the collection as it was. */
module ComentarioController {
  import opened Js
  import Text
  import Numbers
  import Sorting
  import opened Colecao
  import opened ComentarioModel

  /** The filter `{ filmeId: filmeId }`. */
  predicate DoFilme(doc: Obj, filmeId: string) {
    Get(doc, "filmeId") == Str(filmeId)
  }

  /** The ids of the comments on one movie. */
  function DoFilmeIds(docs: map<string, Obj>, filmeId: string): (ks: set<string>)
    ensures forall id :: id in ks <==> id in docs && DoFilme(docs[id], filmeId)
  {
    set id | id in docs && DoFilme(docs[id], filmeId)
  }

  /** The time value of a stored `dataCriacao`; every stored comment has a
      valid one (see `Registrado`), so the fallback is never used. */
  function Criacao(doc: Obj): int {
    match Get(doc, "dataCriacao")
    case Date(At(ms)) => ms
    case _ => 0
  }

  /** `sort({ dataCriacao: -1 })`: newer comments come first. */
  predicate MaisRecenteAntes(a: (string, Obj), b: (string, Obj)) {
    Criacao(a.1) >= Criacao(b.1)
  }

  lemma MaisRecenteAntesOrdena()
    ensures Sorting.Total(MaisRecenteAntes) && Sorting.Transitive(MaisRecenteAntes)
  {
  }

  /** The rating `criarComentario` stores: `avaliacao ? parseFloat(avaliacao) : 0`. */
  function AvaliacaoInicial(v: JsValue): (r: JsNumber)
    ensures !Truthy(v) ==> r == Num(0.0)
    ensures Truthy(v) && v.Num? ==> r == v
    ensures Truthy(v) && v.Str? ==> r == Numbers.ParseFloat(v.s)
  {
    if Truthy(v) then Numbers.ParseFloatValue(v) else Num(0.0)
  }

  /** The comment `criarComentario` builds from validated data at time
      `agora`: author and text trimmed, the rating parsed. */
  function Construido(data: Obj, agora: int): (c: Comentario)
    requires ComentarioValido(data)
    ensures c.autor == Str(Text.Trim(Get(data, "autor").s)) && c.texto == Str(Text.Trim(Get(data, "texto").s))
    ensures c.filmeId == Get(data, "filmeId") && c.dataCriacao == At(agora)
    ensures c.avaliacao == AvaliacaoInicial(Get(data, "avaliacao"))
  {
    Novo(Get(data, "filmeId"), Str(Text.Trim(Get(data, "autor").s)), Str(Text.Trim(Get(data, "texto").s)),
         AvaliacaoInicial(Get(data, "avaliacao")), agora)
  }

  /** As written, `avaliacao: true` passes the validator, which compares it
      as 1, yet `parseFloat(true)` is NaN, so the comment is stored with a
      NaN rating. */
  lemma AvaliacaoVerdadeiraViraNaN(data: Obj, agora: int)
    requires FilmeIdInformado(Get(data, "filmeId"))
    requires FilledString(Get(data, "autor")) && FilledString(Get(data, "texto"))
    requires !TextoExcedeLimite(Get(data, "texto"))
    requires Get(data, "avaliacao") == Bool(true)
    ensures ComentarioValido(data)
    ensures Construido(data, agora).avaliacao == NaN
    ensures !NotaNoIntervalo(Construido(data, agora).avaliacao)
  {
    assert AvaliacaoComoNumero(Bool(true)) == Num(1.0);
    assert ComentarioValido(data);
    assert AvaliacaoInicial(Bool(true)) == NaN;
  }

  /** The rating the validator evidently means to admit: the number it
      compared, 0 when none was given. */
  function AvaliacaoPretendida(v: JsValue): (r: JsNumber)
    ensures !AvaliacaoInformada(v) ==> r == Num(0.0)
    ensures AvaliacaoInformada(v) ==> r == AvaliacaoComoNumero(v)
  {
    if AvaliacaoInformada(v) then AvaliacaoComoNumero(v) else Num(0.0)
  }

  /** With the intended rating, whatever passes validation is stored with a
      rating in [0, 10]. */
  lemma AvaliacaoPretendidaNoIntervalo(data: Obj)
    requires ComentarioValido(data)
    ensures NotaNoIntervalo(AvaliacaoPretendida(Get(data, "avaliacao")))
  {
  }

  /** The intended and the written rating agree on every string, number and
      absent value the validator accepts. */
  lemma AvaliacaoPretendidaConcorda(v: JsValue)
    requires AvaliacaoAceita(v)
    requires v.Str? || v.Num? || v.Undefined? || v.Null?
    ensures AvaliacaoPretendida(v) == AvaliacaoInicial(v)
  {
  }

  /** What `texto?.trim()` throws for a value that is present but has no
      `trim` method, as V8 words it. */
  const ERRO_TRIM: string := "comentarioData.texto?.trim is not a function"

  /** `comentarioData.texto?.trim() || comentarioExistente.texto`: the new
      text trimmed when it has something besides white space, the stored
      text otherwise; `None` when the call throws. */
  function TextoAtualizado(novo: JsValue, existente: JsValue): (r: Option<JsValue>)
    ensures r.None? <==> !(novo.Undefined? || novo.Null? || novo.Str?)
    ensures FilledString(novo) ==> r == Some(Str(Text.Trim(novo.s)))
    ensures novo.Undefined? || novo.Null? || (novo.Str? && !FilledString(novo)) ==> r == Some(existente)
  {
    match novo
    case Undefined => Some(existente)
    case Null => Some(existente)
    case Str(s) => Some(if Text.Trim(s) != "" then Str(Text.Trim(s)) else existente)
    case _ => None
  }

  /** `avaliacao !== undefined ? parseFloat(avaliacao) : comentarioExistente.avaliacao`. */
  function AvaliacaoAtualizada(novo: JsValue, existente: JsValue): (r: JsValue)
    ensures novo.Undefined? ==> r == existente
    ensures !novo.Undefined? ==> r == Numbers.ParseFloatValue(novo)
  {
    if novo != Undefined then Numbers.ParseFloatValue(novo) else existente
  }

  /** The `updateData` object: the new text and rating, and the edit date. */
  function DadosAtualizados(texto: JsValue, avaliacao: JsValue, agora: int): (o: Obj)
    ensures o.Keys == {"texto", "avaliacao", "dataEdicao"}
    ensures o["texto"] == texto && o["avaliacao"] == avaliacao && o["dataEdicao"] == Date(At(agora))
  {
    map["texto" := texto, "avaliacao" := avaliacao, "dataEdicao" := Date(At(agora))]
  }

  /** A stored comment: the five fields, a valid creation date. */
  predicate Registrado(doc: Obj) {
    CAMPOS <= doc.Keys && doc["dataCriacao"].Date? && doc["dataCriacao"].t.At?
  }

  /** `$set` of fields other than the creation date keeps a stored comment
      stored. */
  lemma AtualizacaoRegistrada(doc: Obj, campos: Obj)
    requires Registrado(doc) && "dataCriacao" !in campos
    ensures Registrado(doc + campos) && (doc + campos)["dataCriacao"] == doc["dataCriacao"]
  {
  }

  class Comentarios {
    var docs: map<string, Obj>
    /** `ObjectId.isValid`, left uninterpreted. */
    const isValidId: string -> bool

    ghost predicate Valid()
      reads this
    {
      forall id :: id in docs ==> isValidId(id) && Registrado(docs[id])
    }

    constructor(isValidId: string -> bool)
      ensures Valid() && docs == map[] && this.isValidId == isValidId
    {
      docs := map[];
      this.isValidId := isValidId;
    }

    /** `criarComentario`: validation, then the movie id's format, then the
        insertion of the trimmed comment under the fresh id. */
    method CriarComentario(data: Obj, agora: int, novoId: string) returns (r: Resposta)
      requires Valid() && novoId !in docs && isValidId(novoId)
      modifies this
      ensures Valid()
      ensures !ComentarioValido(data) ==>
        docs == old(docs)
        && r == Falha("Dados inválidos: " + Text.Join(Mensagens(Erros(data)), ", "))
      ensures ComentarioValido(data) && !isValidId(Get(data, "filmeId").s) ==>
        docs == old(docs) && r == Falha("ID do filme inválido")
      ensures ComentarioValido(data) && isValidId(Get(data, "filmeId").s) ==>
        docs == old(docs)[novoId := ToJSON(Construido(data, agora))]
        && r == Resposta(true, "Comentário adicionado com sucesso!", Some(Registro(novoId, ToJSON(Construido(data, agora)))))
    {
      var validation := Validate(data);
      if !validation.isValid {
        return Falha("Dados inválidos: " + Text.Join(validation.errors, ", "));
      }
      if !isValidId(data["filmeId"].s) {
        return Falha("ID do filme inválido");
      }
      var avaliacao := if Truthy(Get(data, "avaliacao")) then Numbers.ParseFloatValue(data["avaliacao"]) else Num(0.0);
      assert avaliacao == AvaliacaoInicial(Get(data, "avaliacao"));
      var comentario := Novo(data["filmeId"], Str(Text.Trim(data["autor"].s)), Str(Text.Trim(data["texto"].s)), avaliacao, agora);
      assert comentario == Construido(data, agora);
      var doc := ToJSON(comentario);
      assert Registrado(doc);
      docs := docs[novoId := doc];
      r := Resposta(true, "Comentário adicionado com sucesso!", Some(Registro(novoId, doc)));
    }

    /** `buscarComentariosPorFilme`: the comments on one movie, newest first. */
    method BuscarComentariosPorFilme(filmeId: string) returns (r: Resposta)
      requires Valid()
      ensures !isValidId(filmeId) ==> r == Falha("ID do filme inválido")
      ensures isValidId(filmeId) ==>
        r.success && r.data.Some? && r.data.value.Lista?
        && var itens := r.data.value.itens;
        && (forall id :: id in Ids(itens) <==> id in docs && DoFilme(docs[id], filmeId))
        && Distintos(itens) && Armazenados(itens, docs)
        && Sorting.SortedBy(itens, MaisRecenteAntes)
        && r.message == Numbers.NatToString(|itens|) + " comentário(s) encontrado(s)"
    {
      if !isValidId(filmeId) {
        return Falha("ID do filme inválido");
      }
      var encontrados := Listar(docs, doc => DoFilme(doc, filmeId));
      var comentarios := Sorting.Sort(encontrados, MaisRecenteAntes);
      Sorting.SortPermutation(encontrados, MaisRecenteAntes);
      MaisRecenteAntesOrdena();
      Sorting.SortSorted(encontrados, MaisRecenteAntes);
      PermutacaoPreserva(encontrados, comentarios, docs);
      r := Resposta(true, Numbers.NatToString(|comentarios|) + " comentário(s) encontrado(s)", Some(Lista(comentarios)));
    }

    /** `buscarComentarioPorId`. */
    method BuscarComentarioPorId(id: string) returns (r: Resposta)
      ensures !isValidId(id) ==> r == Falha("ID inválido")
      ensures isValidId(id) && id !in docs ==> r == Falha("Comentário não encontrado")
      ensures isValidId(id) && id in docs ==> r == Resposta(true, "Comentário encontrado", Some(Documento(id, docs[id])))
      ensures r.success <==> isValidId(id) && id in docs
    {
      if !isValidId(id) {
        return Falha("ID inválido");
      }
      if id !in docs {
        return Falha("Comentário não encontrado");
      }
      r := Resposta(true, "Comentário encontrado", Some(Documento(id, docs[id])));
    }

    /** `atualizarComentario`: no validation; the text, the rating and the
        edit date are `$set` on the stored comment, every other field stays. */
    method AtualizarComentario(id: string, data: Obj, agora: int) returns (r: Resposta)
      requires Valid()
      modifies this
      ensures Valid()
      ensures !isValidId(id) ==> docs == old(docs) && r == Falha("ID inválido")
      ensures isValidId(id) && id !in old(docs) ==> docs == old(docs) && r == Falha("Comentário não encontrado")
      ensures isValidId(id) && id in old(docs) ==>
        var antes := old(docs)[id];
        match TextoAtualizado(Get(data, "texto"), Get(antes, "texto"))
        case None =>
          docs == old(docs) && r == Falha("Erro ao atualizar comentário: " + ERRO_TRIM)
        case Some(texto) =>
          var campos := DadosAtualizados(texto, AvaliacaoAtualizada(Get(data, "avaliacao"), Get(antes, "avaliacao")), agora);
          docs == old(docs)[id := antes + campos]
          && r == Resposta(true, "Comentário atualizado com sucesso!", Some(Atualizado(id, campos)))
    {
      if !isValidId(id) {
        return Falha("ID inválido");
      }
      if id !in docs {
        return Falha("Comentário não encontrado");
      }
      var existente := docs[id];
      var texto := TextoAtualizado(Get(data, "texto"), existente["texto"]);
      if texto.None? {
        return Falha("Erro ao atualizar comentário: " + ERRO_TRIM);
      }
      var updateData := DadosAtualizados(texto.value, AvaliacaoAtualizada(Get(data, "avaliacao"), existente["avaliacao"]), agora);
      AtualizacaoRegistrada(existente, updateData);
      docs := docs[id := existente + updateData];
      r := Resposta(true, "Comentário atualizado com sucesso!", Some(Atualizado(id, updateData)));
    }

    /** `deletarComentario`: removes exactly the target and answers with the
        comment as it was. */
    method DeletarComentario(id: string) returns (r: Resposta)
      requires Valid()
      modifies this
      ensures Valid()
      ensures !isValidId(id) ==> docs == old(docs) && r == Falha("ID inválido")
      ensures isValidId(id) && id !in old(docs) ==> docs == old(docs) && r == Falha("Comentário não encontrado")
      ensures isValidId(id) && id in old(docs) ==>
        docs == old(docs) - {id}
        && r == Resposta(true, "Comentário deletado com sucesso!", Some(Registro(id, old(docs)[id])))
    {
      if !isValidId(id) {
        return Falha("ID inválido");
      }
      if id !in docs {
        return Falha("Comentário não encontrado");
      }
      var comentarioExistente := docs[id];
      docs := docs - {id};
      r := Resposta(true, "Comentário deletado com sucesso!", Some(Registro(id, comentarioExistente)));
    }

    /** `deletarComentariosDoFilme`: removes the comments on one movie and
        no other, and reports how many went. */
    method DeletarComentariosDoFilme(filmeId: string) returns (r: Resposta)
      requires Valid()
      modifies this
      ensures Valid()
      ensures !isValidId(filmeId) ==> docs == old(docs) && r == Falha("ID do filme inválido")
      ensures isValidId(filmeId) ==>
        docs == old(docs) - DoFilmeIds(old(docs), filmeId)
        && var n := |DoFilmeIds(old(docs), filmeId)|;
        r == Resposta(true, Numbers.NatToString(n) + " comentário(s) deletado(s)", Some(Removidos(n)))
    {
      if !isValidId(filmeId) {
        return Falha("ID do filme inválido");
      }
      var removidos := DoFilmeIds(docs, filmeId);
      docs := docs - removidos;
      r := Resposta(true, Numbers.NatToString(|removidos|) + " comentário(s) deletado(s)", Some(Removidos(|removidos|)));
    }

    /** `obterEstatisticasFilme`, count only: how many comments the movie
        has, 0 when it has none. */
    method ObterEstatisticasFilme(filmeId: string) returns (r: Resposta)
      ensures !isValidId(filmeId) ==> r == Falha("ID do filme inválido")
      ensures isValidId(filmeId) ==>
        r == Resposta(true, "Estatísticas obtidas", Some(Estatisticas(|DoFilmeIds(docs, filmeId)|)))
      ensures isValidId(filmeId) && (forall id :: id in docs ==> !DoFilme(docs[id], filmeId)) ==>
        r.data == Some(Estatisticas(0))
    {
      if !isValidId(filmeId) {
        return Falha("ID do filme inválido");
      }
      var total := |DoFilmeIds(docs, filmeId)|;
      if total == 0 {
        assert DoFilmeIds(docs, filmeId) == {};
      }
      r := Resposta(true, "Estatísticas obtidas", Some(Estatisticas(total)));
    }
  }

  /** After the comments on a movie are deleted, none is left, all others
      are still there, and a count for that movie reports 0. */
  method DeletarDoFilmeEntaoContar(c: Comentarios, filmeId: string) returns (removidos: Resposta, stats: Resposta)
    requires c.Valid() && c.isValidId(filmeId)
    modifies c
    ensures c.Valid()
    ensures forall id :: id in c.docs ==> !DoFilme(c.docs[id], filmeId)
    ensures forall id :: id in old(c.docs) && !DoFilme(old(c.docs)[id], filmeId) ==> id in c.docs
    ensures stats == Resposta(true, "Estatísticas obtidas", Some(Estatisticas(0)))
  {
    removidos := c.DeletarComentariosDoFilme(filmeId);
    stats := c.ObterEstatisticasFilme(filmeId);
  }
}
