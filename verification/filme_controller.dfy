/** The movie controller over the movies collection. Every operation checks
    its preconditions in the order the controller does, and on each failure
    answers `success: false` without touching the collection. */
module FilmeController {
  import opened Js
  import Text
  import Numbers
  import opened Colecao
  import opened FilmeModel

  /** `genero` matches the search term as the case-insensitive `$regex`
      does for a term without metacharacters: as a substring, ignoring case. */
  predicate GeneroContem(doc: Obj, termo: string) {
    Get(doc, "genero").Str? && Text.Contains(Text.ToLower(Get(doc, "genero").s), Text.ToLower(termo))
  }

  function MensagemDadosInvalidos(filmeData: Obj, anoAtual: int): string {
    "Dados inválidos: " + Text.Join(Mensagens(Erros(filmeData, anoAtual), anoAtual), ", ")
  }

  /** The movies collection, as the controller sees it. */
  class Filmes {
    var docs: map<string, Obj>
    /** `ObjectId.isValid`, left uninterpreted. */
    const isValidId: string -> bool

    /** Every stored movie sits under a well-formed id and has the shape
        `criarFilme` and `atualizarFilme` write. */
    ghost predicate Valid()
      reads this
    {
      forall id :: id in docs ==> isValidId(id) && Armazenavel(docs[id])
    }

    constructor(isValidId: string -> bool)
      ensures Valid() && docs == map[] && this.isValidId == isValidId
    {
      docs := map[];
      this.isValidId := isValidId;
    }

    /** `criarFilme`: validates, then inserts the three fields exactly as
        given under the fresh id the database assigns. */
    method CriarFilme(filmeData: Obj, anoAtual: int, novoId: string) returns (r: Resposta)
      requires Valid() && novoId !in docs && isValidId(novoId)
      modifies this
      ensures Valid()
      ensures !FilmeValido(filmeData, anoAtual) ==>
        docs == old(docs)
        && r == Falha("Erro ao criar filme: " + MensagemDadosInvalidos(filmeData, anoAtual))
      ensures FilmeValido(filmeData, anoAtual) ==>
        docs == old(docs)[novoId := ToJSON(FromObject(filmeData))]
        && r == Resposta(true, "Filme criado com sucesso!", Some(Registro(novoId, ToJSON(FromObject(filmeData)))))
    {
      var validation := Validate(filmeData, anoAtual);
      if !validation.isValid {
        var mensagem := "Dados inválidos: " + Text.Join(validation.errors, ", ");
        return Falha("Erro ao criar filme: " + mensagem);
      }
      var filme := Filme(Get(filmeData, "nome"), Get(filmeData, "genero"), Get(filmeData, "anolancemento"));
      ValidoArmazenavel(filmeData, anoAtual);
      docs := docs[novoId := ToJSON(filme)];
      r := Resposta(true, "Filme criado com sucesso!", Some(Registro(novoId, ToJSON(filme))));
    }

    /** `buscarTodosFilmes`: every stored movie, and how many there are. */
    method BuscarTodosFilmes() returns (r: Resposta)
      ensures r.success && r.data.Some? && r.data.value.Lista?
      ensures var itens := r.data.value.itens;
        && (forall id :: id in Ids(itens) <==> id in docs)
        && Distintos(itens) && Armazenados(itens, docs)
        && r.message == Numbers.NatToString(|docs|) + " filme(s) encontrado(s)"
    {
      var filmes := Listar(docs, _ => true);
      assert Chaves(docs, _ => true) == docs.Keys;
      r := Resposta(true, Numbers.NatToString(|filmes|) + " filme(s) encontrado(s)", Some(Lista(filmes)));
    }

    /** `buscarFilmePorId`: a malformed id, an absent id, or the document. */
    method BuscarFilmePorId(id: string) returns (r: Resposta)
      ensures !isValidId(id) ==> r == Falha("Erro ao buscar filme: ID inválido")
      ensures isValidId(id) && id !in docs ==> r == Falha("Filme não encontrado")
      ensures isValidId(id) && id in docs ==> r == Resposta(true, "Filme encontrado", Some(Documento(id, docs[id])))
      ensures r.success <==> isValidId(id) && id in docs
    {
      if !isValidId(id) {
        return Falha("Erro ao buscar filme: " + "ID inválido");
      }
      if id !in docs {
        return Falha("Filme não encontrado");
      }
      r := Resposta(true, "Filme encontrado", Some(Documento(id, docs[id])));
    }

    /** `buscarFilmesPorGenero`: the movies whose genre contains the term,
        ignoring case. */
    method BuscarFilmesPorGenero(genero: string) returns (r: Resposta)
      ensures r.success && r.data.Some? && r.data.value.Lista?
      ensures var itens := r.data.value.itens;
        && (forall id :: id in Ids(itens) <==> id in docs && GeneroContem(docs[id], genero))
        && Distintos(itens) && Armazenados(itens, docs)
        && r.message == Numbers.NatToString(|itens|) + " filme(s) encontrado(s) no gênero \"" + genero + "\""
    {
      var filmes := Listar(docs, doc => GeneroContem(doc, genero));
      r := Resposta(true, Numbers.NatToString(|filmes|) + " filme(s) encontrado(s) no gênero \"" + genero + "\"",
                    Some(Lista(filmes)));
    }

    /** `atualizarFilme`: validation, then the id, then existence; on
        success the three fields are `$set` on the stored document. */
    method AtualizarFilme(id: string, filmeData: Obj, anoAtual: int) returns (r: Resposta)
      requires Valid()
      modifies this
      ensures Valid()
      ensures !FilmeValido(filmeData, anoAtual) ==>
        docs == old(docs) && r == Falha("Erro ao atualizar filme: " + MensagemDadosInvalidos(filmeData, anoAtual))
      ensures FilmeValido(filmeData, anoAtual) && !isValidId(id) ==>
        docs == old(docs) && r == Falha("Erro ao atualizar filme: ID inválido")
      ensures FilmeValido(filmeData, anoAtual) && isValidId(id) && id !in old(docs) ==>
        docs == old(docs) && r == Falha("Filme não encontrado")
      ensures FilmeValido(filmeData, anoAtual) && isValidId(id) && id in old(docs) ==>
        docs == old(docs)[id := old(docs)[id] + ToJSON(FromObject(filmeData))]
        && r == Resposta(true, "Filme atualizado com sucesso!", Some(Registro(id, ToJSON(FromObject(filmeData)))))
    {
      var validation := Validate(filmeData, anoAtual);
      if !validation.isValid {
        var mensagem := "Dados inválidos: " + Text.Join(validation.errors, ", ");
        return Falha("Erro ao atualizar filme: " + mensagem);
      }
      if !isValidId(id) {
        return Falha("Erro ao atualizar filme: " + "ID inválido");
      }
      if id !in docs {
        return Falha("Filme não encontrado");
      }
      var filme := Filme(Get(filmeData, "nome"), Get(filmeData, "genero"), Get(filmeData, "anolancemento"));
      var doc := ToJSON(filme);
      assert filme == FromObject(filmeData);
      ValidoArmazenavel(filmeData, anoAtual);
      SetSobreArmazenavel(docs[id], doc);
      docs := docs[id := docs[id] + doc];
      r := Resposta(true, "Filme atualizado com sucesso!", Some(Registro(id, doc)));
    }

    /** `deletarFilme`: removes exactly the target and answers with the
        document as it was. */
    method DeletarFilme(id: string) returns (r: Resposta)
      requires Valid()
      modifies this
      ensures Valid()
      ensures !isValidId(id) ==> docs == old(docs) && r == Falha("Erro ao deletar filme: ID inválido")
      ensures isValidId(id) && id !in old(docs) ==> docs == old(docs) && r == Falha("Filme não encontrado")
      ensures isValidId(id) && id in old(docs) ==>
        docs == old(docs) - {id}
        && r == Resposta(true, "Filme deletado com sucesso!", Some(Registro(id, old(docs)[id])))
    {
      if !isValidId(id) {
        return Falha("Erro ao deletar filme: " + "ID inválido");
      }
      if id !in docs {
        return Falha("Filme não encontrado");
      }
      var filmeExistente := docs[id];
      docs := docs - {id};
      r := Resposta(true, "Filme deletado com sucesso!", Some(Registro(id, filmeExistente)));
    }

    /** `deletarTodosFilmes`: empties the collection and reports how many
        movies it held. */
    method DeletarTodosFilmes() returns (r: Resposta)
      requires Valid()
      modifies this
      ensures Valid() && docs == map[]
      ensures r == Resposta(true, Numbers.NatToString(|old(docs)|) + " filme(s) deletado(s) com sucesso!",
                            Some(Removidos(|old(docs)|)))
    {
      var deletedCount := |docs|;
      docs := map[];
      r := Resposta(true, Numbers.NatToString(deletedCount) + " filme(s) deletado(s) com sucesso!",
                    Some(Removidos(deletedCount)));
    }
  }

  /** `$set` of a freshly built movie over a stored one gives the new three
      fields: the stored document has no other field to keep. */
  lemma SetSobreArmazenavel(doc: Obj, novo: Obj)
    requires Armazenavel(doc) && Armazenavel(novo)
    ensures doc + novo == novo
  {
  }

  /** A movie just created is found under its new id, holding what was sent. */
  method CriarEntaoBuscar(f: Filmes, filmeData: Obj, anoAtual: int, novoId: string) returns (criado: Resposta, achado: Resposta)
    requires f.Valid() && novoId !in f.docs && f.isValidId(novoId)
    requires FilmeValido(filmeData, anoAtual)
    modifies f
    ensures f.Valid()
    ensures criado.success && achado.success
    ensures achado.data == Some(Documento(novoId, ToJSON(FromObject(filmeData))))
  {
    criado := f.CriarFilme(filmeData, anoAtual, novoId);
    achado := f.BuscarFilmePorId(novoId);
  }

  /** A deleted movie is no longer found, and no other movie is affected. */
  method DeletarEntaoBuscar(f: Filmes, id: string) returns (removido: Resposta, achado: Resposta)
    requires f.Valid() && f.isValidId(id) && id in f.docs
    modifies f
    ensures f.Valid()
    ensures removido.success && achado == Falha("Filme não encontrado")
    ensures f.docs == old(f.docs) - {id}
  {
    removido := f.DeletarFilme(id);
    achado := f.BuscarFilmePorId(id);
  }
}
