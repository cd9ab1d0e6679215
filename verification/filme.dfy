/** The movie model: its validator and its plain-object conversions.
    The class keeps exactly three fields, `nome`, `genero` and
    `anolancemento`, as its constructor does. */
module FilmeModel {
  import opened Js
  import Numbers

  const ANO_MINIMO: int := 1800
  /** How many years past the current one a release year may be. */
  const MARGEM_ANOS: int := 5
  const CAMPOS: set<string> := {"nome", "genero", "anolancemento"}

  datatype Erro = NomeInvalido | GeneroInvalido | AnoInvalido

  /** The position of each check in `validate`. */
  function Ordem(e: Erro): nat {
    match e
    case NomeInvalido => 0
    case GeneroInvalido => 1
    case AnoInvalido => 2
  }

  /** The negation of `!ano || typeof ano !== 'number' || ano < 1800 ||
      ano > anoAtual + 5`; NaN is falsy, so it fails too. */
  predicate AnoValido(v: JsValue, anoAtual: int) {
    Truthy(v) && v.Num?
    && ANO_MINIMO as real <= v.x <= (anoAtual + MARGEM_ANOS) as real
  }

  predicate FilmeValido(filme: Obj, anoAtual: int) {
    FilledString(Get(filme, "nome"))
    && FilledString(Get(filme, "genero"))
    && AnoValido(Get(filme, "anolancemento"), anoAtual)
  }

  /** The outcome of each check of `validate` on one input. */
  datatype Verificacoes = Verificacoes(nomeOk: bool, generoOk: bool, anoOk: bool)

  function Verifica(filme: Obj, anoAtual: int): Verificacoes {
    Verificacoes(
      FilledString(Get(filme, "nome")), FilledString(Get(filme, "genero")),
      AnoValido(Get(filme, "anolancemento"), anoAtual))
  }

  /** `[e]` when its check failed, nothing otherwise. */
  function SeFalhou(falhou: bool, e: Erro): seq<Erro> {
    if falhou then [e] else []
  }

  /** What `validate` pushes, check by check. */
  function ErrosDe(v: Verificacoes): seq<Erro> {
    SeFalhou(!v.nomeOk, NomeInvalido) + SeFalhou(!v.generoOk, GeneroInvalido) + SeFalhou(!v.anoOk, AnoInvalido)
  }

  /** Each error is pushed exactly when its check fails, at most once, in
      the validator's order. */
  lemma ErrosDeFatos(v: Verificacoes)
    ensures NomeInvalido in ErrosDe(v) <==> !v.nomeOk
    ensures GeneroInvalido in ErrosDe(v) <==> !v.generoOk
    ensures AnoInvalido in ErrosDe(v) <==> !v.anoOk
    ensures forall i, j :: 0 <= i < j < |ErrosDe(v)| ==> Ordem(ErrosDe(v)[i]) < Ordem(ErrosDe(v)[j])
    ensures |ErrosDe(v)| <= 3
    ensures ErrosDe(v) == [] <==> v.nomeOk && v.generoOk && v.anoOk
  {
  }

  /** The checks that fail, one entry per failing check, in the order the
      validator runs them. */
  function Erros(filme: Obj, anoAtual: int): (r: seq<Erro>)
    ensures NomeInvalido in r <==> !FilledString(Get(filme, "nome"))
    ensures GeneroInvalido in r <==> !FilledString(Get(filme, "genero"))
    ensures AnoInvalido in r <==> !AnoValido(Get(filme, "anolancemento"), anoAtual)
    ensures forall i, j :: 0 <= i < j < |r| ==> Ordem(r[i]) < Ordem(r[j])
    ensures |r| <= 3
    ensures r == [] <==> FilmeValido(filme, anoAtual)
  {
    var v := Verifica(filme, anoAtual);
    ErrosDeFatos(v);
    ErrosDe(v)
  }

  function Mensagem(e: Erro, anoAtual: int): string {
    match e
    case NomeInvalido => "Nome é obrigatório e deve ser uma string não vazia"
    case GeneroInvalido => "Gênero é obrigatório e deve ser uma string não vazia"
    case AnoInvalido =>
      "Ano de lançamento é obrigatório e deve ser um número válido entre 1800 e "
      + Numbers.IntToString(anoAtual + MARGEM_ANOS)
  }

  /** The message of each error, in the same order. */
  function Mensagens(es: seq<Erro>, anoAtual: int): (r: seq<string>)
    ensures |r| == |es|
  {
    if es == [] then [] else Mensagens(es[..|es| - 1], anoAtual) + [Mensagem(es[|es| - 1], anoAtual)]
  }

  lemma {:induction false} MensagensConcat(a: seq<Erro>, b: seq<Erro>, anoAtual: int)
    ensures Mensagens(a + b, anoAtual) == Mensagens(a, anoAtual) + Mensagens(b, anoAtual)
    decreases |b|
  {
    if b == [] {
      assert a + b == a;
    } else {
      var b' := b[..|b| - 1];
      assert (a + b)[..|a + b| - 1] == a + b';
      MensagensConcat(a, b', anoAtual);
    }
  }

  /** The message of a check that failed, nothing for one that passed. */
  function MensagemSeFalhou(falhou: bool, e: Erro, anoAtual: int): (r: seq<string>)
    ensures r == Mensagens(SeFalhou(falhou, e), anoAtual)
  {
    if falhou then [Mensagem(e, anoAtual)] else []
  }

  /** The messages of the failing checks, check by check. */
  lemma MensagensErrosDe(v: Verificacoes, anoAtual: int)
    ensures Mensagens(ErrosDe(v), anoAtual)
         == MensagemSeFalhou(!v.nomeOk, NomeInvalido, anoAtual) + MensagemSeFalhou(!v.generoOk, GeneroInvalido, anoAtual)
          + MensagemSeFalhou(!v.anoOk, AnoInvalido, anoAtual)
  {
    var r1 := SeFalhou(!v.nomeOk, NomeInvalido);
    var r2 := r1 + SeFalhou(!v.generoOk, GeneroInvalido);
    MensagensConcat(r1, SeFalhou(!v.generoOk, GeneroInvalido), anoAtual);
    MensagensConcat(r2, SeFalhou(!v.anoOk, AnoInvalido), anoAtual);
  }

  /** The pushes of `validate`: for each check in turn, its message is
      appended when it failed. */
  method EmpilhaMensagens(checks: Verificacoes, anoAtual: int) returns (errors: seq<string>)
    ensures errors == Mensagens(ErrosDe(checks), anoAtual)
  {
    errors := [];
    errors := EmpilhaSeFalhou(errors, !checks.nomeOk, NomeInvalido, anoAtual);
    errors := EmpilhaSeFalhou(errors, !checks.generoOk, GeneroInvalido, anoAtual);
    errors := EmpilhaSeFalhou(errors, !checks.anoOk, AnoInvalido, anoAtual);
    MensagensErrosDe(checks, anoAtual);
    assert [] + MensagemSeFalhou(!checks.nomeOk, NomeInvalido, anoAtual) == MensagemSeFalhou(!checks.nomeOk, NomeInvalido, anoAtual);
  }

  /** One `if (...) errors.push(...)` of `validate`. */
  method EmpilhaSeFalhou(errors: seq<string>, falhou: bool, e: Erro, anoAtual: int) returns (r: seq<string>)
    ensures r == errors + MensagemSeFalhou(falhou, e, anoAtual)
  {
    r := errors;
    if falhou {
      r := r + [Mensagem(e, anoAtual)];
    }
  }

  /** `Filme.validate`: pushes one message per failing check, and is valid
      exactly when nothing was pushed. The argument is a value, so the
      validator cannot trim or otherwise change it. */
  method Validate(filme: Obj, anoAtual: int) returns (v: Validacao)
    ensures v.isValid <==> v.errors == []
    ensures v.isValid <==> FilmeValido(filme, anoAtual)
    ensures v.errors == Mensagens(Erros(filme, anoAtual), anoAtual)
  {
    var errors := EmpilhaMensagens(Verifica(filme, anoAtual), anoAtual);
    v := Validacao(|errors| == 0, errors);
  }

  /** A `Filme` instance: the three values its constructor stores. */
  datatype Filme = Filme(nome: JsValue, genero: JsValue, anolancemento: JsValue)

  /** `toJSON`: a plain object with exactly the three stored fields. */
  function ToJSON(f: Filme): (o: Obj)
    ensures o.Keys == CAMPOS
  {
    map["nome" := f.nome, "genero" := f.genero, "anolancemento" := f.anolancemento]
  }

  /** `Filme.fromObject`: the three fields read off `obj`, missing ones as
      `undefined`; anything else on `obj` is dropped. */
  function FromObject(obj: Obj): Filme {
    Filme(Get(obj, "nome"), Get(obj, "genero"), Get(obj, "anolancemento"))
  }

  /** Converting an instance to a plain object and back gives it again. */
  lemma FromObjectToJSON(f: Filme)
    ensures FromObject(ToJSON(f)) == f
  {
  }

  /** Building from an object and converting back keeps exactly the three
      fields of the object; an object with only those fields comes back whole. */
  lemma ToJSONFromObject(obj: Obj)
    ensures ToJSON(FromObject(obj)) == map k | k in CAMPOS :: Get(obj, k)
    ensures obj.Keys == CAMPOS ==> ToJSON(FromObject(obj)) == obj
  {
  }

  /** A document as the controller writes it: the three fields, with the
      name and genre filled and a release year no earlier than 1800. */
  predicate Armazenavel(doc: Obj) {
    doc.Keys == CAMPOS
    && FilledString(doc["nome"])
    && FilledString(doc["genero"])
    && doc["anolancemento"].Num? && doc["anolancemento"].x >= ANO_MINIMO as real
  }

  /** What passes validation, built into a `Filme` and converted, is a
      document of that shape. */
  lemma ValidoArmazenavel(filme: Obj, anoAtual: int)
    requires FilmeValido(filme, anoAtual)
    ensures Armazenavel(ToJSON(FromObject(filme)))
  {
  }
}
