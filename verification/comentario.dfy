/** The comment model: its validator, its constructor (default rating and
    creation stamp) and its plain-object conversions. */
module ComentarioModel {
  import opened Js
  import Numbers

  /** The longest text accepted, in characters. */
  const LIMITE_TEXTO: nat := 1000
  const NOTA_MAXIMA: real := 10.0
  const CAMPOS: set<string> := {"filmeId", "autor", "texto", "avaliacao", "dataCriacao"}

  datatype Erro = FilmeIdAusente | AutorAusente | TextoAusente | TextoLongo | AvaliacaoInvalida

  function Ordem(e: Erro): nat {
    match e
    case FilmeIdAusente => 0
    case AutorAusente => 1
    case TextoAusente => 2
    case TextoLongo => 3
    case AvaliacaoInvalida => 4
  }

  /** The negation of `!filmeId || typeof filmeId !== 'string'`: any
      non-empty string, blank or not. */
  predicate FilmeIdInformado(v: JsValue) {
    Truthy(v) && v.Str?
  }

  /** `texto && texto.length > 1000`, the length taken before trimming. */
  predicate TextoExcedeLimite(v: JsValue) {
    Truthy(v) && v.Str? && |v.s| > LIMITE_TEXTO
  }

  /** The rating is checked unless it is `undefined`, `null` or `''`. */
  predicate AvaliacaoInformada(v: JsValue) {
    v != Undefined && v != Null && v != Str("")
  }

  /** The number the validator compares: `parseFloat` for a string, the
      value's own numeric coercion otherwise. */
  function AvaliacaoComoNumero(v: JsValue): JsNumber {
    if v.Str? then Numbers.ParseFloat(v.s) else ToNumber(v)
  }

  /** Not NaN and within [0, 10], both ends included. */
  predicate NotaNoIntervalo(n: JsNumber) {
    n.Num? && 0.0 <= n.x <= NOTA_MAXIMA
  }

  predicate AvaliacaoAceita(v: JsValue) {
    !AvaliacaoInformada(v) || NotaNoIntervalo(AvaliacaoComoNumero(v))
  }

  predicate ComentarioValido(c: Obj) {
    FilmeIdInformado(Get(c, "filmeId"))
    && FilledString(Get(c, "autor"))
    && FilledString(Get(c, "texto"))
    && !TextoExcedeLimite(Get(c, "texto"))
    && AvaliacaoAceita(Get(c, "avaliacao"))
  }

  /** Strictly increasing check positions: no repeats, validator order. */
  predicate EmOrdem(es: seq<Erro>) {
    forall i, j :: 0 <= i < j < |es| ==> Ordem(es[i]) < Ordem(es[j])
  }

  /** The checks of `validate`, in the order it runs them. */
  const TODOS: seq<Erro> := [FilmeIdAusente, AutorAusente, TextoAusente, TextoLongo, AvaliacaoInvalida]

  /** The outcome of each check on one input. */
  datatype Verificacoes = Verificacoes(
    filmeIdOk: bool, autorOk: bool, textoOk: bool, textoLongo: bool, avaliacaoOk: bool)

  function Verifica(c: Obj): Verificacoes {
    Verificacoes(
      FilmeIdInformado(Get(c, "filmeId")), FilledString(Get(c, "autor")), FilledString(Get(c, "texto")),
      TextoExcedeLimite(Get(c, "texto")), AvaliacaoAceita(Get(c, "avaliacao")))
  }

  predicate Falhou(v: Verificacoes, e: Erro) {
    match e
    case FilmeIdAusente => !v.filmeIdOk
    case AutorAusente => !v.autorOk
    case TextoAusente => !v.textoOk
    case TextoLongo => v.textoLongo
    case AvaliacaoInvalida => !v.avaliacaoOk
  }

  /** `[e]` when its check failed, nothing otherwise. */
  function SeFalhou(v: Verificacoes, e: Erro): seq<Erro> {
    if Falhou(v, e) then [e] else []
  }

  /** The entries of `s` whose check failed, in the order of `s`. */
  function Filtra(s: seq<Erro>, v: Verificacoes): (r: seq<Erro>)
    ensures |r| <= |s|
  {
    if s == [] then [] else
      Filtra(s[..|s| - 1], v) + SeFalhou(v, s[|s| - 1])
  }

  lemma {:induction false} FiltraMembros(s: seq<Erro>, v: Verificacoes)
    ensures forall x :: x in Filtra(s, v) <==> x in s && Falhou(v, x)
  {
    if s != [] {
      var init, last := s[..|s| - 1], s[|s| - 1];
      FiltraMembros(init, v);
      assert s == init + [last];
    }
  }

  lemma {:induction false} FiltraEmOrdem(s: seq<Erro>, v: Verificacoes)
    requires EmOrdem(s)
    ensures EmOrdem(Filtra(s, v))
  {
    if s != [] {
      var init, last := s[..|s| - 1], s[|s| - 1];
      var t := Filtra(init, v);
      assert EmOrdem(init) by {
        forall i, j | 0 <= i < j < |init| ensures Ordem(init[i]) < Ordem(init[j]) {
          assert init[i] == s[i] && init[j] == s[j];
        }
      }
      FiltraEmOrdem(init, v);
      FiltraMembros(init, v);
      if Falhou(v, last) {
        forall i, j | 0 <= i < j < |t + [last]| ensures Ordem((t + [last])[i]) < Ordem((t + [last])[j]) {
          if j == |t| {
            assert t[i] in t;
            var k :| 0 <= k < |init| && init[k] == t[i];
            assert s[k] == t[i];
          } else {
            assert (t + [last])[i] == t[i] && (t + [last])[j] == t[j];
          }
        }
      }
    }
  }

  /** What `validate` pushes, check by check. */
  function ErrosDe(v: Verificacoes): seq<Erro> {
    SeFalhou(v, FilmeIdAusente) + SeFalhou(v, AutorAusente) + SeFalhou(v, TextoAusente)
    + SeFalhou(v, TextoLongo) + SeFalhou(v, AvaliacaoInvalida)
  }

  /** Taking one more check into account. */
  lemma FiltraPasso(v: Verificacoes, k: nat, e: Erro)
    requires k < |TODOS| && TODOS[k] == e
    ensures Filtra(TODOS[..k + 1], v) == Filtra(TODOS[..k], v) + SeFalhou(v, e)
  {
    assert TODOS[..k + 1][..k] == TODOS[..k];
  }

  /** The pushes of `validate` are the checks that failed, taken in order. */
  lemma ErrosDeFiltra(v: Verificacoes)
    ensures ErrosDe(v) == Filtra(TODOS, v)
  {
    assert TODOS[..0] == [];
    FiltraPasso(v, 0, FilmeIdAusente);
    ghost var f1 := Filtra(TODOS[..1], v);
    assert f1 == SeFalhou(v, FilmeIdAusente);
    FiltraPasso(v, 1, AutorAusente);
    ghost var f2 := Filtra(TODOS[..2], v);
    assert f2 == f1 + SeFalhou(v, AutorAusente);
    FiltraPasso(v, 2, TextoAusente);
    ghost var f3 := Filtra(TODOS[..3], v);
    assert f3 == f2 + SeFalhou(v, TextoAusente);
    FiltraPasso(v, 3, TextoLongo);
    ghost var f4 := Filtra(TODOS[..4], v);
    assert f4 == f3 + SeFalhou(v, TextoLongo);
    FiltraPasso(v, 4, AvaliacaoInvalida);
    assert TODOS[..5] == TODOS;
  }

  /** Every error is one of the five checks. */
  lemma TodosCobre(e: Erro)
    ensures e in TODOS
  {
    match e
    case FilmeIdAusente => assert TODOS[0] == e;
    case AutorAusente => assert TODOS[1] == e;
    case TextoAusente => assert TODOS[2] == e;
    case TextoLongo => assert TODOS[3] == e;
    case AvaliacaoInvalida => assert TODOS[4] == e;
  }

  /** An error is pushed exactly when its check fails. */
  lemma ErrosDeMembros(v: Verificacoes)
    ensures forall e :: e in ErrosDe(v) <==> Falhou(v, e)
  {
    ErrosDeFiltra(v);
    FiltraMembros(TODOS, v);
    forall e ensures e in TODOS {
      TodosCobre(e);
    }
  }

  /** Each error is pushed exactly when its check fails, at most once, and in
      the validator's order. */
  lemma ErrosDeFatos(v: Verificacoes)
    ensures forall e :: e in ErrosDe(v) <==> Falhou(v, e)
    ensures FilmeIdAusente in ErrosDe(v) <==> !v.filmeIdOk
    ensures AutorAusente in ErrosDe(v) <==> !v.autorOk
    ensures TextoAusente in ErrosDe(v) <==> !v.textoOk
    ensures TextoLongo in ErrosDe(v) <==> v.textoLongo
    ensures AvaliacaoInvalida in ErrosDe(v) <==> !v.avaliacaoOk
    ensures ErrosDe(v) == [] <==> v.filmeIdOk && v.autorOk && v.textoOk && !v.textoLongo && v.avaliacaoOk
    ensures EmOrdem(ErrosDe(v)) && |ErrosDe(v)| <= 5
  {
    ErrosDeMembros(v);
    VaziaSemFalhas(ErrosDe(v), v);
    ErrosDeFiltra(v);
    TodosEmOrdem();
    FiltraEmOrdem(TODOS, v);
  }

  /** The checks are listed by their position. */
  lemma TodosEmOrdem()
    ensures EmOrdem(TODOS)
  {
    forall k | 0 <= k < |TODOS| ensures Ordem(TODOS[k]) == k {
      if k == 0 {} else if k == 1 {} else if k == 2 {} else if k == 3 {} else {}
    }
  }

  /** A list holding exactly the failed checks is empty when none failed. */
  lemma VaziaSemFalhas(r: seq<Erro>, v: Verificacoes)
    requires forall e :: e in r <==> Falhou(v, e)
    ensures r == [] <==> v.filmeIdOk && v.autorOk && v.textoOk && !v.textoLongo && v.avaliacaoOk
  {
    if r != [] {
      assert r[0] in r;
    }
    assert Falhou(v, FilmeIdAusente) <==> !v.filmeIdOk;
    assert Falhou(v, AutorAusente) <==> !v.autorOk;
    assert Falhou(v, TextoAusente) <==> !v.textoOk;
    assert Falhou(v, TextoLongo) <==> v.textoLongo;
    assert Falhou(v, AvaliacaoInvalida) <==> !v.avaliacaoOk;
  }

  /** The checks that fail, one entry each, in the validator's order. */
  function Erros(c: Obj): (r: seq<Erro>)
    ensures FilmeIdAusente in r <==> !FilmeIdInformado(Get(c, "filmeId"))
    ensures AutorAusente in r <==> !FilledString(Get(c, "autor"))
    ensures TextoAusente in r <==> !FilledString(Get(c, "texto"))
    ensures TextoLongo in r <==> TextoExcedeLimite(Get(c, "texto"))
    ensures AvaliacaoInvalida in r <==> !AvaliacaoAceita(Get(c, "avaliacao"))
    ensures EmOrdem(r) && |r| <= 5
    ensures r == [] <==> ComentarioValido(c)
  {
    var v := Verifica(c);
    ErrosDeFatos(v);
    ErrosDe(v)
  }

  function Mensagem(e: Erro): string {
    match e
    case FilmeIdAusente => "ID do filme é obrigatório"
    case AutorAusente => "Nome do autor é obrigatório"
    case TextoAusente => "Texto do comentário é obrigatório"
    case TextoLongo => "Comentário deve ter no máximo 1000 caracteres"
    case AvaliacaoInvalida => "Avaliação deve ser um número entre 0 e 10"
  }

  /** The message of each error, in the same order. */
  function Mensagens(es: seq<Erro>): (r: seq<string>)
    ensures |r| == |es|
  {
    if es == [] then [] else Mensagens(es[..|es| - 1]) + [Mensagem(es[|es| - 1])]
  }

  lemma {:induction false} MensagensConcat(a: seq<Erro>, b: seq<Erro>)
    ensures Mensagens(a + b) == Mensagens(a) + Mensagens(b)
    decreases |b|
  {
    if b == [] {
      assert a + b == a;
    } else {
      var b' := b[..|b| - 1];
      assert (a + b)[..|a + b| - 1] == a + b';
      MensagensConcat(a, b');
    }
  }

  /** The message of a check that failed, nothing for one that passed. */
  function MensagemSeFalhou(v: Verificacoes, e: Erro): (r: seq<string>)
    ensures r == Mensagens(SeFalhou(v, e))
  {
    if Falhou(v, e) then [Mensagem(e)] else []
  }

  /** The messages of the failing checks, check by check. */
  lemma MensagensErrosDe(v: Verificacoes)
    ensures Mensagens(ErrosDe(v))
         == MensagemSeFalhou(v, FilmeIdAusente) + MensagemSeFalhou(v, AutorAusente)
          + MensagemSeFalhou(v, TextoAusente) + MensagemSeFalhou(v, TextoLongo)
          + MensagemSeFalhou(v, AvaliacaoInvalida)
  {
    var r1 := SeFalhou(v, FilmeIdAusente);
    var r2 := r1 + SeFalhou(v, AutorAusente);
    var r3 := r2 + SeFalhou(v, TextoAusente);
    var r4 := r3 + SeFalhou(v, TextoLongo);
    MensagensConcat(r1, SeFalhou(v, AutorAusente));
    MensagensConcat(r2, SeFalhou(v, TextoAusente));
    MensagensConcat(r3, SeFalhou(v, TextoLongo));
    MensagensConcat(r4, SeFalhou(v, AvaliacaoInvalida));
  }

  /** The pushes of `validate`: for each check in turn, its message is
      appended when it failed. */
  method EmpilhaMensagens(checks: Verificacoes) returns (errors: seq<string>)
    ensures errors == Mensagens(ErrosDe(checks))
  {
    errors := [];
    errors := EmpilhaSeFalhou(errors, checks, FilmeIdAusente);
    errors := EmpilhaSeFalhou(errors, checks, AutorAusente);
    errors := EmpilhaSeFalhou(errors, checks, TextoAusente);
    errors := EmpilhaSeFalhou(errors, checks, TextoLongo);
    errors := EmpilhaSeFalhou(errors, checks, AvaliacaoInvalida);
    MensagensErrosDe(checks);
    assert [] + MensagemSeFalhou(checks, FilmeIdAusente) == MensagemSeFalhou(checks, FilmeIdAusente);
  }

  /** One `if (...) errors.push(...)` of `validate`. */
  method EmpilhaSeFalhou(errors: seq<string>, checks: Verificacoes, e: Erro) returns (r: seq<string>)
    ensures r == errors + MensagemSeFalhou(checks, e)
  {
    r := errors;
    if Falhou(checks, e) {
      r := r + [Mensagem(e)];
    }
  }

  /** `Comentario.validate`: one message pushed per failing check, valid
      exactly when none was pushed. */
  method Validate(c: Obj) returns (v: Validacao)
    ensures v.isValid <==> v.errors == []
    ensures v.isValid <==> ComentarioValido(c)
    ensures v.errors == Mensagens(Erros(c))
  {
    var errors := EmpilhaMensagens(Verifica(c));
    v := Validacao(|errors| == 0, errors);
  }

  /** A text of exactly 1000 characters is within the limit. */
  lemma MilCaracteresCabem(texto: string)
    requires |texto| == LIMITE_TEXTO
    ensures !TextoExcedeLimite(Str(texto))
  {
  }

  function Espacos(n: nat): (s: string)
    ensures |s| == n && forall i :: 0 <= i < n ==> s[i] == ' '
  {
    seq(n, _ => ' ')
  }

  /** A text of 1001 spaces is reported twice: as missing, because it is
      blank once trimmed, and as too long, because it is measured untrimmed. */
  lemma EspacosEmBrancoEDemais(c: Obj)
    requires Get(c, "texto") == Str(Espacos(LIMITE_TEXTO + 1))
    ensures TextoAusente in Erros(c) && TextoLongo in Erros(c)
  {
    var s := Espacos(LIMITE_TEXTO + 1);
    assert Text.AllSpace(s);
  }

  /** A `Comentario` instance. */
  datatype Comentario = Comentario(
    filmeId: JsValue, autor: JsValue, texto: JsValue, avaliacao: JsValue, dataCriacao: Instante)

  /** `new Comentario(filmeId, autor, texto, avaliacao)` at time `agora`: an
      omitted rating (`undefined`) becomes 0, and the creation date is the
      clock's reading. */
  function Novo(filmeId: JsValue, autor: JsValue, texto: JsValue, avaliacao: JsValue, agora: int): (c: Comentario)
    ensures c.avaliacao == (if avaliacao == Undefined then Num(0.0) else avaliacao)
    ensures c.dataCriacao == At(agora)
    ensures c.filmeId == filmeId && c.autor == autor && c.texto == texto
  {
    Comentario(filmeId, autor, texto, if avaliacao.Undefined? then Num(0.0) else avaliacao, At(agora))
  }

  /** `toJSON`: exactly the five fields. */
  function ToJSON(c: Comentario): (o: Obj)
    ensures o.Keys == CAMPOS
    ensures o["dataCriacao"] == Date(c.dataCriacao)
  {
    map["filmeId" := c.filmeId, "autor" := c.autor, "texto" := c.texto,
        "avaliacao" := c.avaliacao, "dataCriacao" := Date(c.dataCriacao)]
  }

  /** ECMAScript's TimeClip: the time value of `new Date(x)` for a number. */
  function TimeClip(x: real): Instante {
    if x < -8640000000000000.0 || x > 8640000000000000.0 then InvalidDate
    else if x >= 0.0 then At(x.Floor)
    else At(-((-x).Floor))
  }

  /** `new Date(v)`. Parsing a date string is the host's business and is
      passed in as `parseDate`. */
  function ToDate(v: JsValue, parseDate: string -> Instante): Instante {
    match v
    case Date(t) => t
    case Num(x) => TimeClip(x)
    case Str(s) => parseDate(s)
    case Bool(b) => if b then At(1) else At(0)
    case Null => At(0)
    case Undefined => InvalidDate
    case NaN => InvalidDate
    case Nested => InvalidDate
  }

  /** `Comentario.fromObject` at time `agora`: a falsy rating becomes 0; a
      truthy `dataCriacao` replaces the fresh stamp, converted to a date. */
  function FromObject(obj: Obj, agora: int, parseDate: string -> Instante): Comentario {
    var c := Novo(Get(obj, "filmeId"), Get(obj, "autor"), Get(obj, "texto"),
                  OrElse(Get(obj, "avaliacao"), Num(0.0)), agora);
    if Truthy(Get(obj, "dataCriacao")) then c.(dataCriacao := ToDate(Get(obj, "dataCriacao"), parseDate))
    else c
  }

  /** What `fromObject` keeps and what it fills in. */
  lemma FromObjectCampos(obj: Obj, agora: int, parseDate: string -> Instante)
    ensures var c := FromObject(obj, agora, parseDate);
      && c.filmeId == Get(obj, "filmeId") && c.autor == Get(obj, "autor") && c.texto == Get(obj, "texto")
      && c.avaliacao == (if Truthy(Get(obj, "avaliacao")) then Get(obj, "avaliacao") else Num(0.0))
      && (Get(obj, "dataCriacao").Date? ==> c.dataCriacao == Get(obj, "dataCriacao").t)
      && (!Truthy(Get(obj, "dataCriacao")) ==> c.dataCriacao == At(agora))
  {
  }

  /** An instance survives `toJSON` then `fromObject` unless its rating is
      a falsy value other than 0, which `fromObject` turns into 0. */
  lemma FromObjectToJSON(c: Comentario, agora: int, parseDate: string -> Instante)
    ensures FromObject(ToJSON(c), agora, parseDate) == c
        <==> Truthy(c.avaliacao) || c.avaliacao == Num(0.0)
  {
  }
}
