/** The decision logic of the catalogue's browser script: the movie form
    check, the filter and sort behind the grid, the list cache's freshness
    test, the star row, the placeholder caption, the import tally and the
    comment counter's colour. The DOM, `fetch`, `localStorage` and the
    clock stay outside; what they hand the logic is a parameter. */
module App {
  import opened Js
  import Text
  import Numbers
  import Sorting
  import FilmeModel

  // ---------------------------------------------------------------------
  // The movie form

  /** The raw text of the form's inputs. */
  datatype Formulario = Formulario(nome: string, genero: string, ano: string, duracao: string, avaliacao: string)

  datatype ErroFormulario = NomeCurto | GeneroCurto | AnoForaDoIntervalo | DuracaoForaDoIntervalo | AvaliacaoForaDoIntervalo

  /** The position of each check in `validarFormulario`. */
  function Ordem(e: ErroFormulario): nat {
    match e
    case NomeCurto => 0
    case GeneroCurto => 1
    case AnoForaDoIntervalo => 2
    case DuracaoForaDoIntervalo => 3
    case AvaliacaoForaDoIntervalo => 4
  }

  /** What the first lines of `validarFormulario` read off the inputs:
      name and genre trimmed, `parseInt(ano)`, `duracao ? parseInt(duracao)
      : 0` and `avaliacao ? parseFloat(avaliacao) : 0`. */
  datatype Leitura = Leitura(nome: string, genero: string, ano: JsNumber, duracao: JsNumber, avaliacao: JsNumber)

  function Ler(f: Formulario): Leitura {
    Leitura(
      Text.Trim(f.nome), Text.Trim(f.genero), Numbers.ParseInt(f.ano),
      if f.duracao != "" then Numbers.ParseInt(f.duracao) else Num(0.0),
      if f.avaliacao != "" then Numbers.ParseFloat(f.avaliacao) else Num(0.0))
  }

  /** The negation of `!ano || ano < 1800 || ano > anoAtual + 5`: NaN and 0
      are falsy and fail; the bounds are the server's. */
  predicate AnoAceito(ano: JsNumber, anoAtual: int) {
    Truthy(ano) && ano.Num?
    && FilmeModel.ANO_MINIMO as real <= ano.x <= (anoAtual + FilmeModel.MARGEM_ANOS) as real
  }

  /** The negation of `x < lo || x > hi`. Both comparisons are false for
      NaN, so a value that does not parse passes. */
  predicate NaoForaDe(v: JsNumber, lo: real, hi: real) {
    !(v.Num? && (v.x < lo || v.x > hi))
  }

  predicate Falhou(l: Leitura, e: ErroFormulario, anoAtual: int) {
    match e
    case NomeCurto => |l.nome| < 2
    case GeneroCurto => |l.genero| < 2
    case AnoForaDoIntervalo => !AnoAceito(l.ano, anoAtual)
    case DuracaoForaDoIntervalo => !NaoForaDe(l.duracao, 0.0, 600.0)
    case AvaliacaoForaDoIntervalo => !NaoForaDe(l.avaliacao, 0.0, 10.0)
  }

  /** The checks of `validarFormulario` on what it read: `None` when the
      form may be sent, otherwise the first check that fails, in the order
      name, genre, year, duration, rating; only that one is reported. */
  function ValidarFormulario(l: Leitura, anoAtual: int): (r: Option<ErroFormulario>)
    ensures r.None? <==> forall e :: !Falhou(l, e, anoAtual)
    ensures r.Some? ==> Falhou(l, r.value, anoAtual)
    ensures r.Some? ==> forall e :: Ordem(e) < Ordem(r.value) ==> !Falhou(l, e, anoAtual)
  {
    if |l.nome| < 2 then
      assert Falhou(l, NomeCurto, anoAtual); Some(NomeCurto)
    else if |l.genero| < 2 then
      assert Falhou(l, GeneroCurto, anoAtual); Some(GeneroCurto)
    else if !AnoAceito(l.ano, anoAtual) then
      assert Falhou(l, AnoForaDoIntervalo, anoAtual); Some(AnoForaDoIntervalo)
    else if !NaoForaDe(l.duracao, 0.0, 600.0) then
      assert Falhou(l, DuracaoForaDoIntervalo, anoAtual); Some(DuracaoForaDoIntervalo)
    else if !NaoForaDe(l.avaliacao, 0.0, 10.0) then
      assert Falhou(l, AvaliacaoForaDoIntervalo, anoAtual); Some(AvaliacaoForaDoIntervalo)
    else None
  }

  /** The toast shown for each failed check. */
  function MensagemFormulario(e: ErroFormulario, anoAtual: int): string {
    match e
    case NomeCurto => "Nome deve ter pelo menos 2 caracteres"
    case GeneroCurto => "Gênero deve ter pelo menos 2 caracteres"
    case AnoForaDoIntervalo => "Ano deve estar entre 1800 e " + Numbers.IntToString(anoAtual + FilmeModel.MARGEM_ANOS)
    case DuracaoForaDoIntervalo => "Duração deve estar entre 0 e 600 minutos"
    case AvaliacaoForaDoIntervalo => "Avaliação deve estar entre 0 e 10"
  }

  /** The object `handleSubmit` builds from the fields it reads. */
  function Corpo(nome: string, genero: string, ano: JsNumber, duracao: JsNumber, avaliacao: JsNumber): (o: Obj)
    ensures o.Keys == {"nome", "genero", "anolancemento", "duracao", "avaliacao"}
    ensures o["nome"] == Str(nome) && o["genero"] == Str(genero) && o["anolancemento"] == ano
    ensures o["duracao"] == duracao && o["avaliacao"] == avaliacao
  {
    map["nome" := Str(nome), "genero" := Str(genero), "anolancemento" := ano,
        "duracao" := duracao, "avaliacao" := avaliacao]
  }

  /** The body `handleSubmit` sends for the fields above: name and genre
      trimmed, the numbers parsed as the check parsed them. */
  function CorpoEnviado(f: Formulario): Obj {
    var l := Ler(f);
    Corpo(l.nome, l.genero, l.ano, l.duracao, l.avaliacao)
  }

  /** A text that does not start with white space and has two or more
      characters is a filled string. */
  lemma SemEspacoInicialPreenchido(s: string)
    requires |s| >= 2 && !Text.IsSpace(s[0])
    ensures FilledString(Str(s))
  {
  }

  /** What the form's checks let through, with name and genre starting
      with something other than white space, the server's movie validator
      accepts in the same year. */
  lemma LeituraAceitaServidorAceita(l: Leitura, anoAtual: int)
    requires ValidarFormulario(l, anoAtual).None?
    requires l.nome == [] || !Text.IsSpace(l.nome[0])
    requires l.genero == [] || !Text.IsSpace(l.genero[0])
    ensures FilmeModel.FilmeValido(Corpo(l.nome, l.genero, l.ano, l.duracao, l.avaliacao), anoAtual)
  {
    assert !Falhou(l, NomeCurto, anoAtual) && !Falhou(l, GeneroCurto, anoAtual);
    assert !Falhou(l, AnoForaDoIntervalo, anoAtual);
    SemEspacoInicialPreenchido(l.nome);
    SemEspacoInicialPreenchido(l.genero);
  }

  /** Whatever the form lets through, the server's movie validator accepts
      in the same year. */
  lemma FormularioAceitoServidorAceita(f: Formulario, anoAtual: int)
    requires ValidarFormulario(Ler(f), anoAtual).None?
    ensures FilmeModel.FilmeValido(CorpoEnviado(f), anoAtual)
  {
    var l := Ler(f);
    assert l.nome == Text.Trim(f.nome) && l.genero == Text.Trim(f.genero);
    LeituraAceitaServidorAceita(l, anoAtual);
  }

  // ---------------------------------------------------------------------
  // Filter and sort of the grid

  /** The string held under `k`, or the empty string. */
  function Texto(filme: Obj, k: string): string {
    if Get(filme, k).Str? then Get(filme, k).s else ""
  }

  /** `filme[k].toLowerCase().includes(termo)` for a lower-case `termo`. */
  predicate CampoContem(filme: Obj, k: string, termo: string) {
    Get(filme, k).Str? && Text.Contains(Text.ToLower(Get(filme, k).s), termo)
  }

  /** The genre buttons' test. */
  predicate DoGenero(filme: Obj, filtro: string) {
    CampoContem(filme, "genero", Text.ToLower(filtro))
  }

  /** The search box's test: name or genre, or a director or synopsis that
      is present, contains the lower-case term. */
  predicate CasaBusca(filme: Obj, termo: string) {
    CampoContem(filme, "nome", termo) || CampoContem(filme, "genero", termo)
    || (Truthy(Get(filme, "diretor")) && CampoContem(filme, "diretor", termo))
    || (Truthy(Get(filme, "sinopse")) && CampoContem(filme, "sinopse", termo))
  }

  /** `s.filter(keep)`. */
  function Seleciona(s: seq<Obj>, keep: Obj -> bool): seq<Obj> {
    if s == [] then [] else Seleciona(s[..|s| - 1], keep) + (if keep(s[|s| - 1]) then [s[|s| - 1]] else [])
  }

  /** The filter keeps every entry that passes, as often as it occurs, and
      nothing else. */
  lemma {:induction false} SelecionaFatos(s: seq<Obj>, keep: Obj -> bool)
    ensures forall x :: keep(x) ==> multiset(Seleciona(s, keep))[x] == multiset(s)[x]
    ensures forall x :: !keep(x) ==> multiset(Seleciona(s, keep))[x] == 0
  {
    if s != [] {
      var init, last := s[..|s| - 1], s[|s| - 1];
      SelecionaFatos(init, keep);
      assert s == init + [last];
    }
  }

  /** The genre filter unless it is 'all', then the search unless its term
      is empty. */
  function Filtrar(filmes: seq<Obj>, filtro: string, busca: string): seq<Obj> {
    var porGenero := if filtro != "all" then Seleciona(filmes, f => DoGenero(f, filtro)) else filmes;
    var termo := Text.ToLower(busca);
    if termo != "" then Seleciona(porGenero, f => CasaBusca(f, termo)) else porGenero
  }

  predicate Passa(filme: Obj, filtro: string, busca: string) {
    (filtro == "all" || DoGenero(filme, filtro)) && (busca == "" || CasaBusca(filme, Text.ToLower(busca)))
  }

  /** The grid holds exactly the movies that pass both tests, each as many
      times as `filmes` holds it. */
  lemma FiltrarFatos(filmes: seq<Obj>, filtro: string, busca: string)
    ensures forall x :: Passa(x, filtro, busca) ==> multiset(Filtrar(filmes, filtro, busca))[x] == multiset(filmes)[x]
    ensures forall x :: !Passa(x, filtro, busca) ==> multiset(Filtrar(filmes, filtro, busca))[x] == 0
  {
    var porGenero := if filtro != "all" then Seleciona(filmes, f => DoGenero(f, filtro)) else filmes;
    var termo := Text.ToLower(busca);
    SelecionaFatos(filmes, f => DoGenero(f, filtro));
    SelecionaFatos(porGenero, f => CasaBusca(f, termo));
    assert termo == "" <==> busca == "";
  }

  /** `b.anolancemento - a.anolancemento` on the year; a stored movie's
      year is always a number. */
  function Ano(filme: Obj): real {
    match Get(filme, "anolancemento")
    case Num(x) => x
    case _ => 0.0
  }

  /** `filme.avaliacao || 0`. */
  function Nota(filme: Obj): real {
    match OrElse(Get(filme, "avaliacao"), Num(0.0))
    case Num(x) => x
    case _ => 0.0
  }

  /** "a may stay before b" for the comparator of `sortBy`: a comparator
      result that is not positive. `localeLe(x, y)` stands for
      `x.localeCompare(y) <= 0`. */
  function Comparador(sortBy: string, localeLe: (string, string) -> bool): (Obj, Obj) -> bool {
    if sortBy == "nome" then (a: Obj, b: Obj) => localeLe(Texto(a, "nome"), Texto(b, "nome"))
    else if sortBy == "ano" then (a: Obj, b: Obj) => Ano(a) >= Ano(b)
    else if sortBy == "avaliacao" then (a: Obj, b: Obj) => Nota(a) >= Nota(b)
    else (a: Obj, b: Obj) => true
  }

  /** The stable `sort` of the grid. */
  function Ordenar(filmes: seq<Obj>, sortBy: string, localeLe: (string, string) -> bool): seq<Obj> {
    Sorting.Sort(filmes, Comparador(sortBy, localeLe))
  }

  lemma OrdenarPermutacao(filmes: seq<Obj>, sortBy: string, localeLe: (string, string) -> bool)
    ensures multiset(Ordenar(filmes, sortBy, localeLe)) == multiset(filmes)
  {
    Sorting.SortPermutation(filmes, Comparador(sortBy, localeLe));
  }

  /** 'ano': newest release first. */
  lemma OrdenarPorAno(filmes: seq<Obj>, localeLe: (string, string) -> bool)
    ensures var r := Ordenar(filmes, "ano", localeLe);
      forall i, j :: 0 <= i < j < |r| ==> Ano(r[i]) >= Ano(r[j])
  {
    var le := Comparador("ano", localeLe);
    assert Sorting.Total(le) && Sorting.Transitive(le);
    Sorting.SortSorted(filmes, le);
  }

  /** 'avaliacao': best rated first, a missing rating counting as 0. */
  lemma OrdenarPorAvaliacao(filmes: seq<Obj>, localeLe: (string, string) -> bool)
    ensures var r := Ordenar(filmes, "avaliacao", localeLe);
      forall i, j :: 0 <= i < j < |r| ==> Nota(r[i]) >= Nota(r[j])
  {
    var le := Comparador("avaliacao", localeLe);
    assert Sorting.Total(le) && Sorting.Transitive(le);
    Sorting.SortSorted(filmes, le);
  }

  /** 'nome': in the locale's order, when that order is total and transitive. */
  lemma OrdenarPorNome(filmes: seq<Obj>, localeLe: (string, string) -> bool)
    requires Sorting.Total(localeLe) && Sorting.Transitive(localeLe)
    ensures var r := Ordenar(filmes, "nome", localeLe);
      forall i, j :: 0 <= i < j < |r| ==> localeLe(Texto(r[i], "nome"), Texto(r[j], "nome"))
  {
    var le := Comparador("nome", localeLe);
    forall a: Obj, b: Obj ensures le(a, b) || le(b, a) {
      assert localeLe(Texto(a, "nome"), Texto(b, "nome")) || localeLe(Texto(b, "nome"), Texto(a, "nome"));
    }
    forall a: Obj, b: Obj, c: Obj | le(a, b) && le(b, c) ensures le(a, c) {
      assert localeLe(Texto(a, "nome"), Texto(b, "nome")) && localeLe(Texto(b, "nome"), Texto(c, "nome"));
    }
    Sorting.SortSorted(filmes, le);
  }

  /** Any other key: the comparator answers 0 and the order is kept. */
  lemma OrdenarOutraChave(filmes: seq<Obj>, sortBy: string, localeLe: (string, string) -> bool)
    requires sortBy != "nome" && sortBy != "ano" && sortBy != "avaliacao"
    ensures Ordenar(filmes, sortBy, localeLe) == filmes
  {
    Sorting.SortKeepsOrderWhenAllTie(filmes, Comparador(sortBy, localeLe));
  }

  /** The filter/sort chain of `renderizarFilmes`. */
  function Visiveis(filmes: seq<Obj>, filtro: string, busca: string, sortBy: string,
                    localeLe: (string, string) -> bool): (r: seq<Obj>)
    ensures forall x :: Passa(x, filtro, busca) ==> multiset(r)[x] == multiset(filmes)[x]
    ensures forall x :: !Passa(x, filtro, busca) ==> multiset(r)[x] == 0
    ensures multiset(r) <= multiset(filmes)
  {
    var filtrados := Filtrar(filmes, filtro, busca);
    FiltrarFatos(filmes, filtro, busca);
    OrdenarPermutacao(filtrados, sortBy, localeLe);
    Ordenar(filtrados, sortBy, localeLe)
  }

  // ---------------------------------------------------------------------
  // The list cache

  /** How long the cached list is trusted, in milliseconds. */
  const VALIDADE_CACHE: int := 300000

  /** `carregarFilmesLocal`: the cached text when both entries are present
      and `Date.now() - parseInt(cacheTime)` is below five minutes. Parsing
      the JSON text is not modelled. */
  function CarregarFilmesLocal(cache: Option<string>, cacheTime: Option<string>, agora: int): (r: Option<string>)
    ensures r.Some? ==> r == cache
    ensures r.Some? <==>
      cache.Some? && cache.value != "" && cacheTime.Some? && cacheTime.value != ""
      && Numbers.ParseInt(cacheTime.value).Num?
      && agora as real - Numbers.ParseInt(cacheTime.value).x < VALIDADE_CACHE as real
  {
    if cache.Some? && cache.value != "" && cacheTime.Some? && cacheTime.value != ""
       && (match Numbers.ParseInt(cacheTime.value)
           case Num(t) => agora as real - t < VALIDADE_CACHE as real
           case NaN => false)
    then cache
    else None
  }

  /** `salvarFilmesLocal` at time `t`: the JSON text and `t.toString()`. */
  function SalvarFilmesLocal(json: string, t: int): (Option<string>, Option<string>) {
    (Some(json), Some(Numbers.IntToString(t)))
  }

  /** A list saved at time `t` is read back exactly while less than five
      minutes have passed, and not after. */
  lemma CacheSalvoFresco(json: string, t: int, agora: int)
    requires json != ""
    ensures var (cache, cacheTime) := SalvarFilmesLocal(json, t);
      CarregarFilmesLocal(cache, cacheTime, agora) == if agora - t < VALIDADE_CACHE then Some(json) else None
  {
    Numbers.ParseIntIntToString(t);
    assert Numbers.IntToString(t) != "";
  }

  // ---------------------------------------------------------------------
  // The star row

  const ESTRELA_CHEIA: string := "<span class=\"estrela estrela-cheia\">⭐</span>"
  const ESTRELA_MEIA: string := "<span class=\"estrela estrela-meia\">⭐</span>"
  const ESTRELA_VAZIA: string := "<span class=\"estrela estrela-vazia\">☆</span>"

  /** JavaScript's `x % 1`: what follows the point, with the sign of `x`. */
  function RestoDeUm(x: real): real {
    if x >= 0.0 then x - x.Floor as real else x + (-x).Floor as real
  }

  datatype Estrelas = Estrelas(cheias: int, meia: bool, vazias: int)

  /** The three counts `gerarEstrelas` computes before its loops. */
  function ContaEstrelas(avaliacao: real): Estrelas {
    var cheias := avaliacao.Floor;
    var meia := RestoDeUm(avaliacao) >= 0.5;
    Estrelas(cheias, meia, 10 - cheias - if meia then 1 else 0)
  }

  /** For a rating in [0, 10]: the whole part in full stars, a half star
      exactly when the fraction is at least one half, and ten stars in all. */
  lemma EstrelasSomamDez(avaliacao: real)
    requires 0.0 <= avaliacao <= 10.0
    ensures var e := ContaEstrelas(avaliacao);
      && e.cheias == avaliacao.Floor && 0 <= e.cheias <= 10
      && (e.meia <==> avaliacao - avaliacao.Floor as real >= 0.5)
      && e.vazias >= 0
      && e.cheias + (if e.meia then 1 else 0) + e.vazias == 10
  {
    var e := ContaEstrelas(avaliacao);
    if e.cheias == 10 {
      assert avaliacao == 10.0;
    }
  }

  /** `gerarEstrelas`: the full stars, the half star if any, then the
      empty ones; a count below one runs no iteration. */
  method GerarEstrelas(avaliacao: real) returns (html: string)
    ensures var e := ContaEstrelas(avaliacao);
      html == Text.Repeat(ESTRELA_CHEIA, e.cheias) + (if e.meia then ESTRELA_MEIA else "")
              + Text.Repeat(ESTRELA_VAZIA, e.vazias)
  {
    var e := ContaEstrelas(avaliacao);
    html := Repete("", ESTRELA_CHEIA, e.cheias);
    assert html == Text.Repeat(ESTRELA_CHEIA, e.cheias);
    if e.meia {
      html := html + ESTRELA_MEIA;
    }
    ghost var antes := html;
    assert antes == Text.Repeat(ESTRELA_CHEIA, e.cheias) + (if e.meia then ESTRELA_MEIA else "");
    html := Repete(html, ESTRELA_VAZIA, e.vazias);
  }

  /** `for (let i = 0; i < n; i++) html += s`. */
  method Repete(inicio: string, s: string, n: int) returns (html: string)
    ensures html == inicio + Text.Repeat(s, n)
  {
    html := inicio;
    var i := 0;
    while i < n
      invariant 0 <= i && (i <= n || i == 0)
      invariant html == inicio + Text.Repeat(s, i)
    {
      html := html + s;
      i := i + 1;
    }
  }

  // ---------------------------------------------------------------------
  // The placeholder caption

  predicate Angulo(c: char) {
    c == '<' || c == '>'
  }

  /** `replace(/[<>]/g, '')`. */
  function SemAngulos(s: string): (r: string)
    ensures |r| <= |s|
    ensures forall i :: 0 <= i < |r| ==> !Angulo(r[i])
  {
    if s == [] then [] else SemAngulos(s[..|s| - 1]) + if Angulo(s[|s| - 1]) then [] else [s[|s| - 1]]
  }

  /** Every other character stays, as often as it occurs. */
  lemma {:induction false} SemAngulosConta(s: string)
    ensures forall c :: !Angulo(c) ==> multiset(SemAngulos(s))[c] == multiset(s)[c]
  {
    if s != [] {
      var init, last := s[..|s| - 1], s[|s| - 1];
      SemAngulosConta(init);
      assert s == init + [last];
    }
  }

  /** A text without angle brackets is left as it is. */
  lemma {:induction false} SemAngulosIdentidade(s: string)
    ensures (forall i :: 0 <= i < |s| ==> !Angulo(s[i])) ==> SemAngulos(s) == s
  {
    if s != [] && forall i :: 0 <= i < |s| ==> !Angulo(s[i]) {
      var init := s[..|s| - 1];
      assert forall i :: 0 <= i < |init| ==> init[i] == s[i];
      SemAngulosIdentidade(init);
      assert s == init + [s[|s| - 1]];
    }
  }

  /** Removal works piece by piece, so what stays keeps its order. */
  lemma {:induction false} SemAngulosConcat(a: string, b: string)
    ensures SemAngulos(a + b) == SemAngulos(a) + SemAngulos(b)
    decreases |b|
  {
    if b == [] {
      assert a + b == a;
    } else {
      var init := b[..|b| - 1];
      assert (a + b)[..|a + b| - 1] == a + init;
      SemAngulosConcat(a, init);
    }
  }

  /** The caption of `gerarPlaceholderSVG`: the first 20 characters of the
      name with `<` and `>` removed. */
  function TextoPlaceholder(nome: string): (r: string)
    ensures r == SemAngulos(nome[..if |nome| < 20 then |nome| else 20])
    ensures |r| <= 20 && forall i :: 0 <= i < |r| ==> !Angulo(r[i])
    ensures forall c :: !Angulo(c) ==> multiset(r)[c] == multiset(nome[..if |nome| < 20 then |nome| else 20])[c]
    ensures |nome| <= 20 && (forall i :: 0 <= i < |nome| ==> !Angulo(nome[i])) ==> r == nome
  {
    var prefixo := nome[..if |nome| < 20 then |nome| else 20];
    SemAngulosConta(prefixo);
    SemAngulosIdentidade(prefixo);
    assert |nome| <= 20 ==> prefixo == nome;
    SemAngulos(prefixo)
  }

  // ---------------------------------------------------------------------
  // Import

  /** The chosen file, as `JSON.parse` saw it. */
  datatype Arquivo = SemArquivo | Ilegivel | NaoLista | ListaDeFilmes(itens: seq<JsValue>)

  /** How many of the first `n` requests succeed. */
  function Sucessos(postOk: nat -> bool, n: nat): (k: nat)
    ensures k <= n
  {
    if n == 0 then 0 else Sucessos(postOk, n - 1) + if postOk(n - 1) then 1 else 0
  }

  /** Every request succeeding is counted as such. */
  lemma {:induction false} TodosSucessos(postOk: nat -> bool, n: nat)
    requires forall i :: 0 <= i < n ==> postOk(i)
    ensures Sucessos(postOk, n) == n
  {
    if n > 0 {
      TodosSucessos(postOk, n - 1);
    }
  }

  /** The loop of `importarFilmes`: one POST per entry in file order,
      `postOk(i)` telling whether the i-th one resolved, and the toast. A
      file that is not a list sends nothing. */
  method ImportarFilmes(arquivo: Arquivo, postOk: nat -> bool)
    returns (enviados: seq<JsValue>, sucessos: nat, erros: nat, aviso: Option<string>)
    ensures !arquivo.ListaDeFilmes? ==> enviados == [] && sucessos == 0 && erros == 0
    ensures arquivo.SemArquivo? ==> aviso.None?
    ensures arquivo.Ilegivel? ==> aviso == Some("Erro ao ler arquivo")
    ensures arquivo.NaoLista? ==> aviso == Some("Formato de arquivo inválido")
    ensures arquivo.ListaDeFilmes? ==>
      enviados == arquivo.itens
      && sucessos == Sucessos(postOk, |arquivo.itens|)
      && sucessos + erros == |arquivo.itens|
      && aviso == Some("Importação concluída: " + Numbers.NatToString(sucessos) + " sucessos, "
                       + Numbers.NatToString(erros) + " erros")
  {
    enviados, sucessos, erros := [], 0, 0;
    match arquivo {
      case SemArquivo =>
        return enviados, sucessos, erros, None;
      case Ilegivel =>
        return enviados, sucessos, erros, Some("Erro ao ler arquivo");
      case NaoLista =>
        return enviados, sucessos, erros, Some("Formato de arquivo inválido");
      case ListaDeFilmes(imported) =>
        var i := 0;
        while i < |imported|
          invariant 0 <= i <= |imported| && enviados == imported[..i]
          invariant sucessos == Sucessos(postOk, i) && sucessos + erros == i
        {
          enviados := enviados + [imported[i]];
          if postOk(i) {
            sucessos := sucessos + 1;
          } else {
            erros := erros + 1;
          }
          i := i + 1;
        }
        assert imported[..i] == imported;
        aviso := Some("Importação concluída: " + Numbers.NatToString(sucessos) + " sucessos, "
                      + Numbers.NatToString(erros) + " erros");
    }
  }

  // ---------------------------------------------------------------------
  // The comment counter

  datatype Cor = Aviso | Perigo | Discreta

  /** The colour chosen in `setupComentarioCharCounter`, branches in the
      order written: the test for 1000 comes after the one for 900. */
  function CorDoContador(length: nat): (c: Cor)
    ensures c == Aviso <==> length > 900
    ensures c == Discreta <==> length <= 900
  {
    if length > 900 then Aviso
    else if length >= 1000 then Perigo
    else Discreta
  }

  /** As written, the danger colour is never chosen, whatever the length. */
  lemma CorDoContadorNuncaPerigo(length: nat)
    ensures CorDoContador(length) != Perigo
  {
  }

  /** The counter with the tests in the intended order: danger from the
      limit on, warning in the last hundred characters before it. */
  function CorDoContadorCorrigida(length: nat): (c: Cor)
    ensures c == Perigo <==> length >= 1000
    ensures c == Aviso <==> 900 < length < 1000
    ensures c == Discreta <==> length <= 900
  {
    if length >= 1000 then Perigo
    else if length > 900 then Aviso
    else Discreta
  }

  /** The two agree below the limit and differ on every length from it. */
  lemma CorDoContadorDiverge(length: nat)
    ensures length < 1000 ==> CorDoContador(length) == CorDoContadorCorrigida(length)
    ensures length >= 1000 ==> CorDoContador(length) == Aviso && CorDoContadorCorrigida(length) == Perigo
  {
  }

  // ---------------------------------------------------------------------
  // The page state

  /** What the server's answer to `GET /filmes` was. */
  datatype RespostaLista = Recebida(success: bool, data: Option<seq<Obj>>) | SemConexao

  /** The script's module-level state. */
  class Estado {
    var filmes: seq<Obj>
    var currentFilter: string
    var sortBy: string
    var editingId: Option<string>
    /** `x.localeCompare(y) <= 0`, left uninterpreted. */
    const localeLe: (string, string) -> bool

    constructor(localeLe: (string, string) -> bool)
      ensures filmes == [] && currentFilter == "all" && sortBy == "nome" && editingId == None
      ensures this.localeLe == localeLe
    {
      filmes := [];
      currentFilter := "all";
      sortBy := "nome";
      editingId := None;
      this.localeLe := localeLe;
    }

    /** `setFilter`: only the filter changes. */
    method SetFilter(genero: string)
      modifies this
      ensures currentFilter == genero
      ensures filmes == old(filmes) && sortBy == old(sortBy) && editingId == old(editingId)
    {
      currentFilter := genero;
    }

    /** `setSort`: only the sort key changes. */
    method SetSort(criteria: string)
      modifies this
      ensures sortBy == criteria
      ensures filmes == old(filmes) && currentFilter == old(currentFilter) && editingId == old(editingId)
    {
      sortBy := criteria;
    }

    /** `carregarFilmes`: a non-empty cached list is shown first; a
        successful answer then replaces it (`data || []`) and is written to
        the cache; a refused or failed request keeps what is shown. */
    method CarregarFilmes(cached: Option<seq<Obj>>, resposta: RespostaLista) returns (salvo: Option<seq<Obj>>)
      modifies this
      ensures resposta.Recebida? && resposta.success ==>
        filmes == (if resposta.data.Some? then resposta.data.value else []) && salvo == Some(filmes)
      ensures !(resposta.Recebida? && resposta.success) ==>
        filmes == (if cached.Some? && |cached.value| > 0 then cached.value else old(filmes)) && salvo.None?
      ensures currentFilter == old(currentFilter) && sortBy == old(sortBy) && editingId == old(editingId)
    {
      if cached.Some? && |cached.value| > 0 {
        filmes := cached.value;
      }
      salvo := None;
      if resposta.Recebida? && resposta.success {
        filmes := if resposta.data.Some? then resposta.data.value else [];
        salvo := Some(filmes);
      }
    }

    /** What the grid shows for the text in the search box. */
    function FilmesVisiveis(busca: string): (r: seq<Obj>)
      reads this
      ensures forall x :: Passa(x, currentFilter, busca) ==> multiset(r)[x] == multiset(filmes)[x]
      ensures forall x :: !Passa(x, currentFilter, busca) ==> multiset(r)[x] == 0
    {
      Visiveis(filmes, currentFilter, busca, sortBy, localeLe)
    }
  }
}
