# CineVault in Dafny

CineVault is a movie catalogue: a Node/Express server keeps movies (`Filme`) and their comments (`Comentario`) in two MongoDB collections, and a browser script lists, filters, sorts and edits them. This project models the part of it that decides things:

- the two model classes, with their validators (`validate`) and conversions (`toJSON`, `fromObject`);
- the two controllers: every CRUD operation over a collection, the envelope `{ success, message, data }` it returns, and the order in which it checks its input;
- the decision logic of the browser script: the form check, the filter and sort of the grid, the cache freshness test, the star row, the placeholder caption, the import tally, and the comment counter colour.

Modules, one per file:

- `Js` (js.dfy): loosely typed JavaScript values (`JsValue`), plain objects (`Obj`, a map from key to value, where a missing key reads as `undefined`), truthiness, and `Number(...)` coercion.
- `Text` (text.dfy): `trim`, `toLowerCase`, `includes`, `join`, and a repeated `+=`.
- `Numbers` (numbers.dfy): `parseInt`, `parseFloat`, and the decimal text of an integer.
- `Sorting` (sorting.dfy): a stable insertion sort by a "may come before" relation. It stands for `Array.prototype.sort` and for the `sort` stage of a Mongo query.
- `FilmeModel` (filme.dfy) and `ComentarioModel` (comentario.dfy): the two model classes.
- `Colecao` (colecao.dfy): the response envelope and `find(...).toArray()` over a collection.
- `FilmeController` (filme_controller.dfy) and `ComentarioController` (comentario_controller.dfy): each collection is a class whose `docs` field maps an id to its stored document. The methods change that field.
- `App` (app.dfy): the browser logic, plus the page state as a class.

Abstractions:

- `ObjectId.isValid` is an uninterpreted `isValidId` on strings.
- The id the database assigns on insertion is a parameter `novoId`, not yet used and well formed.
- `$set` is the map merge `doc + campos`.
- The clock is a parameter: `anoAtual` is the current year, `agora` is the current time in milliseconds.

`Filme` keeps three fields. `criarFilme` and `atualizarFilme` pass eight values (`diretor`, `duracao` and so on) to the `Filme` constructor, but it stores only `nome`, `genero` and `anolancemento`, and `toJSON` emits only those. The model follows the code and stores three.

## Model

| member | source | states |
|---|---|---|
| FilmeModel.Erros | models/Filme.js:10-24 | the name error is present iff `nome` is not a string that is non-blank after trimming; the genre error likewise for `genero`; the year error iff `anolancemento` is not a non-zero number in [1800, current year + 5], both bounds included; the errors come in the order name, genre, year, each at most once, so at most 3; the list is empty iff the movie is valid |
| FilmeModel.ErrosDeFatos | models/Filme.js:11-24 | each push happens exactly when its check fails; the pushes are in check order, at most three, and none happens iff every check passes |
| FilmeModel.Validate | models/Filme.js:10-29 | `isValid` iff `errors` is empty iff the movie is valid; `errors` are the messages of `Erros`, in order, and the year message names current year + 5; the argument is a value, so `validate` reads it without changing it |
| FilmeModel.EmpilhaMensagens | models/Filme.js:11-23 | the three conditional pushes produce exactly the messages of the failing checks, in order |
| FilmeModel.MensagensConcat | models/Filme.js:11-23 | the messages of two error lists joined are the two message lists joined |
| FilmeModel.ToJSON | models/Filme.js:32-38 | the plain object has exactly the keys `nome`, `genero`, `anolancemento` |
| FilmeModel.FromObjectToJSON | models/Filme.js:32-43 | `fromObject(f.toJSON())` gives `f` back |
| FilmeModel.ToJSONFromObject | models/Filme.js:32-43 | `fromObject(o).toJSON()` is the three fields of `o` (missing ones `undefined`); an object with only those three keys comes back whole |
| FilmeModel.ValidoArmazenavel | models/Filme.js:3-7 | a movie that passes validation, once built and converted, has exactly the three fields, filled name and genre, and a numeric year of at least 1800 |
| ComentarioModel.Erros | models/Comentario.js:12-36 | the film-id error iff `filmeId` is missing or not a string; the author and text errors iff the field is not a string that is non-blank after trimming; the length error iff the untrimmed text is longer than 1000; the rating error iff the rating is given (not `undefined`, `null` or `''`) and is not a number in [0, 10], a string being read with `parseFloat`; errors come in check order, at most 5; empty iff the comment is valid |
| ComentarioModel.ErrosDeFatos | models/Comentario.js:13-36 | each error is pushed exactly when its check fails, in check order, at most five |
| ComentarioModel.FiltraMembros | models/Comentario.js:13-36 | selecting the failing checks from a list keeps exactly those checks |
| ComentarioModel.FiltraEmOrdem | models/Comentario.js:13-36 | selecting from a list in check order keeps check order |
| ComentarioModel.ErrosDeFiltra | models/Comentario.js:13-36 | the five conditional pushes equal the failing checks selected from the list of all checks |
| ComentarioModel.Validate | models/Comentario.js:12-42 | `isValid` iff `errors` is empty iff the comment is valid; `errors` are the messages of `Erros`, in order |
| ComentarioModel.EmpilhaMensagens | models/Comentario.js:13-36 | the five conditional pushes produce exactly the messages of the failing checks, in order |
| ComentarioModel.MensagensConcat | models/Comentario.js:13-36 | the messages of two error lists joined are the two message lists joined |
| ComentarioModel.MilCaracteresCabem | models/Comentario.js:27-29 | a text of exactly 1000 characters is not too long |
| ComentarioModel.EspacosEmBrancoEDemais | models/Comentario.js:23-29 | a text of 1001 spaces gets both the missing-text error and the too-long error |
| ComentarioModel.Novo | models/Comentario.js:3-9 | the constructor keeps its first three arguments, turns an omitted rating into 0 and stamps the creation date with the clock |
| ComentarioModel.ToJSON | models/Comentario.js:45-53 | exactly the five keys, with `dataCriacao` a date holding the instance's stamp |
| ComentarioModel.FromObjectCampos | models/Comentario.js:56-67 | `fromObject` keeps `filmeId`, `autor` and `texto`; it turns a falsy rating into 0; it keeps a supplied date and otherwise the fresh stamp |
| ComentarioModel.FromObjectToJSON | models/Comentario.js:45-67 | `fromObject(c.toJSON())` gives `c` back iff the rating is truthy or exactly 0 |
| Js.FilledStringTrim | models/Filme.js:13 | the "filled string" test is exactly the negation of `!v \|\| typeof v !== 'string' \|\| v.trim() === ''` |
| Text.Trim | models/Comentario.js:19-25 | `trim` cuts off the white space at both ends: the result is a contiguous piece of its input with only white space before and after it and none at either of its own ends, empty iff the input is all white space |
| Text.ContainsIff | controllers/filmeController.js:123 | `includes` holds iff the term occurs at some position |
| Colecao.Listar | controllers/filmeController.js:63 | `find(filter).toArray()` lists each matching document exactly once, under its own id, and nothing else; its length is the number of matches |
| Colecao.PermutacaoPreserva | controllers/comentarioController.js:80-83 | reordering a query result keeps its ids, its documents and the distinctness of its ids |
| Sorting.SortPermutation | controllers/comentarioController.js:82 | sorting keeps the elements with their multiplicities |
| Sorting.SortSorted | public/app.js:246-257 | with a total, transitive order the result is sorted |
| Sorting.SortKeepsOrderWhenAllTie | public/app.js:254-255 | a comparator that always answers 0 keeps the order |
| FilmeController.Filmes.CriarFilme | controllers/filmeController.js:7-56 | invalid data answers `'Erro ao criar filme: Dados inválidos: '` plus the messages joined with `', '` and leaves the store as it was; valid data inserts exactly one record, the three fields as given (untrimmed), under the fresh id, and answers with that id and record; the store invariant is kept |
| FilmeController.Filmes.BuscarTodosFilmes | controllers/filmeController.js:58-79 | every stored movie exactly once, and the count in the message |
| FilmeController.Filmes.BuscarFilmePorId | controllers/filmeController.js:81-116 | a malformed id answers `'Erro ao buscar filme: ID inválido'`; an absent one `'Filme não encontrado'`; otherwise the stored document; success iff the id is well formed and present; the store is not modified |
| FilmeController.Filmes.BuscarFilmesPorGenero | controllers/filmeController.js:118-139 | exactly the movies whose genre contains the term, ignoring case, each once, and the count and term in the message |
| FilmeController.Filmes.AtualizarFilme | controllers/filmeController.js:141-213 | checks validation, then id format, then existence, each failure leaving the store as it was; on success only the target changes, its three fields `$set` to the new values, and success is reported even when nothing differs |
| FilmeController.Filmes.DeletarFilme | controllers/filmeController.js:215-260 | a malformed or absent id fails and changes nothing; otherwise exactly the target is removed and its prior state returned |
| FilmeController.Filmes.DeletarTodosFilmes | controllers/filmeController.js:262-285 | the collection is empty and `deletedCount` is its previous size |
| FilmeController.SetSobreArmazenavel | controllers/filmeController.js:181-184 | `$set` of a freshly built movie over a stored one leaves exactly the new three fields |
| FilmeController.CriarEntaoBuscar | controllers/filmeController.js:7-116 | a movie just created is found under its new id with the fields sent |
| FilmeController.DeletarEntaoBuscar | controllers/filmeController.js:81-260 | after deleting a movie, looking it up answers `'Filme não encontrado'`, and no other movie changed |
| ComentarioController.AvaliacaoInicial | controllers/comentarioController.js:43 | a falsy rating is stored as 0, a number as itself, a string through `parseFloat` |
| ComentarioController.Construido | controllers/comentarioController.js:39-44 | the comment built has trimmed author and text, the given `filmeId`, the parsed rating and the current time |
| ComentarioController.TextoAtualizado | controllers/comentarioController.js:162 | the new text replaces the stored one only when it is a string that is non-blank after trimming, and then trimmed; `undefined`/`null` keep the stored text; any other type throws |
| ComentarioController.AvaliacaoAtualizada | controllers/comentarioController.js:163 | the rating is replaced, through `parseFloat`, exactly when one is given (`!== undefined`) |
| ComentarioController.MaisRecenteAntesOrdena | controllers/comentarioController.js:82 | newest-first by creation date is a total, transitive order |
| ComentarioController.Comentarios.CriarComentario | controllers/comentarioController.js:16-65 | invalid data answers `'Dados inválidos: '` plus the joined messages; then a malformed `filmeId` answers `'ID do filme inválido'`; neither touches the store; otherwise exactly one comment is inserted under the fresh id, with trimmed author and text, the parsed rating (0 when falsy) and the current time |
| ComentarioController.Comentarios.BuscarComentariosPorFilme | controllers/comentarioController.js:68-99 | a malformed id fails; otherwise exactly the comments on that movie, each once, newest first, with their count in the message |
| ComentarioController.Comentarios.BuscarComentarioPorId | controllers/comentarioController.js:102-137 | `'ID inválido'`, `'Comentário não encontrado'` or the stored comment; success iff well formed and present |
| ComentarioController.Comentarios.AtualizarComentario | controllers/comentarioController.js:140-189 | a malformed or absent id fails and changes nothing; a text of another type throws and changes nothing; otherwise only the target changes, getting text, rating and edit date `$set` as above while `filmeId`, `autor` and `dataCriacao` stay; nothing is validated, so an over-long text or an out-of-range rating is stored |
| ComentarioController.Comentarios.DeletarComentario | controllers/comentarioController.js:192-232 | a malformed or absent id fails and changes nothing; otherwise exactly the target is removed and its prior state returned |
| ComentarioController.Comentarios.DeletarComentariosDoFilme | controllers/comentarioController.js:235-264 | removes every comment on the movie and no other, and reports how many |
| ComentarioController.Comentarios.ObterEstatisticasFilme | controllers/comentarioController.js:267-297 | `totalComentarios` is the number of comments on the movie, 0 when there are none |
| ComentarioController.DeletarDoFilmeEntaoContar | controllers/comentarioController.js:235-297 | after deleting a movie's comments none is left, all others remain, and the count is 0 |
| ComentarioController.AvaliacaoVerdadeiraViraNaN | controllers/comentarioController.js:19-43 | a comment with rating `true` passes validation and is stored with a NaN rating, outside [0, 10] |
| ComentarioController.AvaliacaoPretendida | models/Comentario.js:31-33 | the number the validator compared, 0 when no rating was given |
| ComentarioController.AvaliacaoPretendidaNoIntervalo | models/Comentario.js:31-36 | with that rating, every valid comment is stored with a rating in [0, 10] |
| ComentarioController.AvaliacaoPretendidaConcorda | controllers/comentarioController.js:43 | it agrees with the rating as written on every accepted string, number or absent value |
| App.ValidarFormulario | public/app.js:83-122 | on what the form's first lines read (`Ler`: name and genre trimmed, the numbers parsed), accepts iff the trimmed name and genre have at least 2 characters, the year is non-zero and in [1800, year + 5], the duration is in [0, 600] and the rating in [0, 10] (a value that does not parse passes the last two); otherwise reports the first failing check in that order, and only it |
| App.FormularioAceitoServidorAceita | public/app.js:312-336 | whatever the form lets through, the server's movie validator accepts in the same year |
| App.LeituraAceitaServidorAceita | public/app.js:312-336 | for any read-off values passing the form's checks whose name and genre do not start with white space, the body built from them passes the server's movie validator |
| App.SelecionaFatos | public/app.js:228-243 | `filter` keeps every passing entry as often as it occurs and nothing else |
| App.FiltrarFatos | public/app.js:225-243 | the grid holds exactly the movies that pass the genre filter (unless 'all') and the search (unless empty), each as often as in `filmes` |
| App.OrdenarPermutacao | public/app.js:246-257 | the sorted grid is a permutation of the filtered list |
| App.OrdenarPorAno | public/app.js:251-252 | 'ano' orders by release year, newest first |
| App.OrdenarPorAvaliacao | public/app.js:253-254 | 'avaliacao' orders by rating, highest first, a missing rating counting as 0 |
| App.OrdenarPorNome | public/app.js:249-250 | 'nome' orders by the locale order of the names, when that order is total and transitive |
| App.OrdenarOutraChave | public/app.js:255-256 | any other key keeps the filtered order |
| App.Visiveis | public/app.js:224-257 | the shown list is a sub-multiset of `filmes` holding exactly the passing movies |
| App.Estado.FilmesVisiveis | public/app.js:224-257 | the same, for the page's current filter, sort key and list |
| App.CarregarFilmesLocal | public/app.js:166-178 | the cached text exactly when both entries are present and non-empty, the stamp parses, and less than 300000 ms (five minutes) have passed since it; nothing otherwise |
| App.CacheSalvoFresco | public/app.js:157-172 | a list saved at time t is read back exactly while less than 300000 ms have passed |
| App.EstrelasSomamDez | public/app.js:759-762 | for a rating in [0, 10]: floor(rating) full stars, a half star iff the fraction is at least 0.5, and ten stars in all |
| App.GerarEstrelas | public/app.js:759-775 | the full stars, the half star if any, then the empty stars, each loop running its count (none when it is below one) |
| App.TextoPlaceholder | public/app.js:635 | the first 20 characters of the name with `<` and `>` removed, in order: at most 20 characters, no `<` or `>`, every other character of the first 20 kept as often as it occurs; a short name without brackets is unchanged |
| App.SemAngulosConta | public/app.js:635 | removing `<` and `>` keeps every other character as often as it occurs |
| App.SemAngulosConcat | public/app.js:635 | removing `<` and `>` from a concatenation removes them from each part in turn, so the remaining characters keep their order |
| App.ImportarFilmes | public/app.js:571-607 | no file does nothing; an unreadable or non-list file sends nothing and shows its toast; otherwise one POST per entry in file order, successes + failures = entries, and the toast reports both |
| App.TodosSucessos | public/app.js:588-597 | when every request succeeds, all entries count as successes |
| App.CorDoContador | public/app.js:955-961 | warning iff length > 900, muted iff length <= 900 |
| App.CorDoContadorNuncaPerigo | public/app.js:955-961 | the danger colour is never chosen |
| App.CorDoContadorCorrigida | public/app.js:955-961 | danger iff length >= 1000, warning iff 900 < length < 1000, muted otherwise |
| App.CorDoContadorDiverge | public/app.js:955-961 | as written and corrected agree below 1000 and differ at every length from 1000 on |
| App.Estado.SetFilter | public/app.js:483-498 | only the filter changes |
| App.Estado.SetSort | public/app.js:501-512 | only the sort key changes |
| App.Estado.CarregarFilmes | public/app.js:125-154 | a non-empty cached list is shown first; a successful answer replaces it (`data \|\| []`) and is saved to the cache; a refused or failed request keeps what is shown |
| Numbers.ParseIntIntToString | public/app.js:160-172 | `parseInt(String(n))` is `n` for every integer: the cache stamp reads back as written |

## Left out

- Database, HTTP and process: connecting, routing and status codes, the command-line interface and the demo script. `config/database.js`, `server.js`, the route files, `interface.js`, `crud-demo.js` and `index.js` are not part of this model.
- The catch branches for database or connection errors (`'Erro ao ... : ' + error.message`) are not modelled. The two thrown errors the code itself raises are modelled: the validation and id errors of the movie controller, and the `trim` TypeError in the comment update.
- The `matchedCount === 0` and `deletedCount === 0` branches are not modelled. Without concurrent writers they cannot be reached after the existence check, and concurrency is not modelled.
- Ids are the strings the caller passes. `new ObjectId(id)` would make two spellings of the same id (upper and lower case hex) find the same document; the model treats them as different keys.
- Pagination: the controller takes no options, so there is none to model.
- FilmeController.Filmes.BuscarFilmesPorGenero: the `$regex` match is modelled as a case-insensitive substring, which is what it is for terms without regular-expression metacharacters.
- ComentarioController.Comentarios.ObterEstatisticasFilme: only `totalComentarios` is modelled; the floating-point average and its `toFixed(1)` text are left out.
- Numbers are exact reals, with no rounding, -0 or infinities.
- `parseInt`/`parseFloat` read decimal digits only: no exponent, `Infinity` or `0x`.
- ComentarioModel.Erros: arrays and other objects are one opaque value with no length and no numeric value. A truthy `texto` that is not a string but has `length > 1000` (an array of more than 1000 entries in a JSON body) also gets 'Comentário deve ter no máximo 1000 caracteres' in JavaScript; the model pushes only the missing-text error for it. A one-element array rating such as `[5]` passes `isNaN` and the range test in JavaScript (it converts to 5); the model reads it as NaN and reports the rating error. For the same reason `parseFloat([5])` reads as NaN where JavaScript gives 5.
- Lengths and `substring` count Dafny characters (code points); JavaScript counts UTF-16 code units, which differs for characters outside the Basic Multilingual Plane.
- `toLowerCase` is modelled for the Basic Latin and Latin-1 letters only.
- The wording of the V8 TypeError in `atualizarComentario` is an assumed constant.
- `new Date(string)` parsing is a parameter (`parseDate`), and so are the clock and the current year.
- App.Filtrar: a movie whose `nome` or `genero` is not a string, or whose `diretor` or `sinopse` is truthy but not a string, makes the browser's filter throw (`toLowerCase` is not a function); the model reads such a field as not matching. Stored movies always have `nome` and `genero` as strings (`FilmeModel.ValidoArmazenavel`), and the movie controller stores no `diretor` or `sinopse`.
- App.Ordenar: under 'ano' and 'avaliacao' the browser's comparator subtracts with `-`, which turns a numeric string or a boolean into a number (`"2000"` is 2000, `true` is 1) and anything else into NaN, which `sort` treats as a tie; the model reads every value that is not a number as 0, so it can order such movies differently. Stored years are always numbers (`FilmeModel.ValidoArmazenavel`).
- App.Ordenar: under 'nome', a movie whose `nome` is not a string makes `a.nome.localeCompare` throw; the model compares it as the empty string. The name order itself (`localeCompare`) is an uninterpreted parameter.
- App.CarregarFilmesLocal: `JSON.parse` of the cached text is not modelled; the function returns the text.
- App.ImportarFilmes: the POST outcomes are a parameter, and the reload after the loop is not modelled.
- App.ValidarFormulario: the director, synopsis and poster fields are not checked by the form and are not modelled.
- The rest of the browser script is not modelled: DOM updates, HTML templates, `escapeHtml`, `encodeURIComponent`, toasts, the 300 ms search debounce, `calcularEstatisticas`, editing, details and the comment panel.

## Findings

| source | as written | input that shows it | evidently intended | confidence | as-written member | corrected member |
|---|---|---|---|---|---|---|
| public/app.js:955-961 | the `length > 900` test comes before `length >= 1000`, so the danger branch can never be taken | a text of 1000 characters gets the warning colour | danger from 1000 characters on, warning from 901 to 999 | high, not executed | App.CorDoContadorNuncaPerigo | App.CorDoContadorCorrigida |
| controllers/comentarioController.js:43 | the validator accepts the rating `true` (it compares as 1), but `parseFloat(true)` is NaN, so that rating is stored | `{ filmeId: 'x', autor: 'a', texto: 't', avaliacao: true }` | store the number the validator checked, so that every stored rating is in [0, 10] | medium, not executed | ComentarioController.AvaliacaoVerdadeiraViraNaN | ComentarioController.AvaliacaoPretendida |

In both cases the model of the operation keeps the behaviour as written: the counter colour in the browser script, the stored rating in the comment controller. The corrected definitions are stated and proved beside them: `App.CorDoContadorDiverge` relates the two counter colours, and `ComentarioController.AvaliacaoPretendidaNoIntervalo` proves the intended rating stays in range.
