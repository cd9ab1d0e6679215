/** What both controllers share: the `{ success, message, data }` envelope
    they return and the `find(filter).toArray()` read of a collection. A
    collection is a map from document id to document; the order in which
    the database hands documents back is not fixed, so the read walks the
    ids in an unspecified order. */
module Colecao {
  import opened Js

  /** The `data` part of a successful answer. */
  datatype Dados =
    | Registro(id: string, registro: Obj)   // `{ id, filme }` / `{ id, comentario }`
    | Documento(id: string, doc: Obj)       // one stored document, `_id` included
    | Lista(itens: seq<(string, Obj)>)      // the documents of a query
    | Atualizado(id: string, campos: Obj)   // `{ id, ...updateData }`
    | Removidos(deletedCount: nat)
    | Estatisticas(totalComentarios: nat)

  /** `{ success, message, data }`; `data: null` is `None`. */
  datatype Resposta = Resposta(success: bool, message: string, data: Option<Dados>)

  function Falha(message: string): (r: Resposta)
    ensures !r.success && r.data.None?
  {
    Resposta(false, message, None)
  }

  /** The ids of the documents a filter matches. */
  function Chaves(docs: map<string, Obj>, keep: Obj -> bool): (ks: set<string>)
    ensures ks <= docs.Keys
    ensures forall id :: id in ks <==> id in docs && keep(docs[id])
  {
    set id | id in docs && keep(docs[id])
  }

  function Ids(itens: seq<(string, Obj)>): (r: seq<string>)
    ensures |r| == |itens|
    ensures forall i :: 0 <= i < |itens| ==> r[i] == itens[i].0
  {
    if itens == [] then [] else Ids(itens[..|itens| - 1]) + [itens[|itens| - 1].0]
  }

  /** Every entry is a stored document under its own id. */
  predicate Armazenados(itens: seq<(string, Obj)>, docs: map<string, Obj>) {
    forall i :: 0 <= i < |itens| ==> itens[i].0 in docs && itens[i].1 == docs[itens[i].0]
  }

  /** No id is listed twice. */
  predicate Distintos(itens: seq<(string, Obj)>) {
    forall i, j :: 0 <= i < j < |itens| ==> itens[i].0 != itens[j].0
  }

  lemma IdsAppend(itens: seq<(string, Obj)>, p: (string, Obj))
    ensures Ids(itens + [p]) == Ids(itens) + [p.0]
  {
    assert (itens + [p])[..|itens|] == itens;
  }

  /** One more document listed: still distinct ids, one more of them. */
  lemma Acrescenta(itens: seq<(string, Obj)>, p: (string, Obj), vistos: set<string>)
    requires Distintos(itens) && p.0 !in vistos
    requires forall id :: id in Ids(itens) <==> id in vistos
    ensures Distintos(itens + [p])
    ensures forall id :: id in Ids(itens + [p]) <==> id in vistos + {p.0}
  {
    IdsAppend(itens, p);
    forall i | 0 <= i < |itens| ensures itens[i].0 != p.0 {
      assert Ids(itens)[i] == itens[i].0;
    }
  }

  /** `collection.find(filter).toArray()`: each matching document exactly
      once, under its id, in no particular order. */
  method Listar(docs: map<string, Obj>, keep: Obj -> bool) returns (itens: seq<(string, Obj)>)
    ensures forall id :: id in Ids(itens) <==> id in docs && keep(docs[id])
    ensures Distintos(itens) && Armazenados(itens, docs)
    ensures |itens| == |Chaves(docs, keep)|
  {
    itens := [];
    var resto := docs.Keys;
    ghost var vistos: set<string> := {};
    while resto != {}
      invariant resto <= docs.Keys
      invariant forall id :: id in vistos <==> id in docs && keep(docs[id]) && id !in resto
      invariant forall id :: id in Ids(itens) <==> id in vistos
      invariant Distintos(itens) && Armazenados(itens, docs)
      invariant |itens| == |vistos|
      decreases resto
    {
      var id :| id in resto;
      assert id !in vistos;
      if keep(docs[id]) {
        Acrescenta(itens, (id, docs[id]), vistos);
        itens := itens + [(id, docs[id])];
        vistos := vistos + {id};
      }
      resto := resto - {id};
    }
    assert vistos == Chaves(docs, keep);
  }

  /** A list with distinct ids holds each entry once. */
  lemma {:induction false} DistintosUmaVez(itens: seq<(string, Obj)>, x: (string, Obj))
    requires Distintos(itens)
    ensures multiset(itens)[x] <= 1
    decreases |itens|
  {
    if itens != [] {
      var init, last := itens[..|itens| - 1], itens[|itens| - 1];
      assert itens == init + [last];
      assert Distintos(init) by {
        forall i, j | 0 <= i < j < |init| ensures init[i].0 != init[j].0 {
          assert init[i] == itens[i] && init[j] == itens[j];
        }
      }
      DistintosUmaVez(init, x);
      if x == last {
        forall i | 0 <= i < |init| ensures init[i] != x {
          assert init[i] == itens[i];
        }
        assert x !in init;
      }
    }
  }

  /** An entry found at two positions is there at least twice. */
  lemma DuasVezes(itens: seq<(string, Obj)>, i: nat, j: nat)
    requires i < j < |itens| && itens[i] == itens[j]
    ensures multiset(itens)[itens[i]] >= 2
  {
    var x := itens[i];
    assert itens == itens[..i] + [x] + itens[i + 1..j] + [x] + itens[j + 1..];
  }

  /** Reordering a query's result keeps its documents, their ids and the
      fact that no id repeats. */
  lemma PermutacaoPreserva(a: seq<(string, Obj)>, b: seq<(string, Obj)>, docs: map<string, Obj>)
    requires multiset(a) == multiset(b)
    requires Distintos(a) && Armazenados(a, docs)
    ensures Distintos(b) && Armazenados(b, docs) && |b| == |a|
    ensures forall id :: id in Ids(b) <==> id in Ids(a)
  {
    assert |b| == |multiset(b)| == |multiset(a)| == |a|;
    forall k | 0 <= k < |b| ensures b[k] in a {
      assert b[k] in multiset(b);
    }
    forall k | 0 <= k < |a| ensures a[k] in b {
      assert a[k] in multiset(a);
    }
    forall i, j | 0 <= i < j < |b| ensures b[i].0 != b[j].0 {
      var p :| 0 <= p < |a| && a[p] == b[i];
      var q :| 0 <= q < |a| && a[q] == b[j];
      if b[i] == b[j] {
        DuasVezes(b, i, j);
        DistintosUmaVez(a, b[i]);
      }
    }
    forall id ensures id in Ids(b) <==> id in Ids(a) {
      if id in Ids(b) {
        var k :| 0 <= k < |b| && Ids(b)[k] == id;
        var p :| 0 <= p < |a| && a[p] == b[k];
        assert Ids(a)[p] == id;
      }
      if id in Ids(a) {
        var k :| 0 <= k < |a| && Ids(a)[k] == id;
        var p :| 0 <= p < |b| && b[p] == a[k];
        assert Ids(b)[p] == id;
      }
    }
  }
}
